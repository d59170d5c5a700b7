/** The event details form (`components/EventDataEditor.tsx`): one control
    per field, each showing the field's current value, and a change handler
    that replaces the field the control names. */
module EventDataEditor {
  import opened Types

  /** The seven controls, in the order the form shows them. */
  datatype Control = TitleInput | DescriptionInput | DateInput | TimeInput | LocationInput
                   | HostNameInput | ToneSelect

  const Controls: seq<Control> :=
    [TitleInput, DescriptionInput, DateInput, TimeInput, LocationInput, HostNameInput, ToneSelect]

  /** The `name` attribute of each control, which is the field it edits. */
  function ControlName(c: Control): string {
    match c
    case TitleInput => "title"
    case DescriptionInput => "description"
    case DateInput => "date"
    case TimeInput => "time"
    case LocationInput => "location"
    case HostNameInput => "hostName"
    case ToneSelect => "tone"
  }

  /** The value a control displays: the current value of its field. */
  function Shown(d: EventData, c: Control): string {
    match c
    case TitleInput => d.title
    case DescriptionInput => d.description
    case DateInput => d.date
    case TimeInput => d.time
    case LocationInput => d.location
    case HostNameInput => d.hostName
    case ToneSelect => d.tone
  }

  /** `handleChange`: `{ ...data, [name]: value }`. */
  function HandleChange(d: EventData, c: Control, value: string): (r: EventData)
    ensures Shown(r, c) == value
    ensures forall c' :: c' != c ==> Shown(r, c') == Shown(d, c')
  {
    match c
    case TitleInput => d.(title := value)
    case DescriptionInput => d.(description := value)
    case DateInput => d.(date := value)
    case TimeInput => d.(time := value)
    case LocationInput => d.(location := value)
    case HostNameInput => d.(hostName := value)
    case ToneSelect => d.(tone := value)
  }

  /** Every control is on the form, each under its own name. */
  lemma ControlsListed()
    ensures forall c: Control :: c in Controls
    ensures forall i, j :: 0 <= i < j < |Controls| ==> ControlName(Controls[i]) != ControlName(Controls[j])
  {
    forall c: Control ensures c in Controls {
      match c
      case TitleInput => assert Controls[0] == c;
      case DescriptionInput => assert Controls[1] == c;
      case DateInput => assert Controls[2] == c;
      case TimeInput => assert Controls[3] == c;
      case LocationInput => assert Controls[4] == c;
      case HostNameInput => assert Controls[5] == c;
      case ToneSelect => assert Controls[6] == c;
    }
  }

  /** The controls cover the whole record: two records showing the same
      value in every control are equal. */
  lemma ControlsCoverRecord(a: EventData, b: EventData)
    requires forall c :: Shown(a, c) == Shown(b, c)
    ensures a == b
  {
    assert Shown(a, TitleInput) == Shown(b, TitleInput) && Shown(a, DescriptionInput) == Shown(b, DescriptionInput);
    assert Shown(a, DateInput) == Shown(b, DateInput) && Shown(a, TimeInput) == Shown(b, TimeInput);
    assert Shown(a, LocationInput) == Shown(b, LocationInput) && Shown(a, HostNameInput) == Shown(b, HostNameInput);
    assert Shown(a, ToneSelect) == Shown(b, ToneSelect);
  }

  /** A change followed by a change of the same control keeps only the
      second; changing a control to the value it shows changes nothing. */
  lemma ChangeLaws(d: EventData, c: Control, v1: string, v2: string)
    ensures HandleChange(HandleChange(d, c, v1), c, v2) == HandleChange(d, c, v2)
    ensures HandleChange(d, c, Shown(d, c)) == d
  {
  }

  /** The options of the tone select. */
  const ToneOptions: seq<string> := ["formal", "casual", "playful", "tech"]

  /** The tone options are exactly the four tones, in order. */
  lemma ToneOptionsAreTones()
    ensures |ToneOptions| == |AllTones|
    ensures forall i :: 0 <= i < |ToneOptions| ==> ToneOptions[i] == ToneName(AllTones[i])
  {
  }
}

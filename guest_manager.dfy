/** The guest list editor (`components/GuestManager.tsx`). Adding, removing
    and the simulated upload build new lists; the export loop marks every
    guest object as generated in place. Random ids are inputs. */
module GuestManager {
  import opened Basics
  import opened Types
  import opened JsStrings

  /** The state the add handler leaves behind: the list handed to the
      parent, the guest handed to the preview (if any) and the input box. */
  datatype AddOutcome = AddOutcome(guests: seq<Guest>, preview: Option<Guest>, input: string)

  /** `handleAddGuest`: a blank name does nothing; otherwise a pending guest
      with the name exactly as typed and an empty email is appended,
      becomes the previewed guest, and the input is cleared. */
  function AddGuest(guests: seq<Guest>, input: string, id: string): (r: AddOutcome)
    ensures AllWhitespace(input) ==> r == AddOutcome(guests, None, input)
    ensures !AllWhitespace(input) ==>
              && |r.guests| == |guests| + 1 && r.guests[..|guests|] == guests
              && r.guests[|guests|] == Guest(id, input, "", Pending)
              && r.preview == Some(r.guests[|guests|]) && r.input == ""
  {
    TrimEmptyIff(input);
    if Trim(input) == "" then AddOutcome(guests, None, input)
    else
      var g := Guest(id, input, "", Pending);
      AddOutcome(guests + [g], Some(g), "")
  }

  /** `handleRemoveGuest`: `guests.filter(g => g.id !== id)`. */
  function RemoveGuest(guests: seq<Guest>, id: string): (r: seq<Guest>)
    ensures |r| <= |guests|
    ensures forall i :: 0 <= i < |r| ==> r[i].id != id && r[i] in guests
  {
    if guests == [] then []
    else if guests[0].id == id then RemoveGuest(guests[1..], id)
    else [guests[0]] + RemoveGuest(guests[1..], id)
  }

  /** Removal works guest by guest: on a concatenation it removes from each
      part, so the kept guests stay in their order. */
  lemma {:induction false} RemoveConcat(a: seq<Guest>, b: seq<Guest>, id: string)
    ensures RemoveGuest(a + b, id) == RemoveGuest(a, id) + RemoveGuest(b, id)
  {
    if a == [] {
      assert a + b == b;
    } else {
      assert (a + b)[0] == a[0] && (a + b)[1..] == a[1..] + b;
      RemoveConcat(a[1..], b, id);
    }
  }

  /** A single guest is dropped exactly when it has the id. */
  lemma RemoveOne(g: Guest, id: string)
    ensures RemoveGuest([g], id) == if g.id == id then [] else [g]
  {
    assert [g][1..] == [];
  }

  /** An id no guest has leaves the list as it was. */
  lemma {:induction false} RemoveAbsent(guests: seq<Guest>, id: string)
    requires forall i :: 0 <= i < |guests| ==> guests[i].id != id
    ensures RemoveGuest(guests, id) == guests
  {
    if guests != [] {
      RemoveAbsent(guests[1..], id);
      assert guests == [guests[0]] + guests[1..];
    }
  }

  /** Removing twice is removing once. */
  lemma RemoveIdempotent(guests: seq<Guest>, id: string)
    ensures RemoveGuest(RemoveGuest(guests, id), id) == RemoveGuest(guests, id)
  {
    RemoveAbsent(RemoveGuest(guests, id), id);
  }

  /** Every guest with another id is kept. */
  lemma {:induction false} RemoveKeepsOthers(guests: seq<Guest>, id: string, g: Guest)
    requires g in guests && g.id != id
    ensures g in RemoveGuest(guests, id)
  {
    if guests[0] != g {
      RemoveKeepsOthers(guests[1..], id, g);
    }
  }

  /** The names the simulated upload adds. */
  const MockNames: seq<string> := ["Alice Freeman", "Bob Smith", "Charlie Kim", "Diana Prince", "Evan Wright"]

  /** `handleFileUpload`: with a file, five pending guests with the mock
      names are appended whatever the file holds; without one nothing
      changes. `idFor(i)` is the random id of the i-th new guest. */
  function Upload(guests: seq<Guest>, hasFile: bool, idFor: nat -> string): (r: seq<Guest>)
    ensures !hasFile ==> r == guests
    ensures hasFile ==> |r| == |guests| + 5 && r[..|guests|] == guests
                        && forall i :: 0 <= i < 5 ==> r[|guests| + i] == Guest(idFor(i), MockNames[i], "", Pending)
  {
    if !hasFile then guests
    else guests + seq(5, i requires 0 <= i < 5 => Guest(idFor(i), MockNames[i], "", Pending))
  }

  /** The list after the export: every guest's status "generated". */
  function MarkGenerated(guests: seq<Guest>): (r: seq<Guest>)
    ensures |r| == |guests|
    ensures forall i :: 0 <= i < |r| ==> r[i] == guests[i].(status := Generated)
  {
    if guests == [] then [] else [guests[0].(status := Generated)] + MarkGenerated(guests[1..])
  }

  /** After the export every guest is generated and nothing else about the
      list changed; exporting again changes nothing. */
  lemma ExportSettles(guests: seq<Guest>)
    ensures forall i :: 0 <= i < |guests| ==>
              MarkGenerated(guests)[i].status == Generated
              && MarkGenerated(guests)[i].(status := guests[i].status) == guests[i]
    ensures MarkGenerated(MarkGenerated(guests)) == MarkGenerated(guests)
  {
  }

  /** `handleExport`: the loop over the list marks each shared guest object
      as generated, in place. */
  method Export(guests: array<Guest>)
    modifies guests
    ensures guests[..] == MarkGenerated(old(guests[..]))
  {
    for i := 0 to guests.Length
      invariant guests[..i] == MarkGenerated(old(guests[..]))[..i]
      invariant guests[i..] == old(guests[i..])
    {
      guests[i] := guests[i].(status := Generated);
    }
  }
}

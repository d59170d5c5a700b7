/** The project editor (`components/Workspace.tsx`): the
    ANALYZE → STYLE → BATCH step machine, the preview guest, the save
    outcome handling and the download file name. Network replies are
    inputs; alerts and navigation are returned as effects. */
module Workspace {
  import opened Basics
  import opened Types

  /** What the left panel shows. */
  datatype Panel = EventEditor | EventInput | Selector | GuestList | NoPanel

  /** What the save handler does besides changing state. */
  datatype SaveEffect = Alert(message: string) | BackToDashboard

  /** How the save request ended: a reply with its status, `error` and
      `guestCountCapped` fields, or a thrown fetch. */
  datatype SaveReply = Replied(status: nat, error: string, guestCountCapped: bool) | FetchFailed(message: string)

  /** The body the save handler posts. */
  datatype SaveRequest = SaveRequest(eventData: EventData, guests: seq<Guest>, templateId: TemplateId,
                                     customization: Customization)

  const CappedAlert: string := "Free plan limit reached: Only the first 50 guests were saved."

  /** The guest shown when none is chosen and the list is empty. */
  const DemoGuest: Guest := Guest("demo", "Alex Johnson", "", Pending)

  /** `activePreviewGuest`: the chosen guest, else the first guest, else the
      demo guest. */
  function ActivePreviewGuest(previewGuest: Option<Guest>, guests: seq<Guest>): (g: Guest)
    ensures previewGuest.Some? ==> g == previewGuest.value
    ensures previewGuest.None? && guests != [] ==> g == guests[0]
    ensures previewGuest.None? && guests == [] ==> g == DemoGuest
    ensures g == DemoGuest || g in guests || Some(g) == previewGuest
  {
    if previewGuest.Some? then previewGuest.value
    else if |guests| > 0 then guests[0]
    else DemoGuest
  }

  /** The name of a downloaded card: the guest's name, or "guest" when the
      name is empty, followed by "-invitation.png". */
  function DownloadFileName(g: Guest): (r: string)
    ensures |r| > 15 && r[|r| - 15..] == "-invitation.png"
    ensures g.name != "" ==> |r| == |g.name| + 15 && r[..|g.name|] == g.name
    ensures g.name == "" ==> r == "guest-invitation.png"
  {
    OrDefault(Some(g.name), "guest") + "-invitation.png"
  }

  /** What the save handler does once the request has ended: a 403 shows
      the error (and opens the upgrade dialog); any other failure shows the
      error; success navigates back, alerting first when guests were cut. */
  function SaveEffects(reply: SaveReply): (e: seq<SaveEffect>)
    ensures BackToDashboard in e <==> reply.Replied? && 200 <= reply.status < 300
    ensures reply.Replied? && !(200 <= reply.status < 300) ==> e == [Alert(reply.error)]
    ensures reply.FetchFailed? ==> e == [Alert(reply.message)]
    ensures reply.Replied? && 200 <= reply.status < 300 ==>
              e == (if reply.guestCountCapped then [Alert(CappedAlert)] else []) + [BackToDashboard]
  {
    match reply
    case FetchFailed(m) => [Alert(m)]
    case Replied(status, error, capped) =>
      if status == 403 || !(200 <= status < 300) then [Alert(error)]
      else if capped then [Alert(CappedAlert), BackToDashboard]
      else [BackToDashboard]
  }

  /** Navigation, when it happens, is the last effect: every alert comes
      before it, and it happens at most once. */
  lemma SaveNavigatesLast(reply: SaveReply)
    ensures var e := SaveEffects(reply);
            forall i :: 0 <= i < |e| && e[i] == BackToDashboard ==> i == |e| - 1
  {
  }

  class Editor {
    var step: AppStep
    var eventData: Option<EventData>
    var reviewing: bool
    var template: TemplateId
    var customization: Customization
    var guests: seq<Guest>
    var previewGuest: Option<Guest>
    var upgradeModalOpen: bool

    /** The initial state: ANALYZE, no data, not reviewing, the MINIMAL_POP
        template with the default/modern customization, no guests. */
    constructor ()
      ensures step == Analyze && eventData == None && !reviewing
      ensures template == MinimalPop && customization == DefaultCustomization
      ensures guests == [] && previewGuest == None && !upgradeModalOpen
    {
      step, eventData, reviewing := Analyze, None, false;
      template, customization := MinimalPop, DefaultCustomization;
      guests, previewGuest, upgradeModalOpen := [], None, false;
    }

    /** The left panel: at ANALYZE the editor exactly when reviewing with
        data, else the input; at STYLE the selector when there is data;
        at BATCH the guest list. */
    function LeftPanel(): (p: Panel)
      reads this
      ensures step == Analyze ==> (p == EventEditor <==> reviewing && eventData.Some?)
      ensures step == Analyze ==> p in {EventEditor, EventInput}
      ensures step == Style ==> (p == Selector <==> eventData.Some?) && p in {Selector, NoPanel}
      ensures step == Batch ==> p == GuestList
    {
      match step
      case Analyze => if reviewing && eventData.Some? then EventEditor else EventInput
      case Style => if eventData.Some? then Selector else NoPanel
      case Batch => GuestList
    }

    function Preview(): Guest
      reads this
    {
      ActivePreviewGuest(previewGuest, guests)
    }

    /** `handleDataParsed`: keeps the data and turns review on. */
    method DataParsed(data: EventData)
      modifies this
      ensures eventData == Some(data) && reviewing
      ensures step == old(step) && template == old(template) && customization == old(customization)
      ensures guests == old(guests) && previewGuest == old(previewGuest)
      ensures upgradeModalOpen == old(upgradeModalOpen)
    {
      eventData := Some(data);
      reviewing := true;
    }

    /** The editor's change callback replaces the data. */
    method EditData(data: EventData)
      modifies this
      ensures eventData == Some(data)
      ensures step == old(step) && reviewing == old(reviewing) && template == old(template)
      ensures customization == old(customization) && guests == old(guests)
      ensures previewGuest == old(previewGuest) && upgradeModalOpen == old(upgradeModalOpen)
    {
      eventData := Some(data);
    }

    /** The editor's continue: review off, on to STYLE. */
    method ContinueToStyle()
      modifies this
      ensures step == Style && !reviewing && LeftPanel() != EventEditor
      ensures eventData == old(eventData) && template == old(template)
      ensures customization == old(customization) && guests == old(guests)
      ensures previewGuest == old(previewGuest) && upgradeModalOpen == old(upgradeModalOpen)
    {
      reviewing := false;
      step := Style;
    }

    /** A step change with nothing else: STYLE next (BATCH), STYLE back
        (ANALYZE), BATCH back (STYLE), and the Style and Batch tabs. */
    method GoTo(s: AppStep)
      modifies this
      ensures step == s
      ensures eventData == old(eventData) && reviewing == old(reviewing) && template == old(template)
      ensures customization == old(customization) && guests == old(guests)
      ensures previewGuest == old(previewGuest) && upgradeModalOpen == old(upgradeModalOpen)
    {
      step := s;
    }

    /** The Analyze tab: ANALYZE with review on, so the editor shows when
        there is data. */
    method AnalyzeTab()
      modifies this
      ensures step == Analyze && reviewing
      ensures LeftPanel() == EventEditor <==> eventData.Some?
      ensures eventData == old(eventData) && template == old(template)
      ensures customization == old(customization) && guests == old(guests)
      ensures previewGuest == old(previewGuest) && upgradeModalOpen == old(upgradeModalOpen)
    {
      step := Analyze;
      reviewing := true;
    }

    /** `handleSave`: with no data nothing is sent and nothing happens;
        otherwise the current data, guests, template and customization are
        posted, a 403 opens the upgrade dialog, and the effects follow
        `SaveEffects`. */
    method Save(reply: SaveReply) returns (sent: Option<SaveRequest>, effects: seq<SaveEffect>)
      modifies this
      ensures eventData.None? ==> sent == None && effects == [] && upgradeModalOpen == old(upgradeModalOpen)
      ensures eventData.Some? ==> sent == Some(SaveRequest(eventData.value, guests, template, customization))
                                  && effects == SaveEffects(reply)
                                  && upgradeModalOpen == (old(upgradeModalOpen)
                                                          || (reply.Replied? && reply.status == 403))
      ensures step == old(step) && eventData == old(eventData) && reviewing == old(reviewing)
      ensures template == old(template) && customization == old(customization)
      ensures guests == old(guests) && previewGuest == old(previewGuest)
    {
      if eventData.None? {
        return None, [];
      }
      sent := Some(SaveRequest(eventData.value, guests, template, customization));
      if reply.Replied? && reply.status == 403 {
        upgradeModalOpen := true;
      }
      effects := SaveEffects(reply);
    }
  }

  /** A refused save (403) never leaves the editor. */
  lemma RefusedSaveStays(error: string, capped: bool)
    ensures SaveEffects(Replied(403, error, capped)) == [Alert(error)]
    ensures BackToDashboard !in SaveEffects(Replied(403, error, capped))
  {
  }
}

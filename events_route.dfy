/** The events collection route (`app/api/events/route.ts`): the caller's
    event list, newest first, and event creation with the FREE-tier limits. */
module EventsRoute {
  import opened Basics
  import opened Types
  import opened JsStrings
  import opened Store

  const Unauthorized: string := "Unauthorized"
  const UserNotFound: string := "User not found"
  const LimitReached: string := "Free plan limit reached. Upgrade to Pro!"

  /** One item of the listing. */
  datatype Summary = Summary(id: Id, name: string, date: string, guestCount: nat, status: string)

  function Summarize(id: Id, e: EventRow): Summary {
    Summary(id, e.data.title, e.data.date, |e.guests|, e.status)
  }

  /** `list` is the caller's listing: exactly the events `uid` owns, each
      once, newest first, each summarised from its row. */
  ghost predicate Listing(events: map<Id, EventRow>, uid: Id, list: seq<Summary>) {
    (forall i :: 0 <= i < |list| ==>
       list[i].id in OwnedIds(events, uid) && list[i] == Summarize(list[i].id, events[list[i].id]))
    && (forall id :: id in OwnedIds(events, uid) ==> exists i :: 0 <= i < |list| && list[i].id == id)
    && (forall i, j :: 0 <= i < j < |list| ==> list[i].id != list[j].id)
    && (forall i, j :: 0 <= i < j < |list| ==>
          events[list[i].id].createdAt >= events[list[j].id].createdAt)
  }

  /** Every non-empty set of events has a newest member. */
  lemma {:induction false} NewestExists(events: map<Id, EventRow>, s: set<Id>)
    requires s != {} && s <= events.Keys
    ensures exists id :: id in s && forall y :: y in s ==> events[y].createdAt <= events[id].createdAt
  {
    var x :| x in s;
    if s != {x} {
      var s' := s - {x};
      NewestExists(events, s');
      var m :| m in s' && forall y :: y in s' ==> events[y].createdAt <= events[m].createdAt;
      if events[x].createdAt <= events[m].createdAt {
        assert forall y :: y in s ==> events[y].createdAt <= events[m].createdAt;
      } else {
        assert forall y :: y in s ==> events[y].createdAt <= events[x].createdAt;
      }
    } else {
      assert forall y :: y in s ==> events[y].createdAt <= events[x].createdAt;
    }
  }

  /** The loop state of the listing: `list` summarises the events of
      `owned` already taken out of `rest`, each once, newest first, and none
      of them is older than an event still in `rest`. */
  ghost predicate Partial(events: map<Id, EventRow>, owned: set<Id>, rest: set<Id>, list: seq<Summary>) {
    owned <= events.Keys && rest <= owned
    && (forall i :: 0 <= i < |list| ==>
          list[i].id in owned - rest && list[i] == Summarize(list[i].id, events[list[i].id]))
    && (forall id :: id in owned - rest ==> exists i :: 0 <= i < |list| && list[i].id == id)
    && (forall i, j :: 0 <= i < j < |list| ==> list[i].id != list[j].id)
    && (forall i, j :: 0 <= i < j < |list| ==>
          events[list[i].id].createdAt >= events[list[j].id].createdAt)
    && (forall i, y :: 0 <= i < |list| && y in rest ==> events[list[i].id].createdAt >= events[y].createdAt)
  }

  /** Taking the newest remaining event keeps the loop state. */
  lemma PartialStep(events: map<Id, EventRow>, owned: set<Id>, rest: set<Id>, list: seq<Summary>, id: Id)
    requires owned <= events.Keys
    requires Partial(events, owned, rest, list)
    requires id in rest && forall y :: y in rest ==> events[y].createdAt <= events[id].createdAt
    ensures Partial(events, owned, rest - {id}, list + [Summarize(id, events[id])])
  {
    var list', rest' := list + [Summarize(id, events[id])], rest - {id};
    assert list'[|list|].id == id;
    forall x | x in owned - rest'
      ensures exists i :: 0 <= i < |list'| && list'[i].id == x
    {
      if x != id {
        assert x in owned - rest;
        var i :| 0 <= i < |list| && list[i].id == x;
        assert list'[i].id == x;
      }
    }
  }

  /** `GET`: without a session 401; otherwise the caller's events, newest first. */
  method Get(store: Db, session: Option<Id>) returns (r: Response<seq<Summary>>)
    ensures session.None? ==> r == Error(401, Unauthorized)
    ensures session.Some? ==> r.Ok? && Listing(store.events, session.value, r.body)
  {
    if session.None? {
      return Error(401, Unauthorized);
    }
    var uid := session.value;
    var events := store.events;
    var owned := OwnedIds(events, uid);
    var rest := owned;
    var list: seq<Summary> := [];
    while rest != {}
      invariant Partial(events, owned, rest, list)
      decreases |rest|
    {
      NewestExists(events, rest);
      var id :| id in rest && forall y :: y in rest ==> events[y].createdAt <= events[id].createdAt;
      PartialStep(events, owned, rest, list, id);
      list := list + [Summarize(id, events[id])];
      rest := rest - {id};
    }
    assert owned - rest == owned;
    r := Ok(list);
  }

  /** The limits in force for a user (`isFree`, `maxEvents`, `maxGuestsPerEvent`). */
  datatype Limits = Limits(isFree: bool, maxEvents: int, maxGuestsPerEvent: int)

  /** A user is free iff the plan string or the linked plan's name is
      "FREE"; without a linked plan the limits default to 3 events and 50
      guests, otherwise they are the linked plan's. */
  function ResolveLimits(u: UserRow, details: Option<PlanRow>): (l: Limits)
    ensures l.isFree <==> u.plan == "FREE" || (details.Some? && details.value.name == "FREE")
    ensures details.None? ==> l.maxEvents == 3 && l.maxGuestsPerEvent == 50
    ensures details.Some? ==> l.maxEvents == details.value.maxEvents
                              && l.maxGuestsPerEvent == details.value.maxGuestsPerEvent
  {
    var isFree := u.plan == "FREE" || (details.Some? && details.value.name == "FREE");
    match details
    case None => Limits(isFree, 3, 50)
    case Some(p) => Limits(isFree, p.maxEvents, p.maxGuestsPerEvent)
  }

  /** The refusal: a free user at or over the event limit. */
  predicate Refused(l: Limits, eventCount: nat) {
    l.isFree && eventCount >= l.maxEvents
  }

  /** The guests that are saved: for a free user over the cap, the list cut
      with `slice(0, maxGuestsPerEvent)`; otherwise the whole list. */
  function GuestsToSave<T>(l: Limits, guests: seq<T>): (r: seq<T>)
    ensures |r| <= |guests| && r == guests[..|r|]
    ensures !l.isFree || |guests| <= l.maxGuestsPerEvent ==> r == guests
    ensures l.isFree && 0 <= l.maxGuestsPerEvent < |guests| ==> |r| == l.maxGuestsPerEvent
  {
    if l.isFree && |guests| > l.maxGuestsPerEvent then SliceTo(guests, l.maxGuestsPerEvent) else guests
  }

  /** `guestCountCapped` is true exactly when a free user's list exceeded the
      cap and something was cut. */
  lemma CappedIff<T>(l: Limits, guests: seq<T>)
    ensures |GuestsToSave(l, guests)| < |guests| <==>
              l.isFree && |guests| > l.maxGuestsPerEvent && |guests| > 0
  {
  }

  /** A user who is not free is never refused and never cut, whatever the
      counts and limits. */
  lemma NonFreeUnlimited<T>(l: Limits, eventCount: nat, guests: seq<T>)
    requires !l.isFree
    ensures !Refused(l, eventCount) && GuestsToSave(l, guests) == guests
  {
  }

  /** A guest as submitted; its email may be absent. */
  datatype SubmittedGuest = SubmittedGuest(name: string, email: Option<string>)

  datatype EventRequest = EventRequest(eventData: EventData, guests: seq<SubmittedGuest>,
                                       templateId: string, customization: Customization)

  /** The guest rows created: names kept, a missing or empty email stored as "". */
  function GuestRows(gs: seq<SubmittedGuest>): (r: seq<GuestRow>)
    ensures |r| == |gs|
    ensures forall i :: 0 <= i < |gs| ==> r[i].name == gs[i].name
    ensures forall i :: 0 <= i < |gs| ==> (r[i].email == "" <==> !Truthy(gs[i].email))
    ensures forall i :: 0 <= i < |gs| && Truthy(gs[i].email) ==> r[i].email == gs[i].email.value
  {
    if gs == [] then [] else [GuestRow(gs[0].name, OrDefault(gs[0].email, ""))] + GuestRows(gs[1..])
  }

  datatype Admitted = Admitted(uid: Id, user: UserRow, limits: Limits)

  /** The checks before the create: session (401), user (404), event limit (403). */
  function Admission(t: Tables, session: Option<Id>): (r: Response<Admitted>)
    ensures r.Ok? ==> session == Some(r.body.uid) && r.body.uid in t.users
                      && r.body.user == t.users[r.body.uid]
                      && r.body.limits == ResolveLimits(r.body.user, Details(r.body.user, t.plans))
                      && !Refused(r.body.limits, EventCount(t.events, r.body.uid))
    ensures session.None? ==> r == Error(401, Unauthorized)
    ensures session.Some? && session.value !in t.users ==> r == Error(404, UserNotFound)
    ensures session.Some? && session.value in t.users ==>
              var u := t.users[session.value];
              if Refused(ResolveLimits(u, Details(u, t.plans)), EventCount(t.events, session.value))
              then r == Error(403, LimitReached)
              else r.Ok?
  {
    if session.None? then Error(401, Unauthorized)
    else if session.value !in t.users then Error(404, UserNotFound)
    else
      var u := t.users[session.value];
      var l := ResolveLimits(u, Details(u, t.plans));
      if Refused(l, EventCount(t.events, session.value)) then Error(403, LimitReached)
      else Ok(Admitted(session.value, u, l))
  }

  datatype Created = Created(eventId: Id, guestCountCapped: bool)

  /** The event row that `POST` creates for an admitted caller. */
  function NewEvent(t: Tables, status: string, a: Admitted, req: EventRequest): EventRow {
    EventRow(a.uid, req.eventData, req.templateId, req.customization, status, t.clock,
             GuestRows(GuestsToSave(a.limits, req.guests)))
  }

  /** `POST` as a function of the store's content, given the id the new
      event receives. */
  function PostSpec(t: Tables, status: string, session: Option<Id>, req: EventRequest, newId: Id)
    : (Tables, Response<Created>)
  {
    match Admission(t, session)
    case Error(code, msg) => (t, Error(code, msg))
    case Ok(a) =>
      var row := NewEvent(t, status, a, req);
      (t.(events := t.events[newId := row], clock := t.clock + 1),
       Ok(Created(newId, |req.guests| > |row.guests|)))
  }

  function CreatedId(r: Response<Created>): Id {
    if r.Ok? then r.body.eventId else ""
  }

  /** `POST`. */
  method Post(store: Db, session: Option<Id>, req: EventRequest) returns (r: Response<Created>)
    requires store.Valid()
    modifies store
    ensures store.Valid()
    ensures r.Ok? ==> r.body.eventId !in old(store.events)
    ensures (store.Snap(), r) == PostSpec(old(store.Snap()), store.eventStatusDefault, session, req, CreatedId(r))
  {
    var adm := Admission(store.Snap(), session);
    if adm.Error? {
      return Error(adm.status, adm.message);
    }
    var id := FreshId(store.events.Keys);
    var row := NewEvent(store.Snap(), store.eventStatusDefault, adm.body, req);
    store.events := store.events[id := row];
    store.clock := store.clock + 1;
    r := Ok(Created(id, |req.guests| > |row.guests|));
  }

  /** A free caller at the limit is refused with 403 and the store is left
      as it was. */
  lemma LimitRefusalChangesNothing(t: Tables, status: string, uid: Id, req: EventRequest, newId: Id)
    requires uid in t.users
    requires var u := t.users[uid]; Refused(ResolveLimits(u, Details(u, t.plans)), EventCount(t.events, uid))
    ensures PostSpec(t, status, Some(uid), req, newId) == (t, Error(403, LimitReached))
  {
  }

  /** Any refusal leaves the store as it was. */
  lemma RefusalChangesNothing(t: Tables, status: string, session: Option<Id>, req: EventRequest, newId: Id)
    requires PostSpec(t, status, session, req, newId).1.Error?
    ensures PostSpec(t, status, session, req, newId).0 == t
  {
  }

  /** A successful create adds exactly one event, owned by the caller and
      holding the submitted event data, template, customization and the
      saved prefix of the submitted guests, stamped with the store's clock;
      the caller owns one more event, every other user's count is unchanged,
      no existing event changes, and the cut is reported exactly when guests
      were dropped. */
  lemma {:induction false} CreateAddsOneEvent(t: Tables, status: string, session: Option<Id>,
                                              req: EventRequest, newId: Id, other: Id)
    requires newId !in t.events
    requires PostSpec(t, status, session, req, newId).1.Ok?
    ensures var (t', r) := PostSpec(t, status, session, req, newId);
            var uid := session.value;
            var a := Admission(t, session).body;
            && t'.events.Keys == t.events.Keys + {newId}
            && (forall id :: id in t.events ==> t'.events[id] == t.events[id])
            && t'.events[newId].userId == uid && t'.events[newId].data == req.eventData
            && t'.events[newId].templateId == req.templateId
            && t'.events[newId].customization == req.customization
            && t'.events[newId].status == status && t'.events[newId].createdAt == t.clock
            && EventCount(t'.events, uid) == EventCount(t.events, uid) + 1
            && (other != uid ==> EventCount(t'.events, other) == EventCount(t.events, other))
            && t'.events[newId].guests == GuestRows(req.guests[..|t'.events[newId].guests|])
            && (r.body.guestCountCapped <==>
                  a.limits.isFree && |req.guests| > a.limits.maxGuestsPerEvent && |req.guests| > 0)
  {
    var a := Admission(t, session).body;
    var row := NewEvent(t, status, a, req);
    EventCountInsert(t.events, newId, row, other);
    var saved := GuestsToSave(a.limits, req.guests);
    CappedIff(a.limits, req.guests);
    assert saved == req.guests[..|saved|];
    assert row.guests == GuestRows(saved);
  }

  /** The created event is stamped later than every existing event, so it
      heads its owner's listing. */
  lemma CreateIsNewest(t: Tables, status: string, session: Option<Id>, req: EventRequest, newId: Id)
    requires Inv(t) && newId !in t.events
    requires PostSpec(t, status, session, req, newId).1.Ok?
    ensures var t' := PostSpec(t, status, session, req, newId).0;
            Inv(t') && forall id :: id in t'.events && id != newId ==>
                         t'.events[id].createdAt < t'.events[newId].createdAt
  {
  }
}

/** The dashboard (`components/Dashboard.tsx`): the create gate, the
    upgrade redirect, the project list load, the name update and the plan
    badge. Network replies are inputs; navigation and alerts are returned
    as effects. */
module Dashboard {
  import opened Basics
  import opened Types
  import Store
  import EventsRoute
  import UserUpdateRoute

  /** The client-side gate: a FREE user (by linked plan name or plan string)
      with three or more projects is blocked. */
  predicate CreateBlocked(user: User, projectCount: nat)
    ensures CreateBlocked(user, projectCount) ==> projectCount >= 3
    ensures user.plan == "FREE" && projectCount >= 3 ==> CreateBlocked(user, projectCount)
  {
    ((user.planDetails.Some? && user.planDetails.value.name == "FREE") || user.plan == "FREE")
    && projectCount >= 3
  }

  /** The user record the client receives for a stored user and its plan. */
  function ClientUser(id: Store.Id, u: Store.UserRow, details: Option<Store.PlanRow>, planId: string): User {
    User(id, u.name, u.email, u.plan,
         if details.Some? then Some(PlanDetails(planId, details.value.name, details.value.maxEvents,
                                                 details.value.maxGuestsPerEvent))
         else None)
  }

  /** While the user record carries the server's plan and the project list
      has the server's event count, the client gate blocks exactly when the
      server would refuse, as long as the linked plan (if any) allows three
      events. */
  lemma {:induction false} GateMatchesServer(id: Store.Id, u: Store.UserRow, details: Option<Store.PlanRow>,
                                             planId: string, count: nat)
    requires details.None? || details.value.maxEvents == 3
    ensures CreateBlocked(ClientUser(id, u, details, planId), count)
            <==> EventsRoute.Refused(EventsRoute.ResolveLimits(u, details), count)
  {
    var l := EventsRoute.ResolveLimits(u, details);
    assert l.maxEvents == 3;
  }

  /** With a linked FREE plan allowing another number of events the two
      gates can differ: three projects block the client while the server
      would still accept a fourth event under a limit of five. */
  lemma GateDiffersForOtherLimits(id: Store.Id, u: Store.UserRow, planId: string)
    ensures var details := Some(Store.PlanRow("FREE", 5, 50, 0));
            CreateBlocked(ClientUser(id, u, details, planId), 3)
            && !EventsRoute.Refused(EventsRoute.ResolveLimits(u, details), 3)
  {
  }

  /** The reply to the checkout request: its `url` and `error` fields, or a
      thrown fetch. */
  datatype CheckoutReply = CheckoutReplied(url: Option<string>, error: Option<string>) | CheckoutThrew

  datatype UpgradeEffect = Redirect(url: string) | Alert(message: string)

  /** `handleUpgrade`: redirect to the url when there is one, otherwise an
      alert with the error or "Unknown error". */
  function Upgrade(reply: CheckoutReply): (e: UpgradeEffect)
    ensures e.Redirect? <==> reply.CheckoutReplied? && Truthy(reply.url)
    ensures e.Redirect? ==> e.url == reply.url.value
    ensures reply.CheckoutThrew? ==> e == Alert("An error occurred. Please try again.")
    ensures reply.CheckoutReplied? && !Truthy(reply.url) ==>
              e == Alert("Failed to initiate checkout: " + OrDefault(reply.error, "Unknown error"))
  {
    match reply
    case CheckoutThrew => Alert("An error occurred. Please try again.")
    case CheckoutReplied(url, error) =>
      if Truthy(url) then Redirect(url.value)
      else Alert("Failed to initiate checkout: " + OrDefault(error, "Unknown error"))
  }

  /** The badge text: the plan string, or "FREE" when it is empty. */
  function PlanBadge(user: User): (r: string)
    ensures r != ""
    ensures user.plan != "" ==> r == user.plan
    ensures user.plan == "" ==> r == "FREE"
  {
    OrDefault(Some(user.plan), "FREE")
  }

  /** The reply to the name update: a failed status, or the returned user. */
  datatype UpdateReply = UpdateFailed | Updated(user: UserUpdateRoute.UserView)

  class Page {
    var user: User
    var projects: seq<Project>
    var upgradeModalOpen: bool

    constructor (initialUser: User)
      ensures user == initialUser && projects == [] && !upgradeModalOpen
    {
      user, projects, upgradeModalOpen := initialUser, [], false;
    }

    /** `handleCreateClick`: when blocked the upgrade dialog opens and
        creation is not started; otherwise creation starts. */
    method CreateClick() returns (createStarted: bool)
      modifies this
      ensures createStarted <==> !CreateBlocked(user, |projects|)
      ensures upgradeModalOpen == (old(upgradeModalOpen) || !createStarted)
      ensures user == old(user) && projects == old(projects)
    {
      if CreateBlocked(user, |projects|) {
        upgradeModalOpen := true;
        return false;
      }
      return true;
    }

    /** The list load: `data.events || []`. */
    method LoadEvents(events: Option<seq<Project>>)
      modifies this
      ensures projects == if events.Some? then events.value else []
      ensures user == old(user) && upgradeModalOpen == old(upgradeModalOpen)
    {
      projects := if events.Some? then events.value else [];
    }

    /** `handleUpdateUser`: a failed update throws and keeps the user; a
        successful one replaces it with the returned record, which has no
        plan details. */
    method UpdateUser(reply: UpdateReply) returns (threw: bool)
      modifies this
      ensures threw <==> reply.UpdateFailed?
      ensures threw ==> user == old(user)
      ensures !threw ==> user == User(reply.user.id, reply.user.name, reply.user.email, reply.user.plan, None)
      ensures projects == old(projects) && upgradeModalOpen == old(upgradeModalOpen)
    {
      if reply.UpdateFailed? {
        return true;
      }
      user := User(reply.user.id, reply.user.name, reply.user.email, reply.user.plan, None);
      return false;
    }
  }

  /** After a name update the gate rests on the plan string alone. */
  lemma GateAfterUpdate(v: UserUpdateRoute.UserView, count: nat)
    ensures CreateBlocked(User(v.id, v.name, v.email, v.plan, None), count) <==> v.plan == "FREE" && count >= 3
  {
  }
}

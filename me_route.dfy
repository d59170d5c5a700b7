/** The current-user route (`app/api/auth/me/route.ts`): a read of the
    caller's row, its linked plan and its event count. */
module MeRoute {
  import opened Basics
  import opened Store

  /** The included plan row, with its id. */
  datatype LinkedPlan = LinkedPlan(id: Id, row: PlanRow)

  /** The profile returned: never the password hash. */
  datatype Profile = Profile(id: Id, name: string, email: string, plan: string,
                             planDetails: Option<LinkedPlan>, eventCount: nat)

  /** `GET`: 401 without a session, 404 for a user that no longer exists,
      otherwise the profile with the number of events the user owns. */
  function Get(t: Tables, session: Option<Id>): (r: Response<Profile>)
    ensures session.None? ==> r == Error(401, "Unauthorized")
    ensures session.Some? && session.value !in t.users ==> r == Error(404, "User not found")
    ensures session.Some? && session.value in t.users ==>
              var u := t.users[session.value];
              && r.Ok? && r.body.id == session.value
              && r.body.name == u.name && r.body.email == u.email && r.body.plan == u.plan
              && (r.body.planDetails.Some? <==> u.planId.Some? && u.planId.value in t.plans)
              && (r.body.planDetails.Some? ==>
                    r.body.planDetails.value == LinkedPlan(u.planId.value, t.plans[u.planId.value]))
              && r.body.eventCount == |set e | e in t.events && t.events[e].userId == session.value|
  {
    if session.None? then Error(401, "Unauthorized")
    else if session.value !in t.users then Error(404, "User not found")
    else
      var u := t.users[session.value];
      var linked := if u.planId.Some? && u.planId.value in t.plans
                    then Some(LinkedPlan(u.planId.value, t.plans[u.planId.value])) else None;
      Ok(Profile(session.value, u.name, u.email, u.plan, linked, EventCount(t.events, session.value)))
  }

  /** The reply does not depend on the stored password hash. */
  lemma GetHidesPassword(t: Tables, session: Option<Id>, uid: Id, hash: string)
    requires uid in t.users
    ensures Get(t.(users := t.users[uid := t.users[uid].(passwordHash := hash)]), session) == Get(t, session)
  {
  }
}

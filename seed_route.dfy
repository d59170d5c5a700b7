/** The plan reset (`app/api/seed/route.ts`): every plan row is deleted,
    then FREE and PAID are created afresh. */
module SeedRoute {
  import opened Basics
  import opened Store

  datatype Seeded = Seeded(freeId: Id, free: PlanRow, paidId: Id, paid: PlanRow)

  /** The plan table after the reset, given the ids the two rows receive. */
  function Reset(freeId: Id, paidId: Id): (r: map<Id, PlanRow>)
    ensures r.Keys == {freeId, paidId}
    ensures freeId != paidId ==> r[freeId].name == "FREE" && r[paidId].name == "PAID"
  {
    map[freeId := FreePlan, paidId := PaidPlan]
  }

  /** Afterwards exactly two plans exist, FREE and PAID with their limits and
      prices, whatever the ids, and plan names stay unique. */
  lemma ResetHoldsTwoPlans(freeId: Id, paidId: Id)
    requires freeId != paidId
    ensures var p := Reset(freeId, paidId);
            |p| == 2 && p.Values == {PlanRow("FREE", 3, 50, 0), PlanRow("PAID", 9999999, 9999999, 2900)}
            && Unique(p, PlanNameOf)
  {
    var p := Reset(freeId, paidId);
    assert p.Keys == {freeId, paidId};
    assert p.Values == {FreePlan, PaidPlan} by {
      assert p[freeId] == FreePlan && p[paidId] == PaidPlan;
    }
  }

  /** Running the reset twice gives the same plan rows; only the ids differ. */
  lemma ResetTwiceSameRows(f1: Id, p1: Id, f2: Id, p2: Id)
    requires f1 != p1 && f2 != p2
    ensures Reset(f1, p1).Values == Reset(f2, p2).Values
  {
    ResetHoldsTwoPlans(f1, p1);
    ResetHoldsTwoPlans(f2, p2);
  }

  /** When neither new id is one a user links, every user's included plan is
      absent after the reset: the old links dangle and nobody is linked to
      the new rows. */
  lemma ResetUnlinksUsers(users: map<Id, UserRow>, freeId: Id, paidId: Id)
    requires freeId !in LinkedPlanIds(users) && paidId !in LinkedPlanIds(users)
    ensures forall u :: u in users ==> Details(users[u], Reset(freeId, paidId)).None?
  {
    forall u | u in users
      ensures Details(users[u], Reset(freeId, paidId)).None?
    {
      if users[u].planId.Some? {
        assert users[u].planId.value in LinkedPlanIds(users);
      }
    }
  }

  /** `GET`: the previous plans are gone, the two new rows are the whole plan
      table under ids that no deleted plan had and no user links, and nothing
      else in the store changes. */
  method Get(store: Db) returns (r: Response<Seeded>)
    requires store.Valid()
    modifies store
    ensures store.Valid()
    ensures r.Ok? && r.body.freeId != r.body.paidId
    ensures store.Snap() == old(store.Snap()).(plans := Reset(r.body.freeId, r.body.paidId))
    ensures r.body.free == store.plans[r.body.freeId] && r.body.paid == store.plans[r.body.paidId]
    ensures r.body.freeId !in old(store.plans) && r.body.paidId !in old(store.plans)
    ensures r.body.freeId !in LinkedPlanIds(store.users) && r.body.paidId !in LinkedPlanIds(store.users)
    ensures forall u :: u in store.users ==> Details(store.users[u], store.plans).None?
  {
    var retired := store.plans.Keys + LinkedPlanIds(store.users);
    var freeId := FreshId(retired);
    var paidId := FreshId(retired + {freeId});
    store.plans := Reset(freeId, paidId);
    ResetHoldsTwoPlans(freeId, paidId);
    ResetUnlinksUsers(store.users, freeId, paidId);
    r := Ok(Seeded(freeId, FreePlan, paidId, PaidPlan));
  }
}

/** The database behind the route handlers, as an in-memory store: one map
    per collection, keyed by the row's id. Embedded relations follow the
    source's queries: an event's guests are kept with the event, in creation
    order. Unique columns are invariants of the store. */
module Store {
  import opened Basics
  import opened Types

  type Id = string

  datatype PlanRow = PlanRow(name: string, maxEvents: int, maxGuestsPerEvent: int, priceCents: int)
  datatype ProductRow = ProductRow(productId: string, name: string)
  datatype PaymentRow = PaymentRow(dodoId: string, amount: int, currency: string, status: string,
                                   productId: string, userId: Id)
  datatype UserRow = UserRow(email: string, passwordHash: string, name: string, plan: string,
                             planId: Option<Id>)
  datatype GuestRow = GuestRow(name: string, email: string)
  datatype EventRow = EventRow(userId: Id, data: EventData, templateId: string,
                               customization: Customization, status: string, createdAt: nat,
                               guests: seq<GuestRow>)

  /** The payload of a verified session token; `userId` may be missing. */
  datatype Claims = Claims(userId: Option<string>)

  /** The two plan rows the handlers create: FREE with 3 events and 50
      guests per event at no cost, PAID with the "unlimited" sentinel 9999999
      for both limits at 29 (prices in cents). */
  const FreePlan: PlanRow := PlanRow("FREE", 3, 50, 0)
  const PaidPlan: PlanRow := PlanRow("PAID", 9999999, 9999999, 2900)

  /** The whole content of the store, as one value. */
  datatype Tables = Tables(users: map<Id, UserRow>, plans: map<Id, PlanRow>,
                           products: map<Id, ProductRow>, payments: map<Id, PaymentRow>,
                           events: map<Id, EventRow>, clock: nat)

  function EmailOf(u: UserRow): string { u.email }
  function PlanNameOf(p: PlanRow): string { p.name }
  function ProductIdOf(p: ProductRow): string { p.productId }
  function DodoIdOf(p: PaymentRow): string { p.dodoId }

  /** No two rows share a value of the column `key`. */
  ghost predicate Unique<V>(m: map<Id, V>, key: V -> string) {
    forall a, b :: a in m && b in m && key(m[a]) == key(m[b]) ==> a == b
  }

  /** `findUnique` on a unique column: the id of the row whose column holds `k`. */
  ghost function FindBy<V>(m: map<Id, V>, key: V -> string, k: string): (r: Option<Id>)
    ensures r.Some? ==> r.value in m && key(m[r.value]) == k
    ensures r.None? <==> forall id :: id in m ==> key(m[id]) != k
  {
    if exists id :: id in m && key(m[id]) == k then
      var id :| id in m && key(m[id]) == k; Some(id)
    else None
  }

  lemma FindByUnique<V>(m: map<Id, V>, key: V -> string, id: Id)
    requires Unique(m, key) && id in m
    ensures FindBy(m, key, key(m[id])) == Some(id)
  {
  }

  /** The column keeps its uniqueness when a row whose value is new is added
      or a row is replaced by one with the same value. */
  lemma UniqueInsert<V>(m: map<Id, V>, key: V -> string, id: Id, v: V)
    requires Unique(m, key)
    requires id in m ==> key(m[id]) == key(v)
    requires FindBy(m, key, key(v)).None? || FindBy(m, key, key(v)) == Some(id)
    ensures Unique(m[id := v], key)
  {
  }

  method Lookup<V>(m: map<Id, V>, key: V -> string, k: string) returns (r: Option<Id>)
    requires Unique(m, key)
    ensures r == FindBy(m, key, k)
  {
    if exists id :: id in m && key(m[id]) == k {
      var id :| id in m && key(m[id]) == k;
      FindByUnique(m, key, id);
      r := Some(id);
    } else {
      r := None;
    }
  }

  /** The plan row a user's `planId` links to (`include: { planDetails: true }`). */
  function Details(u: UserRow, plans: map<Id, PlanRow>): (r: Option<PlanRow>)
    ensures r.Some? <==> u.planId.Some? && u.planId.value in plans
    ensures r.Some? ==> r.value == plans[u.planId.value]
  {
    if u.planId.Some? && u.planId.value in plans then Some(plans[u.planId.value]) else None
  }

  /** The plan ids some user's `planId` still names. */
  function LinkedPlanIds(users: map<Id, UserRow>): (r: set<Id>)
    ensures forall u :: u in users && users[u].planId.Some? ==> users[u].planId.value in r
    ensures forall x :: x in r ==> exists u :: u in users && users[u].planId == Some(x)
  {
    set u | u in users && users[u].planId.Some? :: users[u].planId.value
  }

  /** The ids of the events owned by `uid` (`where: { userId }`). */
  function OwnedIds(events: map<Id, EventRow>, uid: Id): (r: set<Id>)
    ensures forall id :: id in r <==> id in events && events[id].userId == uid
  {
    set id | id in events && events[id].userId == uid
  }

  /** `prisma.event.count({ where: { userId } })`. */
  function EventCount(events: map<Id, EventRow>, uid: Id): nat {
    |OwnedIds(events, uid)|
  }

  /** Adding a fresh event owned by `uid` raises that user's count by one and
      leaves every other user's count as it was. */
  lemma {:induction false} EventCountInsert(events: map<Id, EventRow>, id: Id, row: EventRow, other: Id)
    requires id !in events
    ensures EventCount(events[id := row], row.userId) == EventCount(events, row.userId) + 1
    ensures other != row.userId ==> EventCount(events[id := row], other) == EventCount(events, other)
  {
    assert OwnedIds(events[id := row], row.userId) == OwnedIds(events, row.userId) + {id};
    assert other != row.userId ==> OwnedIds(events[id := row], other) == OwnedIds(events, other);
  }

  /** An id not yet used as a key: longer than every key in use. */
  method FreshId(used: set<Id>) returns (r: Id)
    ensures r !in used
  {
    var rest: set<Id>, len: nat := used, 0;
    while rest != {}
      invariant rest <= used
      invariant forall x :: x in used - rest ==> |x| < len
      decreases |rest|
    {
      var x :| x in rest;
      if len <= |x| { len := |x| + 1; }
      rest := rest - {x};
    }
    r := seq(len, _ => 'x');
    assert |r| == len;
  }

  /** The store. `userPlanDefault` and `eventStatusDefault` are the schema
      defaults for the columns the handlers never set. */
  class Db {
    var users: map<Id, UserRow>
    var plans: map<Id, PlanRow>
    var products: map<Id, ProductRow>
    var payments: map<Id, PaymentRow>
    var events: map<Id, EventRow>
    var clock: nat
    const userPlanDefault: string
    const eventStatusDefault: string

    function Snap(): Tables
      reads this
    {
      Tables(users, plans, products, payments, events, clock)
    }

    /** The unique columns (email, plan name, product id, payment id) hold
        and every event was created before the current time. */
    ghost predicate Valid()
      reads this
    {
      Inv(Snap())
    }

    constructor (userPlanDefault: string, eventStatusDefault: string)
      ensures Valid()
      ensures Snap() == Tables(map[], map[], map[], map[], map[], 0)
      ensures this.userPlanDefault == userPlanDefault && this.eventStatusDefault == eventStatusDefault
    {
      users, plans, products, payments, events, clock := map[], map[], map[], map[], map[], 0;
      this.userPlanDefault, this.eventStatusDefault := userPlanDefault, eventStatusDefault;
    }
  }

  ghost predicate Inv(t: Tables) {
    Unique(t.users, EmailOf) && Unique(t.plans, PlanNameOf)
    && Unique(t.products, ProductIdOf) && Unique(t.payments, DodoIdOf)
    && forall id :: id in t.events ==> t.events[id].createdAt < t.clock
  }
}

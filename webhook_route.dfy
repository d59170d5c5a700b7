/** The payment provider's webhook (`app/api/webhook/payment/route.ts`):
    a succeeded payment is recorded once per provider payment id and the
    paying user's plan is switched to the plan the product stands for. */
module WebhookRoute {
  import opened Basics
  import opened Store

  const Succeeded: string := "payment.succeeded"
  const MissingUserId: string := "Missing userId in metadata"
  const ServerError: string := "Internal Server Error"

  /** The fields of a notification the handler reads: `event_type`,
      `payment_id`, `total_amount`, `currency`, the first cart item's
      `product_id` and `metadata.userId`; absent ones are None. */
  datatype Notification = Notification(eventType: string, paymentId: Option<string>, amount: int,
                                       currency: string, productId: Option<string>,
                                       userId: Option<string>)

  datatype Ack = Received

  /** The plan name a product stands for: the product's name, or "PAID" when
      no product has that id or its name is empty. */
  ghost function PlanName(products: map<Id, ProductRow>, productId: string): (r: string)
    ensures r != ""
  {
    match FindBy(products, ProductIdOf, productId)
    case Some(p) => if products[p].name != "" then products[p].name else "PAID"
    case None => "PAID"
  }

  lemma PlanNameIs(products: map<Id, ProductRow>, productId: string)
    requires Unique(products, ProductIdOf)
    ensures forall p :: p in products && products[p].productId == productId && products[p].name != "" ==>
              PlanName(products, productId) == products[p].name
    ensures (forall p :: p in products ==> products[p].productId != productId) ==>
              PlanName(products, productId) == "PAID"
  {
    forall p | p in products && products[p].productId == productId
      ensures FindBy(products, ProductIdOf, productId) == Some(p)
    {
      FindByUnique(products, ProductIdOf, p);
    }
  }

  /** The upsert keyed by the provider's payment id: an existing payment only
      has its status set to "completed"; otherwise `row` is added as `newId`. */
  ghost function Upsert(payments: map<Id, PaymentRow>, row: PaymentRow, newId: Id): (r: map<Id, PaymentRow>)
    ensures payments.Keys <= r.Keys <= payments.Keys + {newId}
    ensures forall p :: p in payments && p != newId ==> r[p].dodoId == payments[p].dodoId
  {
    match FindBy(payments, DodoIdOf, row.dodoId)
    case Some(p) => payments[p := payments[p].(status := "completed")]
    case None => payments[newId := row]
  }

  /** What the upsert writes: when a payment already has the provider id,
      that payment's status becomes "completed" and nothing else changes;
      otherwise `row` is added under `newId` and no other payment changes. */
  lemma UpsertChanges(payments: map<Id, PaymentRow>, row: PaymentRow, newId: Id)
    requires Unique(payments, DodoIdOf) && newId !in payments
    ensures var p1 := Upsert(payments, row, newId);
            forall p :: p in payments && payments[p].dodoId == row.dodoId ==>
              p1.Keys == payments.Keys
              && p1[p] == payments[p].(status := "completed")
              && (forall q :: q in payments && q != p ==> p1[q] == payments[q])
    ensures var p1 := Upsert(payments, row, newId);
            (forall p :: p in payments ==> payments[p].dodoId != row.dodoId) ==>
              p1.Keys == payments.Keys + {newId} && p1[newId] == row
              && (forall q :: q in payments ==> p1[q] == payments[q])
  {
    forall p | p in payments && payments[p].dodoId == row.dodoId
      ensures FindBy(payments, DodoIdOf, row.dodoId) == Some(p)
    {
      FindByUnique(payments, DodoIdOf, p);
    }
  }

  /** After the upsert there is exactly one payment with the id, holding
      status "completed", and upserting the same row again changes nothing. */
  lemma {:induction false} UpsertOnce(payments: map<Id, PaymentRow>, row: PaymentRow, newId: Id, newId2: Id)
    requires Unique(payments, DodoIdOf) && newId !in payments && row.status == "completed"
    ensures var p1 := Upsert(payments, row, newId);
            && Unique(p1, DodoIdOf)
            && (exists p :: p in p1 && p1[p].dodoId == row.dodoId && p1[p].status == "completed")
            && Upsert(p1, row, newId2) == p1
  {
    var p1 := Upsert(payments, row, newId);
    match FindBy(payments, DodoIdOf, row.dodoId)
    case Some(p) =>
      UniqueInsert(payments, DodoIdOf, p, payments[p].(status := "completed"));
      assert p1[p].dodoId == row.dodoId;
      FindByUnique(p1, DodoIdOf, p);
      assert p1[p := p1[p].(status := "completed")] == p1;
    case None =>
      UniqueInsert(payments, DodoIdOf, newId, row);
      assert p1[newId] == row;
      FindByUnique(p1, DodoIdOf, newId);
      assert p1[newId := p1[newId].(status := "completed")] == p1;
  }

  /** The whole handler as a function of the store's content, given the id a
      new payment would receive. */
  ghost function Deliver(t: Tables, n: Notification, newId: Id): (Tables, Response<Ack>) {
    if n.eventType != Succeeded then (t, Ok(Received))
    else if !Truthy(n.userId) then (t, Error(400, MissingUserId))
    else if n.productId.None? || n.paymentId.None? then (t, Error(500, ServerError))
    else
      var uid := n.userId.value;
      var planName := PlanName(t.products, n.productId.value);
      var row := PaymentRow(n.paymentId.value, n.amount, n.currency, "completed", n.productId.value, uid);
      var t1 := t.(payments := Upsert(t.payments, row, newId));
      if uid !in t.users then (t1, Error(500, ServerError))
      else
        var u := t.users[uid];
        var planId := match FindBy(t.plans, PlanNameOf, planName)
                      case Some(p) => Some(p)
                      case None => u.planId;
        (t1.(users := t.users[uid := u.(plan := planName, planId := planId)]), Ok(Received))
  }

  /** Any other event type is acknowledged and nothing is written. */
  lemma OtherEventsIgnored(t: Tables, n: Notification, newId: Id)
    requires n.eventType != Succeeded
    ensures Deliver(t, n, newId) == (t, Ok(Received))
  {
  }

  /** A succeeded payment without a user id is refused with 400 and nothing
      is written. */
  lemma MissingUserIdRefused(t: Tables, n: Notification, newId: Id)
    requires n.eventType == Succeeded && (n.userId.None? || n.userId.value == "")
    ensures Deliver(t, n, newId) == (t, Error(400, MissingUserId))
  {
  }

  /** A succeeded delivery for a known user upserts the payment (see
      `UpsertOnce`), sets the user's plan string to the plan name, links the
      plan of that name when one exists and otherwise keeps the old link; no
      other user, payment or table changes. */
  lemma {:induction false} DeliverUpdatesUser(t: Tables, n: Notification, newId: Id)
    requires Inv(t) && newId !in t.payments
    requires n.eventType == Succeeded && Truthy(n.userId) && n.productId.Some? && n.paymentId.Some?
    requires n.userId.value in t.users
    ensures var (t', r) := Deliver(t, n, newId);
            var uid := n.userId.value;
            var name := PlanName(t.products, n.productId.value);
            && r == Ok(Received)
            && t'.users.Keys == t.users.Keys
            && (forall v :: v in t.users && v != uid ==> t'.users[v] == t.users[v])
            && t'.users[uid] == t.users[uid].(plan := name, planId := t'.users[uid].planId)
            && (forall p :: p in t.plans && t.plans[p].name == name ==> t'.users[uid].planId == Some(p))
            && ((forall p :: p in t.plans ==> t.plans[p].name != name) ==>
                  t'.users[uid].planId == t.users[uid].planId)
            && (exists p :: p in t'.payments && t'.payments[p].dodoId == n.paymentId.value
                            && t'.payments[p].status == "completed")
            && t'.payments == Upsert(t.payments, PaymentRow(n.paymentId.value, n.amount, n.currency, "completed",
                                                            n.productId.value, uid), newId)
            && t'.plans == t.plans && t'.products == t.products && t'.events == t.events
            && t'.clock == t.clock
  {
    var row := PaymentRow(n.paymentId.value, n.amount, n.currency, "completed", n.productId.value, n.userId.value);
    UpsertOnce(t.payments, row, newId, newId);
    forall p | p in t.plans && t.plans[p].name == PlanName(t.products, n.productId.value)
      ensures FindBy(t.plans, PlanNameOf, t.plans[p].name) == Some(p)
    {
      FindByUnique(t.plans, PlanNameOf, p);
    }
  }

  /** Every delivery keeps the store's invariants; in particular there is
      never more than one payment per provider payment id. */
  lemma {:induction false} DeliverKeepsInv(t: Tables, n: Notification, newId: Id)
    requires Inv(t) && newId !in t.payments
    ensures Inv(Deliver(t, n, newId).0)
  {
    if n.eventType == Succeeded && Truthy(n.userId) && n.productId.Some? && n.paymentId.Some? {
      var uid := n.userId.value;
      var row := PaymentRow(n.paymentId.value, n.amount, n.currency, "completed", n.productId.value, uid);
      UpsertOnce(t.payments, row, newId, newId);
      if uid in t.users {
        var t' := Deliver(t, n, newId).0;
        UniqueInsert(t.users, EmailOf, uid, t'.users[uid]);
      }
    }
  }

  /** Delivering the same notification twice leaves the store and the reply
      exactly as delivering it once. */
  lemma {:induction false} DeliverIdempotent(t: Tables, n: Notification, newId: Id, newId2: Id)
    requires Inv(t) && newId !in t.payments
    ensures Deliver(Deliver(t, n, newId).0, n, newId2) == Deliver(t, n, newId)
  {
    if n.eventType == Succeeded && Truthy(n.userId) && n.productId.Some? && n.paymentId.Some? {
      var uid := n.userId.value;
      var row := PaymentRow(n.paymentId.value, n.amount, n.currency, "completed", n.productId.value, uid);
      UpsertOnce(t.payments, row, newId, newId2);
      var t1 := Deliver(t, n, newId).0;
      assert t1.products == t.products && t1.plans == t.plans;
      if uid in t.users {
        var t2 := Deliver(t1, n, newId2).0;
        assert t2.users[uid] == t1.users[uid];
        assert t2.users == t1.users;
      }
    }
  }

  /** `POST`. */
  method Post(store: Db, n: Notification) returns (r: Response<Ack>)
    requires store.Valid()
    modifies store
    ensures store.Valid()
    ensures exists id :: id !in old(store.payments) && (store.Snap(), r) == Deliver(old(store.Snap()), n, id)
  {
    var newId := FreshId(store.payments.Keys);
    ghost var t := store.Snap();
    DeliverKeepsInv(t, n, newId);
    if n.eventType != Succeeded {
      r := Ok(Received);
    } else if !Truthy(n.userId) {
      r := Error(400, MissingUserId);
    } else if n.productId.None? || n.paymentId.None? {
      r := Error(500, ServerError);
    } else {
      var uid := n.userId.value;
      var product := Lookup(store.products, ProductIdOf, n.productId.value);
      var planName := if product.Some? && store.products[product.value].name != ""
                      then store.products[product.value].name else "PAID";
      var row := PaymentRow(n.paymentId.value, n.amount, n.currency, "completed", n.productId.value, uid);
      var existing := Lookup(store.payments, DodoIdOf, row.dodoId);
      if existing.Some? {
        store.payments := store.payments[existing.value := store.payments[existing.value].(status := "completed")];
      } else {
        store.payments := store.payments[newId := row];
      }
      if uid !in store.users {
        r := Error(500, ServerError);
      } else {
        var planConfig := Lookup(store.plans, PlanNameOf, planName);
        var u := store.users[uid];
        var planId := if planConfig.Some? then planConfig else u.planId;
        store.users := store.users[uid := u.(plan := planName, planId := planId)];
        r := Ok(Received);
      }
    }
    assert (store.Snap(), r) == Deliver(t, n, newId);
  }
}

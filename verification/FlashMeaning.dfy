/** What each handler does to the store when it runs alone, field by field. */
module FlashMeaning {
  import opened Prelude
  import opened FlashModel
  import opened FlashAtomic

  /** Only this order, the stock, the ledger and the timeout keys may differ. */
  ghost predicate OnlyOrder(d: Data, d': Data, oid: OrderId) {
    && d'.price == d.price && d'.processed == d.processed && d'.effects == d.effects
    && d'.idempotency == d.idempotency && d'.orders.Keys == d.orders.Keys + {oid}
    && forall other :: other in d.orders && other != oid ==> d'.orders[other] == d.orders[other]
  }

  /** A pending order `o` is charged: by the charge it has, not at all if its token is the declined
      one, by a new charge otherwise; the new charge of a "timeout-once" token times out. */
  ghost predicate ChargedTo(d: Data, o: Order, d': Data, r: Reply) {
    && OnlyOrder(d, d', o.id) && o.id in d'.orders
    && Outcome(d.charges, d.timeoutKeys, d.stock, o, d'.charges, d'.timeoutKeys, d'.stock, d'.orders[o.id], r)
  }

  ghost predicate Outcome(charges: map<PaymentKey, Charge>, timeoutKeys: set<PaymentKey>, stock: int, o: Order,
                          charges': map<PaymentKey, Charge>, timeoutKeys': set<PaymentKey>, stock': int, o': Order, r: Reply)
  {
    var key, number := Checkout(o.id), |charges| + 1;
    if key in charges then
      && charges' == charges && timeoutKeys' == timeoutKeys && stock' == stock
      && r == Reply(Some(201), Some(o.id)) && o' == o.(status := Paid, chargeId := Some(charges[key].number))
    else if o.token == Decline then
      && charges' == charges && timeoutKeys' == timeoutKeys && stock' == stock + (if o.released then 0 else o.quantity)
      && r == Reply(Some(402), Some(o.id)) && o' == o.(status := Failed, failureStatus := Some(402), released := true)
    else
      && charges' == charges[key := Charge(number, o.total)] && stock' == stock
      && if o.token == TimeoutOnce && key !in timeoutKeys then
           timeoutKeys' == timeoutKeys + {key} && o' == o && r == Reply(Some(504), Some(o.id))
         else
           && timeoutKeys' == timeoutKeys
           && r == Reply(Some(201), Some(o.id)) && o' == o.(status := Paid, chargeId := Some(number))
  }

  lemma SettleMeans(d: Data, oid: OrderId)
    requires oid in d.orders && d.orders[oid].id == oid
    ensures var (d', r) := Settle(d, oid); ChargedTo(d, d.orders[oid], d', r)
  {
    SettleOnly(d, oid);
    SettleOutcome(d, oid);
    hide Settle, Outcome, OnlyOrder;
  }

  lemma SettleOnly(d: Data, oid: OrderId)
    requires oid in d.orders && d.orders[oid].id == oid
    ensures OnlyOrder(d, Settle(d, oid).0, oid)
  {
  }

  lemma SettleOutcome(d: Data, oid: OrderId)
    requires oid in d.orders && d.orders[oid].id == oid
    ensures var (d', r) := Settle(d, oid);
            && oid in d'.orders
            && Outcome(d.charges, d.timeoutKeys, d.stock, d.orders[oid], d'.charges, d'.timeoutKeys, d'.stock, d'.orders[oid], r)
  {
  }

  /** A creation: the replay of a known identity changes nothing unless its order is still pending;
      an unknown identity gets one new order, if the product exists and there is stock for it. */
  lemma CreateMeans(d: Data, identity: Identity, p: Payload, drawn: OrderId)
    requires WellFormed(d) && drawn !in d.orders
    ensures var (d', r) := CreateAtomic(d, identity, p, drawn);
            if identity in d.idempotency then
              var oid := d.idempotency[identity];
              var o := d.orders[oid];
              if o.fingerprint != p then d' == d && r == Reply(Some(409), Some(oid))
              else if o.status == Pending then ChargedTo(d, o, d', r)
              else d' == d && r == Reply(if o.status == Failed then o.failureStatus else Some(201), Some(oid))
            else if p.productId != 1 then d' == d && r == Reply(Some(404), None)
            else if d.stock < p.quantity then d' == d && r == Reply(Some(409), None)
            else
              var o := Order(drawn, identity.user, 1, p.quantity, d.price * p.quantity, None, Pending, p, p.token, false, None);
              && d'.idempotency == d.idempotency[identity := drawn]
              && ChargedTo(d.(stock := d.stock - p.quantity), o, d'.(idempotency := d.idempotency), r)
  {
    hide ChargedTo;
    if identity in d.idempotency {
      var oid := d.idempotency[identity];
      if d.orders[oid].status == Pending { SettleMeans(d, oid); }
    } else if p.productId == 1 && d.stock >= p.quantity {
      NewMeans(d, identity, p, drawn);
    }
  }

  lemma NewMeans(d: Data, identity: Identity, p: Payload, drawn: OrderId)
    requires WellFormed(d) && drawn !in d.orders && p.productId == 1
    ensures var o := NewOrder(drawn, identity.user, d.price, p);
            var (d', r) := Settle(Update(d.(stock := d.stock - p.quantity), o).(idempotency := d.idempotency[identity := drawn]), drawn);
            && d'.idempotency == d.idempotency[identity := drawn]
            && ChargedTo(d.(stock := d.stock - p.quantity), o, d'.(idempotency := d.idempotency), r)
  {
    hide Settle, ChargedTo;
    var o := NewOrder(drawn, identity.user, d.price, p);
    var placed := Update(d.(stock := d.stock - p.quantity), o).(idempotency := d.idempotency[identity := drawn]);
    SettleMeans(placed, drawn);
    PlacedCharged(d, placed, o, Settle(placed, drawn).0, Settle(placed, drawn).1);
  }

  /** Charging an order that was just entered, seen from before it was. */
  lemma PlacedCharged(d: Data, placed: Data, o: Order, d': Data, r: Reply)
    requires o.id !in d.orders && ChargedTo(placed, o, d', r)
    requires placed == Update(d.(stock := placed.stock), o).(idempotency := placed.idempotency)
    ensures d'.idempotency == placed.idempotency
    ensures ChargedTo(d.(stock := placed.stock), o, d'.(idempotency := d.idempotency), r)
  {
    hide Outcome;
    assert placed.orders.Keys == d.orders.Keys + {o.id};
    assert d.orders.Keys + {o.id} == placed.orders.Keys + {o.id};
  }

  /** A cancellation: by the owner or the administrator only, of a paid order only; it gives the
      stock back unless that was done before. */
  lemma CancelMeans(d: Data, user: User, oid: OrderId)
    requires WellFormed(d)
    ensures var (d', r) := CancelAtomic(d, user, oid);
            if oid !in d.orders then d' == d && r == Reply(Some(404), None)
            else
              var o := d.orders[oid];
              if user != Admin && user != o.owner then d' == d && r == Reply(Some(403), Some(oid))
              else if o.status == Paid then
                && r == Reply(Some(200), Some(oid)) && OnlyOrder(d, d', oid)
                && d'.charges == d.charges && d'.timeoutKeys == d.timeoutKeys
                && d'.stock == d.stock + (if o.released then 0 else o.quantity)
                && d'.orders[oid] == o.(status := Cancelled, released := true)
              else d' == d && r == Reply(Some(if o.status == Cancelled then 200 else 409), Some(oid))
  {
  }

  /** A signed webhook: a known event or an unknown order changes nothing; otherwise the event is
      counted and marked, and a pending order is paid, or failed and its stock given back. */
  lemma WebhookMeans(d: Data, event: EventId, succeeded: bool, oid: OrderId)
    requires WellFormed(d)
    ensures var (d', r) := WebhookAtomic(d, event, succeeded, oid);
            if event in d.processed then d' == d && r == Reply(Some(200), None)
            else if oid !in d.orders then d' == d && r == Reply(Some(404), None)
            else
              var o := d.orders[oid];
              && r == Reply(Some(200), Some(oid)) && d'.processed == d.processed + {event}
              && d'.effects == d.effects[event := (if event in d.effects then d.effects[event] else 0) + 1]
              && OnlyOrder(d, d'.(processed := d.processed, effects := d.effects), oid)
              && d'.charges == d.charges && d'.timeoutKeys == d.timeoutKeys
              && if o.status != Pending then d'.stock == d.stock && d'.orders[oid] == o
                 else if succeeded then
                   && d'.stock == d.stock
                   && d'.orders[oid] == o.(status := Paid, chargeId := if Checkout(oid) in d.charges then Some(d.charges[Checkout(oid)].number) else o.chargeId)
                 else
                   && d'.stock == d.stock + (if o.released then 0 else o.quantity)
                   && d'.orders[oid] == o.(status := Failed, failureStatus := Some(402), released := true)
  {
    hide Apply;
    if oid in d.orders { ApplyMeans(d, succeeded, oid); }
  }

  lemma ApplyMeans(d: Data, succeeded: bool, oid: OrderId)
    requires oid in d.orders && d.orders[oid].id == oid
    ensures var d', o := Apply(d, succeeded, oid), d.orders[oid];
            && OnlyOrder(d, d', oid) && d'.charges == d.charges && d'.timeoutKeys == d.timeoutKeys
            && if o.status != Pending then d'.stock == d.stock && d'.orders[oid] == o
               else if succeeded then
                 && d'.stock == d.stock
                 && d'.orders[oid] == o.(status := Paid, chargeId := if Checkout(oid) in d.charges then Some(d.charges[Checkout(oid)].number) else o.chargeId)
               else
                 && d'.stock == d.stock + (if o.released then 0 else o.quantity)
                 && d'.orders[oid] == o.(status := Failed, failureStatus := Some(402), released := true)
  {
  }
}

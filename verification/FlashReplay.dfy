/** Handler-atomic runs: what a replayed creation does. */
module FlashReplay {
  import opened Prelude
  import opened FlashModel
  import opened FlashCoherence
  import opened FlashStock
  import opened FlashAtomic

  datatype Op =
    | CreateOp(identity: Identity, payload: Payload, drawn: OrderId)
    | CancelOp(user: User, oid: OrderId)
    | WebhookOp(event: EventId, succeeded: bool, oid: OrderId)

  /** Every order is coherent, entered, and accounted for against `total`. */
  ghost predicate Sane(d: Data, total: int) {
    && WellFormed(d)
    && d.stock + Total(d.orders, OrderHeld) == total
    && (forall oid :: oid in d.orders ==> Coherent(d, d.orders[oid]))
    && d.timeoutKeys <= d.charges.Keys
  }

  ghost predicate Fresh(d: Data, op: Op) {
    op.CreateOp? ==> op.drawn !in d.orders && Checkout(op.drawn) !in d.charges
                     && forall i :: i in d.idempotency ==> d.idempotency[i] != op.drawn
  }

  function Exec(d: Data, op: Op): (Data, Reply)
    requires WellFormed(d)
  {
    match op
    case CreateOp(identity, payload, drawn) => CreateAtomic(d, identity, payload, drawn)
    case CancelOp(user, oid) => CancelAtomic(d, user, oid)
    case WebhookOp(event, succeeded, oid) => WebhookAtomic(d, event, succeeded, oid)
  }

  /** Statuses reachable by allowed moves: a pending order may go anywhere, a failed or
      cancelled one stays. */
  predicate StatusLater(before: Status, after: Status) {
    before == after || before == Pending || (before == Paid && after == Cancelled)
  }

  /** What no later handler takes back. */
  ghost predicate Keeps(d: Data, d': Data) {
    && (forall i :: i in d.idempotency ==> i in d'.idempotency && d'.idempotency[i] == d.idempotency[i])
    && (forall oid :: oid in d.orders ==>
          && oid in d'.orders
          && d'.orders[oid].fingerprint == d.orders[oid].fingerprint
          && StatusLater(d.orders[oid].status, d'.orders[oid].status))
    && (forall key :: key in d.charges ==> key in d'.charges && d'.charges[key] == d.charges[key])
  }

  lemma GiveBackSane(d: Data, o: Order, total: int)
    requires Sane(d, total) && o.id in d.orders && SameButStatus(d.orders[o.id], o)
    requires !o.released && (o.status == Failed || o.status == Cancelled)
    requires o.status == Failed ==> o.failureStatus == Some(402)
    ensures Sane(GiveBack(Update(d, o), o.id), total)
  {
    var d1 := Update(d, o);
    TotalUpdate(d.orders, OrderHeld, o.id, o);
    TotalUpdate(d1.orders, OrderHeld, o.id, o.(released := true));
  }

  ghost predicate SameButStatus(o: Order, o': Order) {
    o' == o.(status := o'.status, failureStatus := o'.failureStatus, chargeId := o'.chargeId)
  }

  lemma PaidSane(d: Data, oid: OrderId, total: int)
    requires Sane(d, total) && oid in d.orders && Checkout(oid) in d.charges && !d.orders[oid].released
    ensures Sane(Update(d, d.orders[oid].(status := Paid, chargeId := Some(d.charges[Checkout(oid)].number))), total)
  {
    TotalUpdate(d.orders, OrderHeld, oid, d.orders[oid].(status := Paid, chargeId := Some(d.charges[Checkout(oid)].number)));
  }

  /** All of Sane but the order in hand, which is pending and still to be charged. */
  ghost predicate Opening(d: Data, oid: OrderId, total: int) {
    && WellFormed(d) && oid in d.orders
    && d.stock + Total(d.orders, OrderHeld) == total
    && (forall o :: o in d.orders && o != oid ==> Coherent(d, d.orders[o]))
    && d.timeoutKeys <= d.charges.Keys
    && d.orders[oid].status == Pending && !d.orders[oid].released
  }

  lemma SettleSane(d: Data, oid: OrderId, total: int)
    requires Opening(d, oid, total)
    ensures Sane(Settle(d, oid).0, total)
  {
    hide Total, OrderHeld;
    var o := d.orders[oid];
    var (d1, result) := ChargeOnce(d, Checkout(oid), o.total, o.token);
    match result
    case Charged(number) =>
      hide Sane, Opening, Coherent;
      ChargedSane(d, oid, total);
    case Declined =>
      hide Sane, Opening, Coherent;
      DeclineSane(d, oid, total);
    case TimedOut => hide Update, GiveBack;
  }

  lemma ChargedSane(d: Data, oid: OrderId, total: int)
    requires Opening(d, oid, total)
    requires ChargeOnce(d, Checkout(oid), d.orders[oid].total, d.orders[oid].token).1.Charged?
    ensures Sane(Settle(d, oid).0, total)
  {
    hide Total, OrderHeld, GiveBack;
    var o := d.orders[oid];
    var (d1, result) := ChargeOnce(d, Checkout(oid), o.total, o.token);
    TotalSame(d, o.(chargeId := Some(result.number), status := Paid));
  }

  lemma TotalSame(d: Data, o: Order)
    requires o.id in d.orders && o.released == d.orders[o.id].released && o.quantity == d.orders[o.id].quantity
    ensures Total(Update(d, o).orders, OrderHeld) == Total(d.orders, OrderHeld)
  {
    TotalUpdate(d.orders, OrderHeld, o.id, o);
  }

  lemma DeclineSane(d: Data, oid: OrderId, total: int)
    requires Opening(d, oid, total)
    ensures Sane(GiveBack(Update(d, d.orders[oid].(status := Failed, failureStatus := Some(402))), oid), total)
  {
    var o := d.orders[oid].(status := Failed, failureStatus := Some(402));
    TotalUpdate(d.orders, OrderHeld, oid, o);
    TotalUpdate(Update(d, o).orders, OrderHeld, oid, o.(released := true));
  }

  lemma CreateSane(d: Data, identity: Identity, p: Payload, drawn: OrderId, total: int)
    requires Sane(d, total) && Fresh(d, CreateOp(identity, p, drawn))
    ensures Sane(CreateAtomic(d, identity, p, drawn).0, total)
  {
    hide Settle, Total, OrderHeld;
    if identity in d.idempotency {
      var oid := d.idempotency[identity];
      if d.orders[oid].status == Pending { SettleSane(d, oid, total); }
    } else if p.productId == 1 && d.stock >= p.quantity {
      var o := NewOrder(drawn, identity.user, d.price, p);
      var d1 := Update(d.(stock := d.stock - p.quantity), o).(idempotency := d.idempotency[identity := drawn]);
      NewHeld(d, o);
      SettleSane(d1, drawn, total);
    }
  }

  lemma NewHeld(d: Data, o: Order)
    requires o.id !in d.orders && !o.released
    ensures Total(d.orders[o.id := o], OrderHeld) == Total(d.orders, OrderHeld) + o.quantity
  {
    TotalUpdate(d.orders, OrderHeld, o.id, o);
  }

  lemma CancelSane(d: Data, user: User, oid: OrderId, total: int)
    requires Sane(d, total)
    ensures Sane(CancelAtomic(d, user, oid).0, total)
  {
    hide Total;
    if oid in d.orders && d.orders[oid].status == Paid {
      GiveBackSane(d, d.orders[oid].(status := Cancelled), total);
    }
  }

  lemma WebhookSane(d: Data, event: EventId, succeeded: bool, oid: OrderId, total: int)
    requires Sane(d, total)
    ensures Sane(WebhookAtomic(d, event, succeeded, oid).0, total)
  {
    hide Total;
    if oid in d.orders && d.orders[oid].status == Pending {
      if succeeded {
        PaidSane(d, oid, total);
      } else {
        GiveBackSane(d, d.orders[oid].(status := Failed, failureStatus := Some(402)), total);
      }
    }
  }

  /** Handlers that do not interleave keep every order coherent and all stock accounted for. */
  lemma ExecSane(d: Data, op: Op, total: int)
    requires Sane(d, total) && Fresh(d, op)
    ensures Sane(Exec(d, op).0, total)
  {
    match op
    case CreateOp(identity, payload, drawn) => CreateSane(d, identity, payload, drawn, total);
    case CancelOp(user, oid) => CancelSane(d, user, oid, total);
    case WebhookOp(event, succeeded, oid) => WebhookSane(d, event, succeeded, oid, total);
  }

  /** Rewriting one order within the allowed moves, and adding charges, keeps everything else. */
  lemma KeepsOne(d: Data, d': Data, o: Order)
    requires o.id in d.orders && o.fingerprint == d.orders[o.id].fingerprint
    requires StatusLater(d.orders[o.id].status, o.status)
    requires d'.orders == d.orders[o.id := o] && d'.idempotency == d.idempotency
    requires forall key :: key in d.charges ==> key in d'.charges && d'.charges[key] == d.charges[key]
    ensures Keeps(d, d')
  {
  }

  lemma KeepsTrans(a: Data, b: Data, c: Data)
    requires Keeps(a, b) && Keeps(b, c)
    ensures Keeps(a, c)
  {
  }

  lemma SettleKeeps(d: Data, oid: OrderId)
    requires WellFormed(d) && oid in d.orders && d.orders[oid].status == Pending
    ensures Keeps(d, Settle(d, oid).0)
  {
    hide Keeps;
    var d' := Settle(d, oid).0;
    assert d'.orders == d.orders[oid := d'.orders[oid]];
    KeepsOne(d, d', d'.orders[oid]);
  }

  lemma PlaceKeeps(d: Data, identity: Identity, o: Order)
    requires o.id !in d.orders && identity !in d.idempotency
    ensures Keeps(d, Update(d.(stock := d.stock - o.quantity), o).(idempotency := d.idempotency[identity := o.id]))
  {
  }

  lemma CreateKeeps(d: Data, identity: Identity, p: Payload, drawn: OrderId)
    requires WellFormed(d) && drawn !in d.orders
    ensures Keeps(d, CreateAtomic(d, identity, p, drawn).0)
  {
    hide Settle, Keeps;
    assert Keeps(d, d) by { KeepsSelf(d); }
    if identity in d.idempotency {
      var oid := d.idempotency[identity];
      if d.orders[oid].status == Pending { SettleKeeps(d, oid); }
    } else if p.productId == 1 && d.stock >= p.quantity {
      var o := NewOrder(drawn, identity.user, d.price, p);
      var d1 := Update(d.(stock := d.stock - p.quantity), o).(idempotency := d.idempotency[identity := drawn]);
      PlaceKeeps(d, identity, o);
      SettleKeeps(d1, drawn);
      KeepsTrans(d, d1, Settle(d1, drawn).0);
    }
  }

  lemma KeepsSelf(d: Data)
    ensures Keeps(d, d)
  {
  }

  lemma CancelKeeps(d: Data, user: User, oid: OrderId)
    requires WellFormed(d)
    ensures Keeps(d, CancelAtomic(d, user, oid).0)
  {
    hide Keeps;
    KeepsSelf(d);
    if oid in d.orders && d.orders[oid].status == Paid {
      var o := d.orders[oid].(status := Cancelled);
      var o' := o.(released := true);
      assert d.orders[oid := o][oid := o'] == d.orders[oid := o'];
      KeepsOne(d, GiveBack(Update(d, o), oid), if o.released then o else o');
    }
  }

  lemma WebhookKeeps(d: Data, event: EventId, succeeded: bool, oid: OrderId)
    requires WellFormed(d)
    ensures Keeps(d, WebhookAtomic(d, event, succeeded, oid).0)
  {
    hide Apply;
    if event !in d.processed && oid in d.orders { ApplyKeeps(d, succeeded, oid); }
  }

  lemma ApplyKeeps(d: Data, succeeded: bool, oid: OrderId)
    requires WellFormed(d) && oid in d.orders
    ensures Keeps(d, Apply(d, succeeded, oid))
  {
    hide Keeps;
    KeepsSelf(d);
    var d' := Apply(d, succeeded, oid);
    assert d'.orders == d.orders[oid := d'.orders[oid]];
    KeepsOne(d, d', d'.orders[oid]);
  }

  lemma ExecKeeps(d: Data, op: Op, total: int)
    requires Sane(d, total) && Fresh(d, op)
    ensures Keeps(d, Exec(d, op).0)
  {
    hide Total, OrderHeld, CreateAtomic, CancelAtomic, WebhookAtomic, Keeps;
    match op
    case CreateOp(identity, payload, drawn) => CreateKeeps(d, identity, payload, drawn);
    case CancelOp(user, oid) => CancelKeeps(d, user, oid);
    case WebhookOp(event, succeeded, oid) => WebhookKeeps(d, event, succeeded, oid);
  }

  // ----- Whole histories ------------------------------------------------------------

  /** `ops` can run from `d`: each creation draws an id nobody has. */
  ghost predicate Feasible(d: Data, ops: seq<Op>, total: int)
    requires Sane(d, total)
    decreases |ops|
  {
    ops == [] ||
    (Fresh(d, ops[0]) && (ExecSane(d, ops[0], total); Feasible(Exec(d, ops[0]).0, ops[1..], total)))
  }

  ghost function After(d: Data, ops: seq<Op>, total: int): (d': Data)
    requires Sane(d, total) && Feasible(d, ops, total)
    decreases |ops|
  {
    if ops == [] then d else (ExecSane(d, ops[0], total); After(Exec(d, ops[0]).0, ops[1..], total))
  }

  lemma {:induction false} HistoryKeeps(d: Data, ops: seq<Op>, total: int)
    requires Sane(d, total) && Feasible(d, ops, total)
    ensures Sane(After(d, ops, total), total) && Keeps(d, After(d, ops, total))
    decreases |ops|
  {
    hide Total, OrderHeld, Exec;
    if ops != [] {
      ExecSane(d, ops[0], total);
      ExecKeeps(d, ops[0], total);
      HistoryKeeps(Exec(d, ops[0]).0, ops[1..], total);
    }
  }

  /** A creation that placed an order, any history after it, then the same creation again: if
      the order is settled by then, the replay changes nothing and names the same order; a
      declined order answers 402 again and any other 201. With another payload it answers 409. */
  lemma Replay(d: Data, identity: Identity, p: Payload, drawn: OrderId, ops: seq<Op>, again: OrderId, other: Payload, total: int)
    requires Sane(d, total) && Feasible(d, [CreateOp(identity, p, drawn)] + ops, total)
    requires var d1 := CreateAtomic(d, identity, p, drawn).0;
             identity in d1.idempotency && d1.idempotency[identity] in d1.orders
             && d1.orders[d1.idempotency[identity]].fingerprint == p
    ensures var (d1, r1) := CreateAtomic(d, identity, p, drawn);
            var d2 := After(d, [CreateOp(identity, p, drawn)] + ops, total);
            var oid := d1.idempotency[identity];
            && r1.about == Some(oid) && Sane(d2, total)
            && oid in d2.orders
            && (d2.orders[oid].status != Pending ==>
                  CreateAtomic(d2, identity, p, again)
                    == (d2, Reply(Some(if d2.orders[oid].status == Failed then 402 else 201), Some(oid))))
            && (other != p ==> CreateAtomic(d2, identity, other, again) == (d2, Reply(Some(409), Some(oid))))
  {
    hide Total, OrderHeld, CreateAtomic;
    var op := CreateOp(identity, p, drawn);
    var d1 := CreateAtomic(d, identity, p, drawn).0;
    assert ([op] + ops)[1..] == ops;
    ExecSane(d, op, total);
    HistoryKeeps(d1, ops, total);
    NamesOrder(d, identity, p, drawn);
    ReplayNow(After(d1, ops, total), identity, p, again, other, total);
  }

  lemma NamesOrder(d: Data, identity: Identity, p: Payload, drawn: OrderId)
    requires WellFormed(d)
    ensures var (d1, r1) := CreateAtomic(d, identity, p, drawn);
            identity in d1.idempotency ==> r1.about == Some(d1.idempotency[identity])
  {
  }

  lemma ReplayNow(d: Data, identity: Identity, p: Payload, again: OrderId, other: Payload, total: int)
    requires Sane(d, total) && identity in d.idempotency && d.orders[d.idempotency[identity]].fingerprint == p
    ensures var oid := d.idempotency[identity];
            && (d.orders[oid].status != Pending ==>
                  CreateAtomic(d, identity, p, again)
                    == (d, Reply(Some(if d.orders[oid].status == Failed then 402 else 201), Some(oid))))
            && (other != p ==> CreateAtomic(d, identity, other, again) == (d, Reply(Some(409), Some(oid))))
  {
  }

  /** A creation answered 504 leaves its order pending and charged; the same creation again
      pays the order with that charge and charges nothing more. */
  lemma RetryAfterTimeout(d: Data, identity: Identity, p: Payload, drawn: OrderId, again: OrderId, total: int)
    requires Sane(d, total) && Fresh(d, CreateOp(identity, p, drawn))
    requires CreateAtomic(d, identity, p, drawn).1.code == Some(504)
    requires WellFormed(CreateAtomic(d, identity, p, drawn).0)
    ensures var (d1, r1) := CreateAtomic(d, identity, p, drawn);
            var (d2, r2) := CreateAtomic(d1, identity, p, again);
            && r1.about.Some? && r2 == Reply(Some(201), r1.about)
            && d2.charges == d1.charges && |d1.charges| == |d.charges| + 1 && d2.stock == d1.stock
            && r1.about.value in d2.orders && d2.orders[r1.about.value].status == Paid
            && d2.orders[r1.about.value].chargeId == Some(|d1.charges|)
  {
    hide Total, OrderHeld, CreateAtomic;
    var (d1, r1) := CreateAtomic(d, identity, p, drawn);
    TimedOutState(d, identity, p, drawn, total);
    RetryPays(d1, identity, p, again, d1.idempotency[identity]);
  }

  /** What a creation answered 504 leaves behind. */
  lemma TimedOutState(d: Data, identity: Identity, p: Payload, drawn: OrderId, total: int)
    requires Sane(d, total) && Fresh(d, CreateOp(identity, p, drawn))
    requires CreateAtomic(d, identity, p, drawn).1.code == Some(504)
    ensures var (d1, r1) := CreateAtomic(d, identity, p, drawn);
            && identity in d1.idempotency
            && var oid := d1.idempotency[identity];
            && r1.about == Some(oid) && oid in d1.orders && d1.orders[oid].id == oid
            && d1.orders[oid].fingerprint == p && d1.orders[oid].status == Pending
            && Checkout(oid) in d1.charges && d1.charges[Checkout(oid)].number == |d1.charges| == |d.charges| + 1
  {
    hide Total, OrderHeld, GiveBack;
    SaneFailures(d, total);
    if identity in d.idempotency {
      var oid := d.idempotency[identity];
      if d.orders[oid].fingerprint == p && d.orders[oid].status == Pending { SettleTimesOut(d, oid); }
    } else if p.productId == 1 && d.stock >= p.quantity {
      var o := NewOrder(drawn, identity.user, d.price, p);
      SettleTimesOut(Update(d.(stock := d.stock - p.quantity), o).(idempotency := d.idempotency[identity := drawn]), drawn);
    }
  }

  lemma SaneFailures(d: Data, total: int)
    requires Sane(d, total)
    ensures forall oid :: oid in d.orders && d.orders[oid].status == Failed ==> d.orders[oid].failureStatus == Some(402)
  {
    hide Total, OrderHeld;
    forall oid | oid in d.orders && d.orders[oid].status == Failed ensures d.orders[oid].failureStatus == Some(402) {
      assert Coherent(d, d.orders[oid]);
    }
  }

  lemma SettleTimesOut(d: Data, oid: OrderId)
    requires oid in d.orders && d.orders[oid].id == oid && d.orders[oid].status == Pending
    ensures var (d1, r1) := Settle(d, oid);
            r1.code == Some(504) ==>
              && r1.about == Some(oid) && d1.orders == d.orders && d1.idempotency == d.idempotency
              && Checkout(oid) in d1.charges && d1.charges[Checkout(oid)].number == |d1.charges| == |d.charges| + 1
  {
    hide GiveBack, Update;
  }

  /** A charged pending order is paid with that charge. */
  lemma RetryPays(d: Data, identity: Identity, p: Payload, again: OrderId, oid: OrderId)
    requires WellFormed(d) && identity in d.idempotency && d.idempotency[identity] == oid
    requires oid in d.orders && d.orders[oid].fingerprint == p && d.orders[oid].status == Pending && Checkout(oid) in d.charges
    ensures var (d2, r2) := CreateAtomic(d, identity, p, again);
            && r2 == Reply(Some(201), Some(oid)) && d2.charges == d.charges && d2.stock == d.stock
            && oid in d2.orders && d2.orders[oid].status == Paid
            && d2.orders[oid].chargeId == Some(d.charges[Checkout(oid)].number)
  {
    hide GiveBack;
  }
}

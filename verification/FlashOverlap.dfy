/** What goes wrong when a webhook overlaps the settling of its order: three runs. */
module FlashOverlap {
  import opened Prelude
  import opened FlashModel
  import opened FlashInvariant
  import opened FlashRuns
  import opened FlashProgress
  import opened FlashCoherence
  import opened FlashAtomic
  import opened FlashTheorems

  // ----- From solo runs to runs of the system ---------------------------------------

  ghost predicate Steps(run: seq<Sys>) {
    |run| > 0 && forall i :: 0 <= i < |run| - 1 ==> Next(run[i], run[i + 1])
  }

  ghost predicate Reaches(s: Sys, s': Sys) {
    exists run: seq<Sys> :: Steps(run) && run[0] == s && run[|run| - 1] == s'
  }

  lemma ReachNone(s: Sys)
    ensures Reaches(s, s)
  {
    assert Steps([s]);
  }

  lemma ReachOne(s: Sys, s1: Sys, s2: Sys)
    requires Reaches(s, s1) && Next(s1, s2)
    ensures Reaches(s, s2)
  {
    hide Next;
    var run: seq<Sys> :| Steps(run) && run[0] == s && run[|run| - 1] == s1;
    var longer := run + [s2];
    assert longer[|run| - 1] == s1;
    forall i | 0 <= i < |longer| - 1 ensures Next(longer[i], longer[i + 1]) {
      if i < |run| - 1 { assert Next(run[i], run[i + 1]); }
    }
    assert Steps(longer) && longer[0] == s && longer[|longer| - 1] == s2;
  }

  /** Only drawing an order id looks at the drawn id. */
  lemma KeyedDrawFree(sh: Shared, me: nat, req: Request, lk: nat, k: KeyedPc, a: OrderId, b: OrderId)
    requires req.Create? && req.auth.Some? && req.key.Some? && !k.KBuild?
    ensures KeyedStep(sh, me, req, lk, k, a) == KeyedStep(sh, me, req, lk, k, b)
  {
  }

  lemma DrawFree(sh: Shared, me: nat, req: Request, pc: Pc, a: OrderId, b: OrderId)
    requires !(pc.Keyed? && pc.k.KBuild?)
    ensures Step(sh, me, req, pc, a) == Step(sh, me, req, pc, b)
  {
    if pc.Keyed? && req.Create? && req.auth.Some? && req.key.Some? {
      KeyedDrawFree(sh, me, req, pc.lk, pc.k, a, b);
    }
  }

  lemma KeyedIssued(sh: Shared, me: nat, req: Request, lk: nat, k: KeyedPc, drawn: OrderId)
    requires req.Create? && req.auth.Some? && req.key.Some? && KeyedStep(sh, me, req, lk, k, drawn).Move?
    ensures KeyedStep(sh, me, req, lk, k, drawn).sh.issued == sh.issued + (if k.KBuild? then {drawn} else {})
  {
  }

  lemma StepIssued(sh: Shared, me: nat, req: Request, pc: Pc, drawn: OrderId)
    requires Step(sh, me, req, pc, drawn).Move?
    ensures Step(sh, me, req, pc, drawn).sh.issued == sh.issued + (if pc.Keyed? && pc.k.KBuild? then {drawn} else {})
  {
    match pc
    case Keyed(lk, k) => KeyedIssued(sh, me, req, lk, k, drawn);
    case _ =>
  }

  /** A solo run of one request is a run of the system in which the others stand still. */
  lemma {:induction false} SoloReaches(c: Solo, s: Sys, pc: Pc, n: nat, sh': Shared, pc': Pc)
    requires c.me in s.threads && s.threads[c.me] == Thread(c.req, pc)
    requires Iterate(c, s.sh, pc, n) == Some((sh', pc'))
    requires c.drawn in s.sh.issued ==> Work(pc) < 19
    ensures Reaches(s, Sys(sh', s.threads[c.me := Thread(c.req, pc')]))
    ensures c.drawn in sh'.issued ==> Work(pc') < 19
  {
    hide Step, Work, Next;
    if n == 0 {
      assert s.threads[c.me := Thread(c.req, pc')] == s.threads;
      ReachNone(s);
    } else {
      var (sh1, pc1) := Iterate(c, s.sh, pc, n - 1).value;
      SoloReaches(c, s, pc, n - 1, sh1, pc1);
      var s1 := Sys(sh1, s.threads[c.me := Thread(c.req, pc1)]);
      var s2 := Sys(sh', s.threads[c.me := Thread(c.req, pc')]);
      StepWorks(sh1, c.me, c.req, pc1, c.drawn);
      StepIssued(sh1, c.me, c.req, pc1, c.drawn);
      BuildWork(pc1);
      SoloNext(c, s1, pc1, s2);
      ReachOne(s, s1, s2);
    }
  }

  lemma BuildWork(pc: Pc)
    ensures pc.Keyed? && pc.k.KBuild? ==> Work(pc) == 19
  {
  }

  lemma SoloNext(c: Solo, s1: Sys, pc1: Pc, s2: Sys)
    requires c.me in s1.threads && s1.threads[c.me] == Thread(c.req, pc1)
    requires pc1.Keyed? && pc1.k.KBuild? ==> c.drawn !in s1.sh.issued
    requires var m := Step(s1.sh, c.me, c.req, pc1, c.drawn);
             m.Move? && s2.sh == m.sh && s2.threads == s1.threads[c.me := Thread(c.req, m.next)]
    ensures Next(s1, s2)
  {
    hide Step;
    if pc1.Keyed? && pc1.k.KBuild? {
      assert Takes(s1, c.me, c.drawn, s2);
    } else {
      var n := FreshId(s1.sh.issued);
      DrawFree(s1.sh, c.me, c.req, pc1, c.drawn, OrderId(n));
      assert Takes(s1, c.me, OrderId(n), s2);
    }
    assert Advances(s1, s2);
  }

  lemma LeadsReaches(c: Solo, origin: Sys, s: Sys, pc: Pc, sh': Shared, pc': Pc) returns (s': Sys)
    requires Reaches(origin, s) && c.me in s.threads && s.threads[c.me] == Thread(c.req, pc)
    requires Leads(c, s.sh, pc, sh', pc')
    requires c.drawn in s.sh.issued ==> Work(pc) < 19
    ensures s' == Sys(sh', s.threads[c.me := Thread(c.req, pc')])
    ensures Reaches(origin, s')
  {
    hide Step, Work;
    s' := Sys(sh', s.threads[c.me := Thread(c.req, pc')]);
    var n: nat :| Iterate(c, s.sh, pc, n) == Some((sh', pc'));
    SoloReaches(c, s, pc, n, sh', pc');
    ReachTrans(origin, s, s');
  }

  lemma ReachTrans(a: Sys, b: Sys, e: Sys)
    requires Reaches(a, b) && Reaches(b, e)
    ensures Reaches(a, e)
  {
    hide Next;
    var first: seq<Sys> :| Steps(first) && first[0] == a && first[|first| - 1] == b;
    var second: seq<Sys> :| Steps(second) && second[0] == b && second[|second| - 1] == e;
    var both := first + second[1..];
    forall i | 0 <= i < |both| - 1 ensures Next(both[i], both[i + 1]) {
      if i < |first| - 1 {
        assert Next(first[i], first[i + 1]);
      } else {
        var j := i - (|first| - 1);
        assert both[i] == second[j] && both[i + 1] == second[j + 1];
        assert Next(second[j], second[j + 1]);
      }
    }
    assert Steps(both) && both[0] == a && both[|both| - 1] == e;
  }

  lemma ArriveReaches(origin: Sys, s: Sys, t: nat, req: Request) returns (s': Sys)
    requires Reaches(origin, s) && t !in s.threads
    ensures s' == s.(threads := s.threads[t := Thread(req, Start)]) && Reaches(origin, s')
  {
    s' := s.(threads := s.threads[t := Thread(req, Start)]);
    assert Arrives(s, t, req, s');
    ReachOne(origin, s, s');
  }

  // ----- The overlap -------------------------------------------------------------------

  /** A creation up to the moment before its order is charged. */
  lemma PlacedNotCharged(c: Solo, sh: Shared, p: Payload) returns (lk: nat, sh': Shared)
    requires c.req == Create(Some(BuyerA), Some("k"), p) && p.productId == 1
    requires sh == Shared(sh.d, Locks(map[], map[], 0), {}) && sh.d.idempotency == map[] && sh.d.orders == map[]
    requires sh.d.charges == map[] && sh.d.stock >= p.quantity
    ensures sh'.k.held == map[KeyLock(lk) := Hold(c.me, 1)] && sh'.issued == {c.drawn}
    ensures sh'.d == Update(sh.d.(stock := sh.d.stock - p.quantity), NewOrder(c.drawn, BuyerA, sh.d.price, p))
                       .(idempotency := map[Identity(BuyerA, "k") := c.drawn])
    ensures Leads(c, sh, Start, sh', Keyed(lk, KCharge(c.drawn, PAcquire)))
  {
    hide Leads;
    var l, k := SoloEntry(c, sh);
    lk := l;
    var sh1 := sh.(k := k);
    var a := Go(c, sh, Start, sh1, Keyed(lk, KLookup));
    SoloReserve(c, sh1, lk);
    var sh2 := sh1.(d := sh.d.(stock := sh.d.stock - p.quantity));
    Compose(c, sh, Start, sh1, Keyed(lk, KReserve(VAcquire)), sh2, Keyed(lk, KBuild));
    SoloPublish(c, sh2, lk);
    var o := NewOrder(c.drawn, BuyerA, sh.d.price, p);
    sh' := Shared(Update(sh2.d, o).(idempotency := sh.d.idempotency[Identity(BuyerA, "k") := c.drawn]), k, {c.drawn});
    assert sh2.issued + {c.drawn} == {c.drawn};
    Compose(c, sh, Start, sh2, Keyed(lk, KBuild), sh', Keyed(lk, KCharge(c.drawn, PAcquire)));
  }

  /** A creation up to the moment its charge is recorded but its order is not yet paid. */
  lemma ChargedNotPaid(c: Solo, sh: Shared, p: Payload) returns (lk: nat, sh': Shared)
    requires c.req == Create(Some(BuyerA), Some("k"), p) && p.productId == 1 && p.token == Other("approved")
    requires sh == Shared(sh.d, Locks(map[], map[], 0), {}) && sh.d.idempotency == map[] && sh.d.orders == map[]
    requires sh.d.charges == map[] && sh.d.stock >= p.quantity
    ensures sh'.k.held == map[KeyLock(lk) := Hold(c.me, 1)] && sh'.issued == {c.drawn}
    ensures sh'.d.orders == map[c.drawn := NewOrder(c.drawn, BuyerA, sh.d.price, p)]
    ensures sh'.d.stock == sh.d.stock - p.quantity && sh'.d.processed == sh.d.processed && sh'.d.effects == sh.d.effects
    ensures sh'.d.idempotency == map[Identity(BuyerA, "k") := c.drawn]
    ensures Leads(c, sh, Start, sh', Keyed(lk, KChargeId(c.drawn, 1)))
  {
    hide Leads;
    var o := NewOrder(c.drawn, BuyerA, sh.d.price, p);
    var l, sh3 := PlacedNotCharged(c, sh, p);
    lk := l;
    SoloCharge(c, sh3, lk, c.drawn);
    var (d, result) := ChargeOnce(sh3.d, Checkout(c.drawn), o.total, o.token);
    sh' := sh3.(d := d);
    Compose(c, sh, Start, sh3, Keyed(lk, KCharge(c.drawn, PAcquire)), sh', Keyed(lk, AfterCharge(c.drawn, result)));
  }

  /** Paid, yet its stock is back on the shelf. */
  ghost predicate SoldTwice(s: Sys, oid: OrderId) {
    oid in s.sh.d.orders && s.sh.d.orders[oid].status == Paid && s.sh.d.orders[oid].released
  }

  /** Without the no-overlap assumption coherence is false: a payment.failed webhook that runs
      between a creation's charge and its last writes leaves a paid order whose stock has been
      given back, after every request has been answered. */
  lemma OverlapBreaksCoherence(stock: nat, price: nat) returns (s: Sys)
    requires stock >= 1
    ensures Reaches(Init(stock, price), s) && Quiescent(s)
    ensures SoldTwice(s, OrderId(0)) && s.sh.d.stock == stock
  {
    hide Leads, Reaches, Step;
    var p := Payload(1, 1, None, Other("approved"));
    var c0 := Solo(0, Create(Some(BuyerA), Some("k"), p), OrderId(0));
    var c1 := Solo(1, Webhook(true, EventId(0), false, OrderId(0)), OrderId(1));
    var origin := Init(stock, price);
    ReachNone(origin);
    var s1 := ArriveReaches(origin, origin, 0, c0.req);
    var s2 := ArriveReaches(origin, s1, 1, c1.req);
    var lk, charged := ChargedNotPaid(c0, s2.sh, p);
    var s3 := LeadsReaches(c0, origin, s2, Start, charged, Keyed(lk, KChargeId(OrderId(0), 1)));
    WebhookAlone(c1, charged);
    var (d, reply) := WebhookAtomic(charged.d, EventId(0), false, OrderId(0));
    var s4 := LeadsReaches(c1, origin, s3, Start, charged.(d := d), Done(reply));
    s := FinishPaid(c0, origin, s4, lk, OrderId(0));
  }

  lemma FinishPaid(c: Solo, origin: Sys, s: Sys, lk: nat, oid: OrderId) returns (s': Sys)
    requires Admitted(c.req) && Reaches(origin, s) && c.me in s.threads
    requires s.threads[c.me] == Thread(c.req, Keyed(lk, KChargeId(oid, 1)))
    requires s.sh.k.held == map[KeyLock(lk) := Hold(c.me, 1)]
    requires oid in s.sh.d.orders && s.sh.d.orders[oid].id == oid
    ensures Reaches(origin, s')
    ensures s'.threads == s.threads[c.me := Thread(c.req, Done(Reply(Some(201), Some(oid))))]
    ensures s'.sh.d == Update(s.sh.d, s.sh.d.orders[oid].(chargeId := Some(1), status := Paid))
  {
    hide Leads, Reaches;
    var start := Keyed(lk, KChargeId(oid, 1));
    SoloPaid(c, s.sh, lk, oid, 1);
    var m := Go(c, s.sh, start,
                s.sh.(d := Update(s.sh.d, s.sh.d.orders[oid].(chargeId := Some(1), status := Paid))),
                Keyed(lk, KUnlock(Reply(Some(201), Some(oid)))));
    s' := LeadsReaches(c, origin, s, start, m.sh, m.next);
  }

  /** A creation from there to its answer, whoever holds the state lock. */
  lemma SettleReaches(c: Solo, origin: Sys, s: Sys, lk: nat, oid: OrderId) returns (s': Sys)
    requires Admitted(c.req) && Reaches(origin, s) && c.me in s.threads && c.drawn in s.sh.issued
    requires s.threads[c.me] == Thread(c.req, Keyed(lk, KCharge(oid, PAcquire)))
    requires KeyLock(lk) in s.sh.k.held && s.sh.k.held[KeyLock(lk)] == Hold(c.me, 1)
    requires InventoryLock !in s.sh.k.held && PaymentLock !in s.sh.k.held
    requires oid in s.sh.d.orders && s.sh.d.orders[oid].id == oid
    ensures Reaches(origin, s')
    ensures var (d, reply) := Settle(s.sh.d, oid);
            && s'.threads == s.threads[c.me := Thread(c.req, Done(reply))]
            && s'.sh == Shared(d, s.sh.k.(held := s.sh.k.held - {KeyLock(lk)}), s.sh.issued)
  {
    hide Leads, Reaches, Settle;
    var start := Keyed(lk, KCharge(oid, PAcquire));
    var (d, reply) := Settle(s.sh.d, oid);
    SoloSettle(c, s.sh, lk, oid);
    var m := Go(c, s.sh, start, s.sh.(d := d), Keyed(lk, KUnlock(reply)));
    s' := LeadsReaches(c, origin, s, start, m.sh, m.next);
  }

  /** A payment.succeeded webhook up to the moment it has found its order pending. */
  lemma FoundPending(c: Solo, sh: Shared) returns (sh': Shared)
    requires c.req.Webhook? && c.req.signed && c.req.succeeded && StateLock !in sh.k.held
    requires c.req.event !in sh.d.processed && c.req.orderId in sh.d.orders && sh.d.orders[c.req.orderId].status == Pending
    ensures sh' == sh.(k := sh.k.(held := sh.k.held[StateLock := Hold(c.me, 1)]))
    ensures Leads(c, sh, Start, sh', W(WPaid))
  {
    hide Leads;
    Begin(c, sh, Start);
    var a := Go(c, sh, Start, sh, Start);
    var b := Go(c, sh, Start, a.sh, a.next);
    sh' := b.sh;
    var e := Go(c, sh, Start, b.sh, b.next);
    var f := Go(c, sh, Start, e.sh, e.next);
    var g := Go(c, sh, Start, f.sh, f.next);
  }

  /** The rest of that webhook when there is no charge to be found. */
  lemma PaidUncharged(c: Solo, sh: Shared) returns (sh': Shared, reply: Reply)
    requires c.req.Webhook? && c.req.orderId in sh.d.orders && sh.d.orders[c.req.orderId].id == c.req.orderId
    requires sh.k.held == map[StateLock := Hold(c.me, 1)] && Checkout(c.req.orderId) !in sh.d.charges
    ensures sh'.d.orders == sh.d.orders[c.req.orderId := sh.d.orders[c.req.orderId].(status := Paid)]
    ensures sh'.d.stock == sh.d.stock && sh'.d.charges == sh.d.charges
    ensures Leads(c, sh, W(WPaid), sh', Done(reply))
  {
    hide Leads;
    var start := W(WPaid);
    Begin(c, sh, start);
    var a := Go(c, sh, start, sh, start);
    var b := Go(c, sh, start, a.sh, a.next);
    var e := Go(c, sh, start, b.sh, b.next);
    var f := Go(c, sh, start, e.sh, e.next);
    var g := Go(c, sh, start, f.sh, f.next);
    sh', reply := g.sh, g.next.reply;
  }

  lemma DeclinedData(d: Data, oid: OrderId)
    requires oid in d.orders && d.orders[oid].id == oid && d.orders[oid].token == Decline && !d.orders[oid].released
    requires Checkout(oid) !in d.charges
    ensures var (d1, reply) := Settle(d, oid);
            && d1.stock == d.stock + d.orders[oid].quantity && d1.charges == d.charges
            && oid in d1.orders && d1.orders[oid].id == oid && d1.orders[oid].released
  {
  }

  lemma UnchargedWebhook(d: Data, event: EventId, oid: OrderId)
    requires WellFormed(d) && event !in d.processed && oid in d.orders && d.orders[oid].status == Pending && Checkout(oid) !in d.charges
    ensures var d1 := WebhookAtomic(d, event, true, oid).0;
            d1.charges == d.charges && d1.timeoutKeys == d.timeoutKeys && d1.orders == d.orders[oid := d.orders[oid].(status := Paid)]
  {
  }

  lemma TimedOutData(d: Data, oid: OrderId)
    requires oid in d.orders && d.orders[oid].id == oid && d.orders[oid].token == TimeoutOnce
    requires Checkout(oid) !in d.charges && Checkout(oid) !in d.timeoutKeys
    ensures var d1 := Settle(d, oid).0; d1.orders == d.orders && Checkout(oid) in d1.charges
  {
  }

  /** A creation with its order placed but not charged, and a webhook for that order at its start. */
  lemma PlacedPair(stock: nat, price: nat, token: Token, c0: Solo, c1: Solo) returns (s: Sys, lk: nat)
    requires stock >= 1
    requires c0 == Solo(0, Create(Some(BuyerA), Some("k"), Payload(1, 1, None, token)), OrderId(0))
    requires c1 == Solo(1, Webhook(true, EventId(0), true, OrderId(0)), OrderId(1))
    ensures Reaches(Init(stock, price), s)
    ensures s.threads == map[0 := Thread(c0.req, Keyed(lk, KCharge(OrderId(0), PAcquire))), 1 := Thread(c1.req, Start)]
    ensures s.sh.k.held == map[KeyLock(lk) := Hold(0, 1)] && s.sh.issued == {OrderId(0)}
    ensures s.sh.d == Update(Init(stock - 1, price).sh.d, NewOrder(OrderId(0), BuyerA, price, Payload(1, 1, None, token)))
                       .(idempotency := map[Identity(BuyerA, "k") := OrderId(0)])
  {
    hide Leads, Reaches, Step, Work;
    var origin := Init(stock, price);
    ReachNone(origin);
    var s1 := ArriveReaches(origin, origin, 0, c0.req);
    var s2 := ArriveReaches(origin, s1, 1, c1.req);
    var l, placed := PlacedNotCharged(c0, s2.sh, c0.req.payload);
    lk := l;
    s := LeadsReaches(c0, origin, s2, Start, placed, Keyed(lk, KCharge(OrderId(0), PAcquire)));
  }

  /** The same end by way of the webhook's own PAID write: it finds the order pending, the creation
      is then declined and gives the stock back, and the webhook pays the failed order, for which
      there is no charge at all. */
  lemma DeclineBreaksCoherence(stock: nat, price: nat) returns (s: Sys)
    requires stock >= 1
    ensures Reaches(Init(stock, price), s) && Quiescent(s)
    ensures SoldTwice(s, OrderId(0)) && s.sh.d.stock == stock && s.sh.d.charges == map[]
  {
    hide Leads, Reaches, Step, Settle, Work;
    var oid, p := OrderId(0), Payload(1, 1, None, Decline);
    var c0 := Solo(0, Create(Some(BuyerA), Some("k"), p), oid);
    var c1 := Solo(1, Webhook(true, EventId(0), true, oid), OrderId(1));
    var s3, lk := PlacedPair(stock, price, Decline, c0, c1);
    PlacedData(stock, price, p);
    var found := FoundPending(c1, s3.sh);
    var s4 := LeadsReaches(c1, Init(stock, price), s3, Start, found, W(WPaid));
    hide Update, NewOrder;
    DeclinedData(s4.sh.d, oid);
    var s5 := SettleReaches(c0, Init(stock, price), s4, lk, oid);
    var paid, reply := PaidUncharged(c1, s5.sh);
    s := LeadsReaches(c1, Init(stock, price), s5, W(WPaid), paid, Done(reply));
  }

  lemma PlacedData(stock: nat, price: nat, p: Payload)
    requires stock >= 1 && p.quantity == 1
    ensures var d := Update(Init(stock - 1, price).sh.d, NewOrder(OrderId(0), BuyerA, price, p)).(idempotency := map[Identity(BuyerA, "k") := OrderId(0)]);
            && d.orders.Keys == {OrderId(0)} && d.stock == stock - 1 && d.charges == map[] && d.timeoutKeys == {} && d.processed == {}
            && WellFormed(d)
            && var o := d.orders[OrderId(0)];
            && o.id == OrderId(0) && o.token == p.token && o.quantity == 1 && o.status == Pending && !o.released && o.chargeId == None
  {
  }

  /** And a paid order that does not name its charge: the webhook pays it and looks the charge up
      before there is one, and the creation stores the charge but is answered 504. */
  lemma TimeoutLosesCharge(stock: nat, price: nat) returns (s: Sys)
    requires stock >= 1
    ensures Reaches(Init(stock, price), s) && Quiescent(s)
    ensures OrderId(0) in s.sh.d.orders && Checkout(OrderId(0)) in s.sh.d.charges
    ensures var o := s.sh.d.orders[OrderId(0)]; o.status == Paid && !o.released && o.chargeId == None
  {
    hide Leads, Reaches, Step, Settle, WebhookAtomic, Work;
    var oid, p := OrderId(0), Payload(1, 1, None, TimeoutOnce);
    var c0 := Solo(0, Create(Some(BuyerA), Some("k"), p), oid);
    var c1 := Solo(1, Webhook(true, EventId(0), true, oid), OrderId(1));
    var s3, lk := PlacedPair(stock, price, TimeoutOnce, c0, c1);
    PlacedData(stock, price, p);
    hide Update, NewOrder;
    WebhookAlone(c1, s3.sh);
    UnchargedWebhook(s3.sh.d, EventId(0), oid);
    var (d, reply) := WebhookAtomic(s3.sh.d, EventId(0), true, oid);
    var s4 := LeadsReaches(c1, Init(stock, price), s3, Start, s3.sh.(d := d), Done(reply));
    TimedOutData(d, oid);
    s := SettleReaches(c0, Init(stock, price), s4, lk, oid);
  }

  /** A webhook of failure up to the moment it has failed its order but not yet written the code. */
  lemma FailedUncoded(c: Solo, sh: Shared) returns (sh': Shared)
    requires c.req.Webhook? && c.req.signed && !c.req.succeeded && StateLock !in sh.k.held
    requires c.req.event !in sh.d.processed && c.req.orderId in sh.d.orders && sh.d.orders[c.req.orderId].status == Pending
    requires sh.d.orders[c.req.orderId].id == c.req.orderId
    ensures sh'.k.held == sh.k.held[StateLock := Hold(c.me, 1)] && sh'.issued == sh.issued
    ensures sh'.d == Update(sh.d, sh.d.orders[c.req.orderId].(status := Failed))
    ensures Leads(c, sh, Start, sh', W(WFailCode))
  {
    hide Leads;
    Begin(c, sh, Start);
    var a := Go(c, sh, Start, sh, Start);
    var b := Go(c, sh, Start, a.sh, a.next);
    var e := Go(c, sh, Start, b.sh, b.next);
    var f := Go(c, sh, Start, e.sh, e.next);
    var g := Go(c, sh, Start, f.sh, f.next);
    var h := Go(c, sh, Start, g.sh, g.next);
    sh' := h.sh;
  }

  /** A replay, from its identity's lock to the answer, that finds a failed order without a code. */
  lemma UncodedReplay(c: Solo, sh: Shared, lk: nat, oid: OrderId) returns (sh': Shared)
    requires Admitted(c.req) && IdentityOf(c.req) in sh.d.idempotency && sh.d.idempotency[IdentityOf(c.req)] == oid
    requires oid in sh.d.orders && sh.d.orders[oid].fingerprint == c.req.payload
    requires sh.d.orders[oid].status == Failed && sh.d.orders[oid].failureStatus == None
    requires KeyLock(lk) in sh.k.held && sh.k.held[KeyLock(lk)] == Hold(c.me, 1)
    ensures Leads(c, sh, Keyed(lk, KLookup), sh', Done(Reply(None, Some(oid))))
  {
    hide Leads;
    var start := Keyed(lk, KLookup);
    Begin(c, sh, start);
    var a := Go(c, sh, start, sh, start);
    var b := Go(c, sh, start, a.sh, a.next);
    var e := Go(c, sh, start, b.sh, b.next);
    var f := Go(c, sh, start, e.sh, e.next);
    var g := Go(c, sh, start, f.sh, f.next);
    sh' := g.sh;
  }

  /** A creation that timed out and has been answered, its order still pending. */
  lemma TimedOutOnce(stock: nat, price: nat, c: Solo, others: map<nat, Thread>, origin: Sys, s: Sys) returns (s': Sys)
    requires stock >= 1 && c == Solo(0, Create(Some(BuyerA), Some("k"), Payload(1, 1, None, TimeoutOnce)), OrderId(0))
    requires Reaches(origin, s) && 0 !in others && s.threads == others[0 := Thread(c.req, Start)]
    requires s.sh == Init(stock, price).sh
    ensures Reaches(origin, s') && s'.sh.k.held == map[] && s'.sh.issued == {OrderId(0)} && s'.sh.d.processed == {}
    ensures s'.threads == others[0 := Thread(c.req, Done(Reply(Some(504), Some(OrderId(0)))))]
    ensures s'.sh.d.idempotency == map[Identity(BuyerA, "k") := OrderId(0)]
    ensures s'.sh.d.orders == map[OrderId(0) := NewOrder(OrderId(0), BuyerA, price, c.req.payload)]
  {
    hide Leads, Reaches, Step, Settle, Work;
    var p := c.req.payload;
    var lk, placed := PlacedNotCharged(c, s.sh, p);
    var s1 := LeadsReaches(c, origin, s, Start, placed, Keyed(lk, KCharge(OrderId(0), PAcquire)));
    assert placed.d.orders == map[OrderId(0) := NewOrder(OrderId(0), BuyerA, price, p)];
    TimesOut(placed.d, OrderId(0));
    s' := SettleReaches(c, origin, s1, lk, OrderId(0));
    assert map[KeyLock(lk) := Hold(0, 1)] - {KeyLock(lk)} == map[];
  }

  lemma TimesOut(d: Data, oid: OrderId)
    requires oid in d.orders && d.orders[oid].id == oid && d.orders[oid].token == TimeoutOnce
    requires Checkout(oid) !in d.charges && Checkout(oid) !in d.timeoutKeys
    ensures var (d1, r) := Settle(d, oid);
            && d1.orders == d.orders && d1.idempotency == d.idempotency && d1.processed == d.processed
            && r == Reply(Some(504), Some(oid))
  {
  }

  /** A replay can be answered without any code: it finds its order failed by a webhook that has not
      yet written the failure code. */
  lemma ReplayWithoutCode(stock: nat, price: nat) returns (s: Sys)
    requires stock >= 1
    ensures Reaches(Init(stock, price), s)
    ensures 2 in s.threads && s.threads[2].req.Create? && s.threads[2].pc == Done(Reply(None, Some(OrderId(0))))
  {
    hide Leads, Reaches, Step, Work;
    var oid, p := OrderId(0), Payload(1, 1, None, TimeoutOnce);
    var c0 := Solo(0, Create(Some(BuyerA), Some("k"), p), oid);
    var c1 := Solo(1, Webhook(true, EventId(0), false, oid), OrderId(1));
    var c2 := Solo(2, Create(Some(BuyerA), Some("k"), p), OrderId(2));
    var origin := Init(stock, price);
    ReachNone(origin);
    var s1 := ArriveReaches(origin, origin, 1, c1.req);
    var s2 := ArriveReaches(origin, s1, 2, c2.req);
    var s3 := ArriveReaches(origin, s2, 0, c0.req);
    var s4 := TimedOutOnce(stock, price, c0, map[1 := Thread(c1.req, Start), 2 := Thread(c2.req, Start)], origin, s3);
    var lk, k := SoloEntry(c2, s4.sh);
    var s5 := LeadsReaches(c2, origin, s4, Start, s4.sh.(k := k), Keyed(lk, KLookup));
    var failed := FailedUncoded(c1, s5.sh);
    var s6 := LeadsReaches(c1, origin, s5, Start, failed, W(WFailCode));
    var answered := UncodedReplay(c2, s6.sh, lk, oid);
    s := LeadsReaches(c2, origin, s6, Keyed(lk, KLookup), answered, Done(Reply(None, Some(oid))));
  }
}

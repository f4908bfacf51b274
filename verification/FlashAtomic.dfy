/** What a request does when nothing interleaves with it: one function per handler, and
    the proof that the step machine, left alone, computes exactly that function. */
module FlashAtomic {
  import opened Prelude
  import opened FlashModel
  import opened FlashInvariant

  // ----- The handlers as functions --------------------------------------------

  ghost predicate WellFormed(d: Data) {
    && (forall i :: i in d.idempotency ==> d.idempotency[i] in d.orders)
    && (forall oid :: oid in d.orders ==> d.orders[oid].id == oid)
  }

  function Update(d: Data, o: Order): Data { d.(orders := d.orders[o.id := o]) }

  /** Gives an order's stock back unless that was done before. */
  function GiveBack(d: Data, oid: OrderId): Data
    requires oid in d.orders
  {
    var o := d.orders[oid];
    if o.released then d else Update(d.(stock := d.stock + o.quantity), o.(released := true))
  }

  /** Charges an operation key at most once: the new ledger, timeout keys, and outcome. */
  function ChargeLedger(charges: map<PaymentKey, Charge>, timeoutKeys: set<PaymentKey>,
                        key: PaymentKey, amount: int, token: Token): (map<PaymentKey, Charge>, set<PaymentKey>, ChargeResult)
  {
    if key in charges then (charges, timeoutKeys, Charged(charges[key].number))
    else if token == Decline then (charges, timeoutKeys, Declined)
    else
      var number := |charges| + 1;
      var after := charges[key := Charge(number, amount)];
      if token == TimeoutOnce && key !in timeoutKeys
      then (after, timeoutKeys + {key}, TimedOut)
      else (after, timeoutKeys, Charged(number))
  }

  function ChargeOnce(d: Data, key: PaymentKey, amount: int, token: Token): (Data, ChargeResult) {
    var (charges, timeoutKeys, result) := ChargeLedger(d.charges, d.timeoutKeys, key, amount, token);
    (d.(charges := charges, timeoutKeys := timeoutKeys), result)
  }

  /** Charges a pending order and records the outcome. */
  function Settle(d: Data, oid: OrderId): (Data, Reply)
    requires oid in d.orders && d.orders[oid].id == oid
  {
    var o := d.orders[oid];
    var (d1, result) := ChargeOnce(d, Checkout(oid), o.total, o.token);
    match result
    case Charged(number) => (Update(d1, o.(chargeId := Some(number), status := Paid)), Reply(Some(201), Some(oid)))
    case Declined =>
      (GiveBack(Update(d1, o.(status := Failed, failureStatus := Some(402))), oid), Reply(Some(402), Some(oid)))
    case TimedOut => (d1, Reply(Some(504), Some(oid)))
  }

  function CreateAtomic(d: Data, identity: Identity, p: Payload, drawn: OrderId): (Data, Reply)
    requires WellFormed(d)
  {
    if identity in d.idempotency then
      var oid := d.idempotency[identity];
      var o := d.orders[oid];
      if o.fingerprint != p then (d, Reply(Some(409), Some(oid)))
      else if o.status == Failed then (d, Reply(o.failureStatus, Some(oid)))
      else if o.status != Pending then (d, Reply(Some(201), Some(oid)))
      else Settle(d, oid)
    else if p.productId != 1 then (d, Reply(Some(404), None))
    else if d.stock < p.quantity then (d, Reply(Some(409), None))
    else
      var o := NewOrder(drawn, identity.user, d.price, p);
      Settle(Update(d.(stock := d.stock - p.quantity), o).(idempotency := d.idempotency[identity := drawn]), drawn)
  }

  function CancelAtomic(d: Data, user: User, oid: OrderId): (Data, Reply)
    requires WellFormed(d)
  {
    if oid !in d.orders then (d, Reply(Some(404), None)) else
    var o := d.orders[oid];
    if user != Admin && o.owner != user then (d, Reply(Some(403), Some(oid)))
    else if o.status == Cancelled then (d, Reply(Some(200), Some(oid)))
    else if o.status != Paid then (d, Reply(Some(409), Some(oid)))
    else (GiveBack(Update(d, o.(status := Cancelled)), oid), Reply(Some(200), Some(oid)))
  }

  /** A webhook's effect on the order it names. */
  function Apply(d: Data, succeeded: bool, oid: OrderId): Data
    requires oid in d.orders && d.orders[oid].id == oid
  {
    var o := d.orders[oid];
    if o.status != Pending then d
    else if !succeeded then GiveBack(Update(d, o.(status := Failed, failureStatus := Some(402))), oid)
    else if Checkout(oid) in d.charges then
      Update(d, o.(status := Paid, chargeId := Some(d.charges[Checkout(oid)].number)))
    else Update(d, o.(status := Paid))
  }

  function WebhookAtomic(d: Data, event: EventId, succeeded: bool, oid: OrderId): (Data, Reply)
    requires WellFormed(d)
  {
    if event in d.processed then (d, Reply(Some(200), None))
    else if oid !in d.orders then (d, Reply(Some(404), None))
    else
      var d1 := Apply(d, succeeded, oid);
      var count := (if event in d.effects then d.effects[event] else 0) + 1;
      (d1.(effects := d1.effects[event := count], processed := d1.processed + {event}), Reply(Some(200), Some(oid)))
  }

  // ----- Solo runs of the step machine ------------------------------------------

  datatype Solo = Solo(me: nat, req: Request, drawn: OrderId)

  function Iterate(c: Solo, sh: Shared, pc: Pc, n: nat): Option<(Shared, Pc)> {
    if n == 0 then Some((sh, pc))
    else match Iterate(c, sh, pc, n - 1)
         case None => None
         case Some((sh1, pc1)) =>
           var m := Step(sh1, c.me, c.req, pc1, c.drawn);
           if m.Blocked? then None else Some((m.sh, m.next))
  }

  ghost predicate Leads(c: Solo, sh: Shared, pc: Pc, sh': Shared, pc': Pc) {
    exists n: nat :: Iterate(c, sh, pc, n) == Some((sh', pc'))
  }

  lemma Begin(c: Solo, sh: Shared, pc: Pc)
    ensures Leads(c, sh, pc, sh, pc)
  {
    assert Iterate(c, sh, pc, 0) == Some((sh, pc));
  }

  /** One more step of a solo run. */
  lemma Go(c: Solo, sh: Shared, pc: Pc, sh1: Shared, pc1: Pc) returns (m: Move<Pc>)
    requires Leads(c, sh, pc, sh1, pc1)
    requires Step(sh1, c.me, c.req, pc1, c.drawn).Move?
    ensures m == Step(sh1, c.me, c.req, pc1, c.drawn)
    ensures Leads(c, sh, pc, m.sh, m.next)
  {
    m := Step(sh1, c.me, c.req, pc1, c.drawn);
    var n: nat :| Iterate(c, sh, pc, n) == Some((sh1, pc1));
    assert Iterate(c, sh, pc, n + 1) == Some((m.sh, m.next));
  }

  /** Solo runs compose. */
  lemma {:induction false} IterateAdd(c: Solo, sh: Shared, pc: Pc, n: nat, sh1: Shared, pc1: Pc, k: nat)
    requires Iterate(c, sh, pc, n) == Some((sh1, pc1))
    ensures Iterate(c, sh, pc, n + k) == Iterate(c, sh1, pc1, k)
  {
    hide Step;
    if k > 0 { IterateAdd(c, sh, pc, n, sh1, pc1, k - 1); }
  }

  lemma Compose(c: Solo, sh: Shared, pc: Pc, sh1: Shared, pc1: Pc, sh2: Shared, pc2: Pc)
    requires Leads(c, sh, pc, sh1, pc1) && Leads(c, sh1, pc1, sh2, pc2)
    ensures Leads(c, sh, pc, sh2, pc2)
  {
    var n: nat :| Iterate(c, sh, pc, n) == Some((sh1, pc1));
    var k: nat :| Iterate(c, sh1, pc1, k) == Some((sh2, pc2));
    IterateAdd(c, sh, pc, n, sh1, pc1, k);
  }

  /** From the front door to the identity's lock, with no other lock in the way. */
  lemma SoloEntry(c: Solo, sh: Shared) returns (lk: nat, k: Locks)
    requires Admitted(c.req) && sh.k.held == map[]
    ensures k.held == map[KeyLock(lk) := Hold(c.me, 1)]
    ensures Leads(c, sh, Start, sh.(k := k), Keyed(lk, KLookup))
  {
    Begin(c, sh, Start);
    var a := Go(c, sh, Start, sh, Start);
    var b := Go(c, sh, Start, a.sh, a.next);
    var e := Go(c, sh, Start, b.sh, b.next);
    lk := e.next.lk;
    var f := Go(c, sh, Start, e.sh, e.next);
    assert f.sh.k.held == map[];
    var g := Go(c, sh, Start, f.sh, f.next);
    k := g.sh.k;
    assert k.held == map[KeyLock(lk) := Hold(c.me, 1)];
  }

  /** Taking a free lock and giving it back leaves the locks as they were. */
  lemma TakeAndGive(k: Locks, l: Lock, me: nat)
    requires l !in k.held
    ensures Acquire(k, l, me).Some? && Release(Acquire(k, l, me).value, l, me) == Some(k)
  {
    assert k.held[l := Hold(me, 1)] - {l} == k.held;
  }

  lemma SoloReserve(c: Solo, sh: Shared, lk: nat)
    requires Admitted(c.req) && InventoryLock !in sh.k.held
    ensures var start := Keyed(lk, KReserve(VAcquire));
            if sh.d.stock < c.req.payload.quantity
            then Leads(c, sh, start, sh, Keyed(lk, KUnlock(Reply(Some(409), None))))
            else Leads(c, sh, start, sh.(d := sh.d.(stock := sh.d.stock - c.req.payload.quantity)), Keyed(lk, KBuild))
  {
    hide Leads;
    var start := Keyed(lk, KReserve(VAcquire));
    TakeAndGive(sh.k, InventoryLock, c.me);
    Begin(c, sh, start);
    var a := Go(c, sh, start, sh, start);
    var b := Go(c, sh, start, a.sh, a.next);
    if sh.d.stock < c.req.payload.quantity {
      var e := Go(c, sh, start, b.sh, b.next);
    } else {
      var e := Go(c, sh, start, b.sh, b.next);
      var f := Go(c, sh, start, e.sh, e.next);
      var g := Go(c, sh, start, f.sh, f.next);
    }
  }

  lemma SoloPublish(c: Solo, sh: Shared, lk: nat)
    requires Admitted(c.req)
    ensures var o := NewOrder(c.drawn, c.req.auth.value, sh.d.price, c.req.payload);
            var d := Update(sh.d, o).(idempotency := sh.d.idempotency[IdentityOf(c.req) := c.drawn]);
            Leads(c, sh, Keyed(lk, KBuild), Shared(d, sh.k, sh.issued + {c.drawn}), Keyed(lk, KCharge(c.drawn, PAcquire)))
  {
    var start := Keyed(lk, KBuild);
    Begin(c, sh, start);
    var a := Go(c, sh, start, sh, start);
    var b := Go(c, sh, start, a.sh, a.next);
    var e := Go(c, sh, start, b.sh, b.next);
  }

  /** Where order creation goes after the charge. */
  function AfterCharge(oid: OrderId, result: ChargeResult): KeyedPc {
    match result
    case Charged(number) => KChargeId(oid, number)
    case Declined => KFail(oid)
    case TimedOut => KUnlock(Reply(Some(504), Some(oid)))
  }

  lemma GoCharge(c: Solo, sh: Shared, pc: Pc, sh1: Shared, lk: nat, oid: OrderId, p: ChargePc) returns (m: Move<ChargePc>)
    requires Admitted(c.req) && !p.PUnlock?
    requires Leads(c, sh, pc, sh1, Keyed(lk, KCharge(oid, p)))
    requires ChargeStep(sh1, c.me, oid, p).Move?
    ensures m == ChargeStep(sh1, c.me, oid, p)
    ensures Leads(c, sh, pc, m.sh, Keyed(lk, KCharge(oid, m.next)))
  {
    m := ChargeStep(sh1, c.me, oid, p);
    var n := Go(c, sh, pc, sh1, Keyed(lk, KCharge(oid, p)));
  }

  /** A charge not made before: number it, store it, and time out once if the token says so. */
  lemma SoloNewCharge(c: Solo, sh: Shared, lk: nat, oid: OrderId) returns (d: Data, result: ChargeResult)
    requires Admitted(c.req) && oid in sh.d.orders && sh.d.orders[oid].id == oid
    requires Checkout(oid) !in sh.d.charges && sh.d.orders[oid].token != Decline
    ensures (d, result) == ChargeOnce(sh.d, Checkout(oid), sh.d.orders[oid].total, sh.d.orders[oid].token)
    ensures Leads(c, sh, Keyed(lk, KCharge(oid, PNumber)), sh.(d := d), Keyed(lk, KCharge(oid, PUnlock(result))))
  {
    hide Leads;
    var start := Keyed(lk, KCharge(oid, PNumber));
    Begin(c, sh, start);
    var f := GoCharge(c, sh, start, sh, lk, oid, PNumber);
    var g := GoCharge(c, sh, start, f.sh, lk, oid, f.next);
    var h := GoCharge(c, sh, start, g.sh, lk, oid, g.next);
    if h.next.PMark? {
      var i := GoCharge(c, sh, start, h.sh, lk, oid, h.next);
      d, result := i.sh.d, TimedOut;
    } else {
      d, result := h.sh.d, Charged(|sh.d.charges| + 1);
    }
  }

  lemma SoloCharge(c: Solo, sh: Shared, lk: nat, oid: OrderId)
    requires Admitted(c.req) && PaymentLock !in sh.k.held
    requires oid in sh.d.orders && sh.d.orders[oid].id == oid
    ensures var o := sh.d.orders[oid];
            var (d, result) := ChargeOnce(sh.d, Checkout(oid), o.total, o.token);
            Leads(c, sh, Keyed(lk, KCharge(oid, PAcquire)), sh.(d := d), Keyed(lk, AfterCharge(oid, result)))
  {
    var start := Keyed(lk, KCharge(oid, PAcquire));
    var o := sh.d.orders[oid];
    TakeAndGive(sh.k, PaymentLock, c.me);
    Begin(c, sh, start);
    var a := Go(c, sh, start, sh, start);
    var b := Go(c, sh, start, a.sh, a.next);
    if Checkout(oid) !in sh.d.charges && o.token != Decline {
      var d, result := SoloNewCharge(c, b.sh, lk, oid);
      Compose(c, sh, start, b.sh, b.next, b.sh.(d := d), Keyed(lk, KCharge(oid, PUnlock(result))));
      var e := Go(c, sh, start, b.sh.(d := d), Keyed(lk, KCharge(oid, PUnlock(result))));
    } else {
      var e := Go(c, sh, start, b.sh, b.next);
    }
  }

  lemma SoloPaid(c: Solo, sh: Shared, lk: nat, oid: OrderId, number: nat)
    requires Admitted(c.req) && oid in sh.d.orders && sh.d.orders[oid].id == oid
    ensures Leads(c, sh, Keyed(lk, KChargeId(oid, number)),
                  sh.(d := Update(sh.d, sh.d.orders[oid].(chargeId := Some(number), status := Paid))),
                  Keyed(lk, KUnlock(Reply(Some(201), Some(oid)))))
  {
    var start := Keyed(lk, KChargeId(oid, number));
    Begin(c, sh, start);
    var a := Go(c, sh, start, sh, start);
    var b := Go(c, sh, start, a.sh, a.next);
    assert b.sh.d.orders == sh.d.orders[oid := sh.d.orders[oid].(chargeId := Some(number), status := Paid)];
  }

  /** The three call sites of the stock release. */
  datatype Site = InCreate(lk: nat, oid: OrderId) | InCancel | InWebhook

  function PcAt(site: Site, r: ReleasePc): Pc {
    match site
    case InCreate(lk, oid) => Keyed(lk, KRelease(oid, r))
    case InCancel => X(XRelease(r))
    case InWebhook => W(WRelease(r))
  }

  ghost predicate SiteOf(site: Site, req: Request, oid: OrderId) {
    match site
    case InCreate(_, o) => Admitted(req) && o == oid
    case InCancel => req.Cancel? && req.auth.Some? && req.orderId == oid
    case InWebhook => req.Webhook? && req.orderId == oid
  }

  function AfterRelease(site: Site, oid: OrderId): Pc {
    match site
    case InCreate(lk, _) => Keyed(lk, KUnlock(Reply(Some(402), Some(oid))))
    case InCancel => X(XUnlock(Reply(Some(200), Some(oid))))
    case InWebhook => W(WEffect)
  }

  lemma GoRelease(c: Solo, sh: Shared, pc: Pc, sh1: Shared, site: Site, oid: OrderId, r: ReleasePc) returns (m: Move<ReleasePc>)
    requires SiteOf(site, c.req, oid) && !r.RUnlock?
    requires Leads(c, sh, pc, sh1, PcAt(site, r))
    requires ReleaseStep(sh1, c.me, oid, r).Move?
    ensures m == ReleaseStep(sh1, c.me, oid, r)
    ensures Leads(c, sh, pc, m.sh, PcAt(site, m.next))
  {
    m := ReleaseStep(sh1, c.me, oid, r);
    var n := Go(c, sh, pc, sh1, PcAt(site, r));
  }

  lemma GoLeave(c: Solo, sh: Shared, pc: Pc, sh1: Shared, site: Site, oid: OrderId) returns (k: Locks)
    requires SiteOf(site, c.req, oid) && oid in sh1.d.orders
    requires Leads(c, sh, pc, sh1, PcAt(site, RUnlock))
    requires Release(sh1.k, InventoryLock, c.me).Some?
    ensures Release(sh1.k, InventoryLock, c.me) == Some(k)
    ensures Leads(c, sh, pc, sh1.(k := k), AfterRelease(site, oid))
  {
    k := Release(sh1.k, InventoryLock, c.me).value;
    var n := Go(c, sh, pc, sh1, PcAt(site, RUnlock));
  }

  lemma SoloRelease(c: Solo, sh: Shared, site: Site, oid: OrderId)
    requires SiteOf(site, c.req, oid) && InventoryLock !in sh.k.held
    requires oid in sh.d.orders && sh.d.orders[oid].id == oid
    ensures Leads(c, sh, PcAt(site, RAcquire), sh.(d := GiveBack(sh.d, oid)), AfterRelease(site, oid))
  {
    hide Leads;
    var start := PcAt(site, RAcquire);
    TakeAndGive(sh.k, InventoryLock, c.me);
    Begin(c, sh, start);
    var a := GoRelease(c, sh, start, sh, site, oid, RAcquire);
    var b := GoRelease(c, sh, start, a.sh, site, oid, RCheck);
    if sh.d.orders[oid].released {
      var k := GoLeave(c, sh, start, b.sh, site, oid);
    } else {
      var e := GoRelease(c, sh, start, b.sh, site, oid, b.next);
      var f := GoRelease(c, sh, start, e.sh, site, oid, e.next);
      var g := GoRelease(c, sh, start, f.sh, site, oid, f.next);
      var k := GoLeave(c, sh, start, g.sh, site, oid);
    }
  }

  lemma SoloDeclined(c: Solo, sh: Shared, lk: nat, oid: OrderId)
    requires Admitted(c.req) && InventoryLock !in sh.k.held
    requires oid in sh.d.orders && sh.d.orders[oid].id == oid
    ensures var o := sh.d.orders[oid];
            Leads(c, sh, Keyed(lk, KFail(oid)),
                  sh.(d := GiveBack(Update(sh.d, o.(status := Failed, failureStatus := Some(402))), oid)),
                  Keyed(lk, KUnlock(Reply(Some(402), Some(oid)))))
  {
    var o := sh.d.orders[oid];
    var start := Keyed(lk, KFail(oid));
    Begin(c, sh, start);
    var a := Go(c, sh, start, sh, start);
    var b := Go(c, sh, start, a.sh, a.next);
    assert b.sh.d.orders == sh.d.orders[oid := o.(status := Failed, failureStatus := Some(402))];
    SoloRelease(c, b.sh, InCreate(lk, oid), oid);
    Compose(c, sh, start, b.sh, b.next, b.sh.(d := GiveBack(b.sh.d, oid)), Keyed(lk, KUnlock(Reply(Some(402), Some(oid)))));
  }

  /** A pending order, from taking it in hand to the answer. */
  lemma SoloSettle(c: Solo, sh: Shared, lk: nat, oid: OrderId)
    requires Admitted(c.req) && InventoryLock !in sh.k.held && PaymentLock !in sh.k.held
    requires oid in sh.d.orders && sh.d.orders[oid].id == oid
    ensures var (d, reply) := Settle(sh.d, oid);
            Leads(c, sh, Keyed(lk, KCharge(oid, PAcquire)), sh.(d := d), Keyed(lk, KUnlock(reply)))
  {
    hide Leads;
    var o := sh.d.orders[oid];
    var start := Keyed(lk, KCharge(oid, PAcquire));
    var (d, result) := ChargeOnce(sh.d, Checkout(oid), o.total, o.token);
    var sh1 := sh.(d := d);
    SoloCharge(c, sh, lk, oid);
    assert d.orders == sh.d.orders;
    match result
    case Charged(number) =>
      SoloPaid(c, sh1, lk, oid, number);
      Compose(c, sh, start, sh1, Keyed(lk, KChargeId(oid, number)),
              sh1.(d := Update(d, o.(chargeId := Some(number), status := Paid))), Keyed(lk, KUnlock(Reply(Some(201), Some(oid)))));
    case Declined =>
      SoloDeclined(c, sh1, lk, oid);
      Compose(c, sh, start, sh1, Keyed(lk, KFail(oid)),
              sh1.(d := GiveBack(Update(d, o.(status := Failed, failureStatus := Some(402))), oid)),
              Keyed(lk, KUnlock(Reply(Some(402), Some(oid)))));
    case TimedOut =>
  }

  /** Order creation under the identity's lock. */
  lemma SoloCreate(c: Solo, sh: Shared, lk: nat) returns (issued: set<OrderId>)
    requires Admitted(c.req) && WellFormed(sh.d) && c.drawn !in sh.d.orders
    requires InventoryLock !in sh.k.held && PaymentLock !in sh.k.held
    ensures var (d, reply) := CreateAtomic(sh.d, IdentityOf(c.req), c.req.payload, c.drawn);
            Leads(c, sh, Keyed(lk, KLookup), Shared(d, sh.k, issued), Keyed(lk, KUnlock(reply)))
  {
    issued := sh.issued;
    var start := Keyed(lk, KLookup);
    Begin(c, sh, start);
    var a := Go(c, sh, start, sh, start);
    if IdentityOf(c.req) in sh.d.idempotency {
      SoloReplay(c, sh, lk);
    } else if c.req.payload.productId == 1 {
      issued := SoloNewOrder(c, sh, lk);
    }
  }

  lemma SoloReplay(c: Solo, sh: Shared, lk: nat)
    requires Admitted(c.req) && WellFormed(sh.d) && IdentityOf(c.req) in sh.d.idempotency
    requires InventoryLock !in sh.k.held && PaymentLock !in sh.k.held
    ensures var (d, reply) := CreateAtomic(sh.d, IdentityOf(c.req), c.req.payload, c.drawn);
            Leads(c, sh, Keyed(lk, KLookup), sh.(d := d), Keyed(lk, KUnlock(reply)))
  {
    var start := Keyed(lk, KLookup);
    var oid := sh.d.idempotency[IdentityOf(c.req)];
    var o := sh.d.orders[oid];
    Begin(c, sh, start);
    var a := Go(c, sh, start, sh, start);
    var b := Go(c, sh, start, a.sh, a.next);
    if o.fingerprint == c.req.payload {
      var e := Go(c, sh, start, b.sh, b.next);
      var f := Go(c, sh, start, e.sh, e.next);
      if o.status == Pending {
        SoloSettle(c, sh, lk, oid);
        var (d, reply) := Settle(sh.d, oid);
        Compose(c, sh, start, sh, Keyed(lk, KCharge(oid, PAcquire)), sh.(d := d), Keyed(lk, KUnlock(reply)));
      }
    }
  }

  lemma SoloNewOrder(c: Solo, sh: Shared, lk: nat) returns (issued: set<OrderId>)
    requires Admitted(c.req) && WellFormed(sh.d) && c.drawn !in sh.d.orders
    requires IdentityOf(c.req) !in sh.d.idempotency && c.req.payload.productId == 1
    requires InventoryLock !in sh.k.held && PaymentLock !in sh.k.held
    ensures var (d, reply) := CreateAtomic(sh.d, IdentityOf(c.req), c.req.payload, c.drawn);
            Leads(c, sh, Keyed(lk, KLookup), Shared(d, sh.k, issued), Keyed(lk, KUnlock(reply)))
  {
    hide Leads, ChargeOnce;
    var start := Keyed(lk, KLookup);
    Begin(c, sh, start);
    var a := Go(c, sh, start, sh, start);
    SoloReserve(c, sh, lk);
    issued := sh.issued;
    if sh.d.stock < c.req.payload.quantity {
      Compose(c, sh, start, sh, a.next, sh, Keyed(lk, KUnlock(Reply(Some(409), None))));
    } else {
      var sh1 := sh.(d := sh.d.(stock := sh.d.stock - c.req.payload.quantity));
      Compose(c, sh, start, sh, a.next, sh1, Keyed(lk, KBuild));
      SoloPublish(c, sh1, lk);
      issued := sh.issued + {c.drawn};
      var o := NewOrder(c.drawn, c.req.auth.value, sh.d.price, c.req.payload);
      var sh2 := Shared(Update(sh1.d, o).(idempotency := sh.d.idempotency[IdentityOf(c.req) := c.drawn]), sh.k, issued);
      Compose(c, sh, start, sh1, Keyed(lk, KBuild), sh2, Keyed(lk, KCharge(c.drawn, PAcquire)));
      SoloSettle(c, sh2, lk, c.drawn);
      var (d, reply) := Settle(sh2.d, c.drawn);
      Compose(c, sh, start, sh2, Keyed(lk, KCharge(c.drawn, PAcquire)), sh2.(d := d), Keyed(lk, KUnlock(reply)));
    }
  }

  // ----- Handlers that run alone ---------------------------------------------------

  /** A creation that runs alone does what CreateAtomic says, and leaves no lock behind. */
  lemma CreateAlone(c: Solo, sh: Shared) returns (sh': Shared)
    requires Admitted(c.req) && WellFormed(sh.d) && c.drawn !in sh.d.orders && sh.k.held == map[]
    ensures sh'.k.held == map[]
    ensures var (d, reply) := CreateAtomic(sh.d, IdentityOf(c.req), c.req.payload, c.drawn);
            sh'.d == d && Leads(c, sh, Start, sh', Done(reply))
  {
    var lk, k := SoloEntry(c, sh);
    var sh1 := sh.(k := k);
    var issued := SoloCreate(c, sh1, lk);
    var (d, reply) := CreateAtomic(sh.d, IdentityOf(c.req), c.req.payload, c.drawn);
    var sh2 := Shared(d, k, issued);
    Compose(c, sh, Start, sh1, Keyed(lk, KLookup), sh2, Keyed(lk, KUnlock(reply)));
    var m := Go(c, sh, Start, sh2, Keyed(lk, KUnlock(reply)));
    sh' := m.sh;
    assert sh'.k.held == map[];
  }

  lemma CancelAlone(c: Solo, sh: Shared)
    requires c.req.Cancel? && c.req.auth.Some? && WellFormed(sh.d)
    requires StateLock !in sh.k.held && InventoryLock !in sh.k.held
    ensures var (d, reply) := CancelAtomic(sh.d, c.req.auth.value, c.req.orderId);
            Leads(c, sh, Start, sh.(d := d), Done(reply))
  {
    hide Leads;
    var (d, reply) := CancelAtomic(sh.d, c.req.auth.value, c.req.orderId);
    TakeAndGive(sh.k, StateLock, c.me);
    Begin(c, sh, Start);
    var a := Go(c, sh, Start, sh, Start);
    var b := Go(c, sh, Start, a.sh, a.next);
    SoloCancel(c, b.sh);
    Compose(c, sh, Start, b.sh, b.next, b.sh.(d := d), X(XUnlock(reply)));
    var m := Go(c, sh, Start, b.sh.(d := d), X(XUnlock(reply)));
  }

  lemma SoloCancel(c: Solo, sh: Shared)
    requires c.req.Cancel? && c.req.auth.Some? && WellFormed(sh.d) && InventoryLock !in sh.k.held
    ensures var (d, reply) := CancelAtomic(sh.d, c.req.auth.value, c.req.orderId);
            Leads(c, sh, X(XLookup), sh.(d := d), X(XUnlock(reply)))
  {
    hide Leads;
    var start, oid := X(XLookup), c.req.orderId;
    Begin(c, sh, start);
    var a := Go(c, sh, start, sh, start);
    if a.next == X(XCancelled) {
      var b := Go(c, sh, start, sh, a.next);
      if b.next == X(XPaid) {
        var e := Go(c, sh, start, sh, b.next);
        if e.next == X(XWrite) {
          var f := Go(c, sh, start, sh, e.next);
          SoloRelease(c, f.sh, InCancel, oid);
          Compose(c, sh, start, f.sh, f.next, f.sh.(d := GiveBack(f.sh.d, oid)), X(XUnlock(Reply(Some(200), Some(oid)))));
        }
      }
    }
  }

  lemma WebhookAlone(c: Solo, sh: Shared)
    requires c.req.Webhook? && c.req.signed && WellFormed(sh.d)
    requires StateLock !in sh.k.held && InventoryLock !in sh.k.held
    ensures var (d, reply) := WebhookAtomic(sh.d, c.req.event, c.req.succeeded, c.req.orderId);
            Leads(c, sh, Start, sh.(d := d), Done(reply))
  {
    hide Leads;
    var (d, reply) := WebhookAtomic(sh.d, c.req.event, c.req.succeeded, c.req.orderId);
    TakeAndGive(sh.k, StateLock, c.me);
    Begin(c, sh, Start);
    var a := Go(c, sh, Start, sh, Start);
    var b := Go(c, sh, Start, a.sh, a.next);
    SoloWebhook(c, b.sh);
    Compose(c, sh, Start, b.sh, b.next, b.sh.(d := d), W(WUnlock(reply)));
    var m := Go(c, sh, Start, b.sh.(d := d), W(WUnlock(reply)));
  }

  lemma SoloWebhook(c: Solo, sh: Shared)
    requires c.req.Webhook? && WellFormed(sh.d) && InventoryLock !in sh.k.held
    ensures var (d, reply) := WebhookAtomic(sh.d, c.req.event, c.req.succeeded, c.req.orderId);
            Leads(c, sh, W(WSeen), sh.(d := d), W(WUnlock(reply)))
  {
    hide Leads, GiveBack;
    var start := W(WSeen);
    Begin(c, sh, start);
    var a := Go(c, sh, start, sh, start);
    if a.next == W(WLookup) {
      var b := Go(c, sh, start, sh, a.next);
      if b.next == W(WStatus) {
        var d1 := SoloApply(c, sh);
        Compose(c, sh, start, sh, b.next, sh.(d := d1), W(WEffect));
        var e := Go(c, sh, start, sh.(d := d1), W(WEffect));
        var f := Go(c, sh, start, e.sh, e.next);
      }
    }
  }

  lemma SoloApplyPaid(c: Solo, sh: Shared) returns (d: Data)
    requires c.req.Webhook?
    requires c.req.orderId in sh.d.orders && sh.d.orders[c.req.orderId].id == c.req.orderId
    requires sh.d.orders[c.req.orderId].status == Pending
    ensures d == Apply(sh.d, true, c.req.orderId)
    ensures Leads(c, sh, W(WPaid), sh.(d := d), W(WEffect))
  {
    hide Leads;
    var start, oid := W(WPaid), c.req.orderId;
    Begin(c, sh, start);
    var b := Go(c, sh, start, sh, start);
    var e := Go(c, sh, start, b.sh, b.next);
    d := Apply(sh.d, true, oid);
    if Checkout(oid) in sh.d.charges {
      var f := Go(c, sh, start, e.sh, e.next);
      assert f.sh.d.orders == d.orders;
    }
  }

  lemma SoloApplyFailed(c: Solo, sh: Shared) returns (d: Data)
    requires c.req.Webhook? && InventoryLock !in sh.k.held
    requires c.req.orderId in sh.d.orders && sh.d.orders[c.req.orderId].id == c.req.orderId
    requires sh.d.orders[c.req.orderId].status == Pending
    ensures d == Apply(sh.d, false, c.req.orderId)
    ensures Leads(c, sh, W(WFail), sh.(d := d), W(WEffect))
  {
    hide Leads;
    var start, oid := W(WFail), c.req.orderId;
    var o := sh.d.orders[oid];
    Begin(c, sh, start);
    var b := Go(c, sh, start, sh, start);
    var e := Go(c, sh, start, b.sh, b.next);
    assert e.sh.d.orders == sh.d.orders[oid := o.(status := Failed, failureStatus := Some(402))];
    SoloRelease(c, e.sh, InWebhook, oid);
    d := GiveBack(e.sh.d, oid);
    Compose(c, sh, start, e.sh, e.next, e.sh.(d := d), W(WEffect));
  }

  lemma SoloApply(c: Solo, sh: Shared) returns (d: Data)
    requires c.req.Webhook? && InventoryLock !in sh.k.held
    requires c.req.orderId in sh.d.orders && sh.d.orders[c.req.orderId].id == c.req.orderId
    ensures d == Apply(sh.d, c.req.succeeded, c.req.orderId)
    ensures d.effects == sh.d.effects && d.processed == sh.d.processed
    ensures Leads(c, sh, W(WStatus), sh.(d := d), W(WEffect))
  {
    hide Leads;
    Begin(c, sh, W(WStatus));
    var a := Go(c, sh, W(WStatus), sh, W(WStatus));
    if a.next == W(WPaid) {
      d := SoloApplyPaid(c, sh);
      Compose(c, sh, W(WStatus), sh, a.next, sh.(d := d), W(WEffect));
    } else if a.next == W(WFail) {
      d := SoloApplyFailed(c, sh);
      Compose(c, sh, W(WStatus), sh, a.next, sh.(d := d), W(WEffect));
    } else {
      d := sh.d;
    }
  }
}

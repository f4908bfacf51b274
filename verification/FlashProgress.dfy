/** Lock order, deadlock freedom, and completion of every finite set of requests. */
module FlashProgress {
  import opened Prelude
  import opened FlashModel
  import opened FlashInvariant
  import opened FlashSteps
  import opened FlashRuns

  /** The lock a request is about to take. */
  function Wants(pc: Pc): Option<Lock> {
    match pc
    case TableAcquire => Some(StateLock)
    case StateAcquire => Some(StateLock)
    case KeyAcquire(lk) => Some(KeyLock(lk))
    case Keyed(_, k) =>
      (match k
       case KReserve(v) => if v.VAcquire? then Some(InventoryLock) else None
       case KRelease(_, r) => if r.RAcquire? then Some(InventoryLock) else None
       case KCharge(_, p) => if p.PAcquire? then Some(PaymentLock) else None
       case _ => None)
    case X(x) => if x == XRelease(RAcquire) then Some(InventoryLock) else None
    case W(w) => if w == WRelease(RAcquire) then Some(InventoryLock) else None
    case S(s) => if s == SInventory then Some(InventoryLock) else if s == SPayment then Some(PaymentLock) else None
    case _ => None
  }

  function LockRank(l: Lock): nat {
    match l
    case InventoryLock => 1
    case PaymentLock => 2
    case _ => 0
  }

  /** The lock a request wants ranks above every lock it holds. */
  lemma WantsAbove(pc: Pc, held: Lock)
    requires Wants(pc).Some? && Has(pc, held)
    ensures LockRank(held) < LockRank(Wants(pc).value)
  {
  }

  /** A step takes only the lock its request wants. */
  lemma StepTakes(sh: Shared, me: nat, req: Request, pc: Pc, drawn: OrderId, l: Lock)
    requires Step(sh, me, req, pc, drawn).Move? && Has(Step(sh, me, req, pc, drawn).next, l) && !Has(pc, l)
    ensures Wants(pc) == Some(l)
  {
    if pc.Keyed? && req.Create? && req.auth.Some? && req.key.Some? {
      hide Step;
      KeyedTakes(sh, me, req, pc.lk, pc.k, drawn, l);
    }
  }

  lemma KeyedTakes(sh: Shared, me: nat, req: Request, lk: nat, k: KeyedPc, drawn: OrderId, l: Lock)
    requires req.Create? && req.auth.Some? && req.key.Some? && KeyedStep(sh, me, req, lk, k, drawn).Move?
    requires Has(KeyedStep(sh, me, req, lk, k, drawn).next, l) && !Has(Keyed(lk, k), l)
    ensures Wants(Keyed(lk, k)) == Some(l)
  {
  }

  /** Locks are only ever taken upwards, {state, identity} before inventory before payment: when a
      step of the system takes a lock, it was free, and every lock its request holds ranks below it. */
  lemma LockOrder(s: Sys, t: nat, drawn: OrderId, s': Sys, l: Lock)
    requires Inv(s) && Takes(s, t, drawn, s')
    requires l in s'.sh.k.held && s'.sh.k.held[l].owner == t && !(l in s.sh.k.held && s.sh.k.held[l].owner == t)
    ensures l !in s.sh.k.held
    ensures forall h :: h in s.sh.k.held && s.sh.k.held[h].owner == t ==> LockRank(h) < LockRank(l)
  {
    hide Inv, Step, Wants, LockRank;
    var th := s.threads[t];
    LocksOf(s);
    OwnLocks(s, t);
    LocksNext(s, t, drawn, s');
    assert Has(s'.threads[t].pc, l) && !Has(th.pc, l);
    StepTakes(s.sh, t, th.req, th.pc, drawn, l);
    forall h | h in s.sh.k.held && s.sh.k.held[h].owner == t ensures LockRank(h) < LockRank(l) {
      WantsAbove(th.pc, h);
    }
    StepLocks(s.sh, t, th.req, th.pc, drawn);
  }

  /** The only thing that can hold a request up is a lock another request has. */
  lemma KeyedCanStep(sh: Shared, me: nat, req: Request, lk: nat, k: KeyedPc, drawn: OrderId)
    requires Admitted(req) && KeyedLocal(sh, req, k) && HoldsOwn(sh.k, me, Keyed(lk, k))
    requires Wants(Keyed(lk, k)).Some? ==> Wants(Keyed(lk, k)).value !in sh.k.held
    ensures KeyedStep(sh, me, req, lk, k, drawn).Move?
  {
    assert Has(Keyed(lk, k), KeyLock(lk));
    if k.KReserve? && !k.v.VAcquire? { assert Has(Keyed(lk, k), InventoryLock); }
    if k.KRelease? && !k.r.RAcquire? { assert Has(Keyed(lk, k), InventoryLock); }
    if k.KCharge? && !k.p.PAcquire? { assert Has(Keyed(lk, k), PaymentLock); }
  }

  lemma CanStep(sh: Shared, me: nat, req: Request, pc: Pc, drawn: OrderId)
    requires Local(sh, req, pc) && HoldsOwn(sh.k, me, pc) && !pc.Done?
    requires Wants(pc).Some? ==> Wants(pc).value !in sh.k.held
    ensures Step(sh, me, req, pc, drawn).Move?
  {
    match pc
    case Keyed(lk, k) => KeyedCanStep(sh, me, req, lk, k, drawn);
    case X(x) =>
      assert Has(pc, StateLock);
      if x.XRelease? && !x.r.RAcquire? { assert Has(pc, InventoryLock); }
    case W(w) =>
      assert Has(pc, StateLock);
      if w.WRelease? && !w.r.RAcquire? { assert Has(pc, InventoryLock); }
    case S(s) =>
      assert Has(pc, StateLock);
      if s.SFreePayment? { assert Has(pc, PaymentLock); }
      if s.SFreeInventory? { assert Has(pc, InventoryLock); }
    case TableUnlock(lk) => assert Has(pc, StateLock);
    case _ =>
  }

  lemma {:induction false} FreshId(issued: set<OrderId>) returns (n: nat)
    ensures forall m :: m >= n ==> OrderId(m) !in issued
    decreases |issued|
  {
    if issued == {} {
      n := 0;
    } else {
      var id :| id in issued;
      var k := FreshId(issued - {id});
      n := if k > id.token then k else id.token + 1;
    }
  }

  lemma Moves(s: Sys, t: nat)
    requires Inv(s) && t in s.threads && !s.threads[t].pc.Done?
    requires Wants(s.threads[t].pc).Some? ==> Wants(s.threads[t].pc).value !in s.sh.k.held
    ensures CanAdvance(s)
  {
    hide Step, SharedOk;
    var n := FreshId(s.sh.issued);
    OwnLocks(s, t);
    assert Local(s.sh, s.threads[t].req, s.threads[t].pc);
    CanStep(s.sh, t, s.threads[t].req, s.threads[t].pc, OrderId(n));
    var m := Step(s.sh, t, s.threads[t].req, s.threads[t].pc, OrderId(n));
    var s' := Sys(m.sh, s.threads[t := s.threads[t].(pc := m.next)]);
    assert Takes(s, t, OrderId(n), s');
    assert Advances(s, s');
  }

  lemma HolderMoves(s: Sys, l: Lock)
    requires Inv(s) && l in s.sh.k.held
    requires forall h :: h in s.sh.k.held ==> LockRank(h) <= LockRank(l)
    ensures CanAdvance(s)
  {
    hide Advances;
    var t := s.sh.k.held[l].owner;
    assert Has(s.threads[t].pc, l);
    if Wants(s.threads[t].pc).Some? { WantsAbove(s.threads[t].pc, l); }
    Moves(s, t);
  }

  /** No deadlock: while some request is unfinished, some request can take a step. */
  lemma DeadlockFree(s: Sys, unfinished: nat)
    requires Inv(s) && unfinished in s.threads && !s.threads[unfinished].pc.Done?
    ensures CanAdvance(s)
  {
    hide Advances, Inv;
    if PaymentLock in s.sh.k.held {
      HolderMoves(s, PaymentLock);
    } else if InventoryLock in s.sh.k.held {
      HolderMoves(s, InventoryLock);
    } else if l :| l in s.sh.k.held {
      HolderMoves(s, l);
    } else {
      Moves(s, unfinished);
    }
  }

  // ----- Completion -----------------------------------------------------------

  function ReleaseWork(r: ReleasePc): nat {
    match r
    case RAcquire => 6 case RCheck => 5 case RLoad => 4 case RStore(_) => 3 case RFlag => 2 case RUnlock => 1
  }

  function ChargeWork(p: ChargePc): nat {
    match p
    case PAcquire => 7 case PLookup => 6 case PNumber => 5 case PStore(_) => 4 case PDecide(_) => 3
    case PMark => 2 case PUnlock(_) => 1
  }

  function ReserveWork(v: ReservePc): nat {
    match v
    case VAcquire => 5 case VCheck => 4 case VLoad => 3 case VStore(_) => 2 case VUnlock(_) => 1
  }

  function KeyedWork(k: KeyedPc): nat {
    match k
    case KUnlock(_) => 1
    case KRelease(_, r) => 1 + ReleaseWork(r)
    case KFailCode(_) => 8
    case KFail(_) => 9
    case KPaid(_) => 2
    case KChargeId(_, _) => 3
    case KCharge(_, p) => 9 + ChargeWork(p)
    case KRecord(_) => 17
    case KPublish(_) => 18
    case KBuild => 19
    case KReserve(v) => 19 + ReserveWork(v)
    case KReplayCode(_) => 2
    case KReplayPending(_) => 17
    case KReplayFailed(_) => 18
    case KFingerprint(_) => 19
    case KLookup => 25
  }

  /** A bound on the steps a request has left. */
  function Work(pc: Pc): nat {
    match pc
    case Done(_) => 0
    case Keyed(_, k) => KeyedWork(k)
    case KeyAcquire(_) => 26
    case TableUnlock(_) => 27
    case TableGet => 28
    case TableAcquire => 29
    case Start => 30
    case StateAcquire => 15
    case X(x) =>
      (match x
       case XUnlock(_) => 1 case XRelease(r) => 1 + ReleaseWork(r)
       case XWrite => 8 case XPaid => 9 case XCancelled => 10 case XLookup => 11)
    case W(w) =>
      (match w
       case WUnlock(_) => 1 case WMark => 2 case WEffect => 3 case WChargeId(_) => 4 case WCharge => 5 case WPaid => 6
       case WRelease(r) => 3 + ReleaseWork(r) case WFailCode => 10 case WFail => 11
       case WStatus => 12 case WLookup => 13 case WSeen => 14)
    case S(s) =>
      (match s
       case SInventory => 6 case SPayment => 5 case SRead => 4 case SFreePayment => 3 case SFreeInventory => 2
       case SUnlock => 1)
  }

  ghost function ThreadWork(t: nat, th: Thread): int { Work(th.pc) }

  /** No request ever goes back: each step leaves it strictly less to do. */
  lemma KeyedWorks(sh: Shared, me: nat, req: Request, lk: nat, k: KeyedPc, drawn: OrderId)
    requires req.Create? && req.auth.Some? && req.key.Some? && KeyedStep(sh, me, req, lk, k, drawn).Move?
    ensures Work(KeyedStep(sh, me, req, lk, k, drawn).next) < KeyedWork(k)
  {
    hide Work, KeyedWork, KeyedStep;
    if k.KReserve? || k.KCharge? || k.KRelease? { InnerWorks(sh, me, req, lk, k, drawn); } else { OuterWorks(sh, me, req, lk, k, drawn); }
  }

  lemma InnerWorks(sh: Shared, me: nat, req: Request, lk: nat, k: KeyedPc, drawn: OrderId)
    requires k.KReserve? || k.KCharge? || k.KRelease?
    requires req.Create? && req.auth.Some? && req.key.Some? && KeyedStep(sh, me, req, lk, k, drawn).Move?
    ensures Work(KeyedStep(sh, me, req, lk, k, drawn).next) < KeyedWork(k)
  {
  }

  lemma OuterWorks(sh: Shared, me: nat, req: Request, lk: nat, k: KeyedPc, drawn: OrderId)
    requires !k.KReserve? && !k.KCharge? && !k.KRelease?
    requires req.Create? && req.auth.Some? && req.key.Some? && KeyedStep(sh, me, req, lk, k, drawn).Move?
    ensures Work(KeyedStep(sh, me, req, lk, k, drawn).next) < KeyedWork(k)
  {
  }

  lemma CancelWorks(sh: Shared, me: nat, req: Request, x: CancelPc)
    requires req.Cancel? && req.auth.Some? && CancelStep(sh, me, req, x).Move?
    ensures Work(CancelStep(sh, me, req, x).next) < Work(X(x))
  {
  }

  lemma WebhookWorks(sh: Shared, me: nat, req: Request, w: WebhookPc)
    requires req.Webhook? && WebhookStep(sh, me, req, w).Move?
    ensures Work(WebhookStep(sh, me, req, w).next) < Work(W(w))
  {
  }

  lemma StepWorks(sh: Shared, me: nat, req: Request, pc: Pc, drawn: OrderId)
    requires Step(sh, me, req, pc, drawn).Move?
    ensures Work(Step(sh, me, req, pc, drawn).next) < Work(pc)
  {
    match pc
    case Keyed(lk, k) => KeyedWorks(sh, me, req, lk, k, drawn);
    case X(x) => CancelWorks(sh, me, req, x);
    case W(w) => WebhookWorks(sh, me, req, w);
    case _ =>
  }

  /** A stretch of a run in which no new request arrives. */
  ghost predicate Draining(run: seq<Sys>) {
    && |run| > 0
    && Inv(run[0])
    && forall i :: 0 <= i < |run| - 1 ==> Advances(run[i], run[i + 1])
  }

  /** The stretch is no longer than the work its requests had at the start, and when it
      can go no further every request has been answered. */
  lemma {:induction false} Completion(run: seq<Sys>)
    requires Draining(run)
    ensures Inv(run[|run| - 1])
    ensures run[|run| - 1].threads.Keys == run[0].threads.Keys
    ensures |run| - 1 + Total(run[|run| - 1].threads, ThreadWork) <= Total(run[0].threads, ThreadWork)
    ensures |run| - 1 <= Total(run[0].threads, ThreadWork)
    ensures !CanAdvance(run[|run| - 1]) ==>
              forall t :: t in run[0].threads ==> run[|run| - 1].threads[t].pc.Done?
  {
    hide Inv, Step, Local;
    var last := run[|run| - 1];
    if |run| > 1 {
      var before := run[..|run| - 1];
      forall i | 0 <= i < |before| - 1 ensures Advances(before[i], before[i + 1]) {
        assert Advances(run[i], run[i + 1]);
      }
      Completion(before);
      var s := before[|before| - 1];
      assert s == run[|run| - 2] && last == run[|run| - 2 + 1];
      var t, drawn :| Takes(s, t, drawn, last);
      InvTakes(s, t, drawn, last);
      StepWorks(s.sh, t, s.threads[t].req, s.threads[t].pc, drawn);
      TotalUpdate(s.threads, ThreadWork, t, last.threads[t]);
    }
    TotalNonNegative(last.threads, ThreadWork);
    if !CanAdvance(last) {
      forall t | t in last.threads ensures last.threads[t].pc.Done? {
        if !last.threads[t].pc.Done? { DeadlockFree(last, t); }
      }
    }
  }
}

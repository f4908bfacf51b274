module FlashSteps {
  import opened Prelude
  import opened FlashModel
  import opened FlashInvariant

  ghost predicate HoldsOwn(k: Locks, me: nat, pc: Pc) {
    && (forall l :: Has(pc, l) ==> l in k.held && k.held[l] == Hold(me, 1))
    && (forall l :: l in k.held && k.held[l].owner == me ==> Has(pc, l))
  }

  // ----- Locks ---------------------------------------------------------------

  lemma ReserveLocks(sh: Shared, me: nat, lk: nat, quantity: Quantity, v: ReservePc)
    requires !v.VUnlock? && HoldsOwn(sh.k, me, Keyed(lk, KReserve(v)))
    requires ReserveStep(sh, me, quantity, v).Move?
    ensures var m := ReserveStep(sh, me, quantity, v);
            LockEffect(sh.k, m.sh.k, me, Keyed(lk, KReserve(v)), Keyed(lk, KReserve(m.next)))
  {
  }

  lemma ChargeLocks(sh: Shared, me: nat, lk: nat, oid: OrderId, p: ChargePc)
    requires !p.PUnlock? && HoldsOwn(sh.k, me, Keyed(lk, KCharge(oid, p)))
    requires ChargeStep(sh, me, oid, p).Move?
    ensures var m := ChargeStep(sh, me, oid, p);
            LockEffect(sh.k, m.sh.k, me, Keyed(lk, KCharge(oid, p)), Keyed(lk, KCharge(oid, m.next)))
  {
  }

  lemma ReleaseLocks(sh: Shared, me: nat, lk: nat, oid: OrderId, r: ReleasePc)
    requires !r.RUnlock? && HoldsOwn(sh.k, me, Keyed(lk, KRelease(oid, r)))
    requires ReleaseStep(sh, me, oid, r).Move?
    ensures var m := ReleaseStep(sh, me, oid, r);
            LockEffect(sh.k, m.sh.k, me, Keyed(lk, KRelease(oid, r)), Keyed(lk, KRelease(oid, m.next)))
  {
  }

  lemma KeyedLocks(sh: Shared, me: nat, req: Request, lk: nat, k: KeyedPc, drawn: OrderId)
    requires req.Create? && req.auth.Some? && req.key.Some? && HoldsOwn(sh.k, me, Keyed(lk, k))
    requires KeyedStep(sh, me, req, lk, k, drawn).Move?
    ensures var m := KeyedStep(sh, me, req, lk, k, drawn); LockEffect(sh.k, m.sh.k, me, Keyed(lk, k), m.next)
  {
    if k.KReserve? && !k.v.VUnlock? {
      hide LockEffect, HoldsOwn, ReserveStep;
      ReserveLocks(sh, me, lk, req.payload.quantity, k.v);
    } else if k.KCharge? && !k.p.PUnlock? {
      hide LockEffect, HoldsOwn, ChargeStep;
      ChargeLocks(sh, me, lk, k.oid, k.p);
    } else if k.KRelease? && !k.r.RUnlock? {
      hide LockEffect, HoldsOwn, ReleaseStep;
      ReleaseLocks(sh, me, lk, k.oid, k.r);
    } else if k.KReserve? || k.KCharge? || k.KRelease? || k.KUnlock? {
      hide LockEffect, HoldsOwn, KeyedStep;
      KeyedFreeLocks(sh, me, req, lk, k, drawn);
    } else {
      hide LockEffect, HoldsOwn, KeyedStep;
      KeyedStillLocks(sh, me, req, lk, k, drawn);
    }
  }

  lemma KeyedFreeLocks(sh: Shared, me: nat, req: Request, lk: nat, k: KeyedPc, drawn: OrderId)
    requires req.Create? && req.auth.Some? && req.key.Some? && HoldsOwn(sh.k, me, Keyed(lk, k))
    requires (k.KReserve? && k.v.VUnlock?) || (k.KCharge? && k.p.PUnlock?) || (k.KRelease? && k.r.RUnlock?) || k.KUnlock?
    requires KeyedStep(sh, me, req, lk, k, drawn).Move?
    ensures var m := KeyedStep(sh, me, req, lk, k, drawn); LockEffect(sh.k, m.sh.k, me, Keyed(lk, k), m.next)
  {
  }

  lemma KeyedStillLocks(sh: Shared, me: nat, req: Request, lk: nat, k: KeyedPc, drawn: OrderId)
    requires req.Create? && req.auth.Some? && req.key.Some? && HoldsOwn(sh.k, me, Keyed(lk, k))
    requires !k.KReserve? && !k.KCharge? && !k.KRelease? && !k.KUnlock?
    requires KeyedStep(sh, me, req, lk, k, drawn).Move?
    ensures var m := KeyedStep(sh, me, req, lk, k, drawn); LockEffect(sh.k, m.sh.k, me, Keyed(lk, k), m.next)
  {
  }

  lemma CancelLocks(sh: Shared, me: nat, req: Request, x: CancelPc)
    requires req.Cancel? && req.auth.Some? && HoldsOwn(sh.k, me, X(x))
    requires CancelStep(sh, me, req, x).Move?
    ensures var m := CancelStep(sh, me, req, x); LockEffect(sh.k, m.sh.k, me, X(x), m.next)
  {
  }

  lemma WebhookLocks(sh: Shared, me: nat, req: Request, w: WebhookPc)
    requires req.Webhook? && HoldsOwn(sh.k, me, W(w))
    requires WebhookStep(sh, me, req, w).Move?
    ensures var m := WebhookStep(sh, me, req, w); LockEffect(sh.k, m.sh.k, me, W(w), m.next)
  {
    if w.WRelease? && !w.r.RUnlock? { WebhookReleaseLocks(sh, me, req, w.r); } else { WebhookOwnLocks(sh, me, req, w); }
  }

  lemma WebhookReleaseLocks(sh: Shared, me: nat, req: Request, r: ReleasePc)
    requires req.Webhook? && HoldsOwn(sh.k, me, W(WRelease(r))) && !r.RUnlock?
    requires WebhookStep(sh, me, req, WRelease(r)).Move?
    ensures var m := WebhookStep(sh, me, req, WRelease(r)); LockEffect(sh.k, m.sh.k, me, W(WRelease(r)), m.next)
  {
  }

  lemma WebhookOwnLocks(sh: Shared, me: nat, req: Request, w: WebhookPc)
    requires req.Webhook? && HoldsOwn(sh.k, me, W(w)) && (w.WRelease? ==> w.r.RUnlock?)
    requires WebhookStep(sh, me, req, w).Move?
    ensures var m := WebhookStep(sh, me, req, w); LockEffect(sh.k, m.sh.k, me, W(w), m.next)
  {
    hide LockEffect, WebhookStep, HoldsOwn;
    if w.WRelease? || w.WUnlock? { WebhookFreeLocks(sh, me, req, w); } else { WebhookStillLocks(sh, me, req, w); }
  }

  lemma WebhookFreeLocks(sh: Shared, me: nat, req: Request, w: WebhookPc)
    requires w.WRelease? || w.WUnlock?
    requires req.Webhook? && HoldsOwn(sh.k, me, W(w)) && (w.WRelease? ==> w.r.RUnlock?)
    requires WebhookStep(sh, me, req, w).Move?
    ensures var m := WebhookStep(sh, me, req, w); LockEffect(sh.k, m.sh.k, me, W(w), m.next)
  {
  }

  lemma WebhookStillLocks(sh: Shared, me: nat, req: Request, w: WebhookPc)
    requires !w.WRelease? && !w.WUnlock?
    requires req.Webhook? && HoldsOwn(sh.k, me, W(w))
    requires WebhookStep(sh, me, req, w).Move?
    ensures var m := WebhookStep(sh, me, req, w); LockEffect(sh.k, m.sh.k, me, W(w), m.next)
  {
  }

  lemma SnapshotLocks(sh: Shared, me: nat, s: SnapshotPc)
    requires HoldsOwn(sh.k, me, S(s))
    requires SnapshotStep(sh, me, s).Move?
    ensures var m := SnapshotStep(sh, me, s); LockEffect(sh.k, m.sh.k, me, S(s), m.next)
  {
    hide LockEffect, SnapshotStep, HoldsOwn;
    if s.SInventory? || s.SPayment? || s.SRead? { SnapshotTakes(sh, me, s); } else { SnapshotGives(sh, me, s); }
  }

  lemma SnapshotTakes(sh: Shared, me: nat, s: SnapshotPc)
    requires s.SInventory? || s.SPayment? || s.SRead?
    requires HoldsOwn(sh.k, me, S(s))
    requires SnapshotStep(sh, me, s).Move?
    ensures var m := SnapshotStep(sh, me, s); LockEffect(sh.k, m.sh.k, me, S(s), m.next)
  {
  }

  lemma SnapshotGives(sh: Shared, me: nat, s: SnapshotPc)
    requires s.SFreePayment? || s.SFreeInventory? || s.SUnlock?
    requires HoldsOwn(sh.k, me, S(s))
    requires SnapshotStep(sh, me, s).Move?
    ensures var m := SnapshotStep(sh, me, s); LockEffect(sh.k, m.sh.k, me, S(s), m.next)
  {
  }

  lemma StepLocks(sh: Shared, me: nat, req: Request, pc: Pc, drawn: OrderId)
    requires HoldsOwn(sh.k, me, pc)
    requires Step(sh, me, req, pc, drawn).Move?
    ensures var m := Step(sh, me, req, pc, drawn); LockEffect(sh.k, m.sh.k, me, pc, m.next)
  {
    match pc
    case Keyed(lk, k) => KeyedLocks(sh, me, req, lk, k, drawn);
    case X(x) => CancelLocks(sh, me, req, x);
    case W(w) => WebhookLocks(sh, me, req, w);
    case S(s) => SnapshotLocks(sh, me, s);
    case _ =>
  }

  // ----- What others may rely on ----------------------------------------------

  /** Lock traffic and control flow alone change nothing others can see. */
  ghost predicate Quiet(sh: Shared, sh': Shared) {
    sh'.d == sh.d && sh'.issued == sh.issued && sh'.k.table == sh.k.table && sh'.k.next == sh.k.next
  }

  lemma QuietGuarantee(sh: Shared, sh': Shared, req: Request, pc: Pc)
    requires Quiet(sh, sh')
    ensures Guarantee(sh, sh', req, pc)
  {
  }

  lemma PutGuarantee(sh: Shared, o: Order, req: Request, pc: Pc)
    requires o.id in sh.d.orders && SameTerms(sh.d.orders[o.id], o)
    requires o.released != sh.d.orders[o.id].released ==> Has(pc, InventoryLock) && o.released
    ensures Guarantee(sh, Put(sh, o), req, pc)
  {
  }

  lemma ReserveGuarantee(sh: Shared, me: nat, req: Request, lk: nat, v: ReservePc, quantity: Quantity)
    requires !v.VUnlock? && ReserveStep(sh, me, quantity, v).Move?
    ensures Guarantee(sh, ReserveStep(sh, me, quantity, v).sh, req, Keyed(lk, KReserve(v)))
  {
  }

  lemma ChargeGuarantee(sh: Shared, me: nat, req: Request, lk: nat, oid: OrderId, p: ChargePc)
    requires OrdersOk(sh) && ChargeLocal(sh, oid, p)
    requires !p.PUnlock? && ChargeStep(sh, me, oid, p).Move?
    ensures Guarantee(sh, ChargeStep(sh, me, oid, p).sh, req, Keyed(lk, KCharge(oid, p)))
  {
  }

  lemma ReleaseGuarantee(sh: Shared, me: nat, req: Request, pc: Pc, oid: OrderId, r: ReleasePc)
    requires OrdersOk(sh) && ReleaseLocal(sh, oid, r)
    requires Releasing(r, InventoryLock) ==> Has(pc, InventoryLock)
    requires !r.RUnlock? && ReleaseStep(sh, me, oid, r).Move?
    ensures Guarantee(sh, ReleaseStep(sh, me, oid, r).sh, req, pc)
  {
    var sh' := ReleaseStep(sh, me, oid, r).sh;
    if r.RFlag? {
      PutGuarantee(sh, sh.d.orders[oid].(released := true), req, pc);
    } else if !r.RStore? {
      QuietGuarantee(sh, sh', req, pc);
    }
  }

  /** Drawing an id, publishing the order and entering it under its identity. */
  lemma TableGuarantee(sh: Shared, me: nat, req: Request, lk: nat, k: KeyedPc, drawn: OrderId)
    requires Admitted(req) && KeyedLocal(sh, req, k)
    requires k.KBuild? || k.KPublish? || k.KRecord?
    ensures Guarantee(sh, KeyedStep(sh, me, req, lk, k, drawn).sh, req, Keyed(lk, k))
  {
  }

  lemma KeyedGuarantee(sh: Shared, me: nat, req: Request, lk: nat, k: KeyedPc, drawn: OrderId)
    requires Admitted(req) && OrdersOk(sh) && KeyedLocal(sh, req, k)
    requires KeyedStep(sh, me, req, lk, k, drawn).Move?
    ensures Guarantee(sh, KeyedStep(sh, me, req, lk, k, drawn).sh, req, Keyed(lk, k))
  {
    hide Guarantee;
    var sh' := KeyedStep(sh, me, req, lk, k, drawn).sh;
    if k.KBuild? || k.KPublish? || k.KRecord? {
      TableGuarantee(sh, me, req, lk, k, drawn);
    } else if k.KReserve? && !k.v.VUnlock? {
      ReserveGuarantee(sh, me, req, lk, k.v, req.payload.quantity);
    } else if k.KCharge? && !k.p.PUnlock? {
      ChargeGuarantee(sh, me, req, lk, k.oid, k.p);
    } else if k.KRelease? && !k.r.RUnlock? {
      ReleaseGuarantee(sh, me, req, Keyed(lk, k), k.oid, k.r);
    } else if k.KChargeId? || k.KPaid? || k.KFail? || k.KFailCode? {
      hide KeyedStep, KeyedLocal, OrdersOk;
      OutcomeGuarantee(sh, me, req, lk, k, drawn);
    } else {
      hide KeyedLocal, OrdersOk;
      QuietGuarantee(sh, sh', req, Keyed(lk, k));
    }
  }

  lemma OutcomeGuarantee(sh: Shared, me: nat, req: Request, lk: nat, k: KeyedPc, drawn: OrderId)
    requires Admitted(req) && OrdersOk(sh) && KeyedLocal(sh, req, k)
    requires k.KChargeId? || k.KPaid? || k.KFail? || k.KFailCode?
    requires KeyedStep(sh, me, req, lk, k, drawn).Move?
    ensures Guarantee(sh, KeyedStep(sh, me, req, lk, k, drawn).sh, req, Keyed(lk, k))
  {
    hide Guarantee, KeyedStep, KeyedLocal, OrdersOk;
    if k.KChargeId? || k.KPaid? { PaidGuarantee(sh, me, req, lk, k, drawn); } else { FailedGuarantee(sh, me, req, lk, k, drawn); }
  }

  lemma PaidGuarantee(sh: Shared, me: nat, req: Request, lk: nat, k: KeyedPc, drawn: OrderId)
    requires Admitted(req) && OrdersOk(sh) && KeyedLocal(sh, req, k)
    requires k.KChargeId? || k.KPaid?
    requires KeyedStep(sh, me, req, lk, k, drawn).Move?
    ensures Guarantee(sh, KeyedStep(sh, me, req, lk, k, drawn).sh, req, Keyed(lk, k))
  {
    hide Guarantee;
    var o := sh.d.orders[k.oid];
    PutGuarantee(sh, if k.KChargeId? then o.(chargeId := Some(k.number)) else o.(status := Paid), req, Keyed(lk, k));
  }

  lemma FailedGuarantee(sh: Shared, me: nat, req: Request, lk: nat, k: KeyedPc, drawn: OrderId)
    requires Admitted(req) && OrdersOk(sh) && KeyedLocal(sh, req, k)
    requires k.KFail? || k.KFailCode?
    requires KeyedStep(sh, me, req, lk, k, drawn).Move?
    ensures Guarantee(sh, KeyedStep(sh, me, req, lk, k, drawn).sh, req, Keyed(lk, k))
  {
    hide Guarantee;
    var o := sh.d.orders[k.oid];
    PutGuarantee(sh, if k.KFail? then o.(status := Failed) else o.(failureStatus := Some(402)), req, Keyed(lk, k));
  }

  lemma CancelGuarantee(sh: Shared, me: nat, req: Request, x: CancelPc)
    requires req.Cancel? && req.auth.Some? && SharedOk(sh) && CancelLocal(sh, req, x)
    requires CancelStep(sh, me, req, x).Move?
    ensures Guarantee(sh, CancelStep(sh, me, req, x).sh, req, X(x))
  {
    if x.XRelease? && !x.r.RUnlock? {
      ReleaseGuarantee(sh, me, req, X(x), req.orderId, x.r);
    } else if x.XWrite? {
      PutGuarantee(sh, sh.d.orders[req.orderId].(status := Cancelled), req, X(x));
    } else {
      QuietGuarantee(sh, CancelStep(sh, me, req, x).sh, req, X(x));
    }
  }

  lemma WebhookGuarantee(sh: Shared, me: nat, req: Request, w: WebhookPc)
    requires req.Webhook? && SharedOk(sh) && WebhookLocal(sh, req, w)
    requires WebhookStep(sh, me, req, w).Move?
    ensures Guarantee(sh, WebhookStep(sh, me, req, w).sh, req, W(w))
  {
    hide Guarantee, OrdersOk, TablesOk, LedgerOk, EventsOk, Quiet;
    if w.WRelease? && !w.r.RUnlock? {
      ReleaseGuarantee(sh, me, req, W(w), req.orderId, w.r);
    } else if w.WEffect? || w.WMark? {
      EventGuarantee(sh, me, req, w);
    } else if w.WPaid? || w.WChargeId? || w.WFail? || w.WFailCode? {
      AppliedGuarantee(sh, me, req, w);
    } else {
      WebhookQuiet(sh, me, req, w);
      QuietGuarantee(sh, WebhookStep(sh, me, req, w).sh, req, W(w));
    }
  }

  lemma WebhookQuiet(sh: Shared, me: nat, req: Request, w: WebhookPc)
    requires req.Webhook? && WebhookStep(sh, me, req, w).Move?
    requires w.WSeen? || w.WLookup? || w.WStatus? || w.WCharge? || w.WUnlock? || (w.WRelease? && w.r.RUnlock?)
    ensures Quiet(sh, WebhookStep(sh, me, req, w).sh)
  {
  }

  lemma EventGuarantee(sh: Shared, me: nat, req: Request, w: WebhookPc)
    requires req.Webhook? && (w.WEffect? || w.WMark?)
    ensures WebhookStep(sh, me, req, w).Move? && Guarantee(sh, WebhookStep(sh, me, req, w).sh, req, W(w))
  {
  }

  lemma AppliedGuarantee(sh: Shared, me: nat, req: Request, w: WebhookPc)
    requires req.Webhook? && SharedOk(sh) && WebhookLocal(sh, req, w)
    requires w.WPaid? || w.WChargeId? || w.WFail? || w.WFailCode?
    requires WebhookStep(sh, me, req, w).Move?
    ensures Guarantee(sh, WebhookStep(sh, me, req, w).sh, req, W(w))
  {
    hide Guarantee;
    var o := sh.d.orders[req.orderId];
    PutGuarantee(sh, if w.WPaid? then o.(status := Paid)
                     else if w.WChargeId? then o.(chargeId := Some(w.number))
                     else if w.WFail? then o.(status := Failed)
                     else o.(failureStatus := Some(402)), req, W(w));
  }

  lemma TableGetGuarantee(sh: Shared, req: Request)
    requires Admitted(req)
    ensures Guarantee(sh, TableGetStep(sh, IdentityOf(req)).sh, req, TableGet)
  {
  }

  lemma StepGuarantee(sh: Shared, me: nat, req: Request, pc: Pc, drawn: OrderId)
    requires SharedOk(sh) && Local(sh, req, pc)
    requires Step(sh, me, req, pc, drawn).Move?
    ensures Guarantee(sh, Step(sh, me, req, pc, drawn).sh, req, pc)
  {
    hide Guarantee;
    match pc
    case Keyed(lk, k) => KeyedGuarantee(sh, me, req, lk, k, drawn);
    case X(x) => CancelGuarantee(sh, me, req, x);
    case W(w) => WebhookGuarantee(sh, me, req, w);
    case TableGet => TableGetGuarantee(sh, req);
    case Done(_) =>
    case _ => QuietGuarantee(sh, Step(sh, me, req, pc, drawn).sh, req, pc);
  }

  // ----- The next point's assumptions ------------------------------------------

  lemma ChargeAssumes(sh: Shared, me: nat, oid: OrderId, p: ChargePc)
    requires OrdersOk(sh) && ChargeLocal(sh, oid, p)
    requires !p.PUnlock? && ChargeStep(sh, me, oid, p).Move?
    ensures var m := ChargeStep(sh, me, oid, p);
            && ChargeLocal(m.sh, oid, m.next)
            && m.sh.d.orders == sh.d.orders && m.sh.d.idempotency == sh.d.idempotency
  {
  }

  lemma ReleaseAssumes(sh: Shared, me: nat, oid: OrderId, r: ReleasePc)
    requires OrdersOk(sh) && ReleaseLocal(sh, oid, r)
    requires !r.RUnlock? && ReleaseStep(sh, me, oid, r).Move?
    ensures var m := ReleaseStep(sh, me, oid, r);
            && ReleaseLocal(m.sh, oid, m.next)
            && SameTerms(sh.d.orders[oid], m.sh.d.orders[oid]) && m.sh.d.idempotency == sh.d.idempotency
  {
  }

  /** The next point is under the same identity's lock, or the request is over. */
  ghost predicate KeyedNext(m: Move<Pc>, req: Request, lk: nat, k: KeyedPc)
    requires Admitted(req) && m.Move?
  {
    if k.KUnlock? then m.next.Done? && ReplyLocal(m.sh, req, m.next.reply)
    else m.next.Keyed? && m.next.lk == lk && KeyedLocal(m.sh, req, m.next.k)
  }

  lemma ReplayAssumes(sh: Shared, me: nat, req: Request, lk: nat, k: KeyedPc, drawn: OrderId)
    requires Admitted(req) && TablesOk(sh) && OrdersOk(sh) && KeyedLocal(sh, req, k)
    requires k.KLookup? || k.KFingerprint? || k.KReplayFailed? || k.KReplayCode? || k.KReplayPending?
    requires KeyedStep(sh, me, req, lk, k, drawn).Move?
    ensures KeyedNext(KeyedStep(sh, me, req, lk, k, drawn), req, lk, k)
  {
    hide KeyedNext, KeyedLocal, KeyedStep, TablesOk, OrdersOk;
    if k.KLookup? || k.KFingerprint? { LookupAssumes(sh, me, req, lk, k, drawn); } else { AnswerAssumes(sh, me, req, lk, k, drawn); }
  }

  lemma LookupAssumes(sh: Shared, me: nat, req: Request, lk: nat, k: KeyedPc, drawn: OrderId)
    requires Admitted(req) && TablesOk(sh) && OrdersOk(sh) && KeyedLocal(sh, req, k)
    requires k.KLookup? || k.KFingerprint?
    requires KeyedStep(sh, me, req, lk, k, drawn).Move?
    ensures KeyedNext(KeyedStep(sh, me, req, lk, k, drawn), req, lk, k)
  {
  }

  lemma AnswerAssumes(sh: Shared, me: nat, req: Request, lk: nat, k: KeyedPc, drawn: OrderId)
    requires Admitted(req) && TablesOk(sh) && OrdersOk(sh) && KeyedLocal(sh, req, k)
    requires k.KReplayFailed? || k.KReplayCode? || k.KReplayPending?
    requires KeyedStep(sh, me, req, lk, k, drawn).Move?
    ensures KeyedNext(KeyedStep(sh, me, req, lk, k, drawn), req, lk, k)
  {
  }

  lemma TableAssumes(sh: Shared, me: nat, req: Request, lk: nat, k: KeyedPc, drawn: OrderId)
    requires Admitted(req) && TablesOk(sh) && OrdersOk(sh) && KeyedLocal(sh, req, k) && drawn !in sh.issued
    requires k.KBuild? || k.KPublish? || k.KRecord?
    requires KeyedStep(sh, me, req, lk, k, drawn).Move?
    ensures KeyedNext(KeyedStep(sh, me, req, lk, k, drawn), req, lk, k)
  {
  }

  lemma PayAssumes(sh: Shared, me: nat, req: Request, lk: nat, k: KeyedPc, drawn: OrderId)
    requires Admitted(req) && OrdersOk(sh) && KeyedLocal(sh, req, k)
    requires k.KCharge?
    requires KeyedStep(sh, me, req, lk, k, drawn).Move?
    ensures KeyedNext(KeyedStep(sh, me, req, lk, k, drawn), req, lk, k)
  {
    if !k.p.PUnlock? { ChargeAssumes(sh, me, k.oid, k.p); }
  }

  lemma GiveBackAssumes(sh: Shared, me: nat, req: Request, lk: nat, k: KeyedPc, drawn: OrderId)
    requires Admitted(req) && OrdersOk(sh) && KeyedLocal(sh, req, k)
    requires k.KRelease?
    requires KeyedStep(sh, me, req, lk, k, drawn).Move?
    ensures KeyedNext(KeyedStep(sh, me, req, lk, k, drawn), req, lk, k)
  {
    if !k.r.RUnlock? { ReleaseAssumes(sh, me, k.oid, k.r); }
  }

  lemma ReserveAssumes(sh: Shared, me: nat, req: Request, lk: nat, k: KeyedPc, drawn: OrderId)
    requires Admitted(req) && KeyedLocal(sh, req, k)
    requires k.KReserve?
    requires KeyedStep(sh, me, req, lk, k, drawn).Move?
    ensures KeyedNext(KeyedStep(sh, me, req, lk, k, drawn), req, lk, k)
  {
  }

  lemma SettleAssumes(sh: Shared, me: nat, req: Request, lk: nat, k: KeyedPc, drawn: OrderId)
    requires Admitted(req) && OrdersOk(sh) && KeyedLocal(sh, req, k)
    requires k.KChargeId? || k.KPaid? || k.KFail? || k.KFailCode? || k.KUnlock?
    requires KeyedStep(sh, me, req, lk, k, drawn).Move?
    ensures KeyedNext(KeyedStep(sh, me, req, lk, k, drawn), req, lk, k)
  {
  }

  lemma KeyedAssumes(sh: Shared, me: nat, req: Request, lk: nat, k: KeyedPc, drawn: OrderId)
    requires Admitted(req) && SharedOk(sh) && KeyedLocal(sh, req, k) && drawn !in sh.issued
    requires KeyedStep(sh, me, req, lk, k, drawn).Move?
    ensures KeyedNext(KeyedStep(sh, me, req, lk, k, drawn), req, lk, k)
  {
    if k.KBuild? || k.KPublish? || k.KRecord? {
      TableAssumes(sh, me, req, lk, k, drawn);
    } else if k.KReserve? {
      ReserveAssumes(sh, me, req, lk, k, drawn);
    } else if k.KCharge? {
      PayAssumes(sh, me, req, lk, k, drawn);
    } else if k.KRelease? {
      GiveBackAssumes(sh, me, req, lk, k, drawn);
    } else if k.KChargeId? || k.KPaid? || k.KFail? || k.KFailCode? || k.KUnlock? {
      SettleAssumes(sh, me, req, lk, k, drawn);
    } else {
      ReplayAssumes(sh, me, req, lk, k, drawn);
    }
  }

  lemma CancelAssumes(sh: Shared, me: nat, req: Request, x: CancelPc)
    requires req.Cancel? && req.auth.Some? && OrdersOk(sh) && CancelLocal(sh, req, x)
    requires CancelStep(sh, me, req, x).Move?
    ensures var m := CancelStep(sh, me, req, x);
            if x.XUnlock? then m.next.Done? && ReplyLocal(m.sh, req, m.next.reply)
            else m.next.X? && CancelLocal(m.sh, req, m.next.x)
  {
    if x.XRelease? && !x.r.RUnlock? { ReleaseAssumes(sh, me, req.orderId, x.r); }
  }

  lemma WebhookAssumes(sh: Shared, me: nat, req: Request, w: WebhookPc)
    requires req.Webhook? && OrdersOk(sh) && WebhookLocal(sh, req, w)
    requires WebhookStep(sh, me, req, w).Move?
    ensures var m := WebhookStep(sh, me, req, w);
            if w.WUnlock? then m.next.Done? && ReplyLocal(m.sh, req, m.next.reply)
            else m.next.W? && WebhookLocal(m.sh, req, m.next.w)
  {
    if w.WRelease? && !w.r.RUnlock? { ReleaseAssumes(sh, me, req.orderId, w.r); }
  }

  lemma StepLocal(sh: Shared, me: nat, req: Request, pc: Pc, drawn: OrderId)
    requires SharedOk(sh) && Local(sh, req, pc) && drawn !in sh.issued
    requires Step(sh, me, req, pc, drawn).Move?
    ensures var m := Step(sh, me, req, pc, drawn); Local(m.sh, req, m.next)
  {
    match pc
    case Keyed(lk, k) =>
      KeyedAssumes(sh, me, req, lk, k, drawn);
      KeyedGuarantee(sh, me, req, lk, k, drawn);
    case X(x) => CancelAssumes(sh, me, req, x);
    case W(w) => WebhookAssumes(sh, me, req, w);
    case _ =>
  }
}

/** The shared tables stay consistent under every step. */
module FlashTables {
  import opened Prelude
  import opened FlashModel
  import opened FlashInvariant

  lemma QuietShared(sh: Shared, sh': Shared)
    requires SharedOk(sh) && sh'.issued == sh.issued && sh'.k.table == sh.k.table && sh'.k.next == sh.k.next
    requires sh'.d == sh.d.(stock := sh'.d.stock)
    ensures SharedOk(sh')
  {
  }

  lemma PutShared(sh: Shared, o: Order)
    requires SharedOk(sh) && o.id in sh.d.orders && SameTerms(sh.d.orders[o.id], o) && OrderOk(sh, o.id, o)
    ensures SharedOk(Put(sh, o))
  {
  }

  /** Any change of an order's status, and the true charge number, may be written. */
  lemma StatusShared(sh: Shared, oid: OrderId, status: Status)
    requires SharedOk(sh) && oid in sh.d.orders
    ensures SharedOk(Put(sh, sh.d.orders[oid].(status := status)))
    ensures SharedOk(Put(sh, sh.d.orders[oid].(failureStatus := Some(402))))
  {
    hide TablesOk, LedgerOk, EventsOk;
    PutShared(sh, sh.d.orders[oid].(status := status));
    PutShared(sh, sh.d.orders[oid].(failureStatus := Some(402)));
  }

  lemma ChargeIdShared(sh: Shared, oid: OrderId, number: nat)
    requires SharedOk(sh) && oid in sh.d.orders && ChargedAs(sh, oid, number)
    ensures SharedOk(Put(sh, sh.d.orders[oid].(chargeId := Some(number))))
  {
    hide TablesOk, LedgerOk, EventsOk;
    PutShared(sh, sh.d.orders[oid].(chargeId := Some(number)));
  }

  lemma ReleaseShared(sh: Shared, me: nat, oid: OrderId, r: ReleasePc)
    requires SharedOk(sh) && !r.RUnlock? && ReleaseStep(sh, me, oid, r).Move?
    ensures SharedOk(ReleaseStep(sh, me, oid, r).sh)
  {
    if r.RFlag? {
      PutShared(sh, sh.d.orders[oid].(released := true));
    } else {
      QuietShared(sh, ReleaseStep(sh, me, oid, r).sh);
    }
  }

  /** The new charge takes the next number, so numbers stay 1..n without repeats. */
  lemma NewChargeLedger(sh: Shared, oid: OrderId, c: Charge)
    requires LedgerOk(sh) && oid in sh.d.orders && Checkout(oid) !in sh.d.charges
    requires c.number == |sh.d.charges| + 1 && c.amount == sh.d.orders[oid].total
    requires sh.d.orders[oid].token != Decline
    ensures LedgerOk(sh.(d := sh.d.(charges := sh.d.charges[Checkout(oid) := c])))
  {
    assert |sh.d.charges[Checkout(oid) := c]| == |sh.d.charges| + 1;
  }

  lemma NewChargeShared(sh: Shared, oid: OrderId, c: Charge)
    requires SharedOk(sh) && oid in sh.d.orders && Checkout(oid) !in sh.d.charges
    requires c.number == |sh.d.charges| + 1 && c.amount == sh.d.orders[oid].total
    requires sh.d.orders[oid].token != Decline
    ensures SharedOk(sh.(d := sh.d.(charges := sh.d.charges[Checkout(oid) := c])))
  {
    hide LedgerOk;
    NewChargeLedger(sh, oid, c);
  }

  lemma MarkShared(sh: Shared, key: PaymentKey)
    requires SharedOk(sh) && key in sh.d.charges
    ensures SharedOk(sh.(d := sh.d.(timeoutKeys := sh.d.timeoutKeys + {key})))
  {
  }

  lemma ChargeShared(sh: Shared, me: nat, oid: OrderId, p: ChargePc)
    requires SharedOk(sh) && ChargeLocal(sh, oid, p)
    requires !p.PUnlock? && ChargeStep(sh, me, oid, p).Move?
    ensures SharedOk(ChargeStep(sh, me, oid, p).sh)
  {
    hide TablesOk, EventsOk;
    var sh' := ChargeStep(sh, me, oid, p).sh;
    if p.PStore? {
      NewChargeShared(sh, oid, Charge(p.number, sh.d.orders[oid].total));
    } else if p.PMark? {
      MarkShared(sh, Checkout(oid));
    } else {
      QuietShared(sh, sh');
    }
  }

  lemma EntryShared(sh: Shared, me: nat, req: Request, lk: nat, k: KeyedPc, drawn: OrderId)
    requires Admitted(req) && SharedOk(sh) && KeyedLocal(sh, req, k)
    requires k.KBuild? || k.KPublish? || k.KRecord?
    ensures SharedOk(KeyedStep(sh, me, req, lk, k, drawn).sh)
  {
    hide SharedOk, KeyedLocal, KeyedStep;
    if k.KBuild? { BuildShared(sh, me, req, lk, k, drawn); } else if k.KPublish? { PublishShared(sh, me, req, lk, k, drawn); } else { RecordShared(sh, me, req, lk, k, drawn); }
  }

  lemma BuildShared(sh: Shared, me: nat, req: Request, lk: nat, k: KeyedPc, drawn: OrderId)
    requires k.KBuild?
    requires Admitted(req) && SharedOk(sh) && KeyedLocal(sh, req, k)
    requires k.KBuild? || k.KPublish? || k.KRecord?
    ensures SharedOk(KeyedStep(sh, me, req, lk, k, drawn).sh)
  {
  }

  lemma PublishShared(sh: Shared, me: nat, req: Request, lk: nat, k: KeyedPc, drawn: OrderId)
    requires k.KPublish?
    requires Admitted(req) && SharedOk(sh) && KeyedLocal(sh, req, k)
    requires k.KBuild? || k.KPublish? || k.KRecord?
    ensures SharedOk(KeyedStep(sh, me, req, lk, k, drawn).sh)
  {
  }

  lemma RecordShared(sh: Shared, me: nat, req: Request, lk: nat, k: KeyedPc, drawn: OrderId)
    requires k.KRecord?
    requires Admitted(req) && SharedOk(sh) && KeyedLocal(sh, req, k)
    requires k.KBuild? || k.KPublish? || k.KRecord?
    ensures SharedOk(KeyedStep(sh, me, req, lk, k, drawn).sh)
  {
  }

  lemma KeyedShared(sh: Shared, me: nat, req: Request, lk: nat, k: KeyedPc, drawn: OrderId)
    requires Admitted(req) && SharedOk(sh) && KeyedLocal(sh, req, k)
    requires KeyedStep(sh, me, req, lk, k, drawn).Move?
    ensures SharedOk(KeyedStep(sh, me, req, lk, k, drawn).sh)
  {
    hide SharedOk;
    var sh' := KeyedStep(sh, me, req, lk, k, drawn).sh;
    if k.KBuild? || k.KPublish? || k.KRecord? {
      EntryShared(sh, me, req, lk, k, drawn);
    } else if k.KCharge? && !k.p.PUnlock? {
      ChargeShared(sh, me, k.oid, k.p);
    } else if k.KRelease? && !k.r.RUnlock? {
      ReleaseShared(sh, me, k.oid, k.r);
    } else if k.KChargeId? {
      ChargeIdShared(sh, k.oid, k.number);
    } else if k.KPaid? {
      StatusShared(sh, k.oid, Paid);
    } else if k.KFail? || k.KFailCode? {
      StatusShared(sh, k.oid, Failed);
    } else {
      QuietShared(sh, sh');
    }
  }

  lemma CancelShared(sh: Shared, me: nat, req: Request, x: CancelPc)
    requires req.Cancel? && req.auth.Some? && SharedOk(sh) && CancelLocal(sh, req, x)
    requires CancelStep(sh, me, req, x).Move?
    ensures SharedOk(CancelStep(sh, me, req, x).sh)
  {
    if x.XRelease? && !x.r.RUnlock? {
      ReleaseShared(sh, me, req.orderId, x.r);
    } else if x.XWrite? {
      StatusShared(sh, req.orderId, Cancelled);
    } else {
      QuietShared(sh, CancelStep(sh, me, req, x).sh);
    }
  }

  lemma EventShared(sh: Shared, req: Request, w: WebhookPc)
    requires req.Webhook? && SharedOk(sh) && WebhookLocal(sh, req, w)
    requires w.WMark? || (w.WEffect? && req.event !in sh.d.effects)
    ensures SharedOk(WebhookStep(sh, 0, req, w).sh)
  {
  }

  lemma WebhookShared(sh: Shared, me: nat, req: Request, w: WebhookPc)
    requires req.Webhook? && SharedOk(sh) && WebhookLocal(sh, req, w)
    requires w.WEffect? ==> req.event !in sh.d.effects
    requires WebhookStep(sh, me, req, w).Move?
    ensures SharedOk(WebhookStep(sh, me, req, w).sh)
  {
    hide SharedOk;
    if w.WRelease? && !w.r.RUnlock? {
      ReleaseShared(sh, me, req.orderId, w.r);
    } else if w.WPaid? {
      StatusShared(sh, req.orderId, Paid);
    } else if w.WChargeId? {
      ChargeIdShared(sh, req.orderId, w.number);
    } else if w.WFail? || w.WFailCode? {
      StatusShared(sh, req.orderId, Failed);
    } else if w.WEffect? || w.WMark? {
      EventShared(sh, req, w);
    } else {
      QuietShared(sh, WebhookStep(sh, me, req, w).sh);
    }
  }

  lemma TableGetShared(sh: Shared, identity: Identity)
    requires SharedOk(sh)
    ensures SharedOk(TableGetStep(sh, identity).sh)
  {
  }

  lemma StepShared(sh: Shared, me: nat, req: Request, pc: Pc, drawn: OrderId)
    requires SharedOk(sh) && Local(sh, req, pc)
    requires pc == W(WEffect) ==> req.event !in sh.d.effects
    requires Step(sh, me, req, pc, drawn).Move?
    ensures SharedOk(Step(sh, me, req, pc, drawn).sh)
  {
    hide SharedOk;
    match pc
    case Keyed(lk, k) => KeyedShared(sh, me, req, lk, k, drawn);
    case X(x) => CancelShared(sh, me, req, x);
    case W(w) => WebhookShared(sh, me, req, w);
    case TableGet => TableGetShared(sh, IdentityOf(req));
    case Done(_) =>
    case _ => QuietShared(sh, Step(sh, me, req, pc, drawn).sh);
  }
}

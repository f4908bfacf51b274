/** Stock is neither created nor lost, whatever the interleaving. */
module FlashStock {
  import opened Prelude
  import opened FlashModel
  import opened FlashInvariant
  import opened FlashSteps
  import opened FlashRuns

  /** Stock an order keeps back while it is not released. */
  ghost function OrderHeld(oid: OrderId, o: Order): int {
    if o.released then 0 else o.quantity
  }

  /** Stock a creation has taken for an order it has not published yet. */
  ghost function Reserved(t: nat, th: Thread): int {
    if th.req.Create? && th.pc.Keyed? && (th.pc.k == KReserve(VUnlock(true)) || th.pc.k.KBuild? || th.pc.k.KPublish?)
    then th.req.payload.quantity else 0
  }

  /** The order whose stock is already back but whose released flag is still to be set. */
  function FlagOrder(th: Thread): Option<OrderId> {
    match th.pc
    case Keyed(_, k) => if k.KRelease? && k.r.RFlag? then Some(k.oid) else None
    case X(x) => if x == XRelease(RFlag) && th.req.Cancel? then Some(th.req.orderId) else None
    case W(w) => if w == WRelease(RFlag) && th.req.Webhook? then Some(th.req.orderId) else None
    case _ => None
  }

  ghost function FlaggedBy(sh: Shared, th: Thread): int {
    var oid := FlagOrder(th);
    if oid.Some? && oid.value in sh.d.orders then sh.d.orders[oid.value].quantity else 0
  }

  /** The inventory lock's holder is the only request that can be at that point. */
  ghost function Flagged(s: Sys): int {
    if InventoryLock in s.sh.k.held && s.sh.k.held[InventoryLock].owner in s.threads
    then FlaggedBy(s.sh, s.threads[s.sh.k.held[InventoryLock].owner]) else 0
  }

  /** Everything that was ever in stock, wherever it is now. */
  ghost function Accounted(s: Sys): int {
    s.sh.d.stock + Total(s.sh.d.orders, OrderHeld) + Total(s.threads, Reserved) - Flagged(s)
  }

  // ----- One step -------------------------------------------------------------

  ghost function Own(sh: Shared, th: Thread): int {
    sh.d.stock + Total(sh.d.orders, OrderHeld) + Reserved(0, th) - FlaggedBy(sh, th)
  }

  /** Rewriting an order without touching its released flag keeps the held total. */
  lemma SameHeld(sh: Shared, o: Order)
    requires o.id in sh.d.orders && SameTerms(sh.d.orders[o.id], o)
    requires o.released == sh.d.orders[o.id].released
    ensures Total(Put(sh, o).d.orders, OrderHeld) == Total(sh.d.orders, OrderHeld)
  {
    TotalUpdate(sh.d.orders, OrderHeld, o.id, o);
  }

  lemma ReleaseStock(sh: Shared, me: nat, oid: OrderId, r: ReleasePc)
    requires OrdersOk(sh) && ReleaseLocal(sh, oid, r)
    requires !r.RUnlock? && ReleaseStep(sh, me, oid, r).Move?
    ensures var m := ReleaseStep(sh, me, oid, r);
            var flag := (q: ReleasePc) => if q.RFlag? then sh.d.orders[oid].quantity else 0;
            && m.sh.d.orders[oid].quantity == sh.d.orders[oid].quantity
            && m.sh.d.stock + Total(m.sh.d.orders, OrderHeld) - flag(m.next)
               == sh.d.stock + Total(sh.d.orders, OrderHeld) - flag(r)
  {
    if r.RFlag? {
      TotalUpdate(sh.d.orders, OrderHeld, oid, sh.d.orders[oid].(released := true));
    }
  }

  lemma StatusStock(sh: Shared, oid: OrderId, status: Status, number: nat)
    requires OrdersOk(sh) && oid in sh.d.orders
    ensures Total(Put(sh, sh.d.orders[oid].(status := status)).d.orders, OrderHeld) == Total(sh.d.orders, OrderHeld)
    ensures Total(Put(sh, sh.d.orders[oid].(failureStatus := Some(402))).d.orders, OrderHeld) == Total(sh.d.orders, OrderHeld)
    ensures Total(Put(sh, sh.d.orders[oid].(chargeId := Some(number))).d.orders, OrderHeld) == Total(sh.d.orders, OrderHeld)
  {
    SameHeld(sh, sh.d.orders[oid].(status := status));
    SameHeld(sh, sh.d.orders[oid].(failureStatus := Some(402)));
    SameHeld(sh, sh.d.orders[oid].(chargeId := Some(number)));
  }

  lemma SettleStock(sh: Shared, me: nat, req: Request, lk: nat, k: KeyedPc, drawn: OrderId)
    requires Admitted(req) && OrdersOk(sh)
    requires k.KChargeId? || k.KPaid? || k.KFail? || k.KFailCode?
    requires KeyedStep(sh, me, req, lk, k, drawn).Move?
    ensures var m := KeyedStep(sh, me, req, lk, k, drawn);
            Own(m.sh, Thread(req, m.next)) == Own(sh, Thread(req, Keyed(lk, k)))
  {
    hide Total, OrderHeld;
    StatusStock(sh, k.oid, if k.KPaid? then Paid else Failed, if k.KChargeId? then k.number else 0);
  }

  lemma KeyedReleases(sh: Shared, req: Request, k: KeyedPc)
    requires Admitted(req) && KeyedLocal(sh, req, k) && k.KRelease?
    ensures ReleaseLocal(sh, k.oid, k.r)
  {
  }

  lemma KeyedReleaseStock(sh: Shared, me: nat, req: Request, lk: nat, k: KeyedPc, drawn: OrderId)
    requires Admitted(req) && OrdersOk(sh) && k.KRelease? && ReleaseLocal(sh, k.oid, k.r)
    requires KeyedStep(sh, me, req, lk, k, drawn).Move?
    ensures var m := KeyedStep(sh, me, req, lk, k, drawn);
            Own(m.sh, Thread(req, m.next)) == Own(sh, Thread(req, Keyed(lk, k)))
  {
    hide Total, OrderHeld;
    if !k.r.RUnlock? { ReleaseStock(sh, me, k.oid, k.r); }
  }

  lemma TakeStock(sh: Shared, me: nat, req: Request, lk: nat, k: KeyedPc, drawn: OrderId)
    requires Admitted(req) && KeyedLocal(sh, req, k) && (k.KReserve? || k.KBuild? || k.KPublish?)
    requires KeyedStep(sh, me, req, lk, k, drawn).Move?
    ensures var m := KeyedStep(sh, me, req, lk, k, drawn);
            Own(m.sh, Thread(req, m.next)) == Own(sh, Thread(req, Keyed(lk, k)))
  {
    if k.KPublish? { TotalUpdate(sh.d.orders, OrderHeld, k.order.id, k.order); }
  }

  lemma OtherStock(sh: Shared, me: nat, req: Request, lk: nat, k: KeyedPc, drawn: OrderId)
    requires Admitted(req)
    requires !k.KReserve? && !k.KBuild? && !k.KPublish? && !k.KRelease? && !k.KChargeId? && !k.KPaid? && !k.KFail? && !k.KFailCode?
    requires KeyedStep(sh, me, req, lk, k, drawn).Move?
    ensures var m := KeyedStep(sh, me, req, lk, k, drawn);
            Own(m.sh, Thread(req, m.next)) == Own(sh, Thread(req, Keyed(lk, k)))
  {
  }

  lemma KeyedStock(sh: Shared, me: nat, req: Request, lk: nat, k: KeyedPc, drawn: OrderId)
    requires Admitted(req) && OrdersOk(sh) && KeyedLocal(sh, req, k)
    requires KeyedStep(sh, me, req, lk, k, drawn).Move?
    ensures var m := KeyedStep(sh, me, req, lk, k, drawn);
            Own(m.sh, Thread(req, m.next)) == Own(sh, Thread(req, Keyed(lk, k)))
  {
    hide KeyedStep, KeyedLocal, Own;
    if k.KChargeId? || k.KPaid? || k.KFail? || k.KFailCode? {
      SettleStock(sh, me, req, lk, k, drawn);
    } else if k.KRelease? {
      assert ReleaseLocal(sh, k.oid, k.r) by { KeyedReleases(sh, req, k); }
      KeyedReleaseStock(sh, me, req, lk, k, drawn);
    } else if k.KReserve? || k.KBuild? || k.KPublish? {
      TakeStock(sh, me, req, lk, k, drawn);
    } else {
      OtherStock(sh, me, req, lk, k, drawn);
    }
  }

  lemma CancelStock(sh: Shared, me: nat, req: Request, x: CancelPc)
    requires req.Cancel? && req.auth.Some? && OrdersOk(sh) && CancelLocal(sh, req, x)
    requires CancelStep(sh, me, req, x).Move?
    ensures var m := CancelStep(sh, me, req, x); Own(m.sh, Thread(req, m.next)) == Own(sh, Thread(req, X(x)))
  {
    hide Total, OrderHeld;
    if x.XRelease? {
      if !x.r.RUnlock? { ReleaseStock(sh, me, req.orderId, x.r); }
    } else if x.XWrite? {
      StatusStock(sh, req.orderId, Cancelled, 0);
    }
  }

  lemma WebhookSettleStock(sh: Shared, me: nat, req: Request, w: WebhookPc)
    requires req.Webhook? && OrdersOk(sh) && (w.WPaid? || w.WChargeId? || w.WFail? || w.WFailCode?)
    requires WebhookStep(sh, me, req, w).Move?
    ensures var m := WebhookStep(sh, me, req, w); Own(m.sh, Thread(req, m.next)) == Own(sh, Thread(req, W(w)))
  {
    hide Total, OrderHeld;
    StatusStock(sh, req.orderId, if w.WPaid? then Paid else Failed, if w.WChargeId? then w.number else 0);
  }

  lemma WebhookStock(sh: Shared, me: nat, req: Request, w: WebhookPc)
    requires req.Webhook? && OrdersOk(sh) && WebhookLocal(sh, req, w)
    requires WebhookStep(sh, me, req, w).Move?
    ensures var m := WebhookStep(sh, me, req, w); Own(m.sh, Thread(req, m.next)) == Own(sh, Thread(req, W(w)))
  {
    hide WebhookStep, WebhookLocal, OrdersOk, Own;
    if w.WRelease? { WebhookReleaseStock(sh, me, req, w); }
    else if w.WPaid? || w.WChargeId? || w.WFail? || w.WFailCode? { WebhookSettleStock(sh, me, req, w); }
    else { WebhookQuietStock(sh, me, req, w); }
  }

  lemma WebhookReleaseStock(sh: Shared, me: nat, req: Request, w: WebhookPc)
    requires w.WRelease?
    requires req.Webhook? && OrdersOk(sh) && WebhookLocal(sh, req, w)
    requires WebhookStep(sh, me, req, w).Move?
    ensures var m := WebhookStep(sh, me, req, w); Own(m.sh, Thread(req, m.next)) == Own(sh, Thread(req, W(w)))
  {
    hide Total, OrderHeld;
    if !w.r.RUnlock? { ReleaseStock(sh, me, req.orderId, w.r); }
  }

  lemma WebhookQuietStock(sh: Shared, me: nat, req: Request, w: WebhookPc)
    requires w.WSeen? || w.WLookup? || w.WStatus? || w.WCharge? || w.WEffect? || w.WMark? || w.WUnlock?
    requires req.Webhook? && OrdersOk(sh) && WebhookLocal(sh, req, w)
    requires WebhookStep(sh, me, req, w).Move?
    ensures var m := WebhookStep(sh, me, req, w); Own(m.sh, Thread(req, m.next)) == Own(sh, Thread(req, W(w)))
  {
    hide Total, OrderHeld, OrdersOk;
  }

  lemma StepStock(sh: Shared, me: nat, req: Request, pc: Pc, drawn: OrderId)
    requires OrdersOk(sh) && Local(sh, req, pc) && Step(sh, me, req, pc, drawn).Move?
    ensures var m := Step(sh, me, req, pc, drawn); Own(m.sh, Thread(req, m.next)) == Own(sh, Thread(req, pc))
  {
    hide KeyedStep, CancelStep, WebhookStep, KeyedLocal, CancelLocal, WebhookLocal;
    match pc
    case Keyed(lk, k) => KeyedStock(sh, me, req, lk, k, drawn);
    case X(x) => CancelStock(sh, me, req, x);
    case W(w) => WebhookStock(sh, me, req, w);
    case _ =>
  }

  // ----- The whole system -------------------------------------------------------

  /** A step away from the inventory lock leaves the flagged order alone. */
  lemma FlaggedNext(s: Sys, t: nat, drawn: OrderId, s': Sys)
    requires Inv(s) && Takes(s, t, drawn, s')
    ensures Flagged(s') - Flagged(s) == FlaggedBy(s'.sh, s'.threads[t]) - FlaggedBy(s.sh, s.threads[t])
  {
    hide Step, SharedOk, Local;
    var th := s.threads[t];
    assert Local(s.sh, th.req, th.pc);
    OwnLocks(s, t);
    StepLocks(s.sh, t, th.req, th.pc, drawn);
    StepGuarantee(s.sh, t, th.req, th.pc, drawn);
    FlagNeedsLock(th);
    FlagNeedsLock(s'.threads[t]);
    if InventoryLock in s.sh.k.held && s.sh.k.held[InventoryLock].owner != t {
      var u := s.sh.k.held[InventoryLock].owner;
      assert Has(s.threads[u].pc, InventoryLock);
      assert Local(s.sh, s.threads[u].req, s.threads[u].pc);
      FlagKnown(s.sh, s.threads[u]);
    }
  }

  lemma FlagNeedsLock(th: Thread)
    ensures FlagOrder(th).Some? ==> Has(th.pc, InventoryLock)
  {
  }

  lemma FlagKnown(sh: Shared, th: Thread)
    requires Local(sh, th.req, th.pc)
    ensures FlagOrder(th).Some? ==> FlagOrder(th).value in sh.d.orders && !sh.d.orders[FlagOrder(th).value].released
  {
  }

  lemma AccountedTakes(s: Sys, t: nat, drawn: OrderId, s': Sys)
    requires Inv(s) && Takes(s, t, drawn, s')
    ensures Accounted(s') == Accounted(s)
  {
    hide Step, Local, SharedOk, Inv, Flagged, FlaggedBy, Reserved;
    var th := s.threads[t];
    FlaggedNext(s, t, drawn, s');
    InvParts(s, t);
    StepStock(s.sh, t, th.req, th.pc, drawn);
    TotalUpdate(s.threads, Reserved, t, s'.threads[t]);
    ReservedSame(t, th);
    ReservedSame(t, s'.threads[t]);
  }

  lemma ReservedSame(t: nat, th: Thread)
    ensures Reserved(t, th) == Reserved(0, th)
  {
  }

  lemma InvParts(s: Sys, t: nat)
    requires Inv(s) && t in s.threads
    ensures OrdersOk(s.sh) && Local(s.sh, s.threads[t].req, s.threads[t].pc)
  {
  }

  lemma AccountedArrives(s: Sys, t: nat, req: Request, s': Sys)
    requires Inv(s) && Arrives(s, t, req, s')
    ensures Accounted(s') == Accounted(s)
  {
    TotalUpdate(s.threads, Reserved, t, Thread(req, Start));
  }

  lemma AccountedInit(stock: nat, price: nat)
    ensures Accounted(Init(stock, price)) == stock
  {
  }

  /** Conservation: in every interleaved run, the stock on the shelf, the stock of unreleased
      orders and the stock of orders still being built add up to the initial stock. */
  lemma {:induction false} Conservation(run: seq<Sys>, stock: nat, price: nat, i: nat)
    requires Run(run, stock, price) && i < |run|
    ensures Accounted(run[i]) == stock
  {
    hide Inv, Accounted;
    if i == 0 {
      AccountedInit(stock, price);
    } else {
      Conservation(run, stock, price, i - 1);
      RunInvariant(run, stock, price, i - 1);
      var s, s' := run[i - 1], run[i - 1 + 1];
      assert Next(s, s');
      if Advances(s, s') {
        var t, drawn :| Takes(s, t, drawn, s');
        AccountedTakes(s, t, drawn, s');
      } else {
        var t, req :| Arrives(s, t, req, s');
        AccountedArrives(s, t, req, s');
      }
    }
  }
}

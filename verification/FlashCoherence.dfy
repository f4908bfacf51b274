/** Order status, release flag and charge agree, provided no webhook overlaps the
    settling of the order it names. */
module FlashCoherence {
  import opened Prelude
  import opened FlashModel
  import opened FlashInvariant
  import opened FlashSteps
  import opened FlashRuns

  /** The order a creation has in hand: published or found pending, not yet settled. */
  function Settling(th: Thread): Option<OrderId> {
    if !th.pc.Keyed? then None else
    match th.pc.k
    case KRecord(oid) => Some(oid)
    case KCharge(oid, _) => Some(oid)
    case KChargeId(oid, _) => Some(oid)
    case KPaid(oid) => Some(oid)
    case KFail(oid) => Some(oid)
    case KFailCode(oid) => Some(oid)
    case KRelease(oid, _) => Some(oid)
    case _ => None
  }

  /** The order a webhook is applying its event to. */
  function Applying(th: Thread): Option<OrderId> {
    if th.pc.W? && th.req.Webhook? &&
       (th.pc.w.WPaid? || th.pc.w.WCharge? || th.pc.w.WChargeId? || th.pc.w.WFail? || th.pc.w.WFailCode? || th.pc.w.WRelease?)
    then Some(th.req.orderId) else None
  }

  function Cancelling(th: Thread): Option<OrderId> {
    if th.pc.X? && th.req.Cancel? && th.pc.x.XRelease? then Some(th.req.orderId) else None
  }

  /** The order whose record this request may leave half-changed. */
  function Busy(th: Thread): Option<OrderId> {
    if Settling(th).Some? then Settling(th)
    else if Applying(th).Some? then Applying(th)
    else Cancelling(th)
  }

  /** The order whose record this request's next step may write. */
  function Touching(th: Thread): Option<OrderId> {
    if th.pc == X(XWrite) && th.req.Cancel? then Some(th.req.orderId) else Busy(th)
  }

  /** The environment assumption: no webhook applies an event to an order being settled. */
  ghost predicate NoOverlap(s: Sys) {
    forall t, u :: t in s.threads && u in s.threads && Settling(s.threads[t]).Some?
      ==> Settling(s.threads[t]) != Applying(s.threads[u])
  }

  // ----- Coherence --------------------------------------------------------------

  ghost predicate Coherent(d: Data, o: Order) {
    && (o.released <==> o.status == Failed || o.status == Cancelled)
    && (o.status == Pending ==> Checkout(o.id) in d.charges)
    && (o.status == Paid ==>
          Checkout(o.id) in d.charges && o.chargeId == Some(d.charges[Checkout(o.id)].number))
    && (o.status == Failed ==> o.failureStatus == Some(402))
  }

  ghost predicate At(sh: Shared, oid: OrderId, status: Status, released: bool) {
    oid in sh.d.orders && sh.d.orders[oid].status == status && sh.d.orders[oid].released == released
  }

  ghost predicate FailedAt(sh: Shared, oid: OrderId, r: ReleasePc) {
    At(sh, oid, Failed, r.RUnlock?) && sh.d.orders[oid].failureStatus == Some(402)
  }

  ghost predicate SettlingAt(sh: Shared, k: KeyedPc) {
    match k
    case KRecord(oid) => At(sh, oid, Pending, false)
    case KCharge(oid, _) => At(sh, oid, Pending, false)
    case KChargeId(oid, _) => At(sh, oid, Pending, false)
    case KPaid(oid) => At(sh, oid, Pending, false) && sh.d.orders[oid].chargeId.Some?
    case KFail(oid) => At(sh, oid, Pending, false)
    case KFailCode(oid) => At(sh, oid, Failed, false)
    case KRelease(oid, r) => FailedAt(sh, oid, r)
    case _ => true
  }

  ghost predicate CancellingAt(sh: Shared, oid: OrderId, x: CancelPc) {
    match x
    case XWrite => At(sh, oid, Paid, false)
    case XRelease(r) => At(sh, oid, Cancelled, r.RUnlock?)
    case _ => true
  }

  ghost predicate ApplyingAt(sh: Shared, oid: OrderId, w: WebhookPc) {
    match w
    case WPaid => At(sh, oid, Pending, false) && Checkout(oid) in sh.d.charges
    case WCharge => At(sh, oid, Paid, false) && Checkout(oid) in sh.d.charges
    case WChargeId(_) => At(sh, oid, Paid, false)
    case WFail => At(sh, oid, Pending, false)
    case WFailCode => At(sh, oid, Failed, false)
    case WRelease(r) => FailedAt(sh, oid, r)
    case _ => true
  }

  ghost predicate Mid(sh: Shared, th: Thread) {
    match th.pc
    case Keyed(_, k) => SettlingAt(sh, k)
    case X(x) => th.req.Cancel? && CancellingAt(sh, th.req.orderId, x)
    case W(w) => th.req.Webhook? && ApplyingAt(sh, th.req.orderId, w)
    case _ => true
  }

  ghost predicate Mids(s: Sys) {
    forall t :: t in s.threads ==> Mid(s.sh, s.threads[t])
  }

  ghost predicate Idle(s: Sys, oid: OrderId) {
    forall t :: t in s.threads ==> Busy(s.threads[t]) != Some(oid)
  }

  /** Every order no request is working on is coherent. */
  ghost predicate IdleCoherent(s: Sys) {
    forall oid :: oid in s.sh.d.orders && Idle(s, oid) ==> Coherent(s.sh.d, s.sh.d.orders[oid])
  }

  ghost predicate CohInv(s: Sys) { Mids(s) && IdleCoherent(s) }

  // ----- At most one request touches an order -----------------------------------

  lemma SettlersExclude(s: Sys, t: nat, u: nat, oid: OrderId)
    requires Inv(s) && t in s.threads && u in s.threads
    requires Settling(s.threads[t]) == Some(oid)
    requires Settling(s.threads[u]) == Some(oid) || (s.threads[u].pc.Keyed? && s.threads[u].pc.k == KReplayPending(oid))
    ensures t == u
  {
    hide Inv, Local, KeyedLocal, SharedOk;
    var a, b := s.threads[t], s.threads[u];
    LocalOf(s, t);
    LocalOf(s, u);
    LocksOf(s);
    DraftsOf(s);
    SettlerOwns(s.sh, a, oid);
    SettlerOwns(s.sh, b, oid);
    if !a.pc.k.KRecord? && !b.pc.k.KRecord? {
      OneOwner(s.sh, a.req, b.req, oid);
      assert Has(a.pc, KeyLock(a.pc.lk)) && Has(b.pc, KeyLock(b.pc.lk));
      MutualExclusion(s, t, u, KeyLock(a.pc.lk));
    }
  }

  /** A creation with an order in hand holds its identity's lock; the order is entered under that
      identity, or, while its own creation is about to enter it, under none. */
  lemma SettlerOwns(sh: Shared, th: Thread, oid: OrderId)
    requires Local(sh, th.req, th.pc)
    requires Settling(th) == Some(oid) || (th.pc.Keyed? && th.pc.k == KReplayPending(oid))
    ensures LockOf(sh, th.req, th.pc.lk)
    ensures if th.pc.k.KRecord? then Draft(th.pc) == Some(oid) && (forall i :: i in sh.d.idempotency ==> sh.d.idempotency[i] != oid)
            else Owns(sh, th.req, oid)
  {
  }

  lemma OneOwner(sh: Shared, a: Request, b: Request, oid: OrderId)
    requires SharedOk(sh) && Owns(sh, a, oid) && Owns(sh, b, oid)
    ensures IdentityOf(a) == IdentityOf(b)
  {
    hide OrdersOk, LedgerOk, EventsOk;
  }

  lemma DraftsOf(s: Sys)
    requires Inv(s)
    ensures DraftsDistinct(s)
  {
  }

  lemma TouchersExclude(s: Sys, t: nat, u: nat, oid: OrderId)
    requires Inv(s) && Mids(s) && NoOverlap(s) && t in s.threads && u in s.threads
    requires Touching(s.threads[t]) == Some(oid) && Touching(s.threads[u]) == Some(oid)
    ensures t == u
  {
    hide Inv, Local;
    var a, b := s.threads[t], s.threads[u];
    assert Mid(s.sh, a) && Mid(s.sh, b);
    if Settling(a).Some? && Settling(b).Some? {
      SettlersExclude(s, t, u, oid);
    } else if Settling(a).None? && Settling(b).None? {
      assert LocksAgree(s) by { LocksOf(s); }
      MutualExclusion(s, t, u, StateLock);
    }
  }

  // ----- One step -----------------------------------------------------------------

  /** A status only ever moves from pending to paid or failed, and from paid to cancelled. */
  predicate StatusMove(before: Status, after: Status) {
    before == after || (before == Pending && (after == Paid || after == Failed)) || (before == Paid && after == Cancelled)
  }

  /** The point at which a request reads an order's status before taking it in hand. */
  function Inspecting(th: Thread): Option<OrderId> {
    match th.pc
    case Keyed(_, k) => if k.KReplayPending? then Some(k.oid) else None
    case X(x) => if x.XPaid? && th.req.Cancel? then Some(th.req.orderId) else None
    case W(w) => if w.WStatus? && th.req.Webhook? then Some(th.req.orderId) else None
    case _ => None
  }

  /** What a request's step does to the order it touches. */
  ghost predicate MidStep(sh: Shared, sh': Shared, th: Thread, th': Thread) {
    && Mid(sh', th')
    && (Busy(th).Some? && Busy(th') != Busy(th) ==>
          Busy(th).value in sh'.d.orders && Coherent(sh'.d, sh'.d.orders[Busy(th).value]))
    && (forall oid :: oid in sh.d.orders && oid in sh'.d.orders ==>
          && (sh'.d.orders[oid] != sh.d.orders[oid] ==>
                Touching(th) == Some(oid) && (Busy(th) == Some(oid) || Busy(th') == Some(oid)))
          && StatusMove(sh.d.orders[oid].status, sh'.d.orders[oid].status))
    && (forall oid :: oid in sh'.d.orders && oid !in sh.d.orders ==> Busy(th') == Some(oid))
  }

  ghost predicate InspectsCoherent(sh: Shared, th: Thread, th': Thread) {
    Inspecting(th).Some? && Touching(th') == Inspecting(th) ==>
      Inspecting(th).value in sh.d.orders && Coherent(sh.d, sh.d.orders[Inspecting(th).value])
  }

  lemma ReleaseMid(sh: Shared, me: nat, oid: OrderId, r: ReleasePc)
    requires OrdersOk(sh) && ReleaseLocal(sh, oid, r)
    requires oid in sh.d.orders && sh.d.orders[oid].released == r.RUnlock?
    requires !r.RUnlock? && ReleaseStep(sh, me, oid, r).Move?
    ensures var m := ReleaseStep(sh, me, oid, r);
            && m.sh.d.orders.Keys == sh.d.orders.Keys
            && m.sh.d.charges == sh.d.charges
            && m.sh.d.orders[oid] == sh.d.orders[oid].(released := m.next.RUnlock?)
            && (forall o :: o in sh.d.orders && o != oid ==> m.sh.d.orders[o] == sh.d.orders[o])
  {
  }

  lemma ReplayMid(sh: Shared, me: nat, req: Request, lk: nat, k: KeyedPc, drawn: OrderId)
    requires Admitted(req) && OrdersOk(sh) && KeyedLocal(sh, req, k)
    requires Settling(Thread(req, Keyed(lk, k))).None?
    requires KeyedStep(sh, me, req, lk, k, drawn).Move?
    requires InspectsCoherent(sh, Thread(req, Keyed(lk, k)), Thread(req, KeyedStep(sh, me, req, lk, k, drawn).next))
    ensures var m := KeyedStep(sh, me, req, lk, k, drawn);
            MidStep(sh, m.sh, Thread(req, Keyed(lk, k)), Thread(req, m.next))
  {
    hide OrdersOk, KeyedLocal, KeyedStep, InspectsCoherent, MidStep, Settling;
    if k.KReplayPending? { InspectMid(sh, me, req, lk, k, drawn); } else { LookupMid(sh, me, req, lk, k, drawn); }
  }

  lemma InspectMid(sh: Shared, me: nat, req: Request, lk: nat, k: KeyedPc, drawn: OrderId)
    requires k.KReplayPending?
    requires Admitted(req) && OrdersOk(sh) && KeyedLocal(sh, req, k)
    requires Settling(Thread(req, Keyed(lk, k))).None?
    requires KeyedStep(sh, me, req, lk, k, drawn).Move?
    requires InspectsCoherent(sh, Thread(req, Keyed(lk, k)), Thread(req, KeyedStep(sh, me, req, lk, k, drawn).next))
    ensures var m := KeyedStep(sh, me, req, lk, k, drawn);
            MidStep(sh, m.sh, Thread(req, Keyed(lk, k)), Thread(req, m.next))
  {
  }

  lemma LookupMid(sh: Shared, me: nat, req: Request, lk: nat, k: KeyedPc, drawn: OrderId)
    requires !k.KReplayPending?
    requires Admitted(req) && OrdersOk(sh) && KeyedLocal(sh, req, k)
    requires Settling(Thread(req, Keyed(lk, k))).None?
    requires KeyedStep(sh, me, req, lk, k, drawn).Move?
    requires InspectsCoherent(sh, Thread(req, Keyed(lk, k)), Thread(req, KeyedStep(sh, me, req, lk, k, drawn).next))
    ensures var m := KeyedStep(sh, me, req, lk, k, drawn);
            MidStep(sh, m.sh, Thread(req, Keyed(lk, k)), Thread(req, m.next))
  {
    hide OrdersOk, KeyedLocal, KeyedStep, InspectsCoherent, MidStep, Settling;
    if k.KPublish? { PublishMid(sh, me, req, lk, k, drawn); } else { ReadMid(sh, me, req, lk, k, drawn); }
  }

  lemma PublishMid(sh: Shared, me: nat, req: Request, lk: nat, k: KeyedPc, drawn: OrderId)
    requires k.KPublish?
    requires !k.KReplayPending?
    requires Admitted(req) && OrdersOk(sh) && KeyedLocal(sh, req, k)
    requires Settling(Thread(req, Keyed(lk, k))).None?
    requires KeyedStep(sh, me, req, lk, k, drawn).Move?
    requires InspectsCoherent(sh, Thread(req, Keyed(lk, k)), Thread(req, KeyedStep(sh, me, req, lk, k, drawn).next))
    ensures var m := KeyedStep(sh, me, req, lk, k, drawn);
            MidStep(sh, m.sh, Thread(req, Keyed(lk, k)), Thread(req, m.next))
  {
  }

  lemma ReadMid(sh: Shared, me: nat, req: Request, lk: nat, k: KeyedPc, drawn: OrderId)
    requires !k.KPublish? && !k.KReplayPending?
    requires !k.KReplayPending?
    requires Admitted(req) && OrdersOk(sh) && KeyedLocal(sh, req, k)
    requires Settling(Thread(req, Keyed(lk, k))).None?
    requires KeyedStep(sh, me, req, lk, k, drawn).Move?
    requires InspectsCoherent(sh, Thread(req, Keyed(lk, k)), Thread(req, KeyedStep(sh, me, req, lk, k, drawn).next))
    ensures var m := KeyedStep(sh, me, req, lk, k, drawn);
            MidStep(sh, m.sh, Thread(req, Keyed(lk, k)), Thread(req, m.next))
  {
  }

  lemma RecordMid(sh: Shared, me: nat, req: Request, lk: nat, k: KeyedPc, drawn: OrderId)
    requires Admitted(req) && KeyedLocal(sh, req, k) && SettlingAt(sh, k) && k.KRecord?
    requires KeyedStep(sh, me, req, lk, k, drawn).Move?
    ensures var m := KeyedStep(sh, me, req, lk, k, drawn);
            MidStep(sh, m.sh, Thread(req, Keyed(lk, k)), Thread(req, m.next))
  {
  }

  lemma ChargeMid(sh: Shared, me: nat, req: Request, lk: nat, k: KeyedPc, drawn: OrderId)
    requires Admitted(req) && OrdersOk(sh) && sh.d.timeoutKeys <= sh.d.charges.Keys
    requires k.KCharge? && ChargeLocal(sh, k.oid, k.p) && At(sh, k.oid, Pending, false)
    requires KeyedStep(sh, me, req, lk, k, drawn).Move?
    ensures var m := KeyedStep(sh, me, req, lk, k, drawn);
            MidStep(sh, m.sh, Thread(req, Keyed(lk, k)), Thread(req, m.next))
  {
    if !k.p.PUnlock? { ChargeAssumes(sh, me, k.oid, k.p); }
  }

  lemma SettleMid(sh: Shared, me: nat, req: Request, lk: nat, k: KeyedPc, drawn: OrderId)
    requires Admitted(req) && OrdersOk(sh) && KeyedLocal(sh, req, k) && SettlingAt(sh, k)
    requires k.KChargeId? || k.KPaid? || k.KFail? || k.KFailCode?
    requires KeyedStep(sh, me, req, lk, k, drawn).Move?
    ensures var m := KeyedStep(sh, me, req, lk, k, drawn);
            MidStep(sh, m.sh, Thread(req, Keyed(lk, k)), Thread(req, m.next))
  {
    hide OrdersOk, KeyedLocal, SettlingAt, KeyedStep, MidStep;
    if k.KChargeId? || k.KPaid? { PayMid(sh, me, req, lk, k, drawn); } else { FailMid(sh, me, req, lk, k, drawn); }
  }

  lemma PayMid(sh: Shared, me: nat, req: Request, lk: nat, k: KeyedPc, drawn: OrderId)
    requires k.KChargeId? || k.KPaid?
    requires Admitted(req) && OrdersOk(sh) && KeyedLocal(sh, req, k) && SettlingAt(sh, k)
    requires k.KChargeId? || k.KPaid? || k.KFail? || k.KFailCode?
    requires KeyedStep(sh, me, req, lk, k, drawn).Move?
    ensures var m := KeyedStep(sh, me, req, lk, k, drawn);
            MidStep(sh, m.sh, Thread(req, Keyed(lk, k)), Thread(req, m.next))
  {
  }

  lemma FailMid(sh: Shared, me: nat, req: Request, lk: nat, k: KeyedPc, drawn: OrderId)
    requires k.KFail? || k.KFailCode?
    requires Admitted(req) && OrdersOk(sh) && KeyedLocal(sh, req, k) && SettlingAt(sh, k)
    requires k.KChargeId? || k.KPaid? || k.KFail? || k.KFailCode?
    requires KeyedStep(sh, me, req, lk, k, drawn).Move?
    ensures var m := KeyedStep(sh, me, req, lk, k, drawn);
            MidStep(sh, m.sh, Thread(req, Keyed(lk, k)), Thread(req, m.next))
  {
  }

  lemma GiveBackMid(sh: Shared, me: nat, req: Request, lk: nat, k: KeyedPc, drawn: OrderId)
    requires Admitted(req) && OrdersOk(sh) && KeyedLocal(sh, req, k) && SettlingAt(sh, k) && k.KRelease?
    requires KeyedStep(sh, me, req, lk, k, drawn).Move?
    ensures var m := KeyedStep(sh, me, req, lk, k, drawn);
            MidStep(sh, m.sh, Thread(req, Keyed(lk, k)), Thread(req, m.next))
  {
    if !k.r.RUnlock? { ReleaseMid(sh, me, k.oid, k.r); }
  }

  lemma CancelMid(sh: Shared, me: nat, req: Request, x: CancelPc)
    requires req.Cancel? && req.auth.Some? && OrdersOk(sh) && CancelLocal(sh, req, x) && CancellingAt(sh, req.orderId, x)
    requires CancelStep(sh, me, req, x).Move?
    requires InspectsCoherent(sh, Thread(req, X(x)), Thread(req, CancelStep(sh, me, req, x).next))
    ensures var m := CancelStep(sh, me, req, x); MidStep(sh, m.sh, Thread(req, X(x)), Thread(req, m.next))
  {
    if x.XRelease? && !x.r.RUnlock? { ReleaseMid(sh, me, req.orderId, x.r); }
  }

  lemma WebhookMid(sh: Shared, me: nat, req: Request, w: WebhookPc)
    requires req.Webhook? && OrdersOk(sh) && WebhookLocal(sh, req, w) && ApplyingAt(sh, req.orderId, w)
    requires !w.WRelease?
    requires WebhookStep(sh, me, req, w).Move?
    requires InspectsCoherent(sh, Thread(req, W(w)), Thread(req, WebhookStep(sh, me, req, w).next))
    ensures var m := WebhookStep(sh, me, req, w); MidStep(sh, m.sh, Thread(req, W(w)), Thread(req, m.next))
  {
    hide ApplyingAt, WebhookLocal, OrdersOk, InspectsCoherent, MidStep, WebhookStep;
    if w.WSeen? || w.WLookup? || w.WStatus? || w.WEffect? || w.WMark? || w.WUnlock? {
      WebhookReadMid(sh, me, req, w);
    } else {
      WebhookWriteMid(sh, me, req, w);
    }
  }

  lemma WebhookReadMid(sh: Shared, me: nat, req: Request, w: WebhookPc)
    requires w.WSeen? || w.WLookup? || w.WStatus? || w.WEffect? || w.WMark? || w.WUnlock?
    requires req.Webhook? && OrdersOk(sh) && WebhookLocal(sh, req, w) && ApplyingAt(sh, req.orderId, w)
    requires WebhookStep(sh, me, req, w).Move?
    requires InspectsCoherent(sh, Thread(req, W(w)), Thread(req, WebhookStep(sh, me, req, w).next))
    ensures var m := WebhookStep(sh, me, req, w); MidStep(sh, m.sh, Thread(req, W(w)), Thread(req, m.next))
  {
  }

  lemma WebhookWriteMid(sh: Shared, me: nat, req: Request, w: WebhookPc)
    requires w.WPaid? || w.WCharge? || w.WChargeId? || w.WFail? || w.WFailCode?
    requires req.Webhook? && OrdersOk(sh) && WebhookLocal(sh, req, w) && ApplyingAt(sh, req.orderId, w)
    requires WebhookStep(sh, me, req, w).Move?
    requires InspectsCoherent(sh, Thread(req, W(w)), Thread(req, WebhookStep(sh, me, req, w).next))
    ensures var m := WebhookStep(sh, me, req, w); MidStep(sh, m.sh, Thread(req, W(w)), Thread(req, m.next))
  {
    hide OrdersOk, WebhookLocal, ApplyingAt, WebhookStep, InspectsCoherent, MidStep;
    if w.WPaid? || w.WCharge? || w.WChargeId? { WebhookPayMid(sh, me, req, w); } else { WebhookFailMid(sh, me, req, w); }
  }

  lemma WebhookPayMid(sh: Shared, me: nat, req: Request, w: WebhookPc)
    requires w.WPaid? || w.WCharge? || w.WChargeId?
    requires w.WPaid? || w.WCharge? || w.WChargeId? || w.WFail? || w.WFailCode?
    requires req.Webhook? && OrdersOk(sh) && WebhookLocal(sh, req, w) && ApplyingAt(sh, req.orderId, w)
    requires WebhookStep(sh, me, req, w).Move?
    requires InspectsCoherent(sh, Thread(req, W(w)), Thread(req, WebhookStep(sh, me, req, w).next))
    ensures var m := WebhookStep(sh, me, req, w); MidStep(sh, m.sh, Thread(req, W(w)), Thread(req, m.next))
  {
  }

  lemma WebhookFailMid(sh: Shared, me: nat, req: Request, w: WebhookPc)
    requires w.WFail? || w.WFailCode?
    requires w.WPaid? || w.WCharge? || w.WChargeId? || w.WFail? || w.WFailCode?
    requires req.Webhook? && OrdersOk(sh) && WebhookLocal(sh, req, w) && ApplyingAt(sh, req.orderId, w)
    requires WebhookStep(sh, me, req, w).Move?
    requires InspectsCoherent(sh, Thread(req, W(w)), Thread(req, WebhookStep(sh, me, req, w).next))
    ensures var m := WebhookStep(sh, me, req, w); MidStep(sh, m.sh, Thread(req, W(w)), Thread(req, m.next))
  {
  }

  lemma WebhookReleaseMid(sh: Shared, me: nat, req: Request, r: ReleasePc)
    requires req.Webhook? && OrdersOk(sh) && ReleaseLocal(sh, req.orderId, r) && FailedAt(sh, req.orderId, r)
    requires WebhookStep(sh, me, req, WRelease(r)).Move?
    ensures var m := WebhookStep(sh, me, req, WRelease(r));
            MidStep(sh, m.sh, Thread(req, W(WRelease(r))), Thread(req, m.next))
  {
    if !r.RUnlock? { ReleaseMid(sh, me, req.orderId, r); }
  }

  lemma OutsideMid(sh: Shared, me: nat, req: Request, pc: Pc, drawn: OrderId)
    requires Local(sh, req, pc) && !pc.Keyed? && !pc.X? && !pc.W?
    requires Step(sh, me, req, pc, drawn).Move?
    ensures var m := Step(sh, me, req, pc, drawn); MidStep(sh, m.sh, Thread(req, pc), Thread(req, m.next))
  {
  }

  lemma MidParts(sh: Shared, th: Thread)
    requires Mid(sh, th) && Local(sh, th.req, th.pc)
    ensures th.pc.Keyed? && th.pc.k.KCharge? ==>
              ChargeLocal(sh, th.pc.k.oid, th.pc.k.p) && At(sh, th.pc.k.oid, Pending, false)
    ensures th.pc.W? && th.pc.w.WRelease? ==>
              th.req.Webhook? && ReleaseLocal(sh, th.req.orderId, th.pc.w.r) && FailedAt(sh, th.req.orderId, th.pc.w.r)
  {
  }

  lemma StepMid(sh: Shared, me: nat, req: Request, pc: Pc, drawn: OrderId)
    requires OrdersOk(sh) && LedgerOk(sh) && Local(sh, req, pc) && Mid(sh, Thread(req, pc))
    requires Step(sh, me, req, pc, drawn).Move?
    requires InspectsCoherent(sh, Thread(req, pc), Thread(req, Step(sh, me, req, pc, drawn).next))
    ensures var m := Step(sh, me, req, pc, drawn); MidStep(sh, m.sh, Thread(req, pc), Thread(req, m.next))
  {
    MidParts(sh, Thread(req, pc));
    hide KeyedLocal, SettlingAt, KeyedStep, CancelLocal, CancellingAt, CancelStep,
         WebhookLocal, ApplyingAt, WebhookStep, InspectsCoherent, OrdersOk, MidStep;
    match pc
    case Keyed(lk, k) =>
      if Settling(Thread(req, pc)).None? {
        ReplayMid(sh, me, req, lk, k, drawn);
      } else if k.KRecord? {
        RecordMid(sh, me, req, lk, k, drawn);
      } else if k.KCharge? {
        ChargeMid(sh, me, req, lk, k, drawn);
      } else if k.KRelease? {
        GiveBackMid(sh, me, req, lk, k, drawn);
      } else {
        SettleMid(sh, me, req, lk, k, drawn);
      }
    case X(x) => CancelMid(sh, me, req, x);
    case W(w) =>
      if w.WRelease? { WebhookReleaseMid(sh, me, req, w.r); }
      else { WebhookMid(sh, me, req, w); }
    case _ => OutsideMid(sh, me, req, pc, drawn);
  }

  // ----- The whole system -----------------------------------------------------------

  lemma InspectReads(sh: Shared, me: nat, req: Request, pc: Pc, drawn: OrderId)
    requires Local(sh, req, pc) && Step(sh, me, req, pc, drawn).Move? && Inspecting(Thread(req, pc)).Some?
    requires Touching(Thread(req, Step(sh, me, req, pc, drawn).next)) == Inspecting(Thread(req, pc))
    ensures var oid, next := Inspecting(Thread(req, pc)).value, Thread(req, Step(sh, me, req, pc, drawn).next);
            && oid in sh.d.orders
            && sh.d.orders[oid].status == (if pc.X? then Paid else Pending)
            && (pc.Keyed? ==> Settling(next) == Some(oid))
            && (pc.W? ==> Applying(next) == Some(oid))
  {
  }

  /** An order taken in hand is idle at that moment. */
  lemma TakenIdle(s: Sys, t: nat, drawn: OrderId, s': Sys, u: nat)
    requires Inv(s) && CohInv(s) && NoOverlap(s') && Takes(s, t, drawn, s')
    requires Inspecting(s.threads[t]).Some? && Touching(s'.threads[t]) == Inspecting(s.threads[t])
    requires u in s.threads
    ensures Busy(s.threads[u]) != Inspecting(s.threads[t])
  {
    hide Inv, Step, Local;
    var a, b := s.threads[t], s.threads[u];
    LocksOf(s);
    assert Local(s.sh, a.req, a.pc) by { LocalOf(s, t); }
    InspectReads(s.sh, t, a.req, a.pc, drawn);
    if Busy(b) == Inspecting(a) {
      assert Mid(s.sh, b) && s'.threads[u] == b;
      if Settling(b).Some? && a.pc.Keyed? {
        SettlersExclude(s, u, t, Busy(b).value);
      } else if Settling(b).None? && !a.pc.Keyed? {
        MutualExclusion(s, t, u, StateLock);
      }
    }
  }

  lemma LocalOf(s: Sys, t: nat)
    requires Inv(s) && t in s.threads
    ensures Local(s.sh, s.threads[t].req, s.threads[t].pc) && OrdersOk(s.sh) && LedgerOk(s.sh) && SharedOk(s.sh)
  {
  }

  lemma TakesMid(s: Sys, t: nat, drawn: OrderId, s': Sys)
    requires Inv(s) && CohInv(s) && NoOverlap(s') && Takes(s, t, drawn, s')
    ensures MidStep(s.sh, s'.sh, s.threads[t], s'.threads[t])
  {
    hide Inv, Step, Local, MidStep, Mid;
    var th := s.threads[t];
    LocalOf(s, t);
    if Inspecting(th).Some? && Touching(s'.threads[t]) == Inspecting(th) {
      forall u | u in s.threads ensures Busy(s.threads[u]) != Inspecting(th) {
        TakenIdle(s, t, drawn, s', u);
      }
      assert Idle(s, Inspecting(th).value);
      InspectReads(s.sh, t, th.req, th.pc, drawn);
    }
    assert InspectsCoherent(s.sh, th, s'.threads[t]);
    StepMid(s.sh, t, th.req, th.pc, drawn);
  }

  /** A request's mid-flight facts depend on its own order and on recorded charges only. */
  lemma MidFrame(sh: Shared, sh': Shared, th: Thread)
    requires Mid(sh, th)
    requires Touching(th).Some? ==> Touching(th).value in sh.d.orders ==>
               Touching(th).value in sh'.d.orders && sh'.d.orders[Touching(th).value] == sh.d.orders[Touching(th).value]
    requires forall key :: key in sh.d.charges ==> key in sh'.d.charges && sh'.d.charges[key] == sh.d.charges[key]
    ensures Mid(sh', th)
  {
  }

  lemma CohTakes(s: Sys, t: nat, drawn: OrderId, s': Sys)
    requires Inv(s) && CohInv(s) && NoOverlap(s) && NoOverlap(s') && Takes(s, t, drawn, s')
    ensures CohInv(s')
    ensures forall oid :: oid in s.sh.d.orders ==>
              oid in s'.sh.d.orders && StatusMove(s.sh.d.orders[oid].status, s'.sh.d.orders[oid].status)
  {
    hide Inv, Step, Local, Mid, NoOverlap;
    var th := s.threads[t];
    TakesMid(s, t, drawn, s');
    LocalOf(s, t);
    StepGuarantee(s.sh, t, th.req, th.pc, drawn);
    forall u | u in s'.threads && u != t ensures Mid(s'.sh, s'.threads[u]) {
      if Touching(th).Some? && Touching(s.threads[u]) == Touching(th) {
        TouchersExclude(s, t, u, Touching(th).value);
      }
      MidFrame(s.sh, s'.sh, s.threads[u]);
    }
    forall oid | oid in s'.sh.d.orders && Idle(s', oid) ensures Coherent(s'.sh.d, s'.sh.d.orders[oid]) {
      assert Busy(s'.threads[t]) != Some(oid);
      if Busy(th) != Some(oid) {
        assert forall u :: u in s.threads && u != t ==> s'.threads[u] == s.threads[u];
        assert Idle(s, oid);
      }
    }
  }

  ghost predicate CohRun(run: seq<Sys>, stock: nat, price: nat) {
    Run(run, stock, price) && forall i :: 0 <= i < |run| ==> NoOverlap(run[i])
  }

  /** Without overlapping webhooks every idle order of every state is coherent, and a status
      moves only from pending to paid or failed and from paid to cancelled. */
  lemma {:induction false} StatusCoherence(run: seq<Sys>, stock: nat, price: nat, i: nat)
    requires CohRun(run, stock, price) && i < |run|
    ensures CohInv(run[i])
    ensures i > 0 ==> forall oid :: oid in run[i - 1].sh.d.orders ==>
              oid in run[i].sh.d.orders && StatusMove(run[i - 1].sh.d.orders[oid].status, run[i].sh.d.orders[oid].status)
  {
    hide Inv, CohInv, NoOverlap, Takes, Arrives;
    if i == 0 {
      InitCoherent(stock, price);
    } else {
      StatusCoherence(run, stock, price, i - 1);
      RunInvariant(run, stock, price, i - 1);
      var s, s' := run[i - 1], run[i - 1 + 1];
      assert NoOverlap(s) && NoOverlap(s') && Next(s, s');
      if Advances(s, s') {
        var t, drawn :| Takes(s, t, drawn, s');
        CohTakes(s, t, drawn, s');
      } else {
        var t, req :| Arrives(s, t, req, s');
        CohArrives(s, t, req, s');
      }
    }
  }

  lemma InitCoherent(stock: nat, price: nat)
    ensures CohInv(Init(stock, price))
  {
  }

  lemma CohArrives(s: Sys, t: nat, req: Request, s': Sys)
    requires CohInv(s) && Arrives(s, t, req, s')
    ensures CohInv(s') && s'.sh == s.sh
  {
    forall oid | oid in s'.sh.d.orders && Idle(s', oid) ensures Coherent(s'.sh.d, s'.sh.d.orders[oid]) {
      forall u | u in s.threads ensures Busy(s.threads[u]) != Some(oid) {
        assert s'.threads[u] == s.threads[u];
      }
      assert Idle(s, oid);
    }
  }
}

/** The life of one order: what the requests at work on it can do to it, in any interleaving. */
module FlashLife {
  import opened Prelude
  import opened FlashModel
  import opened FlashInvariant
  import opened FlashSteps
  import opened FlashRuns
  import opened FlashCoherence

  /** What matters about an order: its status and release flag, whether it names a charge and a
      failure code, whether it has been charged, and whether its token is the declined one. */
  datatype View = View(status: Status, released: bool, named: bool, coded: bool, charged: bool, declines: bool)

  function ViewOf(sh: Shared, oid: OrderId): View
    requires oid in sh.d.orders
  {
    var o := sh.d.orders[oid];
    View(o.status, o.released, o.chargeId.Some?, o.failureStatus.Some?, Checkout(oid) in sh.d.charges, o.token == Decline)
  }

  /** Where a creation is with an order: its outcome still ahead, about to write PAID, about to
      write the failure code, giving the stock back. */
  datatype Settler = KOut | KAhead | KLast | KCode | KFree

  /** The same for the holder of the state lock: a webhook's or a cancellation's stages. */
  datatype Holder = WOut | WPay | WDecline | WLook | WCopy | WCode | WFree | XAhead | XFree

  function SettlerOf(th: Thread, oid: OrderId): Settler {
    if Settling(th) != Some(oid) then KOut
    else if th.pc.k.KPaid? then KLast
    else if th.pc.k.KFailCode? then KCode
    else if th.pc.k.KRelease? then KFree
    else KAhead
  }

  function HolderOf(th: Thread, oid: OrderId): Holder {
    if th.pc.W? && th.req.Webhook? && th.req.orderId == oid then
      match th.pc.w
      case WPaid => WPay
      case WFail => WDecline
      case WCharge => WLook
      case WChargeId(_) => WCopy
      case WFailCode => WCode
      case WRelease(_) => WFree
      case _ => WOut
    else if th.pc.X? && th.req.Cancel? && th.req.orderId == oid then
      (if th.pc.x.XWrite? then XAhead else if th.pc.x.XRelease? then XFree else WOut)
    else WOut
  }

  /** The steps of a request that decide an order's outcome: it writes a status, a creation enters
      the charge id, a webhook looks the charge up and finds none. */
  datatype Event = Quiet | PaidWrite | FailWrite | CancelWrite | CreatorNames | LookupMisses

  function SettlerEvent(th: Thread, oid: OrderId): Event {
    if Settling(th) != Some(oid) then Quiet
    else if th.pc.k.KPaid? then PaidWrite
    else if th.pc.k.KFail? then FailWrite
    else if th.pc.k.KChargeId? then CreatorNames
    else Quiet
  }

  function HolderEvent(th: Thread, oid: OrderId, charged: bool): Event {
    match HolderOf(th, oid)
    case WPay => PaidWrite
    case WDecline => FailWrite
    case XAhead => CancelWrite
    case WLook => if charged then Quiet else LookupMisses
    case _ => Quiet
  }

  /** What the next step of a request is for an order. */
  function EventOf(th: Thread, oid: OrderId, charged: bool): Event {
    if Settling(th) == Some(oid) then SettlerEvent(th, oid) else HolderEvent(th, oid, charged)
  }

  /** What one step of a creation does to an order. */
  ghost predicate Settles(v: View, k: Settler, e: Event, v': View, k': Settler) {
    if e == PaidWrite then k == KLast && k' == KOut && v' == v.(status := Paid)
    else if e == FailWrite then k == KAhead && k' == KCode && v.declines && v' == v.(status := Failed)
    else if e == CreatorNames then k == KAhead && k' == KLast && v.charged && v' == v.(named := true)
    else
      && e == Quiet
      && (|| (v' == v && k' == k)
          || (k == KOut && k' == KAhead && v.status == Pending && v' == v)
          || (k == KAhead && k' == KAhead && !v.declines && v' == v.(charged := true))
          || (k == KAhead && k' == KOut && v.charged && v' == v)
          || (k == KCode && k' == KFree && v' == v.(coded := true))
          || (k == KFree && k' == KFree && v' == v.(released := true))
          || (k == KFree && k' == KOut && v.released && v' == v))
  }

  /** What one step under the state lock does to an order. */
  ghost predicate Handles(v: View, w: Holder, e: Event, v': View, w': Holder) {
    if e == PaidWrite then w == WPay && w' == WLook && v' == v.(status := Paid)
    else if e == FailWrite then w == WDecline && w' == WCode && v' == v.(status := Failed)
    else if e == CancelWrite then w == XAhead && w' == XFree && v' == v.(status := Cancelled)
    else if e == LookupMisses then w == WLook && w' == WOut && !v.charged && v' == v
    else
      && e == Quiet
      && (|| (v' == v && w' == w)
          || (w == WOut && (w' == WPay || w' == WDecline) && v.status == Pending && v' == v)
          || (w == WLook && w' == WCopy && v.charged && v' == v)
          || (w == WCopy && w' == WOut && v.charged && v' == v.(named := true))
          || (w == WCode && w' == WFree && v' == v.(coded := true))
          || ((w == WFree || w == XFree) && w' == w && v' == v.(released := true))
          || ((w == WFree || w == XFree) && w' == WOut && v.released && v' == v)
          || (w == WOut && w' == XAhead && v.status == Paid && v' == v))
  }

  // ----- One step of the store --------------------------------------------------------

  /** The effect of a creation's step on an order. */
  ghost predicate SettlerEffect(sh: Shared, sh': Shared, th: Thread, th': Thread, oid: OrderId)
    requires oid in sh.d.orders
  {
    && oid in sh'.d.orders
    && Settles(ViewOf(sh, oid), SettlerOf(th, oid), SettlerEvent(th, oid), ViewOf(sh', oid), SettlerOf(th', oid))
  }

  /** The effect of a webhook's or a cancellation's step on an order. */
  ghost predicate HolderEffect(sh: Shared, sh': Shared, th: Thread, th': Thread, oid: OrderId)
    requires oid in sh.d.orders
  {
    && oid in sh'.d.orders
    && var v := ViewOf(sh, oid);
       Handles(v, HolderOf(th, oid), HolderEvent(th, oid, v.charged), ViewOf(sh', oid), HolderOf(th', oid))
  }

  /** One of the two, while the other side stands still. */
  ghost predicate Effect(sh: Shared, sh': Shared, th: Thread, th': Thread, oid: OrderId)
    requires oid in sh.d.orders
  {
    && oid in sh'.d.orders
    && var v, v' := ViewOf(sh, oid), ViewOf(sh', oid);
       var e := EventOf(th, oid, v.charged);
       || (Settles(v, SettlerOf(th, oid), e, v', SettlerOf(th', oid)) && HolderOf(th, oid) == HolderOf(th', oid) == WOut)
       || (Handles(v, HolderOf(th, oid), e, v', HolderOf(th', oid)) && SettlerOf(th, oid) == SettlerOf(th', oid) == KOut)
  }

  lemma PutView(sh: Shared, o: Order, oid: OrderId)
    requires o.id in sh.d.orders && oid in sh.d.orders
    ensures oid in Put(sh, o).d.orders
    ensures ViewOf(Put(sh, o), oid) ==
            if oid == o.id then View(o.status, o.released, o.chargeId.Some?, o.failureStatus.Some?, Checkout(oid) in sh.d.charges, o.token == Decline)
            else ViewOf(sh, oid)
  {
  }

  lemma OwnId(sh: Shared, oid: OrderId)
    requires OrdersOk(sh) && oid in sh.d.orders
    ensures sh.d.orders[oid].id == oid
  {
  }

  lemma SameView(sh: Shared, oid: OrderId)
    requires oid in sh.d.orders
    ensures ViewOf(sh, oid) == View(sh.d.orders[oid].status, sh.d.orders[oid].released, sh.d.orders[oid].chargeId.Some?,
              sh.d.orders[oid].failureStatus.Some?, Checkout(oid) in sh.d.charges, sh.d.orders[oid].token == Decline)
    ensures forall k: Locks :: ViewOf(sh.(k := k), oid) == ViewOf(sh, oid)
  {
  }

  /** The stock release sets the release flag of its order and nothing else. */
  lemma ReleaseView(sh: Shared, me: nat, target: OrderId, r: ReleasePc, oid: OrderId)
    requires OrdersOk(sh) && ReleaseLocal(sh, target, r) && oid in sh.d.orders
    requires !r.RUnlock? && ReleaseStep(sh, me, target, r).Move?
    ensures var m := ReleaseStep(sh, me, target, r);
            && oid in m.sh.d.orders
            && (ViewOf(m.sh, oid) == ViewOf(sh, oid)
                || (oid == target && ViewOf(m.sh, oid) == ViewOf(sh, oid).(released := true)))
  {
  }

  lemma ReleasedView(sh: Shared, target: OrderId, r: ReleasePc, oid: OrderId)
    requires ReleaseLocal(sh, target, r) && r.RUnlock? && oid == target
    ensures oid in sh.d.orders && ViewOf(sh, oid).released
  {
  }

  lemma LookupEffect(sh: Shared, me: nat, req: Request, lk: nat, k: KeyedPc, drawn: OrderId, oid: OrderId)
    requires Admitted(req) && OrdersOk(sh) && LedgerOk(sh) && KeyedLocal(sh, req, k) && oid in sh.d.orders
    requires k.KLookup? || k.KFingerprint? || k.KReplayFailed? || k.KReplayCode? || k.KReplayPending? || k.KUnlock?
    requires KeyedStep(sh, me, req, lk, k, drawn).Move?
    ensures var m := KeyedStep(sh, me, req, lk, k, drawn);
            SettlerEffect(sh, m.sh, Thread(req, Keyed(lk, k)), Thread(req, m.next), oid)
  {
    hide OrdersOk, LedgerOk;
  }

  lemma PlaceEffect(sh: Shared, me: nat, req: Request, lk: nat, k: KeyedPc, drawn: OrderId, oid: OrderId)
    requires Admitted(req) && OrdersOk(sh) && LedgerOk(sh) && KeyedLocal(sh, req, k) && oid in sh.d.orders
    requires k.KReserve? || k.KBuild? || k.KPublish? || k.KRecord?
    requires KeyedStep(sh, me, req, lk, k, drawn).Move?
    ensures var m := KeyedStep(sh, me, req, lk, k, drawn);
            SettlerEffect(sh, m.sh, Thread(req, Keyed(lk, k)), Thread(req, m.next), oid)
  {
    hide OrdersOk, LedgerOk;
  }

  lemma NameEffect(sh: Shared, me: nat, req: Request, lk: nat, k: KeyedPc, drawn: OrderId, oid: OrderId)
    requires Admitted(req) && OrdersOk(sh) && LedgerOk(sh) && KeyedLocal(sh, req, k) && oid in sh.d.orders
    requires k.KChargeId?
    requires KeyedStep(sh, me, req, lk, k, drawn).Move?
    ensures var m := KeyedStep(sh, me, req, lk, k, drawn);
            SettlerEffect(sh, m.sh, Thread(req, Keyed(lk, k)), Thread(req, m.next), oid)
  {
    hide OrdersOk, LedgerOk, ViewOf;
    OwnId(sh, k.oid);
    PutView(sh, sh.d.orders[k.oid].(chargeId := Some(k.number)), oid);
    SameView(sh, oid);
  }

  lemma PaidEffect(sh: Shared, me: nat, req: Request, lk: nat, k: KeyedPc, drawn: OrderId, oid: OrderId)
    requires Admitted(req) && OrdersOk(sh) && LedgerOk(sh) && KeyedLocal(sh, req, k) && oid in sh.d.orders
    requires k.KPaid?
    requires KeyedStep(sh, me, req, lk, k, drawn).Move?
    ensures var m := KeyedStep(sh, me, req, lk, k, drawn);
            SettlerEffect(sh, m.sh, Thread(req, Keyed(lk, k)), Thread(req, m.next), oid)
  {
    hide OrdersOk, LedgerOk, ViewOf;
    OwnId(sh, k.oid);
    PutView(sh, sh.d.orders[k.oid].(status := Paid), oid);
    SameView(sh, oid);
  }

  lemma FailEffect(sh: Shared, me: nat, req: Request, lk: nat, k: KeyedPc, drawn: OrderId, oid: OrderId)
    requires Admitted(req) && OrdersOk(sh) && LedgerOk(sh) && KeyedLocal(sh, req, k) && oid in sh.d.orders
    requires k.KFail?
    requires KeyedStep(sh, me, req, lk, k, drawn).Move?
    ensures var m := KeyedStep(sh, me, req, lk, k, drawn);
            SettlerEffect(sh, m.sh, Thread(req, Keyed(lk, k)), Thread(req, m.next), oid)
  {
    hide OrdersOk, LedgerOk, ViewOf;
    OwnId(sh, k.oid);
    PutView(sh, sh.d.orders[k.oid].(status := Failed), oid);
    SameView(sh, oid);
  }

  lemma CodeEffect(sh: Shared, me: nat, req: Request, lk: nat, k: KeyedPc, drawn: OrderId, oid: OrderId)
    requires Admitted(req) && OrdersOk(sh) && LedgerOk(sh) && KeyedLocal(sh, req, k) && oid in sh.d.orders
    requires k.KFailCode?
    requires KeyedStep(sh, me, req, lk, k, drawn).Move?
    ensures var m := KeyedStep(sh, me, req, lk, k, drawn);
            SettlerEffect(sh, m.sh, Thread(req, Keyed(lk, k)), Thread(req, m.next), oid)
  {
    hide OrdersOk, LedgerOk, ViewOf;
    OwnId(sh, k.oid);
    PutView(sh, sh.d.orders[k.oid].(failureStatus := Some(402)), oid);
    SameView(sh, oid);
  }

  lemma ChargeEffect(sh: Shared, me: nat, req: Request, lk: nat, k: KeyedPc, drawn: OrderId, oid: OrderId)
    requires Admitted(req) && OrdersOk(sh) && LedgerOk(sh) && KeyedLocal(sh, req, k) && oid in sh.d.orders
    requires k.KCharge? && !k.p.PUnlock?
    requires KeyedStep(sh, me, req, lk, k, drawn).Move?
    ensures var m := KeyedStep(sh, me, req, lk, k, drawn);
            SettlerEffect(sh, m.sh, Thread(req, Keyed(lk, k)), Thread(req, m.next), oid)
  {
    hide LedgerOk;
  }

  lemma ChargedEffect(sh: Shared, me: nat, req: Request, lk: nat, k: KeyedPc, drawn: OrderId, oid: OrderId)
    requires Admitted(req) && OrdersOk(sh) && LedgerOk(sh) && KeyedLocal(sh, req, k) && oid in sh.d.orders
    requires k.KCharge? && k.p.PUnlock?
    requires KeyedStep(sh, me, req, lk, k, drawn).Move?
    ensures var m := KeyedStep(sh, me, req, lk, k, drawn);
            SettlerEffect(sh, m.sh, Thread(req, Keyed(lk, k)), Thread(req, m.next), oid)
  {
    hide OrdersOk;
  }

  lemma GiveBackEffect(sh: Shared, me: nat, req: Request, lk: nat, k: KeyedPc, drawn: OrderId, oid: OrderId)
    requires Admitted(req) && OrdersOk(sh) && LedgerOk(sh) && KeyedLocal(sh, req, k) && oid in sh.d.orders
    requires k.KRelease?
    requires KeyedStep(sh, me, req, lk, k, drawn).Move?
    ensures var m := KeyedStep(sh, me, req, lk, k, drawn);
            SettlerEffect(sh, m.sh, Thread(req, Keyed(lk, k)), Thread(req, m.next), oid)
  {
    hide OrdersOk, LedgerOk, ViewOf, ReleaseStep;
    if k.r.RUnlock? {
      if oid == k.oid { ReleasedView(sh, k.oid, k.r, oid); }
      SameView(sh, oid);
    } else {
      ReleaseView(sh, me, k.oid, k.r, oid);
    }
  }

  lemma CancelReadEffect(sh: Shared, me: nat, req: Request, x: CancelPc, oid: OrderId)
    requires req.Cancel? && req.auth.Some? && OrdersOk(sh) && CancelLocal(sh, req, x) && oid in sh.d.orders
    requires CancelStep(sh, me, req, x).Move?
    requires !x.XWrite? && !x.XRelease?
    ensures var m := CancelStep(sh, me, req, x); HolderEffect(sh, m.sh, Thread(req, X(x)), Thread(req, m.next), oid)
  {
    hide OrdersOk;
  }

  lemma CancelWriteEffect(sh: Shared, me: nat, req: Request, x: CancelPc, oid: OrderId)
    requires req.Cancel? && req.auth.Some? && OrdersOk(sh) && CancelLocal(sh, req, x) && oid in sh.d.orders
    requires CancelStep(sh, me, req, x).Move?
    requires x.XWrite?
    ensures var m := CancelStep(sh, me, req, x); HolderEffect(sh, m.sh, Thread(req, X(x)), Thread(req, m.next), oid)
  {
    hide OrdersOk, ViewOf;
    OwnId(sh, req.orderId);
    PutView(sh, sh.d.orders[req.orderId].(status := Cancelled), oid);
    SameView(sh, oid);
  }

  lemma CancelGiveBackEffect(sh: Shared, me: nat, req: Request, x: CancelPc, oid: OrderId)
    requires req.Cancel? && req.auth.Some? && OrdersOk(sh) && CancelLocal(sh, req, x) && oid in sh.d.orders
    requires CancelStep(sh, me, req, x).Move?
    requires x.XRelease?
    ensures var m := CancelStep(sh, me, req, x); HolderEffect(sh, m.sh, Thread(req, X(x)), Thread(req, m.next), oid)
  {
    hide OrdersOk, ViewOf, ReleaseStep;
    if x.r.RUnlock? {
      if oid == req.orderId { ReleasedView(sh, req.orderId, x.r, oid); }
      SameView(sh, oid);
    } else {
      ReleaseView(sh, me, req.orderId, x.r, oid);
    }
  }

  lemma WebhookQuietEffect(sh: Shared, me: nat, req: Request, w: WebhookPc, oid: OrderId)
    requires req.Webhook? && OrdersOk(sh) && WebhookLocal(sh, req, w) && oid in sh.d.orders
    requires WebhookStep(sh, me, req, w).Move?
    requires w.WSeen? || w.WLookup? || w.WEffect? || w.WMark? || w.WUnlock?
    ensures var m := WebhookStep(sh, me, req, w); HolderEffect(sh, m.sh, Thread(req, W(w)), Thread(req, m.next), oid)
  {
    hide OrdersOk;
  }

  lemma WebhookReadEffect(sh: Shared, me: nat, req: Request, w: WebhookPc, oid: OrderId)
    requires req.Webhook? && OrdersOk(sh) && WebhookLocal(sh, req, w) && oid in sh.d.orders
    requires WebhookStep(sh, me, req, w).Move?
    requires w.WStatus? || w.WCharge?
    ensures var m := WebhookStep(sh, me, req, w); HolderEffect(sh, m.sh, Thread(req, W(w)), Thread(req, m.next), oid)
  {
    hide OrdersOk, ViewOf;
    OwnId(sh, oid);
    SameView(sh, oid);
  }

  lemma WebhookPaidEffect(sh: Shared, me: nat, req: Request, w: WebhookPc, oid: OrderId)
    requires req.Webhook? && OrdersOk(sh) && WebhookLocal(sh, req, w) && oid in sh.d.orders
    requires WebhookStep(sh, me, req, w).Move?
    requires w.WPaid?
    ensures var m := WebhookStep(sh, me, req, w); HolderEffect(sh, m.sh, Thread(req, W(w)), Thread(req, m.next), oid)
  {
    hide OrdersOk, ViewOf;
    OwnId(sh, req.orderId);
    PutView(sh, sh.d.orders[req.orderId].(status := Paid), oid);
    SameView(sh, oid);
  }

  lemma WebhookFailEffect(sh: Shared, me: nat, req: Request, w: WebhookPc, oid: OrderId)
    requires req.Webhook? && OrdersOk(sh) && WebhookLocal(sh, req, w) && oid in sh.d.orders
    requires WebhookStep(sh, me, req, w).Move?
    requires w.WFail?
    ensures var m := WebhookStep(sh, me, req, w); HolderEffect(sh, m.sh, Thread(req, W(w)), Thread(req, m.next), oid)
  {
    hide OrdersOk, ViewOf;
    OwnId(sh, req.orderId);
    PutView(sh, sh.d.orders[req.orderId].(status := Failed), oid);
    SameView(sh, oid);
  }

  lemma WebhookNameEffect(sh: Shared, me: nat, req: Request, w: WebhookPc, oid: OrderId)
    requires req.Webhook? && OrdersOk(sh) && WebhookLocal(sh, req, w) && oid in sh.d.orders
    requires WebhookStep(sh, me, req, w).Move?
    requires w.WChargeId?
    ensures var m := WebhookStep(sh, me, req, w); HolderEffect(sh, m.sh, Thread(req, W(w)), Thread(req, m.next), oid)
  {
    hide OrdersOk, ViewOf;
    OwnId(sh, req.orderId);
    PutView(sh, sh.d.orders[req.orderId].(chargeId := Some(w.number)), oid);
    SameView(sh, oid);
  }

  lemma WebhookCodeEffect(sh: Shared, me: nat, req: Request, w: WebhookPc, oid: OrderId)
    requires req.Webhook? && OrdersOk(sh) && WebhookLocal(sh, req, w) && oid in sh.d.orders
    requires WebhookStep(sh, me, req, w).Move?
    requires w.WFailCode?
    ensures var m := WebhookStep(sh, me, req, w); HolderEffect(sh, m.sh, Thread(req, W(w)), Thread(req, m.next), oid)
  {
    hide OrdersOk, ViewOf;
    OwnId(sh, req.orderId);
    PutView(sh, sh.d.orders[req.orderId].(failureStatus := Some(402)), oid);
    SameView(sh, oid);
  }

  lemma WebhookGiveBackEffect(sh: Shared, me: nat, req: Request, w: WebhookPc, oid: OrderId)
    requires req.Webhook? && OrdersOk(sh) && WebhookLocal(sh, req, w) && oid in sh.d.orders
    requires WebhookStep(sh, me, req, w).Move?
    requires w.WRelease?
    ensures var m := WebhookStep(sh, me, req, w); HolderEffect(sh, m.sh, Thread(req, W(w)), Thread(req, m.next), oid)
  {
    hide OrdersOk, ViewOf, ReleaseStep;
    if w.r.RUnlock? {
      if oid == req.orderId { ReleasedView(sh, req.orderId, w.r, oid); }
      SameView(sh, oid);
    } else {
      ReleaseView(sh, me, req.orderId, w.r, oid);
    }
  }

  lemma OutsideEffect(sh: Shared, me: nat, req: Request, pc: Pc, drawn: OrderId, oid: OrderId)
    requires Local(sh, req, pc) && !pc.Keyed? && !pc.X? && !pc.W? && oid in sh.d.orders
    requires Step(sh, me, req, pc, drawn).Move?
    ensures var m := Step(sh, me, req, pc, drawn); m.sh.d == sh.d
    ensures var m := Step(sh, me, req, pc, drawn);
            && SettlerOf(Thread(req, pc), oid) == SettlerOf(Thread(req, m.next), oid) == KOut
            && HolderOf(Thread(req, pc), oid) == HolderOf(Thread(req, m.next), oid) == WOut
  {
    hide KeyedStep, CancelStep, WebhookStep;
  }

  /** A creation's program points are none of a lock holder's, and the other way round. */
  lemma KeyedSide(sh: Shared, me: nat, req: Request, lk: nat, k: KeyedPc, drawn: OrderId, oid: OrderId, charged: bool)
    requires req.Create? && req.auth.Some? && req.key.Some? && KeyedStep(sh, me, req, lk, k, drawn).Move?
    ensures var th, th' := Thread(req, Keyed(lk, k)), Thread(req, KeyedStep(sh, me, req, lk, k, drawn).next);
            HolderOf(th, oid) == HolderOf(th', oid) == WOut && EventOf(th, oid, charged) == SettlerEvent(th, oid)
  {
  }

  lemma CancelSide(sh: Shared, me: nat, req: Request, x: CancelPc, oid: OrderId, charged: bool)
    requires req.Cancel? && req.auth.Some? && CancelStep(sh, me, req, x).Move?
    ensures var th, th' := Thread(req, X(x)), Thread(req, CancelStep(sh, me, req, x).next);
            SettlerOf(th, oid) == SettlerOf(th', oid) == KOut && EventOf(th, oid, charged) == HolderEvent(th, oid, charged)
  {
  }

  lemma WebhookSide(sh: Shared, me: nat, req: Request, w: WebhookPc, oid: OrderId, charged: bool)
    requires req.Webhook? && WebhookStep(sh, me, req, w).Move?
    ensures var th, th' := Thread(req, W(w)), Thread(req, WebhookStep(sh, me, req, w).next);
            SettlerOf(th, oid) == SettlerOf(th', oid) == KOut && EventOf(th, oid, charged) == HolderEvent(th, oid, charged)
  {
  }

  lemma KeyedEffect(sh: Shared, me: nat, req: Request, lk: nat, k: KeyedPc, drawn: OrderId, oid: OrderId)
    requires Admitted(req) && OrdersOk(sh) && LedgerOk(sh) && KeyedLocal(sh, req, k) && oid in sh.d.orders
    requires KeyedStep(sh, me, req, lk, k, drawn).Move?
    ensures var m := KeyedStep(sh, me, req, lk, k, drawn);
            SettlerEffect(sh, m.sh, Thread(req, Keyed(lk, k)), Thread(req, m.next), oid)
  {
    hide SettlerEffect, KeyedLocal, KeyedStep, OrdersOk, LedgerOk;
    match k
    case KReserve(_) => PlaceEffect(sh, me, req, lk, k, drawn, oid);
    case KBuild => PlaceEffect(sh, me, req, lk, k, drawn, oid);
    case KPublish(_) => PlaceEffect(sh, me, req, lk, k, drawn, oid);
    case KRecord(_) => PlaceEffect(sh, me, req, lk, k, drawn, oid);
    case KCharge(_, p) =>
      if p.PUnlock? { ChargedEffect(sh, me, req, lk, k, drawn, oid); } else { ChargeEffect(sh, me, req, lk, k, drawn, oid); }
    case KChargeId(_, _) => NameEffect(sh, me, req, lk, k, drawn, oid);
    case KPaid(_) => PaidEffect(sh, me, req, lk, k, drawn, oid);
    case KFail(_) => FailEffect(sh, me, req, lk, k, drawn, oid);
    case KFailCode(_) => CodeEffect(sh, me, req, lk, k, drawn, oid);
    case KRelease(_, _) => GiveBackEffect(sh, me, req, lk, k, drawn, oid);
    case _ => LookupEffect(sh, me, req, lk, k, drawn, oid);
  }

  lemma CancelEffect(sh: Shared, me: nat, req: Request, x: CancelPc, oid: OrderId)
    requires req.Cancel? && req.auth.Some? && OrdersOk(sh) && CancelLocal(sh, req, x) && oid in sh.d.orders
    requires CancelStep(sh, me, req, x).Move?
    ensures var m := CancelStep(sh, me, req, x); HolderEffect(sh, m.sh, Thread(req, X(x)), Thread(req, m.next), oid)
  {
    hide HolderEffect, CancelLocal, CancelStep, OrdersOk;
    match x
    case XWrite => CancelWriteEffect(sh, me, req, x, oid);
    case XRelease(_) => CancelGiveBackEffect(sh, me, req, x, oid);
    case _ => CancelReadEffect(sh, me, req, x, oid);
  }

  lemma WebhookEffect(sh: Shared, me: nat, req: Request, w: WebhookPc, oid: OrderId)
    requires req.Webhook? && OrdersOk(sh) && WebhookLocal(sh, req, w) && oid in sh.d.orders
    requires WebhookStep(sh, me, req, w).Move?
    ensures var m := WebhookStep(sh, me, req, w); HolderEffect(sh, m.sh, Thread(req, W(w)), Thread(req, m.next), oid)
  {
    hide HolderEffect, WebhookLocal, WebhookStep, OrdersOk;
    match w
    case WStatus => WebhookReadEffect(sh, me, req, w, oid);
    case WCharge => WebhookReadEffect(sh, me, req, w, oid);
    case WPaid => WebhookPaidEffect(sh, me, req, w, oid);
    case WFail => WebhookFailEffect(sh, me, req, w, oid);
    case WChargeId(_) => WebhookNameEffect(sh, me, req, w, oid);
    case WFailCode => WebhookCodeEffect(sh, me, req, w, oid);
    case WRelease(_) => WebhookGiveBackEffect(sh, me, req, w, oid);
    case _ => WebhookQuietEffect(sh, me, req, w, oid);
  }

  /** Every step is one of those moves, for every order there is. */
  lemma StepOrder(sh: Shared, me: nat, req: Request, pc: Pc, drawn: OrderId, oid: OrderId)
    requires OrdersOk(sh) && LedgerOk(sh) && Local(sh, req, pc) && oid in sh.d.orders
    requires Step(sh, me, req, pc, drawn).Move?
    ensures var m := Step(sh, me, req, pc, drawn); Effect(sh, m.sh, Thread(req, pc), Thread(req, m.next), oid)
  {
    hide Settles, Handles, KeyedLocal, KeyedStep, CancelLocal, CancelStep, WebhookLocal, WebhookStep, OrdersOk, LedgerOk,
         SettlerOf, HolderOf, EventOf, SettlerEvent, HolderEvent, ViewOf;
    var charged := ViewOf(sh, oid).charged;
    match pc
    case Keyed(lk, k) =>
      KeyedSide(sh, me, req, lk, k, drawn, oid, charged);
      KeyedEffect(sh, me, req, lk, k, drawn, oid);
    case X(x) =>
      CancelSide(sh, me, req, x, oid, charged);
      CancelEffect(sh, me, req, x, oid);
    case W(w) =>
      WebhookSide(sh, me, req, w, oid, charged);
      WebhookEffect(sh, me, req, w, oid);
    case _ =>
      OutsideEffect(sh, me, req, pc, drawn, oid);
      OutsideStill(sh, Step(sh, me, req, pc, drawn).sh, Thread(req, pc), Thread(req, Step(sh, me, req, pc, drawn).next), oid);
  }

  lemma OutsideStill(sh: Shared, sh': Shared, th: Thread, th': Thread, oid: OrderId)
    requires oid in sh.d.orders && sh'.d == sh.d
    requires SettlerOf(th, oid) == SettlerOf(th', oid) == KOut && HolderOf(th, oid) == HolderOf(th', oid) == WOut
    ensures Effect(sh, sh', th, th', oid)
  {
  }

  // ----- Who is at work on an order ----------------------------------------------------

  /** An order with the stage of the creation and of the lock holder at work on it. */
  datatype Life = Life(v: View, k: Settler, w: Holder)

  ghost predicate AnySettler(s: Sys, oid: OrderId) {
    exists t :: t in s.threads && SettlerOf(s.threads[t], oid) != KOut
  }

  ghost predicate AnyHolder(s: Sys, oid: OrderId) {
    exists t :: t in s.threads && HolderOf(s.threads[t], oid) != WOut
  }

  ghost function SettlerIn(s: Sys, oid: OrderId): Settler {
    if AnySettler(s, oid) then
      var t :| t in s.threads && SettlerOf(s.threads[t], oid) != KOut;
      SettlerOf(s.threads[t], oid)
    else KOut
  }

  ghost function HolderIn(s: Sys, oid: OrderId): Holder {
    if AnyHolder(s, oid) then
      var t :| t in s.threads && HolderOf(s.threads[t], oid) != WOut;
      HolderOf(s.threads[t], oid)
    else WOut
  }

  ghost function LifeOf(s: Sys, oid: OrderId): Life
    requires oid in s.sh.d.orders
  {
    Life(ViewOf(s.sh, oid), SettlerIn(s, oid), HolderIn(s, oid))
  }

  /** At most one creation is at work on an order, so its stage is the order's. */
  lemma SettlerOnly(s: Sys, t: nat, oid: OrderId)
    requires Inv(s) && t in s.threads && SettlerOf(s.threads[t], oid) != KOut
    ensures SettlerIn(s, oid) == SettlerOf(s.threads[t], oid)
  {
    hide Inv;
    var u :| u in s.threads && SettlerOf(s.threads[u], oid) != KOut && SettlerIn(s, oid) == SettlerOf(s.threads[u], oid);
    SettlerBusy(s.threads[t], oid);
    SettlerBusy(s.threads[u], oid);
    SettlersExclude(s, t, u, oid);
  }

  lemma HolderLocked(th: Thread, oid: OrderId)
    requires HolderOf(th, oid) != WOut
    ensures Has(th.pc, StateLock)
  {
  }

  /** At most one request works under the state lock. */
  lemma HolderOnly(s: Sys, t: nat, oid: OrderId)
    requires LocksAgree(s) && t in s.threads && HolderOf(s.threads[t], oid) != WOut
    ensures HolderIn(s, oid) == HolderOf(s.threads[t], oid)
  {
    var u :| u in s.threads && HolderOf(s.threads[u], oid) != WOut && HolderIn(s, oid) == HolderOf(s.threads[u], oid);
    HolderLocked(s.threads[t], oid);
    HolderLocked(s.threads[u], oid);
    MutualExclusion(s, t, u, StateLock);
  }

  /** A creation takes an order in hand from the point at which it found it pending. */
  lemma TakesInHand(sh: Shared, me: nat, req: Request, pc: Pc, drawn: OrderId, oid: OrderId)
    requires Step(sh, me, req, pc, drawn).Move? && oid in sh.d.orders && Local(sh, req, pc)
    requires SettlerOf(Thread(req, pc), oid) == KOut
    requires SettlerOf(Thread(req, Step(sh, me, req, pc, drawn).next), oid) != KOut
    ensures pc.Keyed? && pc.k == KReplayPending(oid)
  {
  }

  lemma HoldsInHand(sh: Shared, me: nat, req: Request, pc: Pc, drawn: OrderId, oid: OrderId)
    requires Step(sh, me, req, pc, drawn).Move?
    requires HolderOf(Thread(req, Step(sh, me, req, pc, drawn).next), oid) != WOut
    ensures Has(pc, StateLock)
  {
  }

  lemma SettlerBusy(th: Thread, oid: OrderId)
    ensures SettlerOf(th, oid) != KOut <==> Settling(th) == Some(oid)
  {
  }

  lemma NoSettler(s: Sys, oid: OrderId)
    requires forall t :: t in s.threads ==> SettlerOf(s.threads[t], oid) == KOut
    ensures SettlerIn(s, oid) == KOut
  {
  }

  lemma NoHolder(s: Sys, oid: OrderId)
    requires forall t :: t in s.threads ==> HolderOf(s.threads[t], oid) == WOut
    ensures HolderIn(s, oid) == WOut
  {
  }

  /** The settling stage of an order moves as its creation's stage moves. */
  lemma SettlerSide(s: Sys, t: nat, drawn: OrderId, s': Sys, oid: OrderId)
    requires Inv(s) && Inv(s') && Takes(s, t, drawn, s') && oid in s.sh.d.orders
    ensures var k, k' := SettlerOf(s.threads[t], oid), SettlerOf(s'.threads[t], oid);
            if k == KOut && k' == KOut then SettlerIn(s', oid) == SettlerIn(s, oid)
            else SettlerIn(s, oid) == k && SettlerIn(s', oid) == k'
  {
    hide Inv, Step, SettlerOf, Local, SettlerIn, Settling;
    var th, th' := s.threads[t], s'.threads[t];
    LocalOf(s, t);
    SettlerBusy(th, oid);
    if SettlerOf(th', oid) != KOut { SettlerOnly(s', t, oid); }
    if SettlerOf(th, oid) != KOut {
      SettlerOnly(s, t, oid);
    } else if SettlerOf(th', oid) != KOut {
      TakesInHand(s.sh, t, th.req, th.pc, drawn, oid);
    }
    if u :| u in s.threads && u != t && SettlerOf(s.threads[u], oid) != KOut {
      SettlerBusy(s.threads[u], oid);
      SettlerOnly(s, u, oid);
      SettlerOnly(s', u, oid);
      if SettlerOf(th, oid) != KOut || SettlerOf(th', oid) != KOut { SettlersExclude(s, u, t, oid); }
    } else {
      if SettlerOf(th, oid) == KOut { NoSettler(s, oid); }
      if SettlerOf(th', oid) == KOut { NoSettler(s', oid); }
    }
  }

  /** And so does the stage of the state lock's holder. */
  lemma HolderSide(s: Sys, t: nat, drawn: OrderId, s': Sys, oid: OrderId)
    requires Inv(s) && Inv(s') && Takes(s, t, drawn, s')
    ensures var w, w' := HolderOf(s.threads[t], oid), HolderOf(s'.threads[t], oid);
            if w == WOut && w' == WOut then HolderIn(s', oid) == HolderIn(s, oid)
            else HolderIn(s, oid) == w && HolderIn(s', oid) == w'
  {
    hide Inv, Step, HolderOf, HolderIn;
    var th, th' := s.threads[t], s'.threads[t];
    LocksOf(s);
    LocksOf(s');
    if HolderOf(th', oid) != WOut {
      HolderOnly(s', t, oid);
      HoldsInHand(s.sh, t, th.req, th.pc, drawn, oid);
    }
    if HolderOf(th, oid) != WOut {
      HolderOnly(s, t, oid);
      HolderLocked(th, oid);
    }
    if u :| u in s.threads && u != t && HolderOf(s.threads[u], oid) != WOut {
      HolderLocked(s.threads[u], oid);
      HolderOnly(s, u, oid);
      HolderOnly(s', u, oid);
      if HolderOf(th, oid) != WOut || HolderOf(th', oid) != WOut { MutualExclusion(s, t, u, StateLock); }
    } else {
      if HolderOf(th, oid) == WOut { NoHolder(s, oid); }
      if HolderOf(th', oid) == WOut { NoHolder(s', oid); }
    }
  }

  /** One move in the life of an order. */
  ghost predicate Lives(l: Life, e: Event, l': Life) {
    || (Settles(l.v, l.k, e, l'.v, l'.k) && l'.w == l.w)
    || (Handles(l.v, l.w, e, l'.v, l'.w) && l'.k == l.k)
  }

  /** Every step of the system is such a move for every order there is. */
  lemma TakesLives(s: Sys, t: nat, drawn: OrderId, s': Sys, oid: OrderId)
    requires Inv(s) && Inv(s') && Takes(s, t, drawn, s') && oid in s.sh.d.orders
    ensures oid in s'.sh.d.orders
    ensures Lives(LifeOf(s, oid), EventOf(s.threads[t], oid, Checkout(oid) in s.sh.d.charges), LifeOf(s', oid))
  {
    hide Inv, Step, Local, SettlerOf, HolderOf, SettlerIn, HolderIn, EventOf;
    LocalOf(s, t);
    StepOrder(s.sh, t, s.threads[t].req, s.threads[t].pc, drawn, oid);
    SettlerSide(s, t, drawn, s', oid);
    HolderSide(s, t, drawn, s', oid);
  }

  lemma PublishEffect(sh: Shared, me: nat, req: Request, lk: nat, k: KeyedPc, drawn: OrderId, oid: OrderId)
    requires Admitted(req) && LedgerOk(sh) && KeyedLocal(sh, req, k) && k.KPublish? && oid !in sh.d.orders
    ensures var m := KeyedStep(sh, me, req, lk, k, drawn);
            m.Move? && (oid in m.sh.d.orders ==>
              ViewOf(m.sh, oid) == View(Pending, false, false, false, false, req.payload.token == Decline)
              && SettlerOf(Thread(req, m.next), oid) == KAhead)
  {
  }

  lemma HolderKnows(sh: Shared, th: Thread, oid: OrderId)
    requires Local(sh, th.req, th.pc) && HolderOf(th, oid) != WOut
    ensures oid in sh.d.orders
  {
  }

  /** An order is born pending, in its creation's hands. */
  lemma Born(s: Sys, t: nat, drawn: OrderId, s': Sys, oid: OrderId)
    requires Inv(s) && Inv(s') && Takes(s, t, drawn, s') && oid !in s.sh.d.orders && oid in s'.sh.d.orders
    ensures LifeOf(s', oid).v.(declines := false) == View(Pending, false, false, false, false, false)
    ensures SettlerIn(s', oid) == KAhead && HolderIn(s', oid) == WOut
  {
    hide Inv, Local, ViewOf, SettlerOf, HolderOf, SettlerIn, HolderIn, KeyedStep, KeyedLocal;
    var th := s.threads[t];
    LocalOf(s, t);
    StepGuarantee(s.sh, t, th.req, th.pc, drawn);
    assert th.pc.Keyed? && th.pc.k.KPublish?;
    assert Admitted(th.req) && KeyedLocal(s.sh, th.req, th.pc.k) by { PublishLocal(s.sh, th); }
    PublishEffect(s.sh, t, th.req, th.pc.lk, th.pc.k, drawn, oid);
    SettlerOnly(s', t, oid);
    forall u | u in s'.threads ensures HolderOf(s'.threads[u], oid) == WOut {
      if u == t {
        KeyedHoldsNone(s'.threads[t], oid);
      } else if HolderOf(s.threads[u], oid) != WOut {
        LocalOf(s, u);
        HolderKnows(s.sh, s.threads[u], oid);
      }
    }
    NoHolder(s', oid);
  }

  lemma PublishLocal(sh: Shared, th: Thread)
    requires Local(sh, th.req, th.pc) && th.pc.Keyed?
    ensures Admitted(th.req) && KeyedLocal(sh, th.req, th.pc.k)
  {
  }

  lemma KeyedHoldsNone(th: Thread, oid: OrderId)
    requires SettlerOf(th, oid) != KOut
    ensures HolderOf(th, oid) == WOut
  {
  }
}

/** Who is let in, what each request may do, and what its answer means, over every interleaved run. */
module FlashAnswers {
  import opened Prelude
  import opened FlashModel
  import opened FlashInvariant
  import opened FlashSteps
  import opened FlashRuns
  import opened FlashCoherence
  import opened FlashTheorems
  import opened FlashLife
  import opened FlashExact

  // ----- What a request's point and answer say --------------------------------------------

  ghost predicate RefusedWith(pc: Pc, code: int) { pc == Start || pc == Done(Reply(Some(code), None)) }

  /** Known to be settled or on its way to be: a status that is not pending never is again. */
  ghost predicate Begun(sh: Shared, oid: OrderId) { oid in sh.d.orders && sh.d.orders[oid].status != Pending }

  ghost predicate WebhookAnswer(sh: Shared, event: EventId, oid: OrderId, r: Reply) {
    || r == Reply(Some(404), None)
    || (r == Reply(Some(200), None) && event in sh.d.processed)
    || (r == Reply(Some(200), Some(oid)) && event in sh.d.processed && Begun(sh, oid))
  }

  /** A webhook pays only for success and fails only for failure, and only once an order has begun
      does it count its event. */
  ghost predicate WebhookHonest(sh: Shared, event: EventId, succeeded: bool, oid: OrderId, pc: Pc) {
    && (Answer(pc).Some? ==> WebhookAnswer(sh, event, oid, Answer(pc).value))
    && (pc.W? && (pc.w.WPaid? || pc.w.WCharge? || pc.w.WChargeId?) ==> succeeded)
    && (pc.W? && (pc.w.WFail? || pc.w.WFailCode? || pc.w.WRelease?) ==> !succeeded)
    && (pc.W? && !pc.w.WSeen? && !pc.w.WLookup? && !pc.w.WStatus? && !pc.w.WPaid? && !pc.w.WFail? && !pc.w.WUnlock? ==> Begun(sh, oid))
  }

  ghost predicate MayCancel(sh: Shared, user: User, oid: OrderId) {
    oid in sh.d.orders && (user == Admin || sh.d.orders[oid].owner == user)
  }

  ghost predicate CancelAnswer(sh: Shared, user: User, oid: OrderId, r: Reply) {
    || r == Reply(Some(404), None)
    || (&& r.about == Some(oid) && oid in sh.d.orders
        && (r.code == Some(403) || r.code == Some(409) || r.code == Some(200))
        && (r.code == Some(403) <==> !MayCancel(sh, user, oid))
        && (r.code == Some(200) ==> sh.d.orders[oid].released))
  }

  ghost predicate CancelHonest(sh: Shared, user: User, oid: OrderId, pc: Pc) {
    && (Answer(pc).Some? ==> CancelAnswer(sh, user, oid, Answer(pc).value))
    && (pc.X? && !pc.x.XLookup? && !pc.x.XUnlock? ==> MayCancel(sh, user, oid))
  }

  /** `None` as a code: the replay of an order that a webhook is failing at that moment. */
  ghost predicate CreateAnswer(sh: Shared, user: User, p: Payload, r: Reply) {
    match r.about
    case None => if p.productId != 1 then r.code == Some(404) else r.code == Some(409)
    case Some(oid) =>
      && oid in sh.d.orders && sh.d.orders[oid].owner == user
      && if sh.d.orders[oid].fingerprint != p then r.code == Some(409)
         else
           || (r.code == Some(201) && Begun(sh, oid))
           || (r.code == Some(402) && Begun(sh, oid) && sh.d.orders[oid].failureStatus == Some(402))
           || (r.code == None && Begun(sh, oid))
           || (r.code == Some(504) && p.token == TimeoutOnce && Checkout(oid) in sh.d.timeoutKeys)
  }

  ghost predicate KeyedHonest(sh: Shared, p: Payload, k: KeyedPc) {
    match k
    case KReserve(_) => p.productId == 1
    case KBuild => p.productId == 1
    case KPublish(_) => p.productId == 1
    case KReplayCode(oid) => Begun(sh, oid)
    case KFailCode(oid) => Begun(sh, oid)
    case KRelease(oid, _) => Begun(sh, oid) && sh.d.orders[oid].failureStatus == Some(402)
    case KCharge(oid, c) => c == PMark || c == PUnlock(TimedOut) ==> p.token == TimeoutOnce
    case _ => true
  }

  ghost predicate CreateHonest(sh: Shared, user: User, p: Payload, pc: Pc) {
    && (Answer(pc).Some? ==> CreateAnswer(sh, user, p, Answer(pc).value))
    && (pc.Keyed? ==> KeyedHonest(sh, p, pc.k))
  }

  ghost predicate Honest(sh: Shared, th: Thread) {
    match th.req
    case Webhook(signed, event, succeeded, oid) =>
      if signed then WebhookHonest(sh, event, succeeded, oid, th.pc) else RefusedWith(th.pc, 401)
    case Cancel(auth, oid) =>
      if auth.Some? then CancelHonest(sh, auth.value, oid, th.pc) else RefusedWith(th.pc, 401)
    case Create(auth, key, p) =>
      if auth.None? then RefusedWith(th.pc, 401)
      else if key.None? || key.value == "" then RefusedWith(th.pc, 400)
      else CreateHonest(sh, auth.value, p, th.pc)
    case Snapshot => Answer(th.pc).Some? ==> Answer(th.pc) == Some(Reply(Some(200), None))
  }

  /** Only the one product is ever sold. */
  ghost predicate Products(sh: Shared) {
    forall oid :: oid in sh.d.orders ==> sh.d.orders[oid].fingerprint.productId == 1
  }

  // ----- What stays true -------------------------------------------------------------------

  ghost predicate Onward(sh: Shared, sh': Shared) {
    && (forall oid :: oid in sh.d.orders ==>
          && oid in sh'.d.orders && SameTerms(sh.d.orders[oid], sh'.d.orders[oid])
          && (sh.d.orders[oid].status != Pending ==> sh'.d.orders[oid].status != Pending)
          && (sh.d.orders[oid].failureStatus == Some(402) ==> sh'.d.orders[oid].failureStatus == Some(402))
          && (sh.d.orders[oid].released ==> sh'.d.orders[oid].released))
    && sh.d.processed <= sh'.d.processed && sh.d.timeoutKeys <= sh'.d.timeoutKeys
  }

  lemma HonestStays(sh: Shared, sh': Shared, th: Thread)
    requires Honest(sh, th) && Onward(sh, sh')
    ensures Honest(sh', th)
  {
  }

  lemma TakesOnward(s: Sys, t: nat, drawn: OrderId, s': Sys)
    requires Inv(s) && Inv(s') && Takes(s, t, drawn, s')
    ensures Onward(s.sh, s'.sh)
  {
    hide Inv, Step, Local, Lives;
    LocalOf(s, t);
    StepGuarantee(s.sh, t, s.threads[t].req, s.threads[t].pc, drawn);
    forall oid | oid in s.sh.d.orders
      ensures s.sh.d.orders[oid].status != Pending ==> s'.sh.d.orders[oid].status != Pending
      ensures s.sh.d.orders[oid].failureStatus == Some(402) ==> s'.sh.d.orders[oid].failureStatus == Some(402)
    {
      TakesLives(s, t, drawn, s', oid);
      OwnCharge(s', oid);
      LivesOnward(LifeOf(s, oid), EventOf(s.threads[t], oid, Checkout(oid) in s.sh.d.charges), LifeOf(s', oid));
    }
  }

  lemma LivesOnward(l: Life, e: Event, l': Life)
    requires Lives(l, e, l')
    ensures l.v.status != Pending ==> l'.v.status != Pending
    ensures l.v.coded ==> l'.v.coded
  {
  }

  // ----- One step --------------------------------------------------------------------------

  lemma KeyedAnswers(sh: Shared, me: nat, req: Request, lk: nat, k: KeyedPc, drawn: OrderId)
    requires Admitted(req) && KeyedLocal(sh, req, k) && OrdersOk(sh) && TablesOk(sh)
    requires CreateHonest(sh, req.auth.value, req.payload, Keyed(lk, k)) && KeyedStep(sh, me, req, lk, k, drawn).Move?
    ensures var m := KeyedStep(sh, me, req, lk, k, drawn); CreateHonest(m.sh, req.auth.value, req.payload, m.next)
  {
    hide KeyedLocal, KeyedStep, OrdersOk, TablesOk, CreateHonest;
    if k.KLookup? || k.KReserve? || k.KBuild? || k.KPublish? || k.KRecord? { PlaceAnswers(sh, me, req, lk, k, drawn); }
    else if k.KFingerprint? || k.KReplayFailed? || k.KReplayCode? || k.KReplayPending? { ReplayAnswers(sh, me, req, lk, k, drawn); }
    else if k.KCharge? { ChargeAnswers(sh, me, req, lk, k, drawn); }
    else if k.KRelease? { GiveBackAnswers(sh, me, req, lk, k, drawn); }
    else if k.KChargeId? || k.KPaid? { PaidAnswers(sh, me, req, lk, k, drawn); }
    else if k.KFail? || k.KFailCode? { FailAnswers(sh, me, req, lk, k, drawn); }
    else { LeaveAnswers(sh, me, req, lk, k, drawn); }
  }

  lemma PlaceAnswers(sh: Shared, me: nat, req: Request, lk: nat, k: KeyedPc, drawn: OrderId)
    requires Admitted(req) && KeyedLocal(sh, req, k) && OrdersOk(sh) && TablesOk(sh)
    requires CreateHonest(sh, req.auth.value, req.payload, Keyed(lk, k)) && KeyedStep(sh, me, req, lk, k, drawn).Move?
    requires k.KLookup? || k.KReserve? || k.KBuild? || k.KPublish? || k.KRecord?
    ensures var m := KeyedStep(sh, me, req, lk, k, drawn); CreateHonest(m.sh, req.auth.value, req.payload, m.next)
  {
    hide OrdersOk, TablesOk, ChargeStep, ReleaseStep;
  }

  lemma ReplayAnswers(sh: Shared, me: nat, req: Request, lk: nat, k: KeyedPc, drawn: OrderId)
    requires Admitted(req) && KeyedLocal(sh, req, k) && OrdersOk(sh) && TablesOk(sh)
    requires CreateHonest(sh, req.auth.value, req.payload, Keyed(lk, k)) && KeyedStep(sh, me, req, lk, k, drawn).Move?
    requires k.KFingerprint? || k.KReplayFailed? || k.KReplayCode? || k.KReplayPending?
    ensures var m := KeyedStep(sh, me, req, lk, k, drawn); CreateHonest(m.sh, req.auth.value, req.payload, m.next)
  {
    hide KeyedLocal, KeyedStep, OrdersOk, TablesOk, CreateHonest;
    if k.KFingerprint? || k.KReplayFailed? { MatchAnswers(sh, me, req, lk, k, drawn); } else { TerminalAnswers(sh, me, req, lk, k, drawn); }
  }

  lemma MatchAnswers(sh: Shared, me: nat, req: Request, lk: nat, k: KeyedPc, drawn: OrderId)
    requires k.KFingerprint? || k.KReplayFailed?
    requires Admitted(req) && KeyedLocal(sh, req, k) && OrdersOk(sh) && TablesOk(sh)
    requires CreateHonest(sh, req.auth.value, req.payload, Keyed(lk, k)) && KeyedStep(sh, me, req, lk, k, drawn).Move?
    requires k.KFingerprint? || k.KReplayFailed? || k.KReplayCode? || k.KReplayPending?
    ensures var m := KeyedStep(sh, me, req, lk, k, drawn); CreateHonest(m.sh, req.auth.value, req.payload, m.next)
  {
    hide ChargeStep, ReleaseStep, ReserveStep;
  }

  lemma TerminalAnswers(sh: Shared, me: nat, req: Request, lk: nat, k: KeyedPc, drawn: OrderId)
    requires k.KReplayCode? || k.KReplayPending?
    requires Admitted(req) && KeyedLocal(sh, req, k) && OrdersOk(sh) && TablesOk(sh)
    requires CreateHonest(sh, req.auth.value, req.payload, Keyed(lk, k)) && KeyedStep(sh, me, req, lk, k, drawn).Move?
    requires k.KFingerprint? || k.KReplayFailed? || k.KReplayCode? || k.KReplayPending?
    ensures var m := KeyedStep(sh, me, req, lk, k, drawn); CreateHonest(m.sh, req.auth.value, req.payload, m.next)
  {
    hide ChargeStep, ReleaseStep, ReserveStep;
  }

  lemma ChargeAnswers(sh: Shared, me: nat, req: Request, lk: nat, k: KeyedPc, drawn: OrderId)
    requires Admitted(req) && KeyedLocal(sh, req, k) && OrdersOk(sh) && TablesOk(sh)
    requires CreateHonest(sh, req.auth.value, req.payload, Keyed(lk, k)) && KeyedStep(sh, me, req, lk, k, drawn).Move?
    requires k.KCharge?
    ensures var m := KeyedStep(sh, me, req, lk, k, drawn); CreateHonest(m.sh, req.auth.value, req.payload, m.next)
  {
    hide ReleaseStep, ReserveStep;
  }

  lemma GiveBackAnswers(sh: Shared, me: nat, req: Request, lk: nat, k: KeyedPc, drawn: OrderId)
    requires Admitted(req) && KeyedLocal(sh, req, k) && OrdersOk(sh) && TablesOk(sh)
    requires CreateHonest(sh, req.auth.value, req.payload, Keyed(lk, k)) && KeyedStep(sh, me, req, lk, k, drawn).Move?
    requires k.KRelease?
    ensures var m := KeyedStep(sh, me, req, lk, k, drawn); CreateHonest(m.sh, req.auth.value, req.payload, m.next)
  {
    hide ChargeStep, ReserveStep;
  }

  lemma PaidAnswers(sh: Shared, me: nat, req: Request, lk: nat, k: KeyedPc, drawn: OrderId)
    requires Admitted(req) && KeyedLocal(sh, req, k) && OrdersOk(sh) && TablesOk(sh)
    requires CreateHonest(sh, req.auth.value, req.payload, Keyed(lk, k)) && KeyedStep(sh, me, req, lk, k, drawn).Move?
    requires k.KChargeId? || k.KPaid?
    ensures var m := KeyedStep(sh, me, req, lk, k, drawn); CreateHonest(m.sh, req.auth.value, req.payload, m.next)
  {
    hide KeyedLocal, KeyedStep, OrdersOk, TablesOk, CreateHonest;
    if k.KChargeId? { NamedAnswers(sh, me, req, lk, k, drawn); } else { PaidLastAnswers(sh, me, req, lk, k, drawn); }
  }

  lemma NamedAnswers(sh: Shared, me: nat, req: Request, lk: nat, k: KeyedPc, drawn: OrderId)
    requires k.KChargeId?
    requires Admitted(req) && KeyedLocal(sh, req, k) && OrdersOk(sh) && TablesOk(sh)
    requires CreateHonest(sh, req.auth.value, req.payload, Keyed(lk, k)) && KeyedStep(sh, me, req, lk, k, drawn).Move?
    requires k.KChargeId? || k.KPaid?
    ensures var m := KeyedStep(sh, me, req, lk, k, drawn); CreateHonest(m.sh, req.auth.value, req.payload, m.next)
  {
    hide ChargeStep, ReleaseStep, ReserveStep;
  }

  lemma PaidLastAnswers(sh: Shared, me: nat, req: Request, lk: nat, k: KeyedPc, drawn: OrderId)
    requires k.KPaid?
    requires Admitted(req) && KeyedLocal(sh, req, k) && OrdersOk(sh) && TablesOk(sh)
    requires CreateHonest(sh, req.auth.value, req.payload, Keyed(lk, k)) && KeyedStep(sh, me, req, lk, k, drawn).Move?
    requires k.KChargeId? || k.KPaid?
    ensures var m := KeyedStep(sh, me, req, lk, k, drawn); CreateHonest(m.sh, req.auth.value, req.payload, m.next)
  {
    hide ChargeStep, ReleaseStep, ReserveStep;
  }

  lemma FailAnswers(sh: Shared, me: nat, req: Request, lk: nat, k: KeyedPc, drawn: OrderId)
    requires Admitted(req) && KeyedLocal(sh, req, k) && OrdersOk(sh) && TablesOk(sh)
    requires CreateHonest(sh, req.auth.value, req.payload, Keyed(lk, k)) && KeyedStep(sh, me, req, lk, k, drawn).Move?
    requires k.KFail? || k.KFailCode?
    ensures var m := KeyedStep(sh, me, req, lk, k, drawn); CreateHonest(m.sh, req.auth.value, req.payload, m.next)
  {
    hide KeyedLocal, KeyedStep, OrdersOk, TablesOk, CreateHonest;
    if k.KFail? { DeclinedAnswers(sh, me, req, lk, k, drawn); } else { CodedAnswers(sh, me, req, lk, k, drawn); }
  }

  lemma DeclinedAnswers(sh: Shared, me: nat, req: Request, lk: nat, k: KeyedPc, drawn: OrderId)
    requires k.KFail?
    requires Admitted(req) && KeyedLocal(sh, req, k) && OrdersOk(sh) && TablesOk(sh)
    requires CreateHonest(sh, req.auth.value, req.payload, Keyed(lk, k)) && KeyedStep(sh, me, req, lk, k, drawn).Move?
    requires k.KFail? || k.KFailCode?
    ensures var m := KeyedStep(sh, me, req, lk, k, drawn); CreateHonest(m.sh, req.auth.value, req.payload, m.next)
  {
    hide ChargeStep, ReleaseStep, ReserveStep;
  }

  lemma CodedAnswers(sh: Shared, me: nat, req: Request, lk: nat, k: KeyedPc, drawn: OrderId)
    requires k.KFailCode?
    requires Admitted(req) && KeyedLocal(sh, req, k) && OrdersOk(sh) && TablesOk(sh)
    requires CreateHonest(sh, req.auth.value, req.payload, Keyed(lk, k)) && KeyedStep(sh, me, req, lk, k, drawn).Move?
    requires k.KFail? || k.KFailCode?
    ensures var m := KeyedStep(sh, me, req, lk, k, drawn); CreateHonest(m.sh, req.auth.value, req.payload, m.next)
  {
    hide ChargeStep, ReleaseStep, ReserveStep;
  }

  lemma LeaveAnswers(sh: Shared, me: nat, req: Request, lk: nat, k: KeyedPc, drawn: OrderId)
    requires Admitted(req) && KeyedLocal(sh, req, k) && OrdersOk(sh) && TablesOk(sh)
    requires CreateHonest(sh, req.auth.value, req.payload, Keyed(lk, k)) && KeyedStep(sh, me, req, lk, k, drawn).Move?
    requires k.KUnlock?
    ensures var m := KeyedStep(sh, me, req, lk, k, drawn); CreateHonest(m.sh, req.auth.value, req.payload, m.next)
  {
    hide ChargeStep, ReleaseStep, ReserveStep;
  }

  lemma CancelAnswers(sh: Shared, me: nat, req: Request, x: CancelPc)
    requires req.Cancel? && req.auth.Some? && CancelLocal(sh, req, x) && OrdersOk(sh)
    requires x.XCancelled? ==> req.orderId in sh.d.orders && (sh.d.orders[req.orderId].status == Cancelled ==> sh.d.orders[req.orderId].released)
    requires CancelHonest(sh, req.auth.value, req.orderId, X(x)) && CancelStep(sh, me, req, x).Move?
    ensures var m := CancelStep(sh, me, req, x); CancelHonest(m.sh, req.auth.value, req.orderId, m.next)
  {
  }

  lemma WebhookAnswers(sh: Shared, me: nat, req: Request, w: WebhookPc)
    requires req.Webhook? && WebhookLocal(sh, req, w) && OrdersOk(sh)
    requires WebhookHonest(sh, req.event, req.succeeded, req.orderId, W(w)) && WebhookStep(sh, me, req, w).Move?
    ensures var m := WebhookStep(sh, me, req, w); WebhookHonest(m.sh, req.event, req.succeeded, req.orderId, m.next)
  {
    hide WebhookLocal, OrdersOk, WebhookHonest, WebhookStep;
    if w.WPaid? || w.WCharge? || w.WChargeId? || w.WFail? || w.WFailCode? || w.WRelease? { AppliesAnswers(sh, me, req, w); }
    else { ReadsAnswers(sh, me, req, w); }
  }

  lemma AppliesAnswers(sh: Shared, me: nat, req: Request, w: WebhookPc)
    requires req.Webhook? && WebhookLocal(sh, req, w) && OrdersOk(sh)
    requires WebhookHonest(sh, req.event, req.succeeded, req.orderId, W(w)) && WebhookStep(sh, me, req, w).Move?
    requires w.WPaid? || w.WCharge? || w.WChargeId? || w.WFail? || w.WFailCode? || w.WRelease?
    ensures var m := WebhookStep(sh, me, req, w); WebhookHonest(m.sh, req.event, req.succeeded, req.orderId, m.next)
  {
  }

  lemma ReadsAnswers(sh: Shared, me: nat, req: Request, w: WebhookPc)
    requires req.Webhook? && WebhookLocal(sh, req, w) && OrdersOk(sh)
    requires WebhookHonest(sh, req.event, req.succeeded, req.orderId, W(w)) && WebhookStep(sh, me, req, w).Move?
    requires w.WSeen? || w.WLookup? || w.WStatus? || w.WEffect? || w.WMark? || w.WUnlock?
    ensures var m := WebhookStep(sh, me, req, w); WebhookHonest(m.sh, req.event, req.succeeded, req.orderId, m.next)
  {
    hide OrdersOk;
  }

  lemma OutsideAnswers(sh: Shared, me: nat, req: Request, pc: Pc, drawn: OrderId)
    requires Local(sh, req, pc) && Honest(sh, Thread(req, pc)) && !pc.Keyed? && !pc.X? && !pc.W?
    requires Step(sh, me, req, pc, drawn).Move?
    ensures var m := Step(sh, me, req, pc, drawn); Honest(m.sh, Thread(req, m.next))
  {
  }

  /** A cancelled order that a cancellation finds under the state lock has had its stock back. */
  ghost predicate FoundReleased(sh: Shared, th: Thread) {
    th.req.Cancel? && th.pc == X(XCancelled) && th.req.orderId in sh.d.orders && sh.d.orders[th.req.orderId].status == Cancelled ==>
      sh.d.orders[th.req.orderId].released
  }

  lemma StepAnswers(sh: Shared, me: nat, req: Request, pc: Pc, drawn: OrderId)
    requires Local(sh, req, pc) && SharedOk(sh) && Honest(sh, Thread(req, pc)) && FoundReleased(sh, Thread(req, pc))
    requires Step(sh, me, req, pc, drawn).Move?
    ensures var m := Step(sh, me, req, pc, drawn); Honest(m.sh, Thread(req, m.next))
  {
    hide KeyedStep, CancelStep, WebhookStep, KeyedLocal, WebhookLocal, OrdersOk, TablesOk, LedgerOk, EventsOk,
         CreateHonest, CancelHonest, WebhookHonest;
    match pc
    case Keyed(lk, k) => KeyedAnswers(sh, me, req, lk, k, drawn);
    case X(x) => CancelAnswers(sh, me, req, x);
    case W(w) => WebhookAnswers(sh, me, req, w);
    case _ => OutsideAnswers(sh, me, req, pc, drawn);
  }

  lemma StepProducts(sh: Shared, me: nat, req: Request, pc: Pc, drawn: OrderId)
    requires Local(sh, req, pc) && SharedOk(sh) && Honest(sh, Thread(req, pc)) && Products(sh)
    requires Step(sh, me, req, pc, drawn).Move?
    ensures Products(Step(sh, me, req, pc, drawn).sh)
  {
    hide KeyedStep, CancelStep, WebhookStep, SharedOk;
    var sh' := Step(sh, me, req, pc, drawn).sh;
    StepGuarantee(sh, me, req, pc, drawn);
    forall oid | oid in sh'.d.orders ensures sh'.d.orders[oid].fingerprint.productId == 1 {
      if oid !in sh.d.orders { assert pc.Keyed? && pc.k.KPublish? && sh'.d.orders[oid] == pc.k.order; }
    }
  }

  // ----- Runs --------------------------------------------------------------------------------

  ghost predicate AllHonest(s: Sys) {
    Products(s.sh) && forall t :: t in s.threads ==> Honest(s.sh, s.threads[t])
  }

  lemma FoundIs(run: seq<Sys>, stock: nat, price: nat, i: nat, t: nat)
    requires Run(run, stock, price) && i < |run| && t in run[i].threads
    ensures FoundReleased(run[i].sh, run[i].threads[t])
  {
    hide Inv, Revived, Missed, Named, HolderIn, SettlerIn, Run;
    var s, th := run[i], run[i].threads[t];
    if th.req.Cancel? && th.pc == X(XCancelled) && th.req.orderId in s.sh.d.orders {
      var oid := th.req.orderId;
      RunInvariant(run, stock, price, i);
      RunLived(run, stock, price, i, oid);
      LocksOf(s);
      assert Has(th.pc, StateLock);
      if u :| u in s.threads && HolderOf(s.threads[u], oid) != WOut {
        HolderLocked(s.threads[u], oid);
        MutualExclusion(s, t, u, StateLock);
      } else {
        NoHolder(s, oid);
      }
    }
  }

  lemma HonestTakes(s: Sys, t: nat, drawn: OrderId, s': Sys)
    requires Inv(s) && Inv(s') && AllHonest(s) && Takes(s, t, drawn, s') && FoundReleased(s.sh, s.threads[t])
    ensures AllHonest(s')
  {
    hide Inv, Step, Local, Honest, Products, SharedOk, Onward, FoundReleased;
    var th := s.threads[t];
    LocalOf(s, t);
    TakesOnward(s, t, drawn, s');
    StepAnswers(s.sh, t, th.req, th.pc, drawn);
    StepProducts(s.sh, t, th.req, th.pc, drawn);
    forall u | u in s'.threads ensures Honest(s'.sh, s'.threads[u]) {
      if u != t { HonestStays(s.sh, s'.sh, s.threads[u]); }
    }
  }

  /** In every state of every run each request's program point and answer are honest: requests
      that may not come in are refused with the right code at once and never get further, and
      every other answer means what it says. */
  lemma {:induction false} RunHonest(run: seq<Sys>, stock: nat, price: nat, i: nat)
    requires Run(run, stock, price) && i < |run|
    ensures AllHonest(run[i])
  {
    hide Inv, Honest, Takes, FoundReleased;
    if i > 0 {
      RunHonest(run, stock, price, i - 1);
      RunInvariant(run, stock, price, i - 1);
      RunInvariant(run, stock, price, i);
      RunNext(run, stock, price, i);
      var s, s' := run[i - 1], run[i];
      if Advances(s, s') {
        var t, drawn :| Takes(s, t, drawn, s');
        TakesKnown(s, t, drawn, s');
        FoundIs(run, stock, price, i - 1, t);
        HonestTakes(s, t, drawn, s');
      } else {
        var t, req :| Arrives(s, t, req, s');
        StartHonest(s'.sh, req);
      }
    }
  }

  lemma TakesKnown(s: Sys, t: nat, drawn: OrderId, s': Sys)
    requires Takes(s, t, drawn, s')
    ensures t in s.threads
  {
  }

  lemma StartHonest(sh: Shared, req: Request)
    ensures Honest(sh, Thread(req, Start))
  {
  }

  // ----- What that means ---------------------------------------------------------------------

  /** A webhook without a valid signature, a request without a known bearer, and a creation without
      a key are answered 401, 401 and 400. They never get past their first step, and that step
      changes nothing. */
  lemma RefusedAtTheDoor(run: seq<Sys>, stock: nat, price: nat, i: nat, t: nat)
    requires Run(run, stock, price) && i < |run| && t in run[i].threads
    ensures var req, pc := run[i].threads[t].req, run[i].threads[t].pc;
            && (req.Webhook? && !req.signed ==> pc == Start || pc == Done(Reply(Some(401), None)))
            && ((req.Create? || req.Cancel?) && req.auth.None? ==> pc == Start || pc == Done(Reply(Some(401), None)))
            && (req.Create? && req.auth.Some? && (req.key.None? || req.key == Some("")) ==> pc == Start || pc == Done(Reply(Some(400), None)))
            && (pc == Start ==> forall drawn, s' :: Takes(run[i], t, drawn, s') ==> s'.sh == run[i].sh)
  {
    hide Run, Products;
    RunHonest(run, stock, price, i);
    assert Honest(run[i].sh, run[i].threads[t]);
  }

  /** Whoever has applied an event was signed, paid for success and failed for failure. */
  lemma AppliersSigned(run: seq<Sys>, stock: nat, price: nat, i: nat, t: nat, e: EventId)
    requires Run(run, stock, price) && i < |run| && t in run[i].threads && Applied(run[i].threads[t], e)
    ensures run[i].threads[t].req.signed
    ensures Begun(run[i].sh, run[i].threads[t].req.orderId)
  {
    hide Run, Products;
    RunHonest(run, stock, price, i);
    assert Honest(run[i].sh, run[i].threads[t]);
  }

  /** A status is written by nobody who may not: PAID by a webhook of success or by a creation that
      owns the order, FAILED by one of failure or by such a creation of a declined token, CANCELLED
      by the owner or the administrator. */
  lemma WritersMay(run: seq<Sys>, stock: nat, price: nat, i: nat, t: nat, oid: OrderId)
    requires Run(run, stock, price) && i < |run| && t in run[i].threads && oid in run[i].sh.d.orders
    ensures var req, o := run[i].threads[t].req, run[i].sh.d.orders[oid];
            var e := EventOf(run[i].threads[t], oid, Checkout(oid) in run[i].sh.d.charges);
            && (e == CancelWrite ==> req.Cancel? && req.auth.Some? && (req.auth.value == Admin || req.auth.value == o.owner))
            && (e == PaidWrite ==> (req.Webhook? && req.signed && req.succeeded && req.orderId == oid)
                                   || (req.Create? && req.auth == Some(o.owner) && req.payload == o.fingerprint))
            && (e == FailWrite ==> (req.Webhook? && req.signed && !req.succeeded && req.orderId == oid)
                                   || (req.Create? && req.auth == Some(o.owner) && req.payload == o.fingerprint && req.payload.token == Decline))
  {
    hide Run, Products, Inv;
    RunHonest(run, stock, price, i);
    RunInvariant(run, stock, price, i);
    LocalOf(run[i], t);
    WriterMay(run[i].sh, run[i].threads[t], oid);
  }

  lemma WriterMay(sh: Shared, th: Thread, oid: OrderId)
    requires Honest(sh, th) && Local(sh, th.req, th.pc) && SharedOk(sh) && oid in sh.d.orders
    ensures var e := EventOf(th, oid, Checkout(oid) in sh.d.charges);
            && (e == CancelWrite ==> th.req.Cancel? && th.req.auth.Some? && (th.req.auth.value == Admin || th.req.auth.value == sh.d.orders[oid].owner))
            && (e == PaidWrite ==> (th.req.Webhook? && th.req.signed && th.req.succeeded && th.req.orderId == oid)
                                   || (th.req.Create? && th.req.auth == Some(sh.d.orders[oid].owner) && th.req.payload == sh.d.orders[oid].fingerprint))
            && (e == FailWrite ==> (th.req.Webhook? && th.req.signed && !th.req.succeeded && th.req.orderId == oid)
                                   || (th.req.Create? && th.req.auth == Some(sh.d.orders[oid].owner)
                                       && th.req.payload == sh.d.orders[oid].fingerprint && th.req.payload.token == Decline))
  {
    hide LedgerOk, EventsOk;
  }

  /** Every order is for the one product and holds what its creator asked for, at the catalog price. */
  lemma OrderContents(run: seq<Sys>, stock: nat, price: nat, i: nat, oid: OrderId)
    requires Run(run, stock, price) && i < |run| && oid in run[i].sh.d.orders
    ensures var o := run[i].sh.d.orders[oid];
            && o.id == oid && o.productId == o.fingerprint.productId == 1
            && o.quantity == o.fingerprint.quantity && o.token == o.fingerprint.token && o.total == price * o.fingerprint.quantity
  {
    hide Run, Honest;
    RunHonest(run, stock, price, i);
    RunInvariant(run, stock, price, i);
    PriceFixed(run, stock, price, i);
    ContentsOf(run[i].sh, oid);
  }

  lemma ContentsOf(sh: Shared, oid: OrderId)
    requires OrdersOk(sh) && oid in sh.d.orders
    ensures var o := sh.d.orders[oid];
            && o.id == oid && o.productId == o.fingerprint.productId && o.quantity == o.fingerprint.quantity
            && o.token == o.fingerprint.token && o.total == sh.d.price * o.fingerprint.quantity
  {
  }

  // ----- Answers without a code --------------------------------------------------------------

  /** A replay that found its order failed will find a code there, unless a webhook is between
      failing the order and writing it. */
  ghost predicate CodeComing(s: Sys, t: nat) {
    t in s.threads && s.threads[t].pc.Keyed? && s.threads[t].pc.k.KReplayCode? ==>
      var oid := s.threads[t].pc.k.oid;
      oid in s.sh.d.orders && (s.sh.d.orders[oid].failureStatus.Some? || HolderIn(s, oid) == WCode)
  }

  lemma ReplayerAlone(s: Sys, t: nat, oid: OrderId)
    requires Inv(s) && t in s.threads && s.threads[t].pc.Keyed? && s.threads[t].pc.k == KReplayFailed(oid)
    ensures SettlerIn(s, oid) == KOut
  {
    hide Inv, Local, SharedOk, SettlerOf, SettlerIn;
    LocalOf(s, t);
    LocksOf(s);
    forall u | u in s.threads ensures SettlerOf(s.threads[u], oid) == KOut {
      if SettlerOf(s.threads[u], oid) != KOut {
        var a, b := s.threads[t], s.threads[u];
        SettlerBusy(b, oid);
        LocalOf(s, u);
        SettlerOwns(s.sh, b, oid);
        ReplayerOwns(s.sh, a, oid);
        if !b.pc.k.KRecord? {
          OneOwner(s.sh, a.req, b.req, oid);
          assert Has(a.pc, KeyLock(a.pc.lk)) && Has(b.pc, KeyLock(b.pc.lk));
          MutualExclusion(s, t, u, KeyLock(a.pc.lk));
        }
      }
    }
    NoSettler(s, oid);
  }

  lemma ReplayerOwns(sh: Shared, th: Thread, oid: OrderId)
    requires Local(sh, th.req, th.pc) && th.pc.Keyed? && th.pc.k == KReplayFailed(oid)
    ensures LockOf(sh, th.req, th.pc.lk) && Owns(sh, th.req, oid)
  {
  }

  lemma ToReplayCode(sh: Shared, me: nat, req: Request, pc: Pc, drawn: OrderId)
    requires Local(sh, req, pc) && Step(sh, me, req, pc, drawn).Move?
    ensures var m := Step(sh, me, req, pc, drawn);
            m.next.Keyed? && m.next.k.KReplayCode? ==>
              pc.Keyed? && pc.k == KReplayFailed(m.next.k.oid) && m.sh == sh
              && m.next.k.oid in sh.d.orders && sh.d.orders[m.next.k.oid].status == Failed
  {
    if pc.Keyed? && req.Create? && req.auth.Some? && req.key.Some? { hide ChargeStep, ReleaseStep, ReserveStep; }
  }

  lemma CodeStep(s: Sys, t: nat, drawn: OrderId, s': Sys, u: nat)
    requires Inv(s) && Inv(s') && Takes(s, t, drawn, s') && u != t && CodeComing(s, u)
    ensures CodeComing(s', u)
  {
    hide Inv, Step, HolderIn, SettlerIn;
    if u in s.threads && s.threads[u].pc.Keyed? && s.threads[u].pc.k.KReplayCode? {
      var oid := s.threads[u].pc.k.oid;
      hide Lives;
      TakesLives(s, t, drawn, s', oid);
      LivesOnward(LifeOf(s, oid), EventOf(s.threads[t], oid, Checkout(oid) in s.sh.d.charges), LifeOf(s', oid));
      LivesCoded(LifeOf(s, oid), EventOf(s.threads[t], oid, Checkout(oid) in s.sh.d.charges), LifeOf(s', oid));
    }
  }

  lemma LivesCoded(l: Life, e: Event, l': Life)
    requires Lives(l, e, l')
    ensures l.w == WCode ==> l'.v.coded || l'.w == WCode
  {
  }

  lemma {:induction false} RunCodes(run: seq<Sys>, stock: nat, price: nat, i: nat, u: nat)
    requires Run(run, stock, price) && i < |run|
    ensures CodeComing(run[i], u)
  {
    hide Inv, Takes, Arrives, HolderIn, Run;
    if i == 0 {
      StartEmpty(run, stock, price);
    } else {
      RunCodes(run, stock, price, i - 1, u);
      RunInvariant(run, stock, price, i - 1);
      RunInvariant(run, stock, price, i);
      RunNext(run, stock, price, i);
      var s, s' := run[i - 1], run[i];
      if Advances(s, s') {
        var t, drawn :| Takes(s, t, drawn, s');
        if t == u { CodeOwn(run, stock, price, i, t, drawn); } else { CodeStep(s, t, drawn, s', u); }
      } else {
        var t, req :| Arrives(s, t, req, s');
        CodeArrives(s, t, req, s', u);
      }
    }
  }

  lemma StartEmpty(run: seq<Sys>, stock: nat, price: nat)
    requires Run(run, stock, price)
    ensures run[0].threads == map[]
  {
  }

  lemma CodeArrives(s: Sys, t: nat, req: Request, s': Sys, u: nat)
    requires Inv(s) && Inv(s') && Arrives(s, t, req, s') && CodeComing(s, u)
    ensures CodeComing(s', u)
  {
    hide Inv, HolderIn, SettlerIn;
    if u != t && u in s.threads && s.threads[u].pc.Keyed? && s.threads[u].pc.k.KReplayCode? {
      ArrivalSides(s, t, req, s', s.threads[u].pc.k.oid);
    }
  }

  lemma CodeOwn(run: seq<Sys>, stock: nat, price: nat, i: nat, t: nat, drawn: OrderId)
    requires Run(run, stock, price) && 0 < i < |run| && Inv(run[i - 1]) && Inv(run[i]) && Takes(run[i - 1], t, drawn, run[i])
    ensures CodeComing(run[i], t)
  {
    hide Inv, Step, Run, HolderIn, SettlerIn, Revived, Missed, Named, HolderOf, SettlerOf;
    var s, s' := run[i - 1], run[i];
    var th := s.threads[t];
    LocalOf(s, t);
    ToReplayCode(s.sh, t, th.req, th.pc, drawn);
    if s'.threads[t].pc.Keyed? && s'.threads[t].pc.k.KReplayCode? {
      var oid := s'.threads[t].pc.k.oid;
      ReplayerAlone(s, t, oid);
      RunLived(run, stock, price, i - 1, oid);
      HolderSide(s, t, drawn, s', oid);
      KeyedHolds(th, oid);
      KeyedHolds(s'.threads[t], oid);
    }
  }

  lemma KeyedHolds(th: Thread, oid: OrderId)
    requires th.pc.Keyed?
    ensures HolderOf(th, oid) == WOut
  {
  }

  /** A creation is answered without a code only if, when it looked, a webhook was between failing
      its order and writing the failure code. */
  lemma CodelessReplay(run: seq<Sys>, stock: nat, price: nat, i: nat, t: nat, oid: OrderId)
    requires Run(run, stock, price) && i < |run| && t in run[i].threads
    requires run[i].threads[t].pc.Keyed? && run[i].threads[t].pc.k == KReplayCode(oid)
    ensures oid in run[i].sh.d.orders
    ensures run[i].sh.d.orders[oid].failureStatus == None ==>
              exists u :: u in run[i].threads && run[i].threads[u].req.Webhook? && !run[i].threads[u].req.succeeded
                          && run[i].threads[u].req.orderId == oid && run[i].threads[u].pc == W(WFailCode)
  {
    hide Run, Inv, Products;
    RunCodes(run, stock, price, i, t);
    RunHonest(run, stock, price, i);
    if run[i].sh.d.orders[oid].failureStatus == None {
      assert AnyHolder(run[i], oid);
      var u :| u in run[i].threads && HolderOf(run[i].threads[u], oid) == WCode;
      assert Honest(run[i].sh, run[i].threads[u]);
    }
  }
}

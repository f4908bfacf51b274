/** What every reachable state of the checkout keeps, and the rely-guarantee
    argument behind it: which locks each program point holds, what each point may
    assume about the shared state, and what a step of one request can change
    under the feet of the others. */
module FlashInvariant {
  import opened Prelude
  import opened FlashModel

  // ----- Locks held at a program point --------------------------------------

  predicate Releasing(r: ReleasePc, lock: Lock) { lock == InventoryLock && !r.RAcquire? }

  predicate KeyedHas(k: KeyedPc, lock: Lock) {
    match k
    case KReserve(v) => lock == InventoryLock && !v.VAcquire?
    case KRelease(_, r) => Releasing(r, lock)
    case KCharge(_, p) => lock == PaymentLock && !p.PAcquire?
    case _ => false
  }

  /** Does a request at this point hold this lock? */
  predicate Has(pc: Pc, lock: Lock) {
    match pc
    case TableGet => lock == StateLock
    case TableUnlock(_) => lock == StateLock
    case Keyed(lk, k) => lock == KeyLock(lk) || KeyedHas(k, lock)
    case X(x) => lock == StateLock || (x.XRelease? && Releasing(x.r, lock))
    case W(w) => lock == StateLock || (w.WRelease? && Releasing(w.r, lock))
    case S(s) =>
      || lock == StateLock
      || (lock == InventoryLock && (s.SPayment? || s.SRead? || s.SFreePayment? || s.SFreeInventory?))
      || (lock == PaymentLock && (s.SRead? || s.SFreePayment?))
    case _ => false
  }

  /** The lock table says exactly what the program points say, and no lock is held twice over. */
  ghost predicate LocksAgree(s: Sys) {
    && (forall l :: l in s.sh.k.held ==>
          && s.sh.k.held[l].owner in s.threads
          && s.sh.k.held[l].depth == 1
          && Has(s.threads[s.sh.k.held[l].owner].pc, l))
    && (forall t, l :: t in s.threads && Has(s.threads[t].pc, l) ==>
          l in s.sh.k.held && s.sh.k.held[l].owner == t)
  }

  // ----- What each program point may assume ---------------------------------

  ghost predicate Admitted(req: Request) {
    req.Create? && req.auth.Some? && req.key.Some? && req.key.value != ""
  }

  function IdentityOf(req: Request): Identity
    requires req.Create? && req.auth.Some? && req.key.Some?
  {
    Identity(req.auth.value, req.key.value)
  }

  /** The identity of `req` owns order `oid`. */
  ghost predicate Owns(sh: Shared, req: Request, oid: OrderId) {
    && Admitted(req)
    && IdentityOf(req) in sh.d.idempotency && sh.d.idempotency[IdentityOf(req)] == oid
    && oid in sh.d.orders
  }

  ghost predicate Mine(sh: Shared, req: Request, oid: OrderId) {
    Owns(sh, req, oid) && sh.d.orders[oid].fingerprint == req.payload
  }

  ghost predicate ReserveLocal(sh: Shared, quantity: Quantity, v: ReservePc) {
    match v
    case VLoad => sh.d.stock >= quantity
    case VStore(seen) => seen == sh.d.stock && seen >= quantity
    case _ => true
  }

  ghost predicate ReleaseLocal(sh: Shared, oid: OrderId, r: ReleasePc) {
    && oid in sh.d.orders
    && match r
       case RLoad => !sh.d.orders[oid].released
       case RStore(seen) => !sh.d.orders[oid].released && seen == sh.d.stock
       case RFlag => !sh.d.orders[oid].released
       case RUnlock => sh.d.orders[oid].released
       case _ => true
  }

  ghost predicate ChargedAs(sh: Shared, oid: OrderId, number: nat) {
    Checkout(oid) in sh.d.charges && sh.d.charges[Checkout(oid)].number == number
  }

  ghost predicate ChargeLocal(sh: Shared, oid: OrderId, p: ChargePc) {
    && oid in sh.d.orders
    && match p
       case PNumber => Checkout(oid) !in sh.d.charges && sh.d.orders[oid].token != Decline
       case PStore(number) =>
         Checkout(oid) !in sh.d.charges && sh.d.orders[oid].token != Decline && number == |sh.d.charges| + 1
       case PDecide(number) => ChargedAs(sh, oid, number)
       case PMark => Checkout(oid) in sh.d.charges && Checkout(oid) !in sh.d.timeoutKeys
       case PUnlock(result) =>
         (match result
          case Charged(number) => ChargedAs(sh, oid, number)
          case Declined => sh.d.orders[oid].token == Decline
          case TimedOut => Checkout(oid) in sh.d.timeoutKeys)
       case _ => true
  }

  /** A reply names only the identity's own order; 504 is sent only for a recorded timeout. */
  ghost predicate ReplyLocal(sh: Shared, req: Request, reply: Reply) {
    && (req.Create? && reply.about.Some? ==> Owns(sh, req, reply.about.value))
    && (reply.code == Some(504) ==> reply.about.Some? && Checkout(reply.about.value) in sh.d.timeoutKeys)
  }

  ghost predicate KeyedLocal(sh: Shared, req: Request, k: KeyedPc)
    requires Admitted(req)
  {
    match k
    case KLookup => true
    case KFingerprint(oid) => Owns(sh, req, oid)
    case KReplayFailed(oid) => Mine(sh, req, oid)
    case KReplayCode(oid) => Mine(sh, req, oid)
    case KReplayPending(oid) => Mine(sh, req, oid)
    case KReserve(v) => IdentityOf(req) !in sh.d.idempotency && ReserveLocal(sh, req.payload.quantity, v)
    case KBuild => IdentityOf(req) !in sh.d.idempotency
    case KPublish(o) =>
      && IdentityOf(req) !in sh.d.idempotency
      && o == NewOrder(o.id, req.auth.value, sh.d.price, req.payload)
      && o.id !in sh.d.orders && o.id in sh.issued
    case KRecord(oid) =>
      && IdentityOf(req) !in sh.d.idempotency
      && oid in sh.d.orders && sh.d.orders[oid].owner == req.auth.value
      && sh.d.orders[oid].fingerprint == req.payload
      && forall i :: i in sh.d.idempotency ==> sh.d.idempotency[i] != oid
    case KCharge(oid, p) => Mine(sh, req, oid) && ChargeLocal(sh, oid, p)
    case KChargeId(oid, number) => Mine(sh, req, oid) && ChargedAs(sh, oid, number)
    case KPaid(oid) => Mine(sh, req, oid) && Checkout(oid) in sh.d.charges
    case KFail(oid) => Mine(sh, req, oid) && sh.d.orders[oid].token == Decline
    case KFailCode(oid) => Mine(sh, req, oid) && sh.d.orders[oid].token == Decline
    case KRelease(oid, r) => Mine(sh, req, oid) && sh.d.orders[oid].token == Decline && ReleaseLocal(sh, oid, r)
    case KUnlock(reply) => ReplyLocal(sh, req, reply)
  }

  ghost predicate CancelLocal(sh: Shared, req: Request, x: CancelPc)
    requires req.Cancel?
  {
    match x
    case XLookup => true
    case XUnlock(reply) => ReplyLocal(sh, req, reply)
    case XRelease(r) => ReleaseLocal(sh, req.orderId, r)
    case _ => req.orderId in sh.d.orders
  }

  ghost predicate WebhookLocal(sh: Shared, req: Request, w: WebhookPc)
    requires req.Webhook?
  {
    match w
    case WSeen => true
    case WUnlock(reply) => ReplyLocal(sh, req, reply)
    case WLookup => req.event !in sh.d.processed
    case WMark => req.event !in sh.d.processed && req.event in sh.d.effects
    case WRelease(r) => req.event !in sh.d.processed && ReleaseLocal(sh, req.orderId, r)
    case WChargeId(number) => req.event !in sh.d.processed && req.orderId in sh.d.orders && ChargedAs(sh, req.orderId, number)
    case _ => req.event !in sh.d.processed && req.orderId in sh.d.orders
  }

  ghost predicate LockOf(sh: Shared, req: Request, lk: nat) {
    Admitted(req) && IdentityOf(req) in sh.k.table && sh.k.table[IdentityOf(req)] == lk
  }

  ghost predicate Local(sh: Shared, req: Request, pc: Pc) {
    match pc
    case Start => true
    case TableAcquire => Admitted(req)
    case TableGet => Admitted(req)
    case TableUnlock(lk) => LockOf(sh, req, lk)
    case KeyAcquire(lk) => LockOf(sh, req, lk)
    case Keyed(lk, k) => LockOf(sh, req, lk) && KeyedLocal(sh, req, k)
    case StateAcquire => !req.Create? && (req.Cancel? ==> req.auth.Some?)
    case X(x) => req.Cancel? && req.auth.Some? && CancelLocal(sh, req, x)
    case W(w) => req.Webhook? && WebhookLocal(sh, req, w)
    case S(_) => req.Snapshot?
    case Done(reply) => ReplyLocal(sh, req, reply)
  }

  ghost predicate Locals(s: Sys) {
    forall t :: t in s.threads ==> Local(s.sh, s.threads[t].req, s.threads[t].pc)
  }

  // ----- Facts about the shared state alone ---------------------------------

  ghost predicate OrderOk(sh: Shared, oid: OrderId, o: Order) {
    && o.id == oid && oid in sh.issued
    && o.total == sh.d.price * o.quantity
    && o == NewOrder(oid, o.owner, sh.d.price, o.fingerprint).(
              chargeId := o.chargeId, status := o.status, released := o.released, failureStatus := o.failureStatus)
    && (o.failureStatus.Some? ==> o.failureStatus.value == 402)
    && (o.chargeId.Some? ==> ChargedAs(sh, oid, o.chargeId.value))
  }

  ghost predicate ChargeOk(sh: Shared, key: PaymentKey, c: Charge) {
    && key.order in sh.d.orders
    && c.amount == sh.d.orders[key.order].total
    && sh.d.orders[key.order].token != Decline
    && 1 <= c.number <= |sh.d.charges|
  }

  ghost predicate TablesOk(sh: Shared) {
    && (forall i :: i in sh.d.idempotency ==>
          && sh.d.idempotency[i] in sh.d.orders
          && sh.d.orders[sh.d.idempotency[i]].owner == i.user)
    && (forall i, j :: i in sh.d.idempotency && j in sh.d.idempotency && sh.d.idempotency[i] == sh.d.idempotency[j] ==> i == j)
    && (forall i :: i in sh.k.table ==> sh.k.table[i] < sh.k.next)
    && (forall i, j :: i in sh.k.table && j in sh.k.table && sh.k.table[i] == sh.k.table[j] ==> i == j)
  }

  ghost predicate OrdersOk(sh: Shared) {
    forall oid :: oid in sh.d.orders ==> OrderOk(sh, oid, sh.d.orders[oid])
  }

  ghost predicate LedgerOk(sh: Shared) {
    && (forall key :: key in sh.d.charges ==> ChargeOk(sh, key, sh.d.charges[key]))
    && (forall a, b ::
          a in sh.d.charges && b in sh.d.charges && sh.d.charges[a].number == sh.d.charges[b].number ==> a == b)
    && sh.d.timeoutKeys <= sh.d.charges.Keys
  }

  ghost predicate EventsOk(sh: Shared) {
    && sh.d.processed <= sh.d.effects.Keys
    && forall e :: e in sh.d.effects ==> sh.d.effects[e] == 1
  }

  ghost predicate SharedOk(sh: Shared) {
    TablesOk(sh) && OrdersOk(sh) && LedgerOk(sh) && EventsOk(sh)
  }

  // ----- Facts that relate several requests ---------------------------------

  /** The order a request has drawn an id for but not yet entered under its identity. */
  function Draft(pc: Pc): Option<OrderId> {
    match pc
    case Keyed(_, k) =>
      (match k
       case KPublish(o) => Some(o.id)
       case KRecord(oid) => Some(oid)
       case _ => None)
    case _ => None
  }

  /** The answer a request is about to give, or has given. */
  function Answer(pc: Pc): Option<Reply> {
    match pc
    case Keyed(_, k) => if k.KUnlock? then Some(k.reply) else None
    case X(x) => if x.XUnlock? then Some(x.reply) else None
    case W(w) => if w.WUnlock? then Some(w.reply) else None
    case Done(reply) => Some(reply)
    case _ => None
  }

  /** The order a request is answering 504 about. */
  function TimedOutOn(pc: Pc): Option<OrderId> {
    if pc.Keyed? && pc.k.KCharge? && pc.k.p == PUnlock(TimedOut) then Some(pc.k.oid)
    else if Answer(pc).Some? && Answer(pc).value.code == Some(504) then Answer(pc).value.about
    else None
  }

  ghost predicate DraftsDistinct(s: Sys) {
    forall t, u :: t in s.threads && u in s.threads && t != u && Draft(s.threads[t].pc).Some?
      ==> Draft(s.threads[t].pc) != Draft(s.threads[u].pc)
  }

  ghost predicate TimeoutsDistinct(s: Sys) {
    forall t, u :: t in s.threads && u in s.threads && t != u && TimedOutOn(s.threads[t].pc).Some?
      ==> TimedOutOn(s.threads[t].pc) != TimedOutOn(s.threads[u].pc)
  }

  predicate Recording(pc: Pc, oid: OrderId) { pc.Keyed? && pc.k == KRecord(oid) }

  predicate Marking(th: Thread, e: EventId) { th.pc == W(WMark) && th.req.Webhook? && th.req.event == e }

  /** Every published order is entered under some identity, or is about to be by its creator. */
  ghost predicate OrdersEntered(s: Sys) {
    forall oid :: oid in s.sh.d.orders ==>
      || (exists i :: i in s.sh.d.idempotency && s.sh.d.idempotency[i] == oid)
      || (exists t :: t in s.threads && Recording(s.threads[t].pc, oid))
  }

  /** Every counted effect belongs to a processed event, or to one about to be marked. */
  ghost predicate EffectsMarked(s: Sys) {
    forall e :: e in s.sh.d.effects && e !in s.sh.d.processed ==>
      exists t :: t in s.threads && Marking(s.threads[t], e)
  }

  ghost predicate Inv(s: Sys) {
    && LocksAgree(s) && Locals(s) && SharedOk(s.sh)
    && DraftsDistinct(s) && TimeoutsDistinct(s) && OrdersEntered(s) && EffectsMarked(s)
  }

  // ----- What one step does -------------------------------------------------

  /** The step moved exactly the locks its two program points say. */
  ghost predicate LockEffect(k: Locks, k': Locks, me: nat, pc: Pc, pc': Pc) {
    forall l ::
      if Has(pc', l) then l in k'.held && k'.held[l] == Hold(me, 1) && (Has(pc, l) || l !in k.held)
      else if Has(pc, l) then l !in k'.held
      else (l in k'.held <==> l in k.held) && (l in k.held ==> k'.held[l] == k.held[l])
  }

  ghost predicate SameTerms(o: Order, o': Order) {
    o' == o.(chargeId := o'.chargeId, status := o'.status, released := o'.released, failureStatus := o'.failureStatus)
  }

  /** What others may rely on about a step taken at `pc`. */
  ghost predicate Guarantee(sh: Shared, sh': Shared, req: Request, pc: Pc) {
    && sh'.d.price == sh.d.price
    && (sh'.d.stock != sh.d.stock ==> Has(pc, InventoryLock))
    && (forall oid :: oid in sh.d.orders ==>
          && oid in sh'.d.orders
          && SameTerms(sh.d.orders[oid], sh'.d.orders[oid])
          && (sh'.d.orders[oid].released != sh.d.orders[oid].released ==>
                Has(pc, InventoryLock) && sh'.d.orders[oid].released))
    && (forall oid :: oid in sh'.d.orders && oid !in sh.d.orders ==>
          pc.Keyed? && pc.k.KPublish? && pc.k.order.id == oid && sh'.d.orders[oid] == pc.k.order)
    && (forall i :: i in sh.d.idempotency ==> i in sh'.d.idempotency && sh'.d.idempotency[i] == sh.d.idempotency[i])
    && (forall i :: i in sh'.d.idempotency && i !in sh.d.idempotency ==>
          Admitted(req) && pc.Keyed? && pc.k == KRecord(sh'.d.idempotency[i]) && i == IdentityOf(req))
    && (forall key :: key in sh.d.charges ==> key in sh'.d.charges && sh'.d.charges[key] == sh.d.charges[key])
    && sh.d.timeoutKeys <= sh'.d.timeoutKeys
    && (sh'.d.charges != sh.d.charges || sh'.d.timeoutKeys != sh.d.timeoutKeys ==> Has(pc, PaymentLock))
    && sh.d.processed <= sh'.d.processed
    && sh.d.effects.Keys <= sh'.d.effects.Keys
    && (sh'.d.processed != sh.d.processed || sh'.d.effects != sh.d.effects ==> Has(pc, StateLock))
    && sh.issued <= sh'.issued
    && (forall i :: i in sh.k.table ==> i in sh'.k.table && sh'.k.table[i] == sh.k.table[i])
    && sh.k.next <= sh'.k.next
  }
}

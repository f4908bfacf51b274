/** The FlashCart checkout as a step machine: every lock acquire or release and
    every read or write of shared state is one step of one request, and the
    steps of any number of requests interleave freely. */
module FlashModel {
  import opened Prelude

  // ----- Data ---------------------------------------------------------------

  datatype User = BuyerA | BuyerB | Admin
  datatype OrderId = OrderId(token: nat)
  datatype EventId = EventId(token: nat)
  datatype Identity = Identity(user: User, key: string)

  /** The payment operation key "checkout:<order id>", one per order. */
  datatype PaymentKey = Checkout(order: OrderId)

  datatype Token = Decline | TimeoutOnce | Other(text: string)

  type Quantity = q: int | 0 < q <= 5 witness 1

  /** A validated order request; all four fields make up its fingerprint. */
  datatype Payload = Payload(productId: int, quantity: Quantity, quotedTotal: Option<int>, token: Token)

  datatype Status = Pending | Failed | Paid | Cancelled

  datatype Order = Order(
    id: OrderId, owner: User, productId: int, quantity: Quantity, total: int,
    chargeId: Option<nat>, status: Status, fingerprint: Payload, token: Token,
    released: bool, failureStatus: Option<int>)

  datatype Charge = Charge(number: nat, amount: int)

  /** The store's tables; everything a request can read or write besides locks. */
  datatype Data = Data(
    stock: int, price: nat,
    orders: map<OrderId, Order>,
    idempotency: map<Identity, OrderId>,
    processed: set<EventId>, effects: map<EventId, nat>,
    charges: map<PaymentKey, Charge>, timeoutKeys: set<PaymentKey>)

  // ----- Locks --------------------------------------------------------------

  datatype Lock = StateLock | InventoryLock | PaymentLock | KeyLock(lk: nat)

  /** A re-entrant lock that is held: by whom, and how many times over. */
  datatype Hold = Hold(owner: nat, depth: nat)

  /** The held locks, the table of per-identity locks, and the next unused lock object. */
  datatype Locks = Locks(held: map<Lock, Hold>, table: map<Identity, nat>, next: nat)

  datatype Shared = Shared(d: Data, k: Locks, issued: set<OrderId>)

  function Acquire(k: Locks, lock: Lock, me: nat): Option<Locks> {
    if lock !in k.held then Some(k.(held := k.held[lock := Hold(me, 1)]))
    else if k.held[lock].owner == me
    then Some(k.(held := k.held[lock := Hold(me, k.held[lock].depth + 1)]))
    else None
  }

  function Release(k: Locks, lock: Lock, me: nat): Option<Locks> {
    if lock !in k.held || k.held[lock].owner != me then None
    else if k.held[lock].depth > 1
    then Some(k.(held := k.held[lock := Hold(me, k.held[lock].depth - 1)]))
    else Some(k.(held := k.held - {lock}))
  }

  // ----- Requests and program counters --------------------------------------

  /** `auth` is the user the bearer header names, if it names one. */
  datatype Request =
    | Create(auth: Option<User>, key: Option<string>, payload: Payload)
    | Cancel(auth: Option<User>, orderId: OrderId)
    | Webhook(signed: bool, event: EventId, succeeded: bool, orderId: OrderId)
    | Snapshot

  /** The status code sent back, and the order the handler was working on. */
  datatype Reply = Reply(code: Option<int>, about: Option<OrderId>)

  datatype ReservePc = VAcquire | VCheck | VLoad | VStore(seen: int) | VUnlock(ok: bool)
  datatype ReleasePc = RAcquire | RCheck | RLoad | RStore(seen: int) | RFlag | RUnlock
  datatype ChargeResult = Charged(number: nat) | Declined | TimedOut
  datatype ChargePc =
    | PAcquire | PLookup | PNumber | PStore(number: nat) | PDecide(number: nat) | PMark
    | PUnlock(result: ChargeResult)

  /** Program points of order creation that run under the identity's lock. */
  datatype KeyedPc =
    | KLookup
    | KFingerprint(oid: OrderId) | KReplayFailed(oid: OrderId)
    | KReplayCode(oid: OrderId) | KReplayPending(oid: OrderId)
    | KReserve(v: ReservePc)
    | KBuild | KPublish(order: Order) | KRecord(oid: OrderId)
    | KCharge(oid: OrderId, p: ChargePc)
    | KChargeId(oid: OrderId, number: nat) | KPaid(oid: OrderId)
    | KFail(oid: OrderId) | KFailCode(oid: OrderId) | KRelease(oid: OrderId, r: ReleasePc)
    | KUnlock(reply: Reply)

  datatype CancelPc = XLookup | XCancelled | XPaid | XWrite | XRelease(r: ReleasePc) | XUnlock(reply: Reply)

  datatype WebhookPc =
    | WSeen | WLookup | WStatus | WPaid | WCharge | WChargeId(number: nat)
    | WFail | WFailCode | WRelease(r: ReleasePc) | WEffect | WMark | WUnlock(reply: Reply)

  datatype SnapshotPc = SInventory | SPayment | SRead | SFreePayment | SFreeInventory | SUnlock

  /** X, W and S are the points of cancel, webhook and snapshot under the state lock. */
  datatype Pc =
    | Start
    | TableAcquire | TableGet | TableUnlock(lk: nat)
    | KeyAcquire(lk: nat) | Keyed(lk: nat, k: KeyedPc)
    | StateAcquire
    | X(x: CancelPc) | W(w: WebhookPc) | S(s: SnapshotPc)
    | Done(reply: Reply)

  datatype Thread = Thread(req: Request, pc: Pc)

  /** The shared state and every request that ever arrived. */
  datatype Sys = Sys(sh: Shared, threads: map<nat, Thread>)

  // ----- Steps --------------------------------------------------------------

  /** Blocked: the step cannot be taken now. Otherwise the new shared state and what follows. */
  datatype Move<T> = Blocked | Move(sh: Shared, next: T)

  function Locking<T>(sh: Shared, k: Option<Locks>, next: T): Move<T> {
    if k.None? then Blocked else Move(sh.(k := k.value), next)
  }

  function Put(sh: Shared, o: Order): Shared {
    sh.(d := sh.d.(orders := sh.d.orders[o.id := o]))
  }

  /** Inventory reservation; None as the next point means the function returned `true`. */
  function ReserveStep(sh: Shared, me: nat, quantity: Quantity, v: ReservePc): Move<ReservePc>
    requires !v.VUnlock?
  {
    match v
    case VAcquire => Locking(sh, Acquire(sh.k, InventoryLock, me), VCheck)
    case VCheck => Move(sh, if sh.d.stock < quantity then VUnlock(false) else VLoad)
    case VLoad => Move(sh, VStore(sh.d.stock))
    case VStore(seen) => Move(sh.(d := sh.d.(stock := seen - quantity)), VUnlock(true))
  }

  /** One-time release of an order's stock, up to giving the lock back. */
  function ReleaseStep(sh: Shared, me: nat, oid: OrderId, r: ReleasePc): Move<ReleasePc>
    requires !r.RUnlock?
  {
    if oid !in sh.d.orders then Blocked else
    var o := sh.d.orders[oid];
    match r
    case RAcquire => Locking(sh, Acquire(sh.k, InventoryLock, me), RCheck)
    case RCheck => Move(sh, if o.released then RUnlock else RLoad)
    case RLoad => Move(sh, RStore(sh.d.stock))
    case RStore(seen) => Move(sh.(d := sh.d.(stock := seen + o.quantity)), RFlag)
    case RFlag => Move(Put(sh, o.(released := true)), RUnlock)
  }

  /** The payment stub's charge, up to giving the lock back. */
  function ChargeStep(sh: Shared, me: nat, oid: OrderId, p: ChargePc): Move<ChargePc>
    requires !p.PUnlock?
  {
    if oid !in sh.d.orders then Blocked else
    var o := sh.d.orders[oid];
    var key := Checkout(o.id);
    match p
    case PAcquire => Locking(sh, Acquire(sh.k, PaymentLock, me), PLookup)
    case PLookup =>
      Move(sh, if key in sh.d.charges then PUnlock(Charged(sh.d.charges[key].number))
               else if o.token == Decline then PUnlock(Declined) else PNumber)
    case PNumber => Move(sh, PStore(|sh.d.charges| + 1))
    case PStore(number) =>
      Move(sh.(d := sh.d.(charges := sh.d.charges[key := Charge(number, o.total)])), PDecide(number))
    case PDecide(number) =>
      Move(sh, if o.token == TimeoutOnce && key !in sh.d.timeoutKeys then PMark else PUnlock(Charged(number)))
    case PMark =>
      Move(sh.(d := sh.d.(timeoutKeys := sh.d.timeoutKeys + {key})), PUnlock(TimedOut))
  }

  function NewOrder(id: OrderId, user: User, price: nat, p: Payload): Order {
    Order(id, user, p.productId, p.quantity, price * p.quantity, None, Pending, p, p.token, false, None)
  }

  /** Order creation under the identity's lock. `drawn` is the id uuid4 would give now. */
  function KeyedStep(sh: Shared, me: nat, req: Request, lk: nat, k: KeyedPc, drawn: OrderId): Move<Pc>
    requires req.Create? && req.auth.Some? && req.key.Some?
  {
    var identity := Identity(req.auth.value, req.key.value);
    var p := req.payload;
    match k
    case KLookup =>
      Move(sh, Keyed(lk,
        if identity in sh.d.idempotency then KFingerprint(sh.d.idempotency[identity])
        else if p.productId != 1 then KUnlock(Reply(Some(404), None))
        else KReserve(VAcquire)))
    case KFingerprint(oid) =>
      if oid !in sh.d.orders then Blocked else
      Move(sh, Keyed(lk,
        if sh.d.orders[oid].fingerprint != p then KUnlock(Reply(Some(409), Some(oid))) else KReplayFailed(oid)))
    case KReplayFailed(oid) =>
      if oid !in sh.d.orders then Blocked else
      Move(sh, Keyed(lk, if sh.d.orders[oid].status == Failed then KReplayCode(oid) else KReplayPending(oid)))
    case KReplayCode(oid) =>
      if oid !in sh.d.orders then Blocked else
      Move(sh, Keyed(lk, KUnlock(Reply(sh.d.orders[oid].failureStatus, Some(oid)))))
    case KReplayPending(oid) =>
      if oid !in sh.d.orders then Blocked else
      Move(sh, Keyed(lk,
        if sh.d.orders[oid].status != Pending then KUnlock(Reply(Some(201), Some(oid))) else KCharge(oid, PAcquire)))
    case KReserve(v) =>
      if v.VUnlock? then
        Locking(sh, Release(sh.k, InventoryLock, me),
          Keyed(lk, if v.ok then KBuild else KUnlock(Reply(Some(409), None))))
      else
        (match ReserveStep(sh, me, p.quantity, v)
         case Blocked => Blocked
         case Move(sh', v') => Move(sh', Keyed(lk, KReserve(v'))))
    case KBuild =>
      Move(sh.(issued := sh.issued + {drawn}),
           Keyed(lk, KPublish(NewOrder(drawn, req.auth.value, sh.d.price, p))))
    case KPublish(order) => Move(Put(sh, order), Keyed(lk, KRecord(order.id)))
    case KRecord(oid) =>
      Move(sh.(d := sh.d.(idempotency := sh.d.idempotency[identity := oid])), Keyed(lk, KCharge(oid, PAcquire)))
    case KCharge(oid, c) =>
      if c.PUnlock? then
        Locking(sh, Release(sh.k, PaymentLock, me),
          Keyed(lk, match c.result
                        case Charged(number) => KChargeId(oid, number)
                        case Declined => KFail(oid)
                        case TimedOut => KUnlock(Reply(Some(504), Some(oid)))))
      else
        (match ChargeStep(sh, me, oid, c)
         case Blocked => Blocked
         case Move(sh', c') => Move(sh', Keyed(lk, KCharge(oid, c'))))
    case KChargeId(oid, number) =>
      if oid !in sh.d.orders then Blocked else
      Move(Put(sh, sh.d.orders[oid].(chargeId := Some(number))), Keyed(lk, KPaid(oid)))
    case KPaid(oid) =>
      if oid !in sh.d.orders then Blocked else
      Move(Put(sh, sh.d.orders[oid].(status := Paid)), Keyed(lk, KUnlock(Reply(Some(201), Some(oid)))))
    case KFail(oid) =>
      if oid !in sh.d.orders then Blocked else
      Move(Put(sh, sh.d.orders[oid].(status := Failed)), Keyed(lk, KFailCode(oid)))
    case KFailCode(oid) =>
      if oid !in sh.d.orders then Blocked else
      Move(Put(sh, sh.d.orders[oid].(failureStatus := Some(402))), Keyed(lk, KRelease(oid, RAcquire)))
    case KRelease(oid, r) =>
      if r.RUnlock? then
        Locking(sh, Release(sh.k, InventoryLock, me), Keyed(lk, KUnlock(Reply(Some(402), Some(oid)))))
      else
        (match ReleaseStep(sh, me, oid, r)
         case Blocked => Blocked
         case Move(sh', r') => Move(sh', Keyed(lk, KRelease(oid, r'))))
    case KUnlock(reply) => Locking(sh, Release(sh.k, KeyLock(lk), me), Done(reply))
  }

  function CancelStep(sh: Shared, me: nat, req: Request, x: CancelPc): Move<Pc>
    requires req.Cancel? && req.auth.Some?
  {
    var oid := req.orderId;
    if oid !in sh.d.orders then
      (match x
       case XLookup => Move(sh, X(XUnlock(Reply(Some(404), None))))
       case XUnlock(reply) => Locking(sh, Release(sh.k, StateLock, me), Done(reply))
       case _ => Blocked)
    else
    var o := sh.d.orders[oid];
    match x
    case XLookup =>
      Move(sh, X(if req.auth.value != Admin && o.owner != req.auth.value
                 then XUnlock(Reply(Some(403), Some(oid))) else XCancelled))
    case XCancelled => Move(sh, X(if o.status == Cancelled then XUnlock(Reply(Some(200), Some(oid))) else XPaid))
    case XPaid => Move(sh, X(if o.status != Paid then XUnlock(Reply(Some(409), Some(oid))) else XWrite))
    case XWrite => Move(Put(sh, o.(status := Cancelled)), X(XRelease(RAcquire)))
    case XRelease(r) =>
      if r.RUnlock? then
        Locking(sh, Release(sh.k, InventoryLock, me), X(XUnlock(Reply(Some(200), Some(oid)))))
      else
        (match ReleaseStep(sh, me, oid, r)
         case Blocked => Blocked
         case Move(sh', r') => Move(sh', X(XRelease(r'))))
    case XUnlock(reply) => Locking(sh, Release(sh.k, StateLock, me), Done(reply))
  }

  function WebhookStep(sh: Shared, me: nat, req: Request, w: WebhookPc): Move<Pc>
    requires req.Webhook?
  {
    var oid := req.orderId;
    match w
    case WSeen =>
      Move(sh, W(if req.event in sh.d.processed then WUnlock(Reply(Some(200), None)) else WLookup))
    case WLookup => Move(sh, W(if oid !in sh.d.orders then WUnlock(Reply(Some(404), None)) else WStatus))
    case WStatus =>
      if oid !in sh.d.orders then Blocked else
      Move(sh, W(if sh.d.orders[oid].status != Pending then WEffect else if req.succeeded then WPaid else WFail))
    case WPaid =>
      if oid !in sh.d.orders then Blocked else
      Move(Put(sh, sh.d.orders[oid].(status := Paid)), W(WCharge))
    case WCharge =>
      if oid !in sh.d.orders then Blocked else
      var key := Checkout(sh.d.orders[oid].id);
      Move(sh, W(if key in sh.d.charges then WChargeId(sh.d.charges[key].number) else WEffect))
    case WChargeId(number) =>
      if oid !in sh.d.orders then Blocked else
      Move(Put(sh, sh.d.orders[oid].(chargeId := Some(number))), W(WEffect))
    case WFail =>
      if oid !in sh.d.orders then Blocked else
      Move(Put(sh, sh.d.orders[oid].(status := Failed)), W(WFailCode))
    case WFailCode =>
      if oid !in sh.d.orders then Blocked else
      Move(Put(sh, sh.d.orders[oid].(failureStatus := Some(402))), W(WRelease(RAcquire)))
    case WRelease(r) =>
      if r.RUnlock? then
        Locking(sh, Release(sh.k, InventoryLock, me), W(WEffect))
      else
        (match ReleaseStep(sh, me, oid, r)
         case Blocked => Blocked
         case Move(sh', r') => Move(sh', W(WRelease(r'))))
    case WEffect =>
      var before := if req.event in sh.d.effects then sh.d.effects[req.event] else 0;
      Move(sh.(d := sh.d.(effects := sh.d.effects[req.event := before + 1])), W(WMark))
    case WMark =>
      Move(sh.(d := sh.d.(processed := sh.d.processed + {req.event})), W(WUnlock(Reply(Some(200), Some(oid)))))
    case WUnlock(reply) => Locking(sh, Release(sh.k, StateLock, me), Done(reply))
  }

  /** The evaluator's snapshot: the three locks in order, a read, and back out. */
  function SnapshotStep(sh: Shared, me: nat, s: SnapshotPc): Move<Pc> {
    match s
    case SInventory => Locking(sh, Acquire(sh.k, InventoryLock, me), S(SPayment))
    case SPayment => Locking(sh, Acquire(sh.k, PaymentLock, me), S(SRead))
    case SRead => Move(sh, S(SFreePayment))
    case SFreePayment => Locking(sh, Release(sh.k, PaymentLock, me), S(SFreeInventory))
    case SFreeInventory => Locking(sh, Release(sh.k, InventoryLock, me), S(SUnlock))
    case SUnlock => Locking(sh, Release(sh.k, StateLock, me), Done(Reply(Some(200), None)))
  }

  /** Header and signature checks, before any lock is touched. */
  function Admit(req: Request): Pc {
    match req
    case Create(auth, key, _) =>
      if auth.None? then Done(Reply(Some(401), None))
      else if key.None? || key.value == "" then Done(Reply(Some(400), None))
      else TableAcquire
    case Cancel(auth, _) => if auth.None? then Done(Reply(Some(401), None)) else StateAcquire
    case Webhook(signed, _, _, _) => if !signed then Done(Reply(Some(401), None)) else StateAcquire
    case Snapshot => StateAcquire
  }

  /** Fetches the identity's lock, storing the new one if the table has none. */
  function TableGetStep(sh: Shared, identity: Identity): Move<Pc> {
    var mine := sh.k.next;
    var k := sh.k.(next := mine + 1);
    if identity in k.table then Move(sh.(k := k), TableUnlock(k.table[identity]))
    else Move(sh.(k := k.(table := k.table[identity := mine])), TableUnlock(mine))
  }

  function Step(sh: Shared, me: nat, req: Request, pc: Pc, drawn: OrderId): Move<Pc> {
    match pc
    case Start => Move(sh, Admit(req))
    case TableAcquire => Locking(sh, Acquire(sh.k, StateLock, me), TableGet)
    case TableGet =>
      if !(req.Create? && req.auth.Some? && req.key.Some?) then Blocked
      else TableGetStep(sh, Identity(req.auth.value, req.key.value))
    case TableUnlock(lk) => Locking(sh, Release(sh.k, StateLock, me), KeyAcquire(lk))
    case KeyAcquire(lk) => Locking(sh, Acquire(sh.k, KeyLock(lk), me), Keyed(lk, KLookup))
    case Keyed(lk, k) =>
      if !(req.Create? && req.auth.Some? && req.key.Some?) then Blocked
      else KeyedStep(sh, me, req, lk, k, drawn)
    case StateAcquire =>
      Locking(sh, Acquire(sh.k, StateLock, me),
        if req.Cancel? then X(XLookup) else if req.Webhook? then W(WSeen) else S(SInventory))
    case X(x) => if !(req.Cancel? && req.auth.Some?) then Blocked else CancelStep(sh, me, req, x)
    case W(w) => if !req.Webhook? then Blocked else WebhookStep(sh, me, req, w)
    case S(s) => SnapshotStep(sh, me, s)
    case Done(_) => Blocked
  }

  // ----- Runs ---------------------------------------------------------------

  function Init(stock: nat, price: nat): Sys {
    Sys(Shared(Data(stock, price, map[], map[], {}, map[], map[], {}), Locks(map[], map[], 0), {}), map[])
  }

  /** Request `t` takes one step; an order id drawn in it was never drawn before. */
  ghost predicate Takes(s: Sys, t: nat, drawn: OrderId, s': Sys) {
    && t in s.threads
    && drawn !in s.sh.issued
    && var m := Step(s.sh, t, s.threads[t].req, s.threads[t].pc, drawn);
       m.Move? && s' == Sys(m.sh, s.threads[t := s.threads[t].(pc := m.next)])
  }

  /** A new request arrives. */
  ghost predicate Arrives(s: Sys, t: nat, req: Request, s': Sys) {
    t !in s.threads && s' == s.(threads := s.threads[t := Thread(req, Start)])
  }

  ghost predicate Advances(s: Sys, s': Sys) { exists t, drawn :: Takes(s, t, drawn, s') }

  ghost predicate Next(s: Sys, s': Sys) {
    || Advances(s, s')
    || (exists t, req :: Arrives(s, t, req, s'))
  }

  /** Some request can take a step. */
  ghost predicate CanAdvance(s: Sys) { exists s' :: Advances(s, s') }

  /** An interleaved run, from the empty store. */
  ghost predicate Run(run: seq<Sys>, stock: nat, price: nat) {
    && |run| > 0
    && run[0] == Init(stock, price)
    && forall i :: 0 <= i < |run| - 1 ==> Next(run[i], run[i + 1])
  }
}

/** The checkout's promises, over every interleaved run. */
module FlashTheorems {
  import opened Prelude
  import opened FlashModel
  import opened FlashInvariant
  import opened FlashSteps
  import opened FlashRuns
  import opened FlashStock
  import opened FlashCoherence

  // ----- Stock stays between zero and the initial stock ---------------------------

  lemma KeyedNonNegative(sh: Shared, me: nat, req: Request, lk: nat, k: KeyedPc, drawn: OrderId)
    requires Admitted(req) && KeyedLocal(sh, req, k) && sh.d.stock >= 0
    requires KeyedStep(sh, me, req, lk, k, drawn).Move?
    ensures KeyedStep(sh, me, req, lk, k, drawn).sh.d.stock >= 0
  {
  }

  lemma StepNonNegative(sh: Shared, me: nat, req: Request, pc: Pc, drawn: OrderId)
    requires Local(sh, req, pc) && sh.d.stock >= 0
    requires Step(sh, me, req, pc, drawn).Move?
    ensures Step(sh, me, req, pc, drawn).sh.d.stock >= 0
  {
    match pc
    case Keyed(lk, k) => KeyedNonNegative(sh, me, req, lk, k, drawn);
    case _ =>
  }

  lemma {:induction false} StockNonNegative(run: seq<Sys>, stock: nat, price: nat, i: nat)
    requires Run(run, stock, price) && i < |run|
    ensures run[i].sh.d.stock >= 0
  {
    hide Inv, Step, Local;
    if i > 0 {
      StockNonNegative(run, stock, price, i - 1);
      RunInvariant(run, stock, price, i - 1);
      var s, s' := run[i - 1], run[i - 1 + 1];
      assert Next(s, s');
      if Advances(s, s') {
        var t, drawn :| Takes(s, t, drawn, s');
        LocalOf(s, t);
        StepNonNegative(s.sh, t, s.threads[t].req, s.threads[t].pc, drawn);
      }
    }
  }

  /** The flagged order still counts as holding its stock. */
  lemma FlaggedHeld(s: Sys)
    requires Inv(s)
    ensures Flagged(s) <= Total(s.sh.d.orders, OrderHeld)
  {
    hide Step, SharedOk, Local;
    TotalNonNegative(s.sh.d.orders, OrderHeld);
    if InventoryLock in s.sh.k.held {
      var t := s.sh.k.held[InventoryLock].owner;
      assert Local(s.sh, s.threads[t].req, s.threads[t].pc);
      FlagKnown(s.sh, s.threads[t]);
      var f := FlagOrder(s.threads[t]);
      if f.Some? {
        TotalSplit(s.sh.d.orders, OrderHeld, f.value);
        TotalNonNegative(s.sh.d.orders - {f.value}, OrderHeld);
      }
    }
  }

  lemma StockBounds(run: seq<Sys>, stock: nat, price: nat, i: nat)
    requires Run(run, stock, price) && i < |run|
    ensures 0 <= run[i].sh.d.stock <= stock
  {
    hide Inv, Flagged;
    StockNonNegative(run, stock, price, i);
    Conservation(run, stock, price, i);
    RunInvariant(run, stock, price, i);
    FlaggedHeld(run[i]);
    TotalNonNegative(run[i].threads, Reserved);
  }

  ghost predicate Quiescent(s: Sys) {
    forall t :: t in s.threads ==> s.threads[t].pc.Done?
  }

  /** Once every request is answered, the shelf and the unreleased orders hold it all. */
  lemma QuietConservation(run: seq<Sys>, stock: nat, price: nat, i: nat)
    requires Run(run, stock, price) && i < |run| && Quiescent(run[i])
    ensures run[i].sh.d.stock + Total(run[i].sh.d.orders, OrderHeld) == stock
  {
    hide Run, Inv, Flagged, Quiescent;
    Conservation(run, stock, price, i);
    RunInvariant(run, stock, price, i);
    QuietStock(run[i]);
  }

  lemma QuietStock(s: Sys)
    requires Inv(s) && Quiescent(s)
    ensures Flagged(s) == 0 && Total(s.threads, Reserved) == 0
  {
    hide Total;
    LocksOf(s);
    hide Inv;
    TotalZero(s.threads, Reserved);
  }

  // ----- What is entered stays -------------------------------------------------------

  /** What later states keep of earlier ones. */
  ghost predicate Persists(sh: Shared, sh': Shared) {
    && (forall i :: i in sh.d.idempotency ==> i in sh'.d.idempotency && sh'.d.idempotency[i] == sh.d.idempotency[i])
    && (forall oid :: oid in sh.d.orders ==> oid in sh'.d.orders && SameTerms(sh.d.orders[oid], sh'.d.orders[oid])
                                             && (sh.d.orders[oid].released ==> sh'.d.orders[oid].released))
    && (forall key :: key in sh.d.charges ==> key in sh'.d.charges && sh'.d.charges[key] == sh.d.charges[key])
    && sh.d.timeoutKeys <= sh'.d.timeoutKeys
    && sh.d.processed <= sh'.d.processed
  }

  lemma PersistsNext(s: Sys, s': Sys)
    requires Inv(s) && Next(s, s')
    ensures Persists(s.sh, s'.sh)
  {
    hide Inv, Step, Local;
    if Advances(s, s') {
      var t, drawn :| Takes(s, t, drawn, s');
      LocalOf(s, t);
      StepGuarantee(s.sh, t, s.threads[t].req, s.threads[t].pc, drawn);
    }
  }

  /** An identity keeps its order, an order its terms, and a charge its record, for good. */
  lemma {:induction false} Persistence(run: seq<Sys>, stock: nat, price: nat, i: nat, j: nat)
    requires Run(run, stock, price) && i <= j < |run|
    ensures Persists(run[i].sh, run[j].sh)
  {
    hide Inv, Next;
    if i < j {
      Persistence(run, stock, price, i, j - 1);
      RunInvariant(run, stock, price, j - 1);
      PersistsNext(run[j - 1], run[j - 1 + 1]);
    }
  }

  // ----- One order per identity ------------------------------------------------------

  /** The growing lock table excludes: two creations under their identity locks at the same time
      hold the same lock object exactly when they have the same identity, and then they are one. */
  lemma IdentityExclusion(run: seq<Sys>, stock: nat, price: nat, i: nat, t: nat, u: nat)
    requires Run(run, stock, price) && i < |run| && t in run[i].threads && u in run[i].threads
    requires run[i].threads[t].pc.Keyed? && run[i].threads[u].pc.Keyed?
    ensures var a, b := run[i].threads[t], run[i].threads[u];
            && Admitted(a.req) && Admitted(b.req)
            && (IdentityOf(a.req) == IdentityOf(b.req) <==> a.pc.lk == b.pc.lk)
            && (IdentityOf(a.req) == IdentityOf(b.req) ==> t == u)
  {
    hide Inv, Step;
    var a, b := run[i].threads[t], run[i].threads[u];
    RunInvariant(run, stock, price, i);
    LocalOf(run[i], t);
    LocalOf(run[i], u);
    assert Has(a.pc, KeyLock(a.pc.lk)) && Has(b.pc, KeyLock(b.pc.lk));
    if t != u && a.pc.lk == b.pc.lk { MutualExclusion(run[i], t, u, KeyLock(a.pc.lk)); }
  }

  /** Creations that name an order name the same one exactly when they have the same identity. */
  lemma SameIdentitySameOrder(run: seq<Sys>, stock: nat, price: nat, i: nat, t: nat, u: nat)
    requires Run(run, stock, price) && i < |run| && t in run[i].threads && u in run[i].threads
    requires var a, b := run[i].threads[t], run[i].threads[u];
             && a.req.Create? && Answer(a.pc).Some? && Answer(a.pc).value.about.Some?
             && b.req.Create? && Answer(b.pc).Some? && Answer(b.pc).value.about.Some?
    ensures var a, b := run[i].threads[t], run[i].threads[u];
            && Admitted(a.req) && Admitted(b.req)
            && (IdentityOf(a.req) == IdentityOf(b.req) <==> Answer(a.pc).value.about == Answer(b.pc).value.about)
            && Answer(a.pc).value.about.value in run[i].sh.d.orders
            && run[i].sh.d.orders[Answer(a.pc).value.about.value].owner == a.req.auth.value
  {
    hide Inv, Local;
    RunInvariant(run, stock, price, i);
    LocalOf(run[i], t);
    LocalOf(run[i], u);
    AnswerOwns(run[i].sh, run[i].threads[t]);
    AnswerOwns(run[i].sh, run[i].threads[u]);
  }

  lemma AnswerOwns(sh: Shared, th: Thread)
    requires Local(sh, th.req, th.pc) && th.req.Create? && Answer(th.pc).Some? && Answer(th.pc).value.about.Some?
    ensures Owns(sh, th.req, Answer(th.pc).value.about.value)
  {
  }

  /** At quiescence the idempotency table is a bijection from identities onto orders. */
  lemma IdempotencyBijection(run: seq<Sys>, stock: nat, price: nat, i: nat)
    requires Run(run, stock, price) && i < |run| && Quiescent(run[i])
    ensures run[i].sh.d.idempotency.Values == run[i].sh.d.orders.Keys
    ensures forall a, b :: a in run[i].sh.d.idempotency && b in run[i].sh.d.idempotency && a != b
              ==> run[i].sh.d.idempotency[a] != run[i].sh.d.idempotency[b]
    ensures forall a :: a in run[i].sh.d.idempotency ==> run[i].sh.d.orders[run[i].sh.d.idempotency[a]].owner == a.user
  {
    RunInvariant(run, stock, price, i);
    var sh := run[i].sh;
    forall oid | oid in sh.d.orders ensures oid in sh.d.idempotency.Values {
      assert (exists a :: a in sh.d.idempotency && sh.d.idempotency[a] == oid)
          || (exists t :: t in run[i].threads && Recording(run[i].threads[t].pc, oid));
    }
  }

  // ----- The payment ledger ------------------------------------------------------------

  ghost function Numbers(charges: map<PaymentKey, Charge>): map<PaymentKey, nat> {
    map key | key in charges :: charges[key].number
  }

  /** Charges are numbered exactly 1..n without repeats, each for its own order at its
      catalog total whatever total the buyer quoted, never for a declined token. */
  lemma PaymentLedger(run: seq<Sys>, stock: nat, price: nat, i: nat)
    requires Run(run, stock, price) && i < |run|
    ensures var numbers := Numbers(run[i].sh.d.charges);
            && Injective(numbers)
            && (forall key :: key in numbers ==> 1 <= numbers[key] <= |numbers|)
            && (forall n: nat :: 1 <= n <= |numbers| ==> Hit(numbers, n))
    ensures forall key :: key in run[i].sh.d.charges ==>
              && key.order in run[i].sh.d.orders
              && run[i].sh.d.charges[key].amount == price * run[i].sh.d.orders[key.order].fingerprint.quantity
              && run[i].sh.d.orders[key.order].fingerprint.token != Decline
    ensures run[i].sh.d.timeoutKeys <= run[i].sh.d.charges.Keys
  {
    RunInvariant(run, stock, price, i);
    PriceFixed(run, stock, price, i);
    var numbers := Numbers(run[i].sh.d.charges);
    assert numbers.Keys == run[i].sh.d.charges.Keys;
    assert |numbers| == |numbers.Keys| == |run[i].sh.d.charges|;
    forall n: nat | 1 <= n <= |numbers| ensures Hit(numbers, n) {
      InjectiveOnto(numbers, n);
    }
  }

  lemma {:induction false} PriceFixed(run: seq<Sys>, stock: nat, price: nat, i: nat)
    requires Run(run, stock, price) && i < |run|
    ensures run[i].sh.d.price == price
  {
    hide Inv, Step, Local;
    if i > 0 {
      PriceFixed(run, stock, price, i - 1);
      RunInvariant(run, stock, price, i - 1);
      var s, s' := run[i - 1], run[i - 1 + 1];
      assert Next(s, s');
      if Advances(s, s') {
        var t, drawn :| Takes(s, t, drawn, s');
        LocalOf(s, t);
        StepGuarantee(s.sh, t, s.threads[t].req, s.threads[t].pc, drawn);
      }
    }
  }

  lemma KnownTimeout(sh: Shared, th: Thread)
    requires Local(sh, th.req, th.pc) && th.pc.Done? && th.pc.reply.code == Some(504)
    ensures th.pc.reply.about.Some?
  {
  }

  /** Two requests are never both answered 504 about the same order. */
  lemma OneTimeoutPerOrder(run: seq<Sys>, stock: nat, price: nat, i: nat, t: nat, u: nat)
    requires Run(run, stock, price) && i < |run| && t in run[i].threads && u in run[i].threads && t != u
    requires run[i].threads[t].pc.Done? && run[i].threads[t].pc.reply.code == Some(504)
    requires run[i].threads[u].pc.Done? && run[i].threads[u].pc.reply.code == Some(504)
    ensures run[i].threads[t].pc.reply.about.Some?
    ensures run[i].threads[t].pc.reply.about != run[i].threads[u].pc.reply.about
  {
    hide Local, SharedOk, Locals;
    RunInvariant(run, stock, price, i);
    LocalOf(run[i], t);
    KnownTimeout(run[i].sh, run[i].threads[t]);
    assert TimedOutOn(run[i].threads[t].pc) != TimedOutOn(run[i].threads[u].pc);
  }

  // ----- Webhook events ------------------------------------------------------------------

  /** A webhook that has applied its event, as opposed to one answered duplicate or 404. */
  predicate Applied(th: Thread, e: EventId) {
    && th.req.Webhook? && th.req.event == e
    && Answer(th.pc).Some? && Answer(th.pc).value.code == Some(200) && Answer(th.pc).value.about.Some?
  }

  ghost predicate AppliedOnce(s: Sys) {
    && (forall e :: e in s.sh.d.processed ==> exists t :: t in s.threads && Applied(s.threads[t], e))
    && (forall t, e :: t in s.threads && Applied(s.threads[t], e) ==> e in s.sh.d.processed)
    && (forall t, u, e :: t in s.threads && u in s.threads && Applied(s.threads[t], e) && Applied(s.threads[u], e) ==> t == u)
  }

  lemma StepApplied(sh: Shared, me: nat, req: Request, pc: Pc, drawn: OrderId)
    requires Local(sh, req, pc) && Step(sh, me, req, pc, drawn).Move?
    ensures var m := Step(sh, me, req, pc, drawn);
            && (forall e :: Applied(Thread(req, m.next), e) <==>
                  Applied(Thread(req, pc), e) || (pc == W(WMark) && req.event == e))
            && (pc == W(WMark) ==> req.Webhook? && req.event !in sh.d.processed)
  {
  }

  lemma AppliedNext(s: Sys, t: nat, drawn: OrderId, s': Sys)
    requires Inv(s) && AppliedOnce(s) && Takes(s, t, drawn, s')
    ensures AppliedOnce(s')
  {
    hide Inv, Step, Local, Applied;
    var th := s.threads[t];
    LocalOf(s, t);
    StepApplied(s.sh, t, th.req, th.pc, drawn);
    StepEffect(s.sh, t, th.req, th.pc, drawn);
    forall e | e in s'.sh.d.processed ensures exists u :: u in s'.threads && Applied(s'.threads[u], e) {
      if e in s.sh.d.processed {
        var u :| u in s.threads && Applied(s.threads[u], e);
        assert Applied(s'.threads[u], e);
      } else {
        assert Applied(s'.threads[t], e);
      }
    }
  }

  /** Each processed event was applied by exactly one request and counted exactly once; an
      event counted but not yet marked is in the hands of the request that will mark it. */
  lemma {:induction false} EventOnce(run: seq<Sys>, stock: nat, price: nat, i: nat)
    requires Run(run, stock, price) && i < |run|
    ensures AppliedOnce(run[i])
    ensures forall e :: e in run[i].sh.d.processed ==> e in run[i].sh.d.effects && run[i].sh.d.effects[e] == 1
    ensures EffectsMarked(run[i])
  {
    hide Step, Local, Applied;
    RunInvariant(run, stock, price, i);
    if i > 0 {
      EventOnce(run, stock, price, i - 1);
      RunInvariant(run, stock, price, i - 1);
      var s, s' := run[i - 1], run[i - 1 + 1];
      assert Next(s, s');
      if Advances(s, s') {
        var t, drawn :| Takes(s, t, drawn, s');
        AppliedNext(s, t, drawn, s');
      } else {
        var t, req :| Arrives(s, t, req, s');
        AppliedArrives(s, t, req, s');
      }
    }
  }

  lemma AppliedArrives(s: Sys, t: nat, req: Request, s': Sys)
    requires AppliedOnce(s) && Arrives(s, t, req, s')
    ensures AppliedOnce(s')
  {
    forall e | e in s'.sh.d.processed ensures exists u :: u in s'.threads && Applied(s'.threads[u], e) {
      var u :| u in s.threads && Applied(s.threads[u], e);
      assert Applied(s'.threads[u], e);
    }
  }

  // ----- Paid stock -------------------------------------------------------------------------

  ghost function PaidQuantity(oid: OrderId, o: Order): int { if o.status == Paid then o.quantity else 0 }

  lemma PaidUnreleased(s: Sys, oid: OrderId)
    requires CohInv(s) && oid in s.sh.d.orders && s.sh.d.orders[oid].status == Paid
    ensures !s.sh.d.orders[oid].released
  {
    if !Idle(s, oid) {
      var t :| t in s.threads && Busy(s.threads[t]) == Some(oid);
      assert Mid(s.sh, s.threads[t]);
    }
  }

  /** Without overlapping webhooks the store never has more paid stock than it started with. */
  lemma PaidWithinStock(run: seq<Sys>, stock: nat, price: nat, i: nat)
    requires CohRun(run, stock, price) && i < |run|
    ensures Total(run[i].sh.d.orders, PaidQuantity) <= stock
  {
    hide Inv, CohInv, Flagged, Run, NoOverlap;
    var s := run[i];
    RunInvariant(run, stock, price, i);
    StatusCoherence(run, stock, price, i);
    Conservation(run, stock, price, i);
    StockBounds(run, stock, price, i);
    TotalNonNegative(s.threads, Reserved);
    forall oid | oid in s.sh.d.orders
      ensures PaidQuantity(oid, s.sh.d.orders[oid]) <= OrderHeld(oid, s.sh.d.orders[oid])
    {
      if s.sh.d.orders[oid].status == Paid { PaidUnreleased(s, oid); }
    }
    PaidFlagged(s);
  }

  lemma PaidFlagged(s: Sys)
    requires Inv(s) && CohInv(s)
    requires forall oid :: oid in s.sh.d.orders ==> PaidQuantity(oid, s.sh.d.orders[oid]) <= OrderHeld(oid, s.sh.d.orders[oid])
    ensures Total(s.sh.d.orders, PaidQuantity) <= Total(s.sh.d.orders, OrderHeld) - Flagged(s)
  {
    hide Step, SharedOk, Local, Total;
    TotalMonotone(s.sh.d.orders, PaidQuantity, OrderHeld);
    if InventoryLock in s.sh.k.held {
      var t := s.sh.k.held[InventoryLock].owner;
      assert Local(s.sh, s.threads[t].req, s.threads[t].pc) && Mid(s.sh, s.threads[t]);
      FlagKnown(s.sh, s.threads[t]);
      var f := FlagOrder(s.threads[t]);
      if f.Some? {
        TotalSplit(s.sh.d.orders, OrderHeld, f.value);
        TotalSplit(s.sh.d.orders, PaidQuantity, f.value);
        TotalMonotone(s.sh.d.orders - {f.value}, PaidQuantity, OrderHeld);
      }
    }
  }
}

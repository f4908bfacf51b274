/** Exactly when an order that nobody is working on is coherent, over every interleaved run and
    whatever webhooks overlap. */
module FlashExact {
  import opened Prelude
  import opened FlashModel
  import opened FlashInvariant
  import opened FlashRuns
  import opened FlashProgress
  import opened FlashCoherence
  import opened FlashLife
  import opened FlashTheorems

  // ----- What happened to an order -------------------------------------------------------

  /** Request `t` took a step, and for this order it was the one the event names. */
  ghost predicate Did(s: Sys, s': Sys, t: nat, oid: OrderId, e: Event) {
    && t in s.threads && t in s'.threads && s'.threads[t] != s.threads[t]
    && EventOf(s.threads[t], oid, Checkout(oid) in s.sh.d.charges) == e
  }

  /** In this step of the run some request took, for this order, the step the event names. */
  ghost predicate Occurs(s: Sys, s': Sys, oid: OrderId, e: Event) {
    oid in s.sh.d.orders && exists t :: Did(s, s', t, oid, e)
  }

  ghost predicate WritesStatus(s: Sys, s': Sys, oid: OrderId) {
    Occurs(s, s', oid, PaidWrite) || Occurs(s, s', oid, FailWrite) || Occurs(s, s', oid, CancelWrite)
  }

  /** PAID is written over an order that has failed or been cancelled. */
  ghost predicate PaysDead(s: Sys, s': Sys, oid: OrderId) {
    Occurs(s, s', oid, PaidWrite) && (s.sh.d.orders[oid].status == Failed || s.sh.d.orders[oid].status == Cancelled)
  }

  /** The last status write to the order so far was a PAID write that found it failed or cancelled. */
  ghost predicate Revived(run: seq<Sys>, i: nat, oid: OrderId)
    requires i < |run|
  {
    i > 0 && if WritesStatus(run[i - 1], run[i], oid) then PaysDead(run[i - 1], run[i], oid) else Revived(run, i - 1, oid)
  }

  /** A webhook has looked the order's charge up and found none. */
  ghost predicate Missed(run: seq<Sys>, i: nat, oid: OrderId)
    requires i < |run|
  {
    i > 0 && (Occurs(run[i - 1], run[i], oid, LookupMisses) || Missed(run, i - 1, oid))
  }

  /** A creation has entered the order's charge id. */
  ghost predicate Named(run: seq<Sys>, i: nat, oid: OrderId)
    requires i < |run|
  {
    i > 0 && (Occurs(run[i - 1], run[i], oid, CreatorNames) || Named(run, i - 1, oid))
  }

  // ----- The invariant of a life -----------------------------------------------------------

  /** The stock of the order has been given back, or somebody is about to do so. */
  predicate Dropped(l: Life) {
    l.v.released || l.k == KCode || l.k == KFree || l.w == WCode || l.w == WFree || l.w == XFree
  }

  predicate Dead(status: Status) { status == Failed || status == Cancelled }

  predicate LifeInv(l: Life, revived: bool, missed: bool, named: bool) {
    var v, k, w := l.v, l.k, l.w;
    && (Dead(v.status) ==> Dropped(l))
    && (Dropped(l) ==> v.status != Pending)
    && ((k == KAhead || k == KLast) && (w == WPay || w == WDecline) ==> v.status == Pending)
    && (v.status == Paid && Dropped(l) ==> k != KAhead && k != KLast && w != WPay && w != WDecline)
    && (revived <==> v.status == Paid && Dropped(l))
    && (v.charged || v.declines || k == KAhead)
    && (v.charged ==> !v.declines)
    && (v.status == Pending ==> v.charged || k == KAhead)
    && (k == KLast ==> v.named && v.charged)
    && (v.named ==> v.charged)
    && (v.status == Cancelled ==> v.released || w == XFree)
    && (v.status == Failed ==> v.coded || k == KCode || w == WCode)
    && (w == XAhead ==> v.status == Paid || v.status == Failed)
    && (w == WLook || w == WCopy ==> v.status != Pending)
    && (missed ==> v.status != Pending && w != WPay && w != WLook && w != WCopy)
    && (v.named && !named ==> v.status != Pending && w != WPay && w != WLook && w != WCopy && !missed)
    && (named ==> v.named)
    && (v.status == Paid ==> v.named || missed || w == WLook || w == WCopy)
  }

  predicate DeadPaid(l: Life, e: Event) { e == PaidWrite && Dead(l.v.status) }

  predicate StatusEvent(e: Event) { e == PaidWrite || e == FailWrite || e == CancelWrite }

  /** Every move keeps the invariant and its account of the past. */
  lemma LifeMove(l: Life, e: Event, l': Life, revived: bool, missed: bool, named: bool)
    requires LifeInv(l, revived, missed, named)
    requires l'.v.charged ==> !l'.v.declines
    requires Lives(l, e, l')
    ensures LifeInv(l', if StatusEvent(e) then DeadPaid(l, e) else revived, missed || e == LookupMisses, named || e == CreatorNames)
  {
    hide LifeInv, Settles, Handles;
    if Settles(l.v, l.k, e, l'.v, l'.k) && l'.w == l.w { SettlerMove(l, e, l', revived, missed, named); }
    else { HolderMove(l, e, l', revived, missed, named); }
  }

  lemma SettlerMove(l: Life, e: Event, l': Life, revived: bool, missed: bool, named: bool)
    requires LifeInv(l, revived, missed, named)
    requires l'.v.charged ==> !l'.v.declines
    requires Settles(l.v, l.k, e, l'.v, l'.k) && l'.w == l.w
    ensures LifeInv(l', if StatusEvent(e) then DeadPaid(l, e) else revived, missed || e == LookupMisses, named || e == CreatorNames)
  {
  }

  lemma HolderMove(l: Life, e: Event, l': Life, revived: bool, missed: bool, named: bool)
    requires LifeInv(l, revived, missed, named)
    requires l'.v.charged ==> !l'.v.declines
    requires Handles(l.v, l.w, e, l'.v, l'.w) && l'.k == l.k
    ensures LifeInv(l', if StatusEvent(e) then DeadPaid(l, e) else revived, missed || e == LookupMisses, named || e == CreatorNames)
  {
  }

  /** An order starts its life with a clean account. */
  lemma LifeStart(l: Life)
    requires l.v.(declines := false) == View(Pending, false, false, false, false, false) && l.k == KAhead && l.w == WOut
    ensures LifeInv(l, false, false, false)
  {
  }

  // ----- Runs --------------------------------------------------------------------------------

  /** In a step of request `t`, what occurs to an order is what `t` did. */
  lemma OccursBy(s: Sys, t: nat, drawn: OrderId, s': Sys, oid: OrderId, e: Event)
    requires Inv(s) && Takes(s, t, drawn, s') && oid in s.sh.d.orders
    ensures Occurs(s, s', oid, e) <==> EventOf(s.threads[t], oid, Checkout(oid) in s.sh.d.charges) == e
  {
    hide Inv, EventOf, Step, Work;
    LocalOf(s, t);
    var th := s.threads[t];
    StepWorks(s.sh, t, th.req, th.pc, drawn);
    assert s'.threads[t] != th;
    if EventOf(th, oid, Checkout(oid) in s.sh.d.charges) == e { assert Did(s, s', t, oid, e); }
  }

  lemma ArrivalQuiet(s: Sys, t: nat, req: Request, s': Sys, oid: OrderId, e: Event)
    requires Arrives(s, t, req, s')
    ensures !Occurs(s, s', oid, e)
  {
  }

  ghost predicate Lived(run: seq<Sys>, i: nat, oid: OrderId)
    requires i < |run| && oid in run[i].sh.d.orders
  {
    LifeInv(LifeOf(run[i], oid), Revived(run, i, oid), Missed(run, i, oid), Named(run, i, oid))
  }

  /** Before an order exists nothing happens to it. */
  lemma {:induction false} Unborn(run: seq<Sys>, stock: nat, price: nat, i: nat, oid: OrderId)
    requires Run(run, stock, price) && i < |run| && oid !in run[i].sh.d.orders
    ensures !Revived(run, i, oid) && !Missed(run, i, oid) && !Named(run, i, oid)
  {
    hide Next;
    if i > 0 {
      Persistence(run, stock, price, i - 1, i);
      Unborn(run, stock, price, i - 1, oid);
    }
  }

  lemma ChargedTokens(s: Sys, oid: OrderId)
    requires Inv(s) && oid in s.sh.d.orders
    ensures ViewOf(s.sh, oid).charged ==> !ViewOf(s.sh, oid).declines
  {
  }

  /** The one event of a step. */
  ghost predicate Only(s: Sys, s': Sys, oid: OrderId, e: Event) {
    forall f :: Occurs(s, s', oid, f) <==> e == f
  }

  /** What one step of the system is for an order that is there already. */
  lemma StepFacts(s: Sys, t: nat, drawn: OrderId, s': Sys, oid: OrderId) returns (e: Event)
    requires Inv(s) && Inv(s') && Takes(s, t, drawn, s') && oid in s.sh.d.orders
    ensures oid in s'.sh.d.orders && Lives(LifeOf(s, oid), e, LifeOf(s', oid))
    ensures Only(s, s', oid, e)
    ensures ViewOf(s'.sh, oid).charged ==> !ViewOf(s'.sh, oid).declines
  {
    hide Inv, Step, Lives, LifeOf, Occurs, EventOf, ViewOf;
    e := EventOf(s.threads[t], oid, Checkout(oid) in s.sh.d.charges);
    TakesLives(s, t, drawn, s', oid);
    ChargedTokens(s', oid);
    forall f ensures Occurs(s, s', oid, f) <==> e == f { OccursBy(s, t, drawn, s', oid, f); }
  }

  lemma LivedStep(run: seq<Sys>, i: nat, e: Event, oid: OrderId)
    requires 0 < i < |run| && oid in run[i - 1].sh.d.orders && oid in run[i].sh.d.orders
    requires Lived(run, i - 1, oid) && Lives(LifeOf(run[i - 1], oid), e, LifeOf(run[i], oid))
    requires Only(run[i - 1], run[i], oid, e)
    requires ViewOf(run[i].sh, oid).charged ==> !ViewOf(run[i].sh, oid).declines
    ensures Lived(run, i, oid)
  {
    hide LifeInv, Lives, LifeOf, Occurs, ViewOf;
    var s, s' := run[i - 1], run[i];
    LifeViews(s, oid);
    LifeViews(s', oid);
    LifeMove(LifeOf(s, oid), e, LifeOf(s', oid), Revived(run, i - 1, oid), Missed(run, i - 1, oid), Named(run, i - 1, oid));
  }

  lemma LifeViews(s: Sys, oid: OrderId)
    requires oid in s.sh.d.orders
    ensures LifeOf(s, oid).v == ViewOf(s.sh, oid) && ViewOf(s.sh, oid).status == s.sh.d.orders[oid].status
  {
  }

  lemma LivedBirth(run: seq<Sys>, stock: nat, price: nat, i: nat, t: nat, drawn: OrderId, oid: OrderId)
    requires Run(run, stock, price) && 0 < i < |run| && Inv(run[i - 1]) && Inv(run[i]) && Takes(run[i - 1], t, drawn, run[i])
    requires oid !in run[i - 1].sh.d.orders && oid in run[i].sh.d.orders
    ensures Lived(run, i, oid)
  {
    hide Inv, Takes, LifeInv, ViewOf, SettlerIn, HolderIn, Run;
    Born(run[i - 1], t, drawn, run[i], oid);
    Unborn(run, stock, price, i - 1, oid);
    LifeStart(LifeOf(run[i], oid));
  }

  lemma LivedArrival(run: seq<Sys>, i: nat, t: nat, req: Request, oid: OrderId)
    requires 0 < i < |run| && Arrives(run[i - 1], t, req, run[i])
    requires oid in run[i - 1].sh.d.orders && Inv(run[i - 1]) && Inv(run[i]) && Lived(run, i - 1, oid)
    ensures Lived(run, i, oid)
  {
    hide Inv, LifeInv, Occurs, SettlerOf, HolderOf, ViewOf, SettlerIn, HolderIn;
    var s, s' := run[i - 1], run[i];
    forall e ensures !Occurs(s, s', oid, e) { ArrivalQuiet(s, t, req, s', oid, e); }
    ArrivalSides(s, t, req, s', oid);
  }

  /** A request that has just arrived is not at work on any order. */
  lemma ArrivalSides(s: Sys, t: nat, req: Request, s': Sys, oid: OrderId)
    requires Inv(s) && Inv(s') && Arrives(s, t, req, s')
    ensures SettlerIn(s', oid) == SettlerIn(s, oid) && HolderIn(s', oid) == HolderIn(s, oid)
  {
    hide Inv, SettlerIn, HolderIn;
    LocksOf(s);
    LocksOf(s');
    if u :| u in s.threads && SettlerOf(s.threads[u], oid) != KOut {
      assert s'.threads[u] == s.threads[u];
      SettlerOnly(s, u, oid);
      SettlerOnly(s', u, oid);
    } else {
      NoSettler(s, oid);
      NoSettler(s', oid);
    }
    if u :| u in s.threads && HolderOf(s.threads[u], oid) != WOut {
      assert s'.threads[u] == s.threads[u];
      HolderOnly(s, u, oid);
      HolderOnly(s', u, oid);
    } else {
      NoHolder(s, oid);
      NoHolder(s', oid);
    }
  }

  /** The account is right in every state of every interleaved run. */
  lemma {:induction false} RunLived(run: seq<Sys>, stock: nat, price: nat, i: nat, oid: OrderId)
    requires Run(run, stock, price) && i < |run| && oid in run[i].sh.d.orders
    ensures Lived(run, i, oid)
  {
    hide Inv, Lived, Takes, Arrives;
    if i > 0 {
      RunInvariant(run, stock, price, i - 1);
      RunInvariant(run, stock, price, i);
      var s, s' := run[i - 1], run[i - 1 + 1];
      assert Next(s, s');
      if oid in s.sh.d.orders { RunLived(run, stock, price, i - 1, oid); }
      if Advances(s, s') {
        var t, drawn :| Takes(s, t, drawn, s');
        if oid in s.sh.d.orders {
          var e := StepFacts(s, t, drawn, s', oid);
          LivedStep(run, i, e, oid);
        } else {
          LivedBirth(run, stock, price, i, t, drawn, oid);
        }
      } else {
        var t, req :| Arrives(s, t, req, s');
        ArrivalKeeps(s, t, req, s');
        LivedArrival(run, i, t, req, oid);
      }
    }
  }

  lemma ArrivalKeeps(s: Sys, t: nat, req: Request, s': Sys)
    requires Arrives(s, t, req, s')
    ensures s'.sh == s.sh
  {
  }

  // ----- Idle orders -----------------------------------------------------------------------

  lemma IdleSides(s: Sys, oid: OrderId)
    requires Idle(s, oid)
    ensures SettlerIn(s, oid) == KOut && (HolderIn(s, oid) == WOut || HolderIn(s, oid) == XAhead)
  {
    hide SettlerOf, HolderOf;
    forall t | t in s.threads
      ensures SettlerOf(s.threads[t], oid) == KOut && (HolderOf(s.threads[t], oid) == WOut || HolderOf(s.threads[t], oid) == XAhead)
    {
      IdleThread(s.threads[t], oid);
    }
  }

  lemma IdleThread(th: Thread, oid: OrderId)
    requires Busy(th) != Some(oid)
    ensures SettlerOf(th, oid) == KOut && (HolderOf(th, oid) == WOut || HolderOf(th, oid) == XAhead)
  {
  }

  /** The release flag and the status of an order that nobody is working on agree, unless the
      last status write to it was a PAID write that found it failed or cancelled: then, and only
      then, it is paid although its stock is back. */
  lemma ReleaseExactly(run: seq<Sys>, stock: nat, price: nat, i: nat, oid: OrderId)
    requires Run(run, stock, price) && i < |run| && oid in run[i].sh.d.orders && Idle(run[i], oid)
    ensures var o := run[i].sh.d.orders[oid];
            && ((o.released <==> o.status == Failed || o.status == Cancelled) <==> !Revived(run, i, oid))
            && (Revived(run, i, oid) <==> o.status == Paid && o.released)
            && (o.status == Failed || o.status == Cancelled ==> o.released)
  {
    hide Revived, Missed, Named, Run, SettlerIn, HolderIn;
    RunLived(run, stock, price, i, oid);
    IdleSides(run[i], oid);
  }

  /** Such an order has been charged exactly when its token is not the declined one. */
  lemma ChargedExactly(run: seq<Sys>, stock: nat, price: nat, i: nat, oid: OrderId)
    requires Run(run, stock, price) && i < |run| && oid in run[i].sh.d.orders && Idle(run[i], oid)
    ensures Checkout(oid) in run[i].sh.d.charges <==> run[i].sh.d.orders[oid].token != Decline
    ensures run[i].sh.d.orders[oid].status == Pending ==> Checkout(oid) in run[i].sh.d.charges
  {
    hide Revived, Missed, Named, Run, SettlerIn, HolderIn;
    RunLived(run, stock, price, i, oid);
    IdleSides(run[i], oid);
  }

  /** Such an order, if paid, names its own charge, unless a webhook looked the charge up and found
      none and no creation entered it. */
  lemma ChargeIdExactly(run: seq<Sys>, stock: nat, price: nat, i: nat, oid: OrderId)
    requires Run(run, stock, price) && i < |run| && oid in run[i].sh.d.orders && Idle(run[i], oid)
    requires run[i].sh.d.orders[oid].status == Paid
    ensures (Checkout(oid) in run[i].sh.d.charges
             && run[i].sh.d.orders[oid].chargeId == Some(run[i].sh.d.charges[Checkout(oid)].number))
            <==> !Missed(run, i, oid) || Named(run, i, oid)
    ensures run[i].sh.d.orders[oid].chargeId == None <==> Missed(run, i, oid) && !Named(run, i, oid)
  {
    hide Revived, Missed, Named, Run, SettlerIn, HolderIn, Inv;
    RunLived(run, stock, price, i, oid);
    IdleSides(run[i], oid);
    RunInvariant(run, stock, price, i);
    OwnCharge(run[i], oid);
  }

  lemma OwnCharge(s: Sys, oid: OrderId)
    requires Inv(s) && oid in s.sh.d.orders
    ensures s.sh.d.orders[oid].chargeId.Some? ==>
              Checkout(oid) in s.sh.d.charges && s.sh.d.orders[oid].chargeId == Some(s.sh.d.charges[Checkout(oid)].number)
    ensures s.sh.d.orders[oid].failureStatus.Some? ==> s.sh.d.orders[oid].failureStatus == Some(402)
    ensures s.sh.d.orders[oid].id == oid
  {
  }

  /** Status coherence without any assumption on the environment: an order that nobody is working
      on is coherent if and only if it was not revived and, when paid, its charge id was found by
      the webhook that paid it or entered by a creation. */
  lemma CoherentExactly(run: seq<Sys>, stock: nat, price: nat, i: nat, oid: OrderId)
    requires Run(run, stock, price) && i < |run| && oid in run[i].sh.d.orders && Idle(run[i], oid)
    ensures Coherent(run[i].sh.d, run[i].sh.d.orders[oid]) <==>
              && !Revived(run, i, oid)
              && (run[i].sh.d.orders[oid].status == Paid ==> !Missed(run, i, oid) || Named(run, i, oid))
  {
    hide Run, SettlerIn, HolderIn, Inv, Revived, Missed, Named;
    RunInvariant(run, stock, price, i);
    OwnCharge(run[i], oid);
    ReleaseExactly(run, stock, price, i, oid);
    ChargedExactly(run, stock, price, i, oid);
    if run[i].sh.d.orders[oid].status == Paid { ChargeIdExactly(run, stock, price, i, oid); }
    RunLived(run, stock, price, i, oid);
    IdleSides(run[i], oid);
  }

  // ----- Status moves ----------------------------------------------------------------------

  /** A write that finds neither the status its writer had read (pending, or paid for a
      cancellation) nor the one it writes. */
  predicate Overtaken(e: Event, found: Status) {
    || (e == PaidWrite && found != Pending && found != Paid)
    || (e == FailWrite && found != Pending && found != Failed)
    || (e == CancelWrite && found != Paid && found != Cancelled)
  }

  lemma LifeStatus(l: Life, e: Event, l': Life, revived: bool, missed: bool, named: bool)
    requires LifeInv(l, revived, missed, named) && Lives(l, e, l')
    ensures StatusMove(l.v.status, l'.v.status) <==> !Overtaken(e, l.v.status)
    ensures Overtaken(e, l.v.status) ==> l.v.status != Pending
  {
  }

  ghost predicate OvertakenWrite(s: Sys, s': Sys, oid: OrderId) {
    oid in s.sh.d.orders && exists e :: Occurs(s, s', oid, e) && Overtaken(e, s.sh.d.orders[oid].status)
  }

  /** A status leaves the allowed moves exactly when such a write happens. */
  lemma MoveExactly(run: seq<Sys>, stock: nat, price: nat, i: nat, oid: OrderId)
    requires Run(run, stock, price) && 0 < i < |run| && oid in run[i - 1].sh.d.orders
    ensures oid in run[i].sh.d.orders
    ensures StatusMove(run[i - 1].sh.d.orders[oid].status, run[i].sh.d.orders[oid].status) <==>
              !OvertakenWrite(run[i - 1], run[i], oid)
  {
    hide Inv, LifeInv, Lives, Occurs, Run, LifeOf, ViewOf, Revived, Missed, Named, Overtaken, StatusMove, Takes;
    var s, s' := run[i - 1], run[i - 1 + 1];
    RunInvariant(run, stock, price, i - 1);
    RunInvariant(run, stock, price, i);
    RunLived(run, stock, price, i - 1, oid);
    RunNext(run, stock, price, i);
    LifeViews(s, oid);
    if Advances(s, s') {
      var t, drawn :| Takes(s, t, drawn, s');
      var f := StepFacts(s, t, drawn, s', oid);
      LifeViews(s', oid);
      LifeStatus(LifeOf(s, oid), f, LifeOf(s', oid), Revived(run, i - 1, oid), Missed(run, i - 1, oid), Named(run, i - 1, oid));
    } else {
      var t, req :| Arrives(s, t, req, s');
      ArrivalKeeps(s, t, req, s');
      forall e ensures !Occurs(s, s', oid, e) { ArrivalQuiet(s, t, req, s', oid, e); }
      StatusStays(s.sh.d.orders[oid].status);
    }
  }

  lemma RunNext(run: seq<Sys>, stock: nat, price: nat, i: nat)
    requires Run(run, stock, price) && 0 < i < |run|
    ensures Next(run[i - 1], run[i])
  {
    assert Next(run[i - 1], run[i - 1 + 1]);
  }

  lemma StatusStays(status: Status)
    ensures StatusMove(status, status)
  {
  }
}

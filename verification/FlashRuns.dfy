/** The invariant holds in every state of every interleaved run. */
module FlashRuns {
  import opened Prelude
  import opened FlashModel
  import opened FlashInvariant
  import opened FlashSteps
  import opened FlashStable
  import opened FlashTables

  /** No lock is ever at two requests' program points at once. */
  lemma MutualExclusion(s: Sys, t: nat, u: nat, l: Lock)
    requires LocksAgree(s) && t in s.threads && u in s.threads
    requires Has(s.threads[t].pc, l) && Has(s.threads[u].pc, l)
    ensures t == u
  {
    assert l in s.sh.k.held;
    assert s.sh.k.held[l].owner == t;
    assert s.sh.k.held[l].owner == u;
  }

  lemma LocksOf(s: Sys)
    requires Inv(s)
    ensures LocksAgree(s)
  {
  }

  lemma ApartThreads(s: Sys, t: nat, u: nat)
    requires LocksAgree(s) && DraftsDistinct(s) && t in s.threads && u in s.threads && t != u
    ensures Apart(s.threads[t].pc, s.threads[u].pc)
  {
    forall l | Has(s.threads[t].pc, l) && Has(s.threads[u].pc, l) ensures false {
      MutualExclusion(s, t, u, l);
    }
  }

  lemma OwnLocks(s: Sys, t: nat)
    requires LocksAgree(s) && t in s.threads
    ensures HoldsOwn(s.sh.k, t, s.threads[t].pc)
  {
  }

  lemma LocksNext(s: Sys, t: nat, drawn: OrderId, s': Sys)
    requires LocksAgree(s) && Takes(s, t, drawn, s')
    ensures LocksAgree(s')
  {
    hide Step;
    OwnLocks(s, t);
    StepLocks(s.sh, t, s.threads[t].req, s.threads[t].pc, drawn);
  }

  lemma LocalsNext(s: Sys, t: nat, drawn: OrderId, s': Sys)
    requires LocksAgree(s) && Locals(s) && SharedOk(s.sh) && DraftsDistinct(s) && Takes(s, t, drawn, s')
    ensures Locals(s')
  {
    hide Step, Local, Guarantee, SharedOk, Apart;
    var th := s.threads[t];
    StepLocal(s.sh, t, th.req, th.pc, drawn);
    StepGuarantee(s.sh, t, th.req, th.pc, drawn);
    forall u | u in s'.threads && u != t ensures Local(s'.sh, s'.threads[u].req, s'.threads[u].pc) {
      ApartThreads(s, t, u);
      Stable(s.sh, s'.sh, th.req, th.pc, s.threads[u].req, s.threads[u].pc);
    }
  }

  // ----- Several requests -----------------------------------------------------

  lemma StepDraft(sh: Shared, me: nat, req: Request, pc: Pc, drawn: OrderId)
    requires Step(sh, me, req, pc, drawn).Move?
    ensures var next := Draft(Step(sh, me, req, pc, drawn).next);
            next.Some? ==> next == Draft(pc) || next == Some(drawn)
  {
  }

  lemma StepTimeout(sh: Shared, me: nat, req: Request, pc: Pc, drawn: OrderId)
    requires OrdersOk(sh) && Step(sh, me, req, pc, drawn).Move?
    ensures var next := TimedOutOn(Step(sh, me, req, pc, drawn).next);
            next.Some? ==> next == TimedOutOn(pc) || (pc.Keyed? && pc.k == KCharge(next.value, PMark))
  {
    hide KeyedStep, CancelStep, WebhookStep, OrdersOk;
    match pc
    case Keyed(lk, k) => KeyedTimeout(sh, me, req, lk, k, drawn);
    case X(x) => CancelTimeout(sh, me, req, x);
    case W(w) => WebhookTimeout(sh, me, req, w);
    case _ =>
  }

  lemma KeyedTimeout(sh: Shared, me: nat, req: Request, lk: nat, k: KeyedPc, drawn: OrderId)
    requires req.Create? && req.auth.Some? && req.key.Some? && OrdersOk(sh) && KeyedStep(sh, me, req, lk, k, drawn).Move?
    ensures var next := TimedOutOn(KeyedStep(sh, me, req, lk, k, drawn).next);
            next.Some? ==> next == TimedOutOn(Keyed(lk, k)) || k == KCharge(next.value, PMark)
  {
  }

  lemma CancelTimeout(sh: Shared, me: nat, req: Request, x: CancelPc)
    requires req.Cancel? && req.auth.Some? && CancelStep(sh, me, req, x).Move?
    ensures var next := TimedOutOn(CancelStep(sh, me, req, x).next); next.Some? ==> next == TimedOutOn(X(x))
  {
  }

  lemma WebhookTimeout(sh: Shared, me: nat, req: Request, w: WebhookPc)
    requires req.Webhook? && WebhookStep(sh, me, req, w).Move?
    ensures var next := TimedOutOn(WebhookStep(sh, me, req, w).next); next.Some? ==> next == TimedOutOn(W(w))
  {
  }

  /** Ids drawn and not yet entered, and orders answered 504, were issued or recorded before. */
  lemma KnownIds(s: Sys, t: nat)
    requires Locals(s) && OrdersOk(s.sh) && t in s.threads
    ensures Draft(s.threads[t].pc).Some? ==> Draft(s.threads[t].pc).value in s.sh.issued
    ensures TimedOutOn(s.threads[t].pc).Some? ==> Checkout(TimedOutOn(s.threads[t].pc).value) in s.sh.d.timeoutKeys
  {
    assert Local(s.sh, s.threads[t].req, s.threads[t].pc);
  }

  lemma DraftsNext(s: Sys, t: nat, drawn: OrderId, s': Sys)
    requires Locals(s) && OrdersOk(s.sh) && DraftsDistinct(s) && Takes(s, t, drawn, s')
    ensures DraftsDistinct(s')
  {
    hide Step, OrdersOk, Local, Draft;
    StepDraft(s.sh, t, s.threads[t].req, s.threads[t].pc, drawn);
    forall u | u in s.threads && u != t ensures Draft(s'.threads[u].pc) != Some(drawn) {
      KnownIds(s, u);
    }
  }

  lemma TimeoutsNext(s: Sys, t: nat, drawn: OrderId, s': Sys)
    requires Locals(s) && OrdersOk(s.sh) && TimeoutsDistinct(s) && Takes(s, t, drawn, s')
    ensures TimeoutsDistinct(s')
  {
    hide Step, OrdersOk, TimedOutOn;
    var th := s.threads[t];
    StepTimeout(s.sh, t, th.req, th.pc, drawn);
    forall u | u in s.threads && u != t && TimedOutOn(s'.threads[u].pc).Some?
      ensures TimedOutOn(s'.threads[u].pc) != TimedOutOn(s'.threads[t].pc)
    {
      KnownIds(s, u);
      assert Local(s.sh, th.req, th.pc);
    }
  }

  lemma StepEntry(sh: Shared, me: nat, req: Request, pc: Pc, drawn: OrderId)
    requires Local(sh, req, pc) && Step(sh, me, req, pc, drawn).Move?
    ensures pc.Keyed? ==> Admitted(req)
    ensures var m := Step(sh, me, req, pc, drawn);
            && (pc.Keyed? && pc.k.KPublish? ==> Recording(m.next, pc.k.order.id))
            && (pc.Keyed? && pc.k.KRecord? ==> m.sh.d.idempotency == sh.d.idempotency[IdentityOf(req) := pc.k.oid])
  {
  }

  lemma EnteredNext(s: Sys, t: nat, drawn: OrderId, s': Sys)
    requires Locals(s) && SharedOk(s.sh) && OrdersEntered(s) && Takes(s, t, drawn, s')
    ensures OrdersEntered(s')
  {
    hide Step, SharedOk, Local;
    var th := s.threads[t];
    assert Local(s.sh, th.req, th.pc);
    StepGuarantee(s.sh, t, th.req, th.pc, drawn);
    StepEntry(s.sh, t, th.req, th.pc, drawn);
    forall oid | oid in s'.sh.d.orders
      ensures (exists i :: i in s'.sh.d.idempotency && s'.sh.d.idempotency[i] == oid)
           || (exists u :: u in s'.threads && Recording(s'.threads[u].pc, oid))
    {
      if oid !in s.sh.d.orders {
        assert Recording(s'.threads[t].pc, oid);
      } else if i :| i in s.sh.d.idempotency && s.sh.d.idempotency[i] == oid {
        assert s'.sh.d.idempotency[i] == oid;
      } else {
        var u :| u in s.threads && Recording(s.threads[u].pc, oid);
        if u == t {
          assert s'.sh.d.idempotency[IdentityOf(th.req)] == oid;
        } else {
          assert Recording(s'.threads[u].pc, oid);
        }
      }
    }
  }

  lemma KeyedEvents(sh: Shared, me: nat, req: Request, lk: nat, k: KeyedPc, drawn: OrderId)
    requires Admitted(req) && KeyedStep(sh, me, req, lk, k, drawn).Move?
    ensures var m := KeyedStep(sh, me, req, lk, k, drawn);
            m.sh.d.effects == sh.d.effects && m.sh.d.processed == sh.d.processed
  {
  }

  /** The event counter moves only at WEffect, and WMark follows at once. */
  lemma StepEffect(sh: Shared, me: nat, req: Request, pc: Pc, drawn: OrderId)
    requires Local(sh, req, pc) && Step(sh, me, req, pc, drawn).Move?
    ensures var m := Step(sh, me, req, pc, drawn);
            && (pc == W(WEffect) ==> req.Webhook? && m.next == W(WMark) && m.sh.d.effects.Keys == sh.d.effects.Keys + {req.event})
            && (pc != W(WEffect) ==> m.sh.d.effects == sh.d.effects)
            && (pc == W(WMark) ==> req.Webhook? && m.sh.d.processed == sh.d.processed + {req.event})
            && (pc != W(WMark) ==> m.sh.d.processed == sh.d.processed)
  {
    match pc
    case Keyed(lk, k) => KeyedEvents(sh, me, req, lk, k, drawn);
    case W(w) =>
    case _ =>
  }

  /** Under the state lock no other webhook is between its two event writes. */
  lemma EffectFresh(s: Sys, t: nat)
    requires LocksAgree(s) && Locals(s) && EffectsMarked(s)
    requires t in s.threads && s.threads[t].pc == W(WEffect)
    ensures s.threads[t].req.Webhook? && s.threads[t].req.event !in s.sh.d.effects
  {
    assert Local(s.sh, s.threads[t].req, s.threads[t].pc);
    var e := s.threads[t].req.event;
    if e in s.sh.d.effects {
      var u :| u in s.threads && Marking(s.threads[u], e);
      MutualExclusion(s, t, u, StateLock);
    }
  }

  lemma EffectsNext(s: Sys, t: nat, drawn: OrderId, s': Sys)
    requires Locals(s) && EffectsMarked(s) && Takes(s, t, drawn, s')
    ensures EffectsMarked(s')
  {
    hide Step, Local;
    var th := s.threads[t];
    assert Local(s.sh, th.req, th.pc);
    StepEffect(s.sh, t, th.req, th.pc, drawn);
    forall e | e in s'.sh.d.effects && e !in s'.sh.d.processed
      ensures exists u :: u in s'.threads && Marking(s'.threads[u], e)
    {
      if e !in s.sh.d.effects {
        assert Marking(s'.threads[t], e);
      } else {
        var u :| u in s.threads && Marking(s.threads[u], e);
        assert u != t;
        assert Marking(s'.threads[u], e);
      }
    }
  }

  // ----- The invariant --------------------------------------------------------

  lemma InvTakes(s: Sys, t: nat, drawn: OrderId, s': Sys)
    requires Inv(s) && Takes(s, t, drawn, s')
    ensures Inv(s')
  {
    hide Step, Local, SharedOk;
    var th := s.threads[t];
    assert OrdersOk(s.sh) by { SharedParts(s.sh); }
    LocksNext(s, t, drawn, s');
    LocalsNext(s, t, drawn, s');
    DraftsNext(s, t, drawn, s');
    TimeoutsNext(s, t, drawn, s');
    EnteredNext(s, t, drawn, s');
    EffectsNext(s, t, drawn, s');
    if th.pc == W(WEffect) { EffectFresh(s, t); }
    assert Local(s.sh, th.req, th.pc);
    StepShared(s.sh, t, th.req, th.pc, drawn);
  }

  lemma SharedParts(sh: Shared)
    requires SharedOk(sh)
    ensures TablesOk(sh) && OrdersOk(sh) && LedgerOk(sh) && EventsOk(sh)
  {
  }

  lemma StartFacts(sh: Shared, req: Request)
    ensures Local(sh, req, Start) && Draft(Start).None? && TimedOutOn(Start).None?
    ensures forall l :: !Has(Start, l)
  {
  }

  lemma InvArrives(s: Sys, t: nat, req: Request, s': Sys)
    requires Inv(s) && Arrives(s, t, req, s')
    ensures Inv(s')
  {
    StartFacts(s.sh, req);
    hide SharedOk, Local, Has, Draft, TimedOutOn;
    forall oid | oid in s'.sh.d.orders && !(exists i :: i in s'.sh.d.idempotency && s'.sh.d.idempotency[i] == oid)
      ensures exists u :: u in s'.threads && Recording(s'.threads[u].pc, oid)
    {
      var u :| u in s.threads && Recording(s.threads[u].pc, oid);
      assert Recording(s'.threads[u].pc, oid);
    }
    forall e | e in s'.sh.d.effects && e !in s'.sh.d.processed
      ensures exists u :: u in s'.threads && Marking(s'.threads[u], e)
    {
      var u :| u in s.threads && Marking(s.threads[u], e);
      assert Marking(s'.threads[u], e);
    }
  }

  lemma InvNext(s: Sys, s': Sys)
    requires Inv(s) && Next(s, s')
    ensures Inv(s')
  {
    hide Inv, Takes, Arrives;
    if Advances(s, s') {
      var t, drawn :| Takes(s, t, drawn, s');
      InvTakes(s, t, drawn, s');
    } else {
      var t, req :| Arrives(s, t, req, s');
      InvArrives(s, t, req, s');
    }
  }

  /** Every state of every interleaved run satisfies the invariant. */
  lemma {:induction false} RunInvariant(run: seq<Sys>, stock: nat, price: nat, i: nat)
    requires Run(run, stock, price) && i < |run|
    ensures Inv(run[i])
  {
    if i > 0 {
      RunInvariant(run, stock, price, i - 1);
      InvNext(run[i - 1], run[i - 1 + 1]);
    }
  }
}

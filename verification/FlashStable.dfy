/** Non-interference: a step of one request never breaks what another one assumes. */
module FlashStable {
  import opened Prelude
  import opened FlashModel
  import opened FlashInvariant

  /** Two requests at points that can coexist: no common lock, no common drawn id. */
  ghost predicate Apart(pc: Pc, other: Pc) {
    && (forall l :: !(Has(pc, l) && Has(other, l)))
    && (Draft(pc).Some? ==> Draft(pc) != Draft(other))
  }

  lemma StableReply(sh: Shared, sh': Shared, actor: Request, at: Pc, req: Request, reply: Reply)
    requires ReplyLocal(sh, req, reply) && Guarantee(sh, sh', actor, at)
    ensures ReplyLocal(sh', req, reply)
  {
  }

  /** Two requests under their locks for one identity hold the same lock. */
  lemma SameIdentityMeets(sh: Shared, actor: Request, at: Pc, req: Request, lk: nat, k: KeyedPc)
    requires Local(sh, actor, at) && at.Keyed? && LockOf(sh, req, lk) && IdentityOf(actor) == IdentityOf(req)
    ensures Has(at, KeyLock(lk)) && Has(Keyed(lk, k), KeyLock(lk))
  {
  }

  /** An identity without an order stays without one while another request runs. */
  lemma StableVacant(sh: Shared, sh': Shared, actor: Request, at: Pc, req: Request, lk: nat, k: KeyedPc)
    requires Guarantee(sh, sh', actor, at) && Local(sh, actor, at)
    requires LockOf(sh, req, lk) && Apart(at, Keyed(lk, k))
    requires IdentityOf(req) !in sh.d.idempotency
    ensures IdentityOf(req) !in sh'.d.idempotency
  {
    if at.Keyed? && at.k.KRecord? && Admitted(actor) && IdentityOf(actor) == IdentityOf(req) {
      SameIdentityMeets(sh, actor, at, req, lk, k);
    }
  }

  lemma StableRelease(sh: Shared, sh': Shared, actor: Request, at: Pc, pc: Pc, oid: OrderId, r: ReleasePc)
    requires Guarantee(sh, sh', actor, at) && Apart(at, pc)
    requires ReleaseLocal(sh, oid, r) && (!r.RAcquire? ==> Has(pc, InventoryLock))
    ensures ReleaseLocal(sh', oid, r)
  {
    assert !r.RAcquire? ==> !Has(at, InventoryLock);
  }

  lemma StableCharge(sh: Shared, sh': Shared, actor: Request, at: Pc, pc: Pc, oid: OrderId, p: ChargePc)
    requires Guarantee(sh, sh', actor, at) && Apart(at, pc)
    requires ChargeLocal(sh, oid, p) && (!p.PAcquire? ==> Has(pc, PaymentLock))
    ensures ChargeLocal(sh', oid, p)
  {
    assert !p.PAcquire? ==> !Has(at, PaymentLock);
  }

  lemma StableDraft(sh: Shared, sh': Shared, actor: Request, at: Pc, req: Request, lk: nat, k: KeyedPc)
    requires Guarantee(sh, sh', actor, at) && Local(sh, actor, at)
    requires LockOf(sh, req, lk) && Apart(at, Keyed(lk, k))
    requires k.KReserve? || k.KBuild? || k.KPublish? || k.KRecord?
    requires KeyedLocal(sh, req, k)
    ensures KeyedLocal(sh', req, k)
  {
    StableVacant(sh, sh', actor, at, req, lk, k);
    if k.KReserve? && !k.v.VAcquire? {
      assert Has(Keyed(lk, k), InventoryLock);
      assert !Has(at, InventoryLock);
    }
  }

  lemma StableKeyed(sh: Shared, sh': Shared, actor: Request, at: Pc, req: Request, lk: nat, k: KeyedPc)
    requires Guarantee(sh, sh', actor, at) && Local(sh, actor, at)
    requires LockOf(sh, req, lk) && Apart(at, Keyed(lk, k))
    requires KeyedLocal(sh, req, k)
    ensures KeyedLocal(sh', req, k)
  {
    if k.KReserve? || k.KBuild? || k.KPublish? || k.KRecord? {
      StableDraft(sh, sh', actor, at, req, lk, k);
    } else if k.KCharge? {
      StableCharge(sh, sh', actor, at, Keyed(lk, k), k.oid, k.p);
    } else if k.KRelease? {
      StableRelease(sh, sh', actor, at, Keyed(lk, k), k.oid, k.r);
    } else if k.KUnlock? {
      StableReply(sh, sh', actor, at, req, k.reply);
    }
  }

  lemma StableWebhook(sh: Shared, sh': Shared, actor: Request, at: Pc, req: Request, w: WebhookPc)
    requires Guarantee(sh, sh', actor, at) && Apart(at, W(w))
    requires req.Webhook? && WebhookLocal(sh, req, w)
    ensures WebhookLocal(sh', req, w)
  {
    assert Has(W(w), StateLock);
    assert !Has(at, StateLock);
    if w.WRelease? {
      StableRelease(sh, sh', actor, at, W(w), req.orderId, w.r);
    } else if w.WUnlock? {
      StableReply(sh, sh', actor, at, req, w.reply);
    }
  }

  lemma Stable(sh: Shared, sh': Shared, actor: Request, at: Pc, req: Request, pc: Pc)
    requires Guarantee(sh, sh', actor, at) && Local(sh, actor, at) && Apart(at, pc)
    requires Local(sh, req, pc)
    ensures Local(sh', req, pc)
  {
    match pc
    case Keyed(lk, k) => StableKeyed(sh, sh', actor, at, req, lk, k);
    case X(x) =>
      if x.XRelease? { StableRelease(sh, sh', actor, at, pc, req.orderId, x.r); }
      if x.XUnlock? { StableReply(sh, sh', actor, at, req, x.reply); }
    case W(w) => StableWebhook(sh, sh', actor, at, req, w);
    case Done(reply) => StableReply(sh, sh', actor, at, req, reply);
    case _ =>
  }
}

/** What a call to the provider means in terms of the replies it got. */
module ProviderMeaning {
  import opened Prelude
  import opened Provider

  /** Worth another try: a timeout, a server error, or a rate limit that is no exhausted quota and
      names a wait of at most a minute. */
  ghost predicate Transient(reply: Reply) {
    match reply
    case TimedOut => true
    case Broken => false
    case Answered(r) =>
      || r.status >= 500
      || (r.status == 429 && !r.hardQuota && r.retryAfter.Some? && 0.0 <= r.retryAfter.value <= 60.0)
  }

  /** An answer below 400 with message content. */
  ghost predicate Carries(reply: Reply) {
    reply.Answered? && reply.response.status < 400 && reply.response.body.Content?
  }

  /** Model output that is cut off or does not pass the check. */
  ghost predicate Flawed(reply: Reply, cut: string -> bool, check: string -> Check)
    requires Carries(reply)
  {
    var body := reply.response.body;
    (body.finish.Some? && cut(body.finish.value)) || check(body.text) != Accepted
  }

  /** The error a reply that carries no output ends in. */
  ghost predicate KindOf(reply: Reply, kind: Kind) {
    match reply
    case TimedOut => kind == Timeout
    case Broken => kind == Unavailable
    case Answered(r) =>
      if r.status == 401 || r.status == 403 then kind == Authentication
      else if r.status == 429 then kind == RateLimited(r.retryAfter)
      else if r.status >= 400 then kind == Unavailable
      else kind == ParseError
  }

  /** The error flawed output ends in. */
  ghost predicate FlawOf(reply: Reply, cut: string -> bool, check: string -> Check, kind: Kind)
    requires Carries(reply)
  {
    var body := reply.response.body;
    if body.finish.Some? && cut(body.finish.value) then kind == Truncated
    else
      match check(body.text)
      case Accepted => false
      case Unparsable(looksTruncated) => kind == if looksTruncated then Truncated else ParseError
      case Rejected => kind == ValidationError
  }

  /** The first `n` replies make one request: all but the last are transient, and the last is not,
      unless it was the last try. */
  ghost predicate Tries(c: Config, peer: nat -> Reply, from: nat, n: nat) {
    && 1 <= n <= c.retries + 1
    && (forall k :: from <= k < from + n - 1 ==> Transient(peer(k)))
    && (n == c.retries + 1 || !Transient(peer(from + n - 1)))
  }

  lemma PostsMeans(c: Config, peer: nat -> Reply, from: nat, n: nat)
    ensures Posts(c, peer, from, n) <==> Tries(c, peer, from, n)
  {
    if Posts(c, peer, from, n) {
      forall k | from <= k < from + n - 1 ensures Transient(peer(k)) { assert RetriesAt(c, peer, from, k - from); }
      assert !RetriesAt(c, peer, from, n - 1);
    }
    if Tries(c, peer, from, n) {
      forall k | 0 <= k < n - 1 ensures RetriesAt(c, peer, from, k) { assert Transient(peer(from + k)); }
    }
  }

  /** One request: which replies it takes, when it yields output and which, and which error otherwise. */
  lemma RequestMeans(c: Config, peer: nat -> Reply, from: nat, n: nat, s: real, r: Result<Generated, Failure>)
    requires Requests(c, peer, from, n, s, r)
    ensures Tries(c, peer, from, n)
    ensures r.Ok? <==> Carries(peer(from + n - 1))
    ensures r.Ok? ==> r.value.content == peer(from + n - 1).response.body.text && r.value.finish == peer(from + n - 1).response.body.finish
    ensures r.Err? ==> KindOf(peer(from + n - 1), r.error.kind) && r.error.preserved == []
  {
    PostsMeans(c, peer, from, n);
    ConcludesMeans(peer, from, n, r);
  }

  lemma ConcludesMeans(peer: nat -> Reply, from: nat, n: nat, r: Result<Generated, Failure>)
    requires n >= 1 && Concludes(peer, from, n, r)
    ensures r.Ok? <==> Carries(peer(from + n - 1))
    ensures r.Ok? ==> r.value.content == peer(from + n - 1).response.body.text && r.value.finish == peer(from + n - 1).response.body.finish
    ensures r.Err? ==> KindOf(peer(from + n - 1), r.error.kind) && r.error.preserved == []
  {
    hide LastAnswer, RequestAccounting;
  }

  function Listed(value: Option<string>): seq<string> { if value.Some? then [value.value] else [] }

  /** The first request of a call yields flawed output after `n` replies. */
  ghost predicate FirstFlawed(c: Config, peer: nat -> Reply, cut: string -> bool, check: string -> Check, from: nat, n: nat) {
    Tries(c, peer, from, n) && Carries(peer(from + n - 1)) && Flawed(peer(from + n - 1), cut, check)
  }

  lemma FaultMeans(peer: nat -> Reply, at: nat, g: Generated, cut: string -> bool, check: string -> Check)
    requires Carries(peer(at)) && g.content == peer(at).response.body.text && g.finish == peer(at).response.body.finish
    ensures Fault(g, cut, check).Some? <==> Flawed(peer(at), cut, check)
    ensures Fault(g, cut, check).Some? ==> FlawOf(peer(at), cut, check, Fault(g, cut, check).value)
  {
  }

  lemma TriesOnce(c: Config, peer: nat -> Reply, from: nat, n: nat, m: nat)
    requires Tries(c, peer, from, n) && Tries(c, peer, from, m)
    ensures n == m
  {
    PostsMeans(c, peer, from, n);
    PostsMeans(c, peer, from, m);
    PostsUnique(c, peer, from, n, m);
  }

  /** A call returns only output that was accepted and not cut off: the output of its last reply. */
  lemma ResultMeans(c: Config, peer: nat -> Reply, cut: string -> bool, check: string -> Check, from: nat,
                    q: nat, n: nat, s: real, r: Result<Generated, Failure>)
    requires Exchange(c, peer, cut, check, from, q, n, s, r) && r.Ok?
    ensures n >= 1 && Carries(peer(from + n - 1))
    ensures var body := peer(from + n - 1).response.body;
            && r.value.content == body.text && r.value.finish == body.finish
            && check(r.value.content) == Accepted && (r.value.finish.Some? ==> !cut(r.value.finish.value))
  {
    hide Requests, Tries;
    if q == 1 {
      RequestMeans(c, peer, from, n, s, r);
      FaultMeans(peer, from + n - 1, r.value, cut, check);
    } else {
      var n1: nat, s1: real, n2: nat, s2: real, first, second :|
        Repairs(c, peer, cut, check, from, n, s, n1, s1, n2, s2, first, second, r);
      RequestMeans(c, peer, from + n1, n2, s2, second);
      assert (from + n1) + n2 - 1 == from + n - 1;
      FaultMeans(peer, from + n - 1, second.value, cut, check);
      TriesPositive(c, peer, from + n1, n2);
    }
  }

  lemma TriesPositive(c: Config, peer: nat -> Reply, from: nat, n: nat)
    requires Tries(c, peer, from, n)
    ensures n >= 1
  {
  }

  /** There is a repair exactly when the first request yields flawed output, and the repair begins
      with the next reply. */
  lemma RepairIff(c: Config, peer: nat -> Reply, cut: string -> bool, check: string -> Check, from: nat,
                  q: nat, n: nat, s: real, r: Result<Generated, Failure>)
    requires Exchange(c, peer, cut, check, from, q, n, s, r) && c.json
    ensures q == 2 <==> exists n1: nat :: FirstFlawed(c, peer, cut, check, from, n1)
    ensures q == 1 ==> Tries(c, peer, from, n)
    ensures forall n1: nat :: FirstFlawed(c, peer, cut, check, from, n1) ==> n1 < n && Tries(c, peer, from + n1, n - n1)
  {
    hide Requests, Tries, Fault, Flawed, Carries;
    if q == 1 {
      RequestMeans(c, peer, from, n, s, r);
      if n1: nat :| FirstFlawed(c, peer, cut, check, from, n1) {
        TriesOnce(c, peer, from, n, n1);
        FaultMeans(peer, from + n - 1, r.value, cut, check);
      }
    } else {
      var n1: nat, s1: real, n2: nat, s2: real, first, second :|
        Repairs(c, peer, cut, check, from, n, s, n1, s1, n2, s2, first, second, r);
      RequestMeans(c, peer, from, n1, s1, Ok(first));
      FaultMeans(peer, from + n1 - 1, first, cut, check);
      RequestMeans(c, peer, from + n1, n2, s2, second);
      TriesPositive(c, peer, from + n1, n2);
      assert FirstFlawed(c, peer, cut, check, from, n1);
      forall m: nat | FirstFlawed(c, peer, cut, check, from, m) ensures m == n1 { TriesOnce(c, peer, from, m, n1); }
    }
  }

  /** A failed call: the error of its last reply, or of the flaw in its output. A failed repair keeps
      every output received, in order; a call without a repair keeps none. */
  lemma FailureMeans(c: Config, peer: nat -> Reply, cut: string -> bool, check: string -> Check, from: nat,
                     q: nat, n: nat, s: real, r: Result<Generated, Failure>)
    requires Exchange(c, peer, cut, check, from, q, n, s, r) && c.json && r.Err?
    ensures n >= 1
    ensures var last, kind := peer(from + n - 1), r.error.kind;
            if Carries(last) then q == 2 && Flawed(last, cut, check) && FlawOf(last, cut, check, kind) else KindOf(last, kind)
    ensures q == 1 ==> r.error.preserved == []
    ensures forall n1: nat :: FirstFlawed(c, peer, cut, check, from, n1) ==>
              r.error.preserved == [peer(from + n1 - 1).response.body.text]
                                   + (if Carries(peer(from + n - 1)) then [peer(from + n - 1).response.body.text] else [])
  {
    hide Requests, Tries, Fault, Flawed, Carries;
    if q == 1 {
      RequestMeans(c, peer, from, n, s, r);
      TriesPositive(c, peer, from, n);
      if n1: nat :| FirstFlawed(c, peer, cut, check, from, n1) { RepairIff(c, peer, cut, check, from, q, n, s, r); }
    } else {
      var n1: nat, s1: real, n2: nat, s2: real, first, second :|
        Repairs(c, peer, cut, check, from, n, s, n1, s1, n2, s2, first, second, r);
      RequestMeans(c, peer, from, n1, s1, Ok(first));
      RequestMeans(c, peer, from + n1, n2, s2, second);
      TriesPositive(c, peer, from + n1, n2);
      assert (from + n1) + n2 - 1 == from + n - 1;
      if second.Ok? { FaultMeans(peer, from + n - 1, second.value, cut, check); }
      forall m: nat | FirstFlawed(c, peer, cut, check, from, m) ensures m == n1 { TriesOnce(c, peer, from, m, n1); }
    }
  }

  /** The identifiers and finish reasons of a successful call: those of the answers that carried its
      output, first the flawed one if there was a repair. */
  lemma TracesMean(c: Config, peer: nat -> Reply, cut: string -> bool, check: string -> Check, from: nat,
                   q: nat, n: nat, s: real, r: Result<Generated, Failure>)
    requires Exchange(c, peer, cut, check, from, q, n, s, r) && r.Ok?
    ensures n >= 1 && Carries(peer(from + n - 1))
    ensures q == 1 ==>
              && r.value.accounting.requestIds == Listed(peer(from + n - 1).response.requestId)
              && r.value.accounting.finishReasons == Listed(peer(from + n - 1).response.body.finish)
    ensures forall n1: nat :: FirstFlawed(c, peer, cut, check, from, n1) ==>
              && r.value.accounting.requestIds
                 == Listed(peer(from + n1 - 1).response.requestId) + Listed(peer(from + n - 1).response.requestId)
              && r.value.accounting.finishReasons
                 == Listed(peer(from + n1 - 1).response.body.finish) + Listed(peer(from + n - 1).response.body.finish)
  {
    hide Requests, Tries, Fault, Flawed, Carries, FirstFlawed, Repaired;
    if q == 1 {
      RequestTraces(c, peer, from, n, s, r);
      forall n1: nat ensures !FirstFlawed(c, peer, cut, check, from, n1) { RepairIff(c, peer, cut, check, from, q, n, s, r); }
    } else {
      var n1: nat, s1: real, n2: nat, s2: real, first, second :|
        Repairs(c, peer, cut, check, from, n, s, n1, s1, n2, s2, first, second, r);
      RepairTraces(c, peer, cut, check, from, n, s, n1, s1, n2, s2, first, second, r);
      forall m: nat | FirstFlawed(c, peer, cut, check, from, m) ensures m == n1 {
        FlawedTries(c, peer, cut, check, from, m);
        TriesOnce(c, peer, from, m, n1);
      }
    }
  }

  lemma FlawedTries(c: Config, peer: nat -> Reply, cut: string -> bool, check: string -> Check, from: nat, n: nat)
    requires FirstFlawed(c, peer, cut, check, from, n)
    ensures Tries(c, peer, from, n)
  {
  }

  lemma RepairTraces(c: Config, peer: nat -> Reply, cut: string -> bool, check: string -> Check, from: nat,
                     n: nat, s: real, n1: nat, s1: real, n2: nat, s2: real,
                     first: Generated, second: Result<Generated, Failure>, r: Result<Generated, Failure>)
    requires Repairs(c, peer, cut, check, from, n, s, n1, s1, n2, s2, first, second, r) && r.Ok?
    ensures n1 >= 1 && n >= 1 && Tries(c, peer, from, n1) && Carries(peer(from + n1 - 1)) && Carries(peer(from + n - 1))
    ensures r.value.accounting.requestIds
         == Listed(peer(from + n1 - 1).response.requestId) + Listed(peer(from + n - 1).response.requestId)
    ensures r.value.accounting.finishReasons
         == Listed(peer(from + n1 - 1).response.body.finish) + Listed(peer(from + n - 1).response.body.finish)
  {
    hide Requests, Tries, Fault, Carries;
    RequestTraces(c, peer, from, n1, s1, Ok(first));
    RequestTraces(c, peer, from + n1, n2, s2, second);
    assert (from + n1) + n2 - 1 == from + n - 1;
  }

  lemma RequestTraces(c: Config, peer: nat -> Reply, from: nat, n: nat, s: real, r: Result<Generated, Failure>)
    requires Requests(c, peer, from, n, s, r) && r.Ok?
    ensures n >= 1 && Tries(c, peer, from, n) && Carries(peer(from + n - 1))
    ensures r.value.accounting.requestIds == Listed(peer(from + n - 1).response.requestId)
    ensures r.value.accounting.finishReasons == Listed(peer(from + n - 1).response.body.finish)
  {
    hide Slept, LastAnswer;
    RequestMeans(c, peer, from, n, s, r);
  }

  // ----- Delays ----------------------------------------------------------------------------

  /** The wait after a transient reply: what the server asks for, if at most a minute; otherwise the
      backoff of that attempt, after an answer for at most a minute. */
  lemma DelayMeans(c: Config, peer: nat -> Reply, from: nat, k: nat)
    ensures var reply := peer(from + k);
            var wait := if reply.Answered? && reply.response.retryAfter.Some? && 0.0 <= reply.response.retryAfter.value <= 60.0
                        then reply.response.retryAfter.value
                        else if reply.Answered? && Backoff(c, k) > 60.0 then 60.0
                        else Backoff(c, k);
            Slept(c, peer, from, k + 1) == Slept(c, peer, from, k) + wait
  {
    hide Backoff;
    assert from + (k + 1) - 1 == from + k;
  }

  /** The backoff starts at the base and doubles with every attempt. */
  lemma BackoffDoubles(c: Config, k: nat)
    ensures Backoff(c, 0) == c.backoff && Backoff(c, k + 1) == 2.0 * Backoff(c, k)
  {
    var d := Doubled(k) as real;
    assert Doubled(k + 1) as real == 2.0 * d;
    assert c.backoff * (2.0 * d) == 2.0 * (c.backoff * d);
  }

  /** `Doubled` is two to the power of the attempt. */
  lemma {:induction false} DoubledAdds(a: nat, b: nat)
    ensures Doubled(a + b) == Doubled(a) * Doubled(b) && Doubled(0) == 1 && Doubled(1) == 2
  {
    if a > 0 {
      DoubledAdds(a - 1, b);
      assert Doubled(a + b) == 2 * Doubled(a - 1 + b);
      assert 2 * (Doubled(a - 1) * Doubled(b)) == (2 * Doubled(a - 1)) * Doubled(b);
    }
  }
}

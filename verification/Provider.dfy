/** The retry and repair loop of the OpenAI-compatible provider, with exact accounting on every exit. */
module Provider {
  import opened Prelude

  // ----- The peer ----------------------------------------------------------------------

  /** The body of an answer: not JSON, without message content, or with it. */
  datatype Body =
    | NotJson
    | NoContent
    | Content(text: string, inputTokens: nat, outputTokens: nat, finish: Option<string>)

  datatype Response = Response(
    status: nat, retryAfter: Option<real>, hardQuota: bool, requestId: Option<string>, body: Body)

  /** What one POST ends in. */
  datatype Reply = TimedOut | Broken | Answered(response: Response)

  datatype Message = Message(role: string, content: string) | RepairRequest(truncated: bool)

  // ----- Accounting ----------------------------------------------------------------------

  datatype Accounting = Accounting(
    inputTokens: nat, outputTokens: nat, semanticAttempts: nat, transportAttempts: nat,
    repairUsed: bool, requestIds: seq<string>, finishReasons: seq<string>)

  const NOTHING := Accounting(0, 0, 0, 0, false, [], [])

  datatype Generated = Generated(content: string, finish: Option<string>, accounting: Accounting)

  datatype Kind =
    | UnsupportedCapability | Authentication | RateLimited(after: Option<real>) | Timeout | Unavailable
    | ParseError | Truncated | ValidationError

  /** `preserved`: the model outputs kept with the error. */
  datatype Failure = Failure(kind: Kind, accounting: Accounting, preserved: seq<string>)

  /** How a model output fares against the response model. */
  datatype Check = Accepted | Unparsable(looksTruncated: bool) | Rejected

  datatype Config = Config(json: bool, retries: nat, backoff: real)

  function Doubled(attempt: nat): nat { if attempt == 0 then 1 else 2 * Doubled(attempt - 1) }

  /** The backoff after an attempt: the base, doubled each time. */
  function Backoff(c: Config, attempt: nat): real { c.backoff * Doubled(attempt) as real }

  predicate Patient(after: Option<real>) { after.Some? && 0.0 <= after.value <= 60.0 }

  function Least(a: real, b: real): real { if a <= b then a else b }

  /** Whether the loop tries again after this reply. */
  predicate Retries(c: Config, reply: Reply, attempt: nat) {
    attempt < c.retries &&
    match reply
    case TimedOut => true
    case Broken => false
    case Answered(r) => (r.status == 429 && !r.hardQuota && Patient(r.retryAfter)) || r.status >= 500
  }

  /** How long it sleeps before that. */
  function Delay(c: Config, reply: Reply, attempt: nat): real {
    match reply
    case Answered(r) =>
      if Patient(r.retryAfter) then r.retryAfter.value
      else Least(Backoff(c, attempt), 60.0)
    case _ => Backoff(c, attempt)
  }

  function Truthy(id: Option<string>): seq<string> { if id.Some? && id.value != "" then [id.value] else [] }

  function Ids(id: Option<string>): seq<string> { if id.Some? then [id.value] else [] }

  /** The accounting of an error: the identifier is that of the last answer so far, if any. */
  function RequestAccounting(attempts: nat, last: Option<Response>): Accounting {
    Accounting(0, 0, 1, attempts, false, if last.Some? then Truthy(last.value.requestId) else [], [])
  }

  // ----- What a request is ---------------------------------------------------------------

  /** The last answer among the first `n` replies from `from` on. */
  ghost function LastAnswer(peer: nat -> Reply, from: nat, n: nat): Option<Response> {
    if n == 0 then None
    else if peer(from + n - 1).Answered? then Some(peer(from + n - 1).response)
    else LastAnswer(peer, from, n - 1)
  }

  ghost function Slept(c: Config, peer: nat -> Reply, from: nat, n: nat): real {
    if n == 0 then 0.0 else Slept(c, peer, from, n - 1) + Delay(c, peer(from + n - 1), n - 1)
  }

  /** A request sends exactly `n` POSTs: every reply but the last is retried, the last is not. */
  ghost predicate Posts(c: Config, peer: nat -> Reply, from: nat, n: nat) {
    && 1 <= n <= c.retries + 1
    && (forall k :: 0 <= k < n - 1 ==> RetriesAt(c, peer, from, k))
    && !RetriesAt(c, peer, from, n - 1)
  }

  ghost predicate RetriesAt(c: Config, peer: nat -> Reply, from: nat, attempt: nat) {
    Retries(c, peer(from + attempt), attempt)
  }

  lemma PostsUnique(c: Config, peer: nat -> Reply, from: nat, n: nat, m: nat)
    requires Posts(c, peer, from, n) && Posts(c, peer, from, m)
    ensures n == m
  {
  }

  /** The error a last reply means, if it does not carry model output. */
  function Refusal(reply: Reply): Option<Kind> {
    match reply
    case TimedOut => Some(Timeout)
    case Broken => Some(Unavailable)
    case Answered(r) =>
      if r.status == 401 || r.status == 403 then Some(Authentication)
      else if r.status == 429 then Some(RateLimited(r.retryAfter))
      else if r.status >= 400 then Some(Unavailable)
      else if !r.body.Content? then Some(ParseError)
      else None
  }

  /** The outcome of a request of `n` POSTs from `from` on. */
  ghost predicate Concludes(peer: nat -> Reply, from: nat, n: nat, r: Result<Generated, Failure>)
    requires n >= 1
  {
    var last := peer(from + n - 1);
    if Refusal(last).Some? then
      r == Err(Failure(Refusal(last).value, RequestAccounting(n, LastAnswer(peer, from, n)), []))
    else
      var b := last.response.body;
      r == Ok(Generated(b.text, b.finish, Accounting(
                b.inputTokens, b.outputTokens, 1, n, false, Ids(last.response.requestId),
                if b.finish.Some? then [b.finish.value] else [])))
  }

  // ----- The whole exchange --------------------------------------------------------------

  /** What is wrong with a model output: cut off, unparsable, or not what the model asks for. */
  function Fault(g: Generated, cut: string -> bool, check: string -> Check): Option<Kind> {
    if g.finish.Some? && cut(g.finish.value) then Some(Truncated)
    else
      match check(g.content)
      case Accepted => None
      case Unparsable(looksTruncated) => Some(if looksTruncated then Truncated else ParseError)
      case Rejected => Some(ValidationError)
  }

  function Combine(first: Accounting, second: Accounting): Accounting {
    Accounting(first.inputTokens + second.inputTokens, first.outputTokens + second.outputTokens, 2,
               first.transportAttempts + second.transportAttempts, true,
               first.requestIds + second.requestIds, first.finishReasons + second.finishReasons)
  }

  /** The outcome of a repair: its failures carry the accounting and the outputs of both requests. */
  function Repaired(first: Generated, second: Result<Generated, Failure>, cut: string -> bool, check: string -> Check)
    : Result<Generated, Failure>
  {
    match second
    case Err(e) => Err(Failure(e.kind, Combine(first.accounting, e.accounting), [first.content]))
    case Ok(g) =>
      var combined := Combine(first.accounting, g.accounting);
      if Fault(g, cut, check).Some? then Err(Failure(Fault(g, cut, check).value, combined, [first.content, g.content]))
      else Ok(Generated(g.content, g.finish, combined))
  }

  /** One request of `n` POSTs that slept for `s`. */
  ghost predicate Requests(c: Config, peer: nat -> Reply, from: nat, n: nat, s: real, r: Result<Generated, Failure>) {
    Posts(c, peer, from, n) && Concludes(peer, from, n, r) && s == Slept(c, peer, from, n - 1)
  }

  ghost predicate Repairs(c: Config, peer: nat -> Reply, cut: string -> bool, check: string -> Check, from: nat,
                          n: nat, s: real, n1: nat, s1: real, n2: nat, s2: real,
                          first: Generated, second: Result<Generated, Failure>, r: Result<Generated, Failure>)
  {
    && Requests(c, peer, from, n1, s1, Ok(first)) && Fault(first, cut, check).Some?
    && Requests(c, peer, from + n1, n2, s2, second)
    && n == n1 + n2 && s == s1 + s2 && r == Repaired(first, second, cut, check)
  }

  /** The exchange of one call: `q` requests of `n` POSTs in all, sleeping for `s`. Exactly one
      repair follows exactly the outputs that are at fault. */
  ghost predicate Exchange(c: Config, peer: nat -> Reply, cut: string -> bool, check: string -> Check, from: nat,
                           q: nat, n: nat, s: real, r: Result<Generated, Failure>)
  {
    if !c.json then q == 0 && n == 0 && s == 0.0 && r == Err(Failure(UnsupportedCapability, NOTHING, []))
    else if q == 1 then Requests(c, peer, from, n, s, r) && (r.Ok? ==> Fault(r.value, cut, check).None?)
    else
      q == 2 && exists n1: nat, s1: real, n2: nat, s2: real, first, second ::
        Repairs(c, peer, cut, check, from, n, s, n1, s1, n2, s2, first, second, r)
  }

  /** What a call with a repair sends: first the messages alone, up to the reply that carries the
      flawed output; then the messages, the first 12000 characters of that output, and a request for
      its repair that says whether the output was cut off. */
  ghost predicate RepairSent(peer: nat -> Reply, cut: string -> bool, check: string -> Check, messages: seq<Message>,
                             from: nat, sent: seq<seq<Message>>, n1: nat)
  {
    && 1 <= n1 < |sent| && peer(from + n1 - 1).Answered? && peer(from + n1 - 1).response.body.Content?
    && (forall k :: 0 <= k < n1 ==> sent[k] == messages)
    && var body := peer(from + n1 - 1).response.body;
       var echo := if |body.text| <= 12000 then body.text else body.text[..12000];
       var truncated := (body.finish.Some? && cut(body.finish.value)) || check(body.text) == Unparsable(true);
       forall k :: n1 <= k < |sent| ==> sent[k] == messages + [Message("assistant", echo), RepairRequest(truncated)]
  }

  /** The output of a request, and whether a fault of it is that it was cut off. */
  lemma FlawedOutput(c: Config, peer: nat -> Reply, cut: string -> bool, check: string -> Check, from: nat, n: nat, s: real, g: Generated)
    requires Requests(c, peer, from, n, s, Ok(g)) && Fault(g, cut, check).Some?
    ensures n >= 1 && peer(from + n - 1).Answered? && peer(from + n - 1).response.body.Content?
    ensures var body := peer(from + n - 1).response.body;
            && body.text == g.content && body.finish == g.finish
            && (Fault(g, cut, check) == Some(Truncated) <==>
                  (body.finish.Some? && cut(body.finish.value)) || check(body.text) == Unparsable(true))
  {
  }

  /** The facts one more reply adds. */
  lemma Unfold(c: Config, peer: nat -> Reply, from: nat, attempt: nat)
    ensures LastAnswer(peer, from, 0) == None && Slept(c, peer, from, 0) == 0.0
    ensures Slept(c, peer, from, attempt + 1) == Slept(c, peer, from, attempt) + Delay(c, peer(from + attempt), attempt)
    ensures LastAnswer(peer, from, attempt + 1)
         == if peer(from + attempt).Answered? then Some(peer(from + attempt).response) else LastAnswer(peer, from, attempt)
    ensures RetriesAt(c, peer, from, attempt) <==> Retries(c, peer(from + attempt), attempt)
    ensures Posts(c, peer, from, attempt + 1) <==>
              attempt <= c.retries && !RetriesAt(c, peer, from, attempt) && forall k :: 0 <= k < attempt ==> RetriesAt(c, peer, from, k)
  {
  }

  class Provider {
    const config: Config
    const peer: nat -> Reply
    const cut: string -> bool
    const check: string -> Check
    /** The messages of every POST sent so far. */
    var posts: seq<seq<Message>>
    var requests: nat
    var slept: real

    constructor (config: Config, peer: nat -> Reply, cut: string -> bool, check: string -> Check)
      ensures this.config == config && this.peer == peer && this.cut == cut && this.check == check
      ensures posts == [] && requests == 0 && slept == 0.0
    {
      this.config, this.peer, this.cut, this.check := config, peer, cut, check;
      posts, requests, slept := [], 0, 0.0;
    }

    method Request(messages: seq<Message>) returns (r: Result<Generated, Failure>)
      modifies this
      ensures requests == old(requests) + 1
      ensures old(posts) <= posts && forall k :: |old(posts)| <= k < |posts| ==> posts[k] == messages
      ensures Requests(config, peer, |old(posts)|, |posts| - |old(posts)|, slept - old(slept), r)
    {
      hide Slept, LastAnswer, Backoff, Posts, RetriesAt;
      requests := requests + 1;
      var response: Option<Response> := None;
      ghost var from := |posts|;
      Unfold(config, peer, from, 0);
      var attempts := 0;
      for attempt := 0 to config.retries + 1
        invariant requests == old(requests) + 1 && |posts| == from + attempt
        invariant old(posts) <= posts && forall k :: from <= k < |posts| ==> posts[k] == messages
        invariant response == LastAnswer(peer, from, attempt) && slept == old(slept) + Slept(config, peer, from, attempt)
        invariant forall k :: 0 <= k < attempt ==> RetriesAt(config, peer, from, k)
        invariant attempt <= config.retries
      {
        var reply := peer(|posts|);
        Unfold(config, peer, from, attempt);
        posts := posts + [messages];
        attempts := attempt + 1;
        match reply {
          case TimedOut =>
            if attempt == config.retries {
              return Err(Failure(Timeout, RequestAccounting(attempts, response), []));
            }
            slept := slept + Backoff(config, attempt);
            continue;
          case Broken =>
            return Err(Failure(Unavailable, RequestAccounting(attempts, response), []));
          case Answered(answer) =>
            response := Some(answer);
            if answer.status == 401 || answer.status == 403 {
              return Err(Failure(Authentication, RequestAccounting(attempts, response), []));
            }
            if answer.status == 429 {
              if !answer.hardQuota && Patient(answer.retryAfter) && attempt < config.retries {
                slept := slept + answer.retryAfter.value;
                continue;
              }
              return Err(Failure(RateLimited(answer.retryAfter), RequestAccounting(attempts, response), []));
            }
            if answer.status >= 500 {
              if attempt < config.retries {
                var delay := if Patient(answer.retryAfter) then answer.retryAfter.value else Backoff(config, attempt);
                slept := slept + Least(delay, 60.0);
                continue;
              }
              return Err(Failure(Unavailable, RequestAccounting(attempts, response), []));
            }
            if answer.status >= 400 {
              return Err(Failure(Unavailable, RequestAccounting(attempts, response), []));
            }
            break;
        }
      }
      if response.None? { assert false; }
      var body := response.value.body;
      if !body.Content? {
        return Err(Failure(ParseError, RequestAccounting(attempts, response), []));
      }
      r := Ok(Generated(body.text, body.finish, Accounting(
                body.inputTokens, body.outputTokens, 1, attempts, false, Ids(response.value.requestId),
                if body.finish.Some? then [body.finish.value] else [])));
    }

    method GenerateJson(messages: seq<Message>) returns (r: Result<Generated, Failure>)
      modifies this
      ensures requests >= old(requests) && old(posts) <= posts
      ensures Exchange(config, peer, cut, check, |old(posts)|, requests - old(requests), |posts| - |old(posts)|, slept - old(slept), r)
      ensures requests < old(requests) + 2 ==> forall k :: |old(posts)| <= k < |posts| ==> posts[k] == messages
      ensures requests == old(requests) + 2 ==>
                exists n1: nat :: RepairSent(peer, cut, check, messages, |old(posts)|, posts[|old(posts)|..], n1)
    {
      hide Requests, Combine, Fault, Repaired, RepairSent, Exchange;
      ghost var from := |posts|;
      if !config.json {
        PlainExchange(config, peer, cut, check, from, 0, 0.0, Err(Failure(UnsupportedCapability, NOTHING, [])));
        return Err(Failure(UnsupportedCapability, NOTHING, []));
      }
      var first := Request(messages);
      var fault := if first.Ok? then Fault(first.value, cut, check) else None;
      if fault.None? {
        PlainExchange(config, peer, cut, check, from, |posts| - from, slept - old(slept), first);
        return first;
      }
      var text := first.value.content;
      var repair := messages + [Message("assistant", if |text| > 12000 then text[..12000] else text), RepairRequest(fault == Some(Truncated))];
      ghost var n1, s1 := |posts| - from, slept - old(slept);
      var second := Request(repair);
      ghost var n2, s2 := |posts| - from - n1, slept - old(slept) - s1;
      r := Repaired(first.value, second, cut, check);
      RepairExchanges(config, peer, cut, check, from, n1, s1, n2, s2, first.value, second);
      SentBy(config, peer, cut, check, messages, repair, from, n1, s1, n2, s2, first.value, second, posts[from..]);
    }
  }

  lemma PlainExchange(c: Config, peer: nat -> Reply, cut: string -> bool, check: string -> Check, from: nat,
                      n: nat, s: real, r: Result<Generated, Failure>)
    ensures !c.json && n == 0 && s == 0.0 && r == Err(Failure(UnsupportedCapability, NOTHING, [])) ==>
              Exchange(c, peer, cut, check, from, 0, n, s, r)
    ensures c.json && Requests(c, peer, from, n, s, r) && (r.Ok? ==> Fault(r.value, cut, check).None?) ==>
              Exchange(c, peer, cut, check, from, 1, n, s, r)
  {
    hide Requests, Fault;
  }

  lemma RepairExchanges(c: Config, peer: nat -> Reply, cut: string -> bool, check: string -> Check, from: nat,
                        n1: nat, s1: real, n2: nat, s2: real, first: Generated, second: Result<Generated, Failure>)
    requires c.json && Requests(c, peer, from, n1, s1, Ok(first)) && Fault(first, cut, check).Some?
    requires Requests(c, peer, from + n1, n2, s2, second)
    ensures Exchange(c, peer, cut, check, from, 2, n1 + n2, s1 + s2, Repaired(first, second, cut, check))
  {
    hide Requests, Fault, Repaired;
    assert Repairs(c, peer, cut, check, from, n1 + n2, s1 + s2, n1, s1, n2, s2, first, second, Repaired(first, second, cut, check));
  }

  lemma SentBy(c: Config, peer: nat -> Reply, cut: string -> bool, check: string -> Check, messages: seq<Message>, repair: seq<Message>,
               from: nat, n1: nat, s1: real, n2: nat, s2: real, first: Generated, second: Result<Generated, Failure>, sent: seq<seq<Message>>)
    requires Requests(c, peer, from, n1, s1, Ok(first)) && Fault(first, cut, check).Some?
    requires Requests(c, peer, from + n1, n2, s2, second)
    requires var text := first.content;
             repair == messages + [Message("assistant", if |text| > 12000 then text[..12000] else text),
                                   RepairRequest(Fault(first, cut, check) == Some(Truncated))]
    requires |sent| == n1 + n2 && (forall k :: 0 <= k < n1 ==> sent[k] == messages) && (forall k :: n1 <= k < n1 + n2 ==> sent[k] == repair)
    ensures RepairSent(peer, cut, check, messages, from, sent, n1)
  {
    FlawedOutput(c, peer, cut, check, from, n1, s1, first);
    hide Fault, Concludes, Slept;
  }

  // ----- Exact accounting ------------------------------------------------------------------

  ghost function AccountingOf(r: Result<Generated, Failure>): Accounting {
    if r.Ok? then r.value.accounting else r.error.accounting
  }

  /** Tokens of the answers among `n` replies that brought model output. */
  ghost function Tokens(peer: nat -> Reply, from: nat, n: nat): (nat, nat) {
    if n == 0 then (0, 0)
    else
      var before, last := Tokens(peer, from, n - 1), peer(from + n - 1);
      if Refusal(last).Some? then before
      else (before.0 + last.response.body.inputTokens, before.1 + last.response.body.outputTokens)
  }

  lemma {:induction false} TokensZero(c: Config, peer: nat -> Reply, from: nat, n: nat)
    requires forall k :: 0 <= k < n ==> RetriesAt(c, peer, from, k)
    ensures Tokens(peer, from, n) == (0, 0)
  {
    if n > 0 {
      TokensZero(c, peer, from, n - 1);
      assert RetriesAt(c, peer, from, n - 1);
    }
  }

  lemma {:induction false} TokensSplit(peer: nat -> Reply, from: nat, n: nat, m: nat)
    ensures Tokens(peer, from, n + m) == (Tokens(peer, from, n).0 + Tokens(peer, from + n, m).0,
                                          Tokens(peer, from, n).1 + Tokens(peer, from + n, m).1)
  {
    if m > 0 {
      TokensSplit(peer, from, n, m - 1);
      assert peer(from + (n + m) - 1) == peer((from + n) + m - 1);
    }
  }

  /** One request accounts for its POSTs and for the tokens it was charged. */
  lemma RequestAccounts(c: Config, peer: nat -> Reply, from: nat, n: nat, s: real, r: Result<Generated, Failure>)
    requires Requests(c, peer, from, n, s, r)
    ensures var a := AccountingOf(r);
            && a.transportAttempts == n && a.semanticAttempts == 1 && !a.repairUsed
            && (a.inputTokens, a.outputTokens) == Tokens(peer, from, n)
  {
    TokensZero(c, peer, from, n - 1);
  }

  /** On every exit, the accounting of a result or of an error is exact: transport attempts are the
      POSTs sent, semantic attempts the requests made, and tokens those of the outputs received. */
  lemma ExactAccounting(c: Config, peer: nat -> Reply, cut: string -> bool, check: string -> Check, from: nat,
                        q: nat, n: nat, s: real, r: Result<Generated, Failure>)
    requires Exchange(c, peer, cut, check, from, q, n, s, r)
    ensures var a := AccountingOf(r);
            && a.semanticAttempts == q <= 2 && a.transportAttempts == n
            && q <= n <= q * (c.retries + 1)
            && (a.repairUsed <==> q == 2) && (c.json <==> q > 0)
            && (a.inputTokens, a.outputTokens) == Tokens(peer, from, n)
    ensures r.Ok? ==> Fault(r.value, cut, check).None?
  {
    hide Tokens, Concludes, Posts;
    if c.json && q == 1 {
      RequestAccounts(c, peer, from, n, s, r);
      PostsBound(c, peer, from, n);
    } else if c.json {
      var n1: nat, s1: real, n2: nat, s2: real, first, second :|
        Repairs(c, peer, cut, check, from, n, s, n1, s1, n2, s2, first, second, r);
      RequestAccounts(c, peer, from, n1, s1, Ok(first));
      RequestAccounts(c, peer, from + n1, n2, s2, second);
      PostsBound(c, peer, from, n1);
      PostsBound(c, peer, from + n1, n2);
      TokensSplit(peer, from, n1, n2);
    } else {
      NoTokens(peer, from);
    }
  }

  lemma NoTokens(peer: nat -> Reply, from: nat)
    ensures Tokens(peer, from, 0) == (0, 0)
  {
  }

  lemma PostsBound(c: Config, peer: nat -> Reply, from: nat, n: nat)
    requires Posts(c, peer, from, n)
    ensures 1 <= n <= c.retries + 1
  {
  }

  lemma RequestUnique(c: Config, peer: nat -> Reply, from: nat,
                      n: nat, s: real, r: Result<Generated, Failure>, n': nat, s': real, r': Result<Generated, Failure>)
    requires Requests(c, peer, from, n, s, r) && Requests(c, peer, from, n', s', r')
    ensures n == n' && s == s' && r == r'
  {
    PostsUnique(c, peer, from, n, n');
  }

  /** Nothing about a call is left open: the replies decide its POSTs, its requests and its outcome. */
  lemma ExchangeUnique(c: Config, peer: nat -> Reply, cut: string -> bool, check: string -> Check, from: nat,
                       q: nat, n: nat, s: real, r: Result<Generated, Failure>,
                       q': nat, n': nat, s': real, r': Result<Generated, Failure>)
    requires Exchange(c, peer, cut, check, from, q, n, s, r) && Exchange(c, peer, cut, check, from, q', n', s', r')
    ensures q == q' && n == n' && s == s' && r == r'
  {
    hide Requests, Fault;
    if c.json && q == 1 && q' == 1 {
      RequestUnique(c, peer, from, n, s, r, n', s', r');
    } else if c.json && q == 1 {
      var n1: nat, s1: real, n2: nat, s2: real, first, second :|
        Repairs(c, peer, cut, check, from, n', s', n1, s1, n2, s2, first, second, r');
      RequestUnique(c, peer, from, n, s, r, n1, s1, Ok(first));
    } else if c.json {
      var n1: nat, s1: real, n2: nat, s2: real, first, second :|
        Repairs(c, peer, cut, check, from, n, s, n1, s1, n2, s2, first, second, r);
      if q' == 1 {
        RequestUnique(c, peer, from, n', s', r', n1, s1, Ok(first));
      } else {
        var m1: nat, t1: real, m2: nat, t2: real, one, two :|
          Repairs(c, peer, cut, check, from, n', s', m1, t1, m2, t2, one, two, r');
        RequestUnique(c, peer, from, n1, s1, Ok(first), m1, t1, Ok(one));
        RequestUnique(c, peer, from + n1, n2, s2, second, m2, t2, two);
      }
    }
  }

  /** The `k`-th of the `n` replies is the last that was an answer. */
  ghost predicate LastAnswered(peer: nat -> Reply, from: nat, n: nat, k: nat) {
    k < n && AnsweredAt(peer, from, k) && forall m :: k < m < n ==> !AnsweredAt(peer, from, m)
  }

  ghost predicate AnsweredAt(peer: nat -> Reply, from: nat, k: nat) { peer(from + k).Answered? }

  ghost function IdAt(peer: nat -> Reply, from: nat, k: nat): seq<string>
    requires AnsweredAt(peer, from, k)
  {
    var id := peer(from + k).response.requestId;
    if id.Some? && id.value != "" then [id.value] else []
  }

  lemma {:induction false} LastAnswerIs(peer: nat -> Reply, from: nat, n: nat) returns (at: nat)
    ensures forall k: nat :: LastAnswered(peer, from, n, k) ==> LastAnswer(peer, from, n) == Some(peer(from + k).response)
    ensures LastAnswer(peer, from, n) == None <==> forall k :: 0 <= k < n ==> !AnsweredAt(peer, from, k)
    ensures LastAnswer(peer, from, n).Some? ==> LastAnswered(peer, from, n, at)
  {
    at := 0;
    if n > 0 {
      at := LastAnswerIs(peer, from, n - 1);
      assert peer(from + n - 1) == peer(from + (n - 1));
      if AnsweredAt(peer, from, n - 1) { at := n - 1; }
      forall k: nat | LastAnswered(peer, from, n, k)
        ensures LastAnswer(peer, from, n) == Some(peer(from + k).response)
      {
        if k < n - 1 {
          assert !AnsweredAt(peer, from, n - 1);
          assert LastAnswered(peer, from, n - 1, k);
        }
      }
    }
  }

  /** The request id of a failed request is that of the last attempt that was answered, whichever
      that was. It is therefore one of an earlier attempt exactly when the last reply is no answer
      (a timeout or a broken connection) and the latest earlier answer has an id. */
  lemma StaleIdentifier(c: Config, peer: nat -> Reply, from: nat, n: nat, s: real, r: Result<Generated, Failure>)
    requires Requests(c, peer, from, n, s, r) && r.Err?
    ensures forall k: nat :: LastAnswered(peer, from, n, k) ==> r.error.accounting.requestIds == IdAt(peer, from, k)
    ensures (forall k :: 0 <= k < n ==> !AnsweredAt(peer, from, k)) ==> r.error.accounting.requestIds == []
    ensures (r.error.accounting.requestIds != [] && !AnsweredAt(peer, from, n - 1))
            <==> exists k: nat :: k < n - 1 && LastAnswered(peer, from, n, k) && IdAt(peer, from, k) != []
  {
    hide LastAnswer;
    var at := LastAnswerIs(peer, from, n);
  }

  // ----- The sleep bound ---------------------------------------------------------------------

  /** The most one request can sleep: a patient minute or its doubling backoff per retry. */
  function SleepBound(c: Config, retries: nat): real {
    60.0 * retries as real + c.backoff * (Doubled(retries) - 1) as real
  }

  lemma BoundStep(c: Config, k: nat)
    requires c.backoff >= 0.0
    ensures SleepBound(c, k + 1) == SleepBound(c, k) + 60.0 + Backoff(c, k)
    ensures SleepBound(c, k + 1) >= SleepBound(c, k)
  {
    var d := Doubled(k) as real;
    assert (Doubled(k + 1) - 1) as real == (d - 1.0) + d;
    assert c.backoff * ((d - 1.0) + d) == c.backoff * (d - 1.0) + c.backoff * d;
  }

  lemma {:induction false} BoundGrows(c: Config, k: nat, m: nat)
    requires c.backoff >= 0.0 && k <= m
    ensures 0.0 <= SleepBound(c, k) <= SleepBound(c, m)
    decreases m
  {
    if k < m {
      BoundGrows(c, k, m - 1);
      BoundStep(c, m - 1);
    } else if k > 0 {
      BoundGrows(c, k - 1, k - 1);
      BoundStep(c, k - 1);
    }
  }

  lemma {:induction false} SleptBound(c: Config, peer: nat -> Reply, from: nat, n: nat)
    requires c.backoff >= 0.0
    ensures 0.0 <= Slept(c, peer, from, n) <= SleepBound(c, n)
  {
    if n > 0 {
      hide SleepBound, Delay, Backoff;
      SleptBound(c, peer, from, n - 1);
      BoundStep(c, n - 1);
      DelayBound(c, peer(from + n - 1), n - 1);
    }
  }

  lemma DelayBound(c: Config, reply: Reply, attempt: nat)
    requires c.backoff >= 0.0
    ensures 0.0 <= Delay(c, reply, attempt) <= 60.0 + Backoff(c, attempt)
  {
    BackoffPositive(c, attempt);
    hide Backoff;
  }

  lemma BackoffPositive(c: Config, attempt: nat)
    requires c.backoff >= 0.0
    ensures Backoff(c, attempt) >= 0.0
  {
    var d := Doubled(attempt) as real;
    assert c.backoff * d >= 0.0;
  }

  /** A call sleeps for at most 2(60R + b(2^R - 1)) seconds, for R retries and backoff b. */
  lemma TotalSleep(c: Config, peer: nat -> Reply, cut: string -> bool, check: string -> Check, from: nat,
                   q: nat, n: nat, s: real, r: Result<Generated, Failure>)
    requires Exchange(c, peer, cut, check, from, q, n, s, r) && c.backoff >= 0.0
    ensures 0.0 <= s <= q as real * SleepBound(c, c.retries) <= 2.0 * SleepBound(c, c.retries)
  {
    hide SleepBound, Concludes, Slept;
    BoundGrows(c, c.retries, c.retries);
    if c.json && q == 1 {
      RequestSleep(c, peer, from, n);
    } else if c.json {
      var n1: nat, s1: real, n2: nat, s2: real, first, second :|
        Repairs(c, peer, cut, check, from, n, s, n1, s1, n2, s2, first, second, r);
      RequestSleep(c, peer, from, n1);
      RequestSleep(c, peer, from + n1, n2);
    }
  }

  lemma RequestSleep(c: Config, peer: nat -> Reply, from: nat, n: nat)
    requires Posts(c, peer, from, n) && c.backoff >= 0.0
    ensures 0.0 <= Slept(c, peer, from, n - 1) <= SleepBound(c, c.retries)
  {
    SleptBound(c, peer, from, n - 1);
    BoundGrows(c, n - 1, c.retries);
  }
}

/** The suite runner: sessions that run, crash and resume over one ledger and one summary file. */
module Suite {
  import opened Prelude
  import opened Differential
  import opened CaseRun
  import opened Ledger
  import opened Summary

  datatype Plan = Plan(config: Config, sources: map<string, string>)

  datatype Disk = Disk(ledger: LedgerFile, summary: Option<SuiteSummary>)

  /** A session's disk operations are numbered from 0: even ones append a ledger line, odd ones
      replace the summary. The process dies at one of them, before it or in the middle of it. */
  datatype Crash = Crash(op: nat, during: bool)

  ghost predicate GoodPlan(p: Plan) {
    && p.config.repetitions >= 1 && Distinct(p.config.selected)
    && forall c :: c in p.config.selected ==> c in p.sources
  }

  // ----- The schedule --------------------------------------------------------------

  function Repetition(r: nat, cases: seq<string>): seq<Key> {
    seq(|cases|, i requires 0 <= i < |cases| => (r, cases[i]))
  }

  /** Every case of repetition 1, then every case of repetition 2, and so on. */
  function Schedule(repetitions: nat, cases: seq<string>): seq<Key> {
    if repetitions == 0 then [] else Schedule(repetitions - 1, cases) + Repetition(repetitions, cases)
  }

  /** The keys that are not done yet, in order. */
  function Pending(keys: seq<Key>, done: set<Key>): seq<Key> {
    if keys == [] then []
    else Pending(keys[..|keys| - 1], done) + (if keys[|keys| - 1] in done then [] else [keys[|keys| - 1]])
  }

  ghost function Todo(p: Plan, rows: seq<LedgerRow>): seq<Key> {
    Pending(Schedule(p.config.repetitions, p.config.selected), KeySet(rows))
  }

  // ----- One session ---------------------------------------------------------------

  function LinesOf(file: LedgerFile): seq<Line> { if file.Missing? then [] else file.lines }

  ghost predicate AllEntries(lines: seq<Line>) { forall i :: 0 <= i < |lines| ==> lines[i].Entry? }

  /** The line a case leaves behind, with the artifacts it points to. */
  ghost predicate EntryFor(p: Plan, line: Line, key: Key, scan: Scan) {
    && line.Entry? && line.runIntact && key.1 in p.sources
    && IsRowOf(line.row, key.0, key.1, p.sources[key.1], scan)
    && line.evidence == if scan.Generated? then Some(StoredEvidence(key.1, scan.findings, scan.o)) else None
  }

  /** `after` is `before` and one line for each key of `ran`, in order. */
  ghost predicate Appended(p: Plan, before: seq<Line>, after: seq<Line>, ran: seq<Key>, scans: Key -> Scan) {
    && |after| == |before| + |ran| && after[..|before|] == before
    && forall k :: 0 <= k < |ran| ==> EntryFor(p, after[|before| + k], ran[k], scans(ran[k]))
  }

  ghost predicate CanRead(p: Plan, file: LedgerFile) {
    Readable(file, p.config.repetitions, p.config.selected, p.sources)
  }

  /** How many disk operations a session completes that has `pending` cases to run. */
  function Done(pending: nat, crash: Option<Crash>): nat {
    if crash.Some? && crash.value.op < 2 * pending then crash.value.op else 2 * pending
  }

  /** Exactly what a session does to the disk. An unreadable ledger is refused. Otherwise the
      pending cases are appended in schedule order up to the crash; a crash in the middle of an
      append tears the last line; the summary covers the cases up to the last one it was written
      for. */
  ghost predicate SessionStep(p: Plan, d: Disk, e: Disk, scans: Key -> Scan, crash: Option<Crash>) {
    if !CanRead(p, d.ledger) then e == d
    else
      var before, after := LinesOf(d.ledger), LinesOf(e.ledger);
      assert AllEntries(before);
      var todo := Todo(p, Rows(before));
      var ops := Done(|todo|, crash);
      var tears := ops < 2 * |todo| && ops % 2 == 0 && crash.value.during;
      && AllEntries(after) && Appended(p, before, after, todo[..(ops + 1) / 2], scans)
      && (e.ledger.Missing? <==> d.ledger.Missing? && ops == 0 && !tears)
      && (e.ledger.File? ==> e.ledger.torn == tears)
      && (if ops < 2 then e.summary == d.summary
          else e.summary.Some? && IsSummary(e.summary.value, p.config, Rows(after[..|before| + ops / 2])))
  }

  /** The disk after the cases `ran` were run and recorded in full. */
  ghost predicate Progressed(p: Plan, d: Disk, e: Disk, ran: seq<Key>, scans: Key -> Scan) {
    && AllEntries(LinesOf(e.ledger)) && Appended(p, LinesOf(d.ledger), LinesOf(e.ledger), ran, scans)
    && if ran == [] then e == d
       else
         && e.ledger.File? && !e.ledger.torn
         && e.summary.Some? && IsSummary(e.summary.value, p.config, Rows(LinesOf(e.ledger)))
  }

  /** A session that dies with the cases `ran` recorded in full: before or during the next append. */
  lemma DiesAtAppend(p: Plan, d: Disk, e: Disk, ran: seq<Key>, key: Key, scans: Key -> Scan, crash: Option<Crash>)
    requires CanRead(p, d.ledger) && Progressed(p, d, e, ran, scans)
    requires ran + [key] <= Todo(p, Rows(LinesOf(d.ledger))) && crash.Some? && crash.value.op == 2 * |ran|
    ensures SessionStep(p, d, if crash.value.during then e.(ledger := File(LinesOf(e.ledger), true)) else e, scans, crash)
  {
    hide EntryFor, IsSummary, LineOk, Todo, DistinctKeys;
    var todo := Todo(p, Rows(LinesOf(d.ledger)));
    assert todo[..|ran|] == ran;
    var after := LinesOf(e.ledger);
    assert after[..|LinesOf(d.ledger)| + |ran|] == after;
  }

  /** A session that dies with one case appended but not yet in the summary. */
  lemma DiesAtSummary(p: Plan, d: Disk, e: Disk, ran: seq<Key>, key: Key, line: Line, scans: Key -> Scan, crash: Option<Crash>)
    requires CanRead(p, d.ledger) && Progressed(p, d, e, ran, scans) && EntryFor(p, line, key, scans(key))
    requires ran + [key] <= Todo(p, Rows(LinesOf(d.ledger))) && crash.Some? && crash.value.op == 2 * |ran| + 1
    ensures SessionStep(p, d, e.(ledger := File(LinesOf(e.ledger) + [line], false)), scans, crash)
  {
    hide IsSummary, LineOk, Todo, DistinctKeys, IsRowOf, StoredEvidence;
    var todo := Todo(p, Rows(LinesOf(d.ledger)));
    var f := e.(ledger := File(LinesOf(e.ledger) + [line], false));
    AppendedOne(p, LinesOf(d.ledger), LinesOf(e.ledger), ran, key, line, scans);
    assert todo[..|ran| + 1] == ran + [key];
    assert LinesOf(f.ledger)[..|LinesOf(d.ledger)| + |ran|] == LinesOf(e.ledger);
  }

  lemma AppendedOne(p: Plan, before: seq<Line>, after: seq<Line>, ran: seq<Key>, key: Key, line: Line, scans: Key -> Scan)
    requires AllEntries(after) && Appended(p, before, after, ran, scans) && EntryFor(p, line, key, scans(key))
    ensures AllEntries(after + [line]) && Appended(p, before, after + [line], ran + [key], scans)
  {
    hide IsRowOf, StoredEvidence;
  }

  lemma {:induction false} PendingPrefix(keys: seq<Key>, n: nat, done: set<Key>)
    requires n <= |keys|
    ensures Pending(keys[..n], done) <= Pending(keys, done)
    decreases |keys|
  {
    if n < |keys| {
      PendingPrefix(keys[..|keys| - 1], n, done);
      assert keys[..|keys| - 1][..n] == keys[..n];
    } else {
      assert keys[..n] == keys;
    }
  }

  lemma {:induction false} SchedulePrefix(r: nat, repetitions: nat, cases: seq<string>)
    requires r <= repetitions
    ensures Schedule(r, cases) <= Schedule(repetitions, cases)
    decreases repetitions
  {
    if r < repetitions { SchedulePrefix(r, repetitions - 1, cases); }
  }

  /** The part of the schedule a session has been through, in repetition `r` before case `i`. */
  ghost function Passed(p: Plan, r: nat, i: nat): seq<Key>
    requires r >= 1 && i <= |p.config.selected|
  {
    Schedule(r - 1, p.config.selected) + Repetition(r, p.config.selected)[..i]
  }

  lemma PassOne(p: Plan, r: nat, i: nat, done: set<Key>)
    requires 1 <= r <= p.config.repetitions && i < |p.config.selected|
    ensures var key := (r, p.config.selected[i]);
            && Pending(Passed(p, r, i + 1), done)
               == Pending(Passed(p, r, i), done) + (if key in done then [] else [key])
            && Pending(Passed(p, r, i + 1), done) <= Pending(Schedule(p.config.repetitions, p.config.selected), done)
  {
    var cases := p.config.selected;
    var whole, longer := Schedule(p.config.repetitions, cases), Passed(p, r, i + 1);
    assert longer[..|longer| - 1] == Passed(p, r, i);
    SchedulePrefix(r, p.config.repetitions, cases);
    assert Schedule(r, cases) == Passed(p, r, |cases|);
    assert longer == whole[..|longer|];
    PendingPrefix(whole, |longer|, done);
  }

  lemma Starts(p: Plan, d: Disk, scans: Key -> Scan)
    requires CanRead(p, d.ledger)
    ensures Progressed(p, d, d, [], scans) && Passed(p, 1, 0) == []
  {
  }

  lemma Refuses(p: Plan, d: Disk, scans: Key -> Scan, crash: Option<Crash>)
    requires !CanRead(p, d.ledger)
    ensures SessionStep(p, d, d, scans, crash)
  {
  }

  lemma NothingPending(done: set<Key>)
    ensures Pending([], done) == []
  {
  }

  lemma PassedAll(p: Plan)
    ensures Passed(p, p.config.repetitions + 1, 0) == Schedule(p.config.repetitions, p.config.selected)
  {
  }

  lemma NextRepetition(p: Plan, r: nat)
    requires r >= 1
    ensures Passed(p, r + 1, 0) == Passed(p, r, |p.config.selected|)
  {
  }

  lemma Finishes(p: Plan, d: Disk, e: Disk, ran: seq<Key>, scans: Key -> Scan, crash: Option<Crash>)
    requires CanRead(p, d.ledger) && Progressed(p, d, e, ran, scans)
    requires ran == Todo(p, Rows(LinesOf(d.ledger)))
    requires crash.Some? ==> crash.value.op >= 2 * |ran|
    ensures SessionStep(p, d, e, scans, crash)
  {
    hide EntryFor, IsSummary, LineOk, Todo, DistinctKeys;
    var after := LinesOf(e.ledger);
    assert after[..|LinesOf(d.ledger)| + |ran|] == after;
    assert ran[..|ran|] == ran;
    assert (2 * |ran| + 1) / 2 == |ran|;
  }

  class Runner {
    const plan: Plan
    var ledger: LedgerFile
    var summary: Option<SuiteSummary>

    constructor (plan: Plan)
      ensures this.plan == plan && View() == Disk(Missing, None)
    {
      this.plan := plan;
      ledger, summary := Missing, None;
    }

    ghost function View(): Disk reads this { Disk(ledger, summary) }

    /** Runs one case and makes the line it will append. */
    method Evaluate(key: Key, scan: Scan) returns (line: Line)
      requires key.1 in plan.sources
      ensures line.Entry? && EntryFor(plan, line, key, scan)
    {
      hide IsRowOf, StoredEvidence;
      var row, evidence := RunCase(key.0, key.1, plan.sources[key.1], scan);
      line := Entry(row, true, evidence);
    }

    /** Runs one pending case and records it; `op` disk operations were done before it. */
    method Record(key: Key, rows: seq<LedgerRow>, op: nat, scans: Key -> Scan, crash: Option<Crash>,
                  ghost d: Disk, ghost ran: seq<Key>) returns (died: bool, more: seq<LedgerRow>)
      requires GoodPlan(plan) && key.1 in plan.sources && CanRead(plan, d.ledger)
      requires Progressed(plan, d, View(), ran, scans) && rows == Rows(LinesOf(ledger))
      requires ran + [key] <= Todo(plan, Rows(LinesOf(d.ledger))) && op == 2 * |ran|
      modifies this
      ensures died <==> crash.Some? && op <= crash.value.op < op + 2
      ensures died ==> SessionStep(plan, d, View(), scans, crash)
      ensures !died ==> Progressed(plan, d, View(), ran + [key], scans) && more == Rows(LinesOf(ledger))
    {
      hide IsSummary, LineOk, EntryFor, DistinctKeys, Todo, SessionStep, Appended;
      var line := Evaluate(key, scans(key));
      AppendedOne(plan, LinesOf(d.ledger), LinesOf(ledger), ran, key, line, scans);
      if crash.Some? && crash.value.op == op {
        DiesAtAppend(plan, d, View(), ran, key, scans, crash);
        if crash.value.during { ledger := File(LinesOf(ledger), true); }
        return true, rows;
      }
      if crash.Some? && crash.value.op == op + 1 { DiesAtSummary(plan, d, View(), ran, key, line, scans, crash); }
      ledger := File(LinesOf(ledger) + [line], false);
      if crash.Some? && crash.value.op == op + 1 { return true, rows; }
      more := rows + [line.row];
      assert more == Rows(LinesOf(ledger));
      var written := WriteSummary(plan.config, more);
      summary := Some(written);
      died := false;
    }

    /** Runs the pending cases of the suite until it is finished, refuses its ledger, or dies. */
    method Session(scans: Key -> Scan, crash: Option<Crash>) returns (finished: bool)
      requires GoodPlan(plan)
      modifies this
      ensures SessionStep(plan, old(View()), View(), scans, crash)
      ensures finished ==> CanRead(plan, old(ledger)) && SessionStep(plan, old(View()), View(), scans, None)
      ensures !finished ==> !CanRead(plan, old(ledger)) || crash.Some?
    {
      hide EntryFor, IsSummary, LineOk, DistinctKeys, Schedule, Appended, SessionStep, Pending, Passed, Readable, KeySet;
      var c := plan.config;
      ghost var d := View();
      var read := ReadProgress(ledger, c.repetitions, c.selected, plan.sources);
      if read.Err? {
        Refuses(plan, d, scans, crash);
        return false;
      }
      var rows := read.value;
      var completed := KeySet(rows);
      Starts(plan, d, scans);
      assert rows == Rows(LinesOf(d.ledger));
      NothingPending(completed);
      ghost var ran: seq<Key> := [];
      var op := 0;
      for r := 1 to c.repetitions + 1
        invariant ran == Pending(Passed(plan, r, 0), completed) && op == 2 * |ran|
        invariant crash.Some? ==> crash.value.op >= op
        invariant Progressed(plan, d, View(), ran, scans) && rows == Rows(LinesOf(ledger))
      {
        for i := 0 to |c.selected|
          invariant ran == Pending(Passed(plan, r, i), completed) && op == 2 * |ran|
          invariant crash.Some? ==> crash.value.op >= op
          invariant Progressed(plan, d, View(), ran, scans) && rows == Rows(LinesOf(ledger))
        {
          PassOne(plan, r, i, completed);
          var key := (r, c.selected[i]);
          if key !in completed {
            var died, more := Record(key, rows, op, scans, crash, d, ran);
            if died { return false; }
            rows, ran, op := more, ran + [key], op + 2;
          }
        }
        NextRepetition(plan, r);
      }
      PassedAll(plan);
      Finishes(plan, d, View(), ran, scans, crash);
      Finishes(plan, d, View(), ran, scans, None);
      return true;
    }
  }
}

/** Crash and resume safety: what holds on disk after any sequence of sessions. */
module SuiteRuns {
  import opened Prelude
  import opened Differential
  import opened CaseRun
  import opened Ledger
  import opened Summary
  import opened Suite

  // ----- The schedule --------------------------------------------------------------

  ghost predicate NoRepeats(keys: seq<Key>) { forall i, j :: 0 <= i < j < |keys| ==> keys[i] != keys[j] }

  ghost function Plans(p: Plan): seq<Key> { Schedule(p.config.repetitions, p.config.selected) }

  /** The schedule lists every pair of a repetition and a selected case, once. */
  lemma {:induction false} ScheduleOnce(repetitions: nat, cases: seq<string>)
    requires Distinct(cases)
    ensures NoRepeats(Schedule(repetitions, cases))
    ensures forall key :: key in Schedule(repetitions, cases) <==> Scheduled(key, repetitions, cases)
  {
    if repetitions > 0 {
      ScheduleOnce(repetitions - 1, cases);
      var last, all := Repetition(repetitions, cases), Schedule(repetitions, cases);
      var m := |all| - |last|;
      assert forall i :: 0 <= i < m ==> all[i] in Schedule(repetitions - 1, cases);
      assert forall i :: m <= i < |all| ==> all[i] == last[i - m];
      forall key ensures key in last <==> key.0 == repetitions && key.1 in cases {
        if key.0 == repetitions && key.1 in cases {
          var i :| 0 <= i < |cases| && cases[i] == key.1;
          assert last[i] == key;
        }
      }
    }
  }

  /** Its order is repetition by repetition, and within each the order of the selection. */
  lemma {:induction false} ScheduleAt(repetitions: nat, cases: seq<string>, r: nat, i: nat)
    requires 1 <= r <= repetitions && i < |cases|
    ensures |Schedule(repetitions, cases)| == repetitions * |cases|
    ensures (r - 1) * |cases| + i < repetitions * |cases|
    ensures Schedule(repetitions, cases)[(r - 1) * |cases| + i] == (r, cases[i])
  {
    var n := |cases|;
    ScheduleSize(repetitions, cases);
    ScheduleSize(repetitions - 1, cases);
    assert repetitions * n == (repetitions - 1) * n + n;
    if r < repetitions {
      ScheduleAt(repetitions - 1, cases, r, i);
    }
  }

  lemma {:induction false} ScheduleSize(repetitions: nat, cases: seq<string>)
    ensures |Schedule(repetitions, cases)| == repetitions * |cases|
  {
    if repetitions > 0 {
      ScheduleSize(repetitions - 1, cases);
      assert repetitions * |cases| == (repetitions - 1) * |cases| + |cases|;
    }
  }

  /** The pending keys are the keys not done, each as often and in the order it was scheduled. */
  lemma {:induction false} PendingAre(keys: seq<Key>, done: set<Key>)
    ensures forall key :: key in Pending(keys, done) <==> key in keys && key !in done
    ensures NoRepeats(keys) ==> NoRepeats(Pending(keys, done))
  {
    if keys != [] {
      var shorter := keys[..|keys| - 1];
      PendingAre(shorter, done);
      assert keys == shorter + [keys[|keys| - 1]];
    }
  }

  /** When exactly the first `n` keys are done, the rest is pending. */
  lemma {:induction false} PendingRest(keys: seq<Key>, done: set<Key>, n: nat)
    requires n <= |keys| && forall i :: 0 <= i < |keys| ==> (keys[i] in done <==> i < n)
    ensures Pending(keys, done) == keys[n..]
  {
    if keys != [] {
      var shorter := keys[..|keys| - 1];
      if n == |keys| {
        PendingRest(shorter, done, n - 1);
      } else {
        PendingRest(shorter, done, n);
        assert keys[n..] == shorter[n..] + [keys[|keys| - 1]];
      }
    }
  }

  // ----- The invariant -------------------------------------------------------------

  /** Every complete line is acceptable, and the lines follow the schedule from its start. */
  ghost predicate LedgerInv(p: Plan, lines: seq<Line>) {
    && |lines| <= |Plans(p)| && AllEntries(lines)
    && forall i :: 0 <= i < |lines| ==>
         LineOk(lines[i], p.config.repetitions, p.config.selected, p.sources) && KeyOf(lines[i].row) == Plans(p)[i]
  }

  ghost predicate Covers(p: Plan, s: SuiteSummary, lines: seq<Line>, k: nat) {
    k <= |lines| && AllEntries(lines) && IsSummary(s, p.config, Rows(lines[..k]))
  }

  /** The summary, when there is one, covers a prefix of the ledger. */
  ghost predicate DiskInv(p: Plan, d: Disk) {
    && LedgerInv(p, LinesOf(d.ledger))
    && (d.summary.Some? ==> exists k :: Covers(p, d.summary.value, LinesOf(d.ledger), k))
  }

  /** What a case run leaves behind is a line a reader accepts. */
  lemma EntryIsOk(p: Plan, line: Line, key: Key, scan: Scan)
    requires GoodPlan(p) && EntryFor(p, line, key, scan) && key in Plans(p)
    ensures LineOk(line, p.config.repetitions, p.config.selected, p.sources) && KeyOf(line.row) == key
  {
    ScheduleOnce(p.config.repetitions, p.config.selected);
    if scan.Generated? { EvidenceNames(key.1, scan.findings, scan.o); }
  }

  /** Whoever changes a run directory or an evidence file afterwards makes its line unacceptable:
      the line is accepted with exactly the artifacts its run left behind. A model output error
      left none. */
  lemma TamperingRefused(p: Plan, line: Line, key: Key, scan: Scan, intact: bool, evidence: Option<Evidence>)
    requires GoodPlan(p) && EntryFor(p, line, key, scan) && key in Plans(p)
    ensures LineOk(Entry(line.row, intact, evidence), p.config.repetitions, p.config.selected, p.sources) <==>
              match scan
              case ModelOutputError => true
              case NoTest(_) => intact
              case Generated(_, _) => intact && evidence == line.evidence
  {
    hide StoredEvidence;
    ScheduleOnce(p.config.repetitions, p.config.selected);
    if scan.Generated? { EvidenceNames(key.1, scan.findings, scan.o); KillIsStored(p, line, key, scan); }
  }

  lemma KillIsStored(p: Plan, line: Line, key: Key, scan: Scan)
    requires EntryFor(p, line, key, scan) && scan.Generated?
    ensures line.row.candidateKill == StoredEvidence(key.1, scan.findings, scan.o).caseKill
  {
    hide StoredEvidence;
  }

  /** Whoever edits a row of a generated test cannot change its case, its test or its kill either,
      as long as the row still points to its evidence. */
  lemma EditRefused(p: Plan, line: Line, key: Key, scan: Scan, row: LedgerRow)
    requires EntryFor(p, line, key, scan) && scan.Generated?
    requires row.evidenceDigest == line.row.evidenceDigest
    requires LineOk(Entry(row, true, line.evidence), p.config.repetitions, p.config.selected, p.sources)
    ensures row.caseId == line.row.caseId && row.testHash == line.row.testHash && row.candidateKill == line.row.candidateKill
    ensures row.testGenerated && row.status == Completed && row.sourceHash == line.row.sourceHash
  {
    hide StoredEvidence;
    EvidenceNames(key.1, scan.findings, scan.o);
    KillIsStored(p, line, key, scan);
  }

  lemma EvidenceNames(caseId: string, findings: seq<Finding>, o: Observed)
    ensures StoredEvidence(caseId, findings, o).caseId == caseId
    ensures StoredEvidence(caseId, findings, o).testHash == o.testHash
  {
  }

  lemma InvRows(p: Plan, lines: seq<Line>)
    requires GoodPlan(p) && LedgerInv(p, lines)
    ensures AllEntries(lines) && DistinctKeys(Rows(lines))
    ensures Todo(p, Rows(lines)) == Plans(p)[|lines|..]
  {
    hide LineOk;
    var keys, rows := Plans(p), Rows(lines);
    ScheduleOnce(p.config.repetitions, p.config.selected);
    forall i | 0 <= i < |keys| ensures keys[i] in KeySet(rows) <==> i < |lines| {
      if i < |lines| {
        assert KeyOf(rows[i]) == keys[i];
      }
    }
    PendingRest(keys, KeySet(rows), |lines|);
  }

  /** On a reachable disk the only thing that makes the ledger unreadable is a torn last line. */
  lemma ReadableIffWhole(p: Plan, d: Disk)
    requires GoodPlan(p) && DiskInv(p, d)
    ensures CanRead(p, d.ledger) <==> d.ledger.Missing? || !d.ledger.torn
  {
    hide LineOk;
    InvRows(p, LinesOf(d.ledger));
  }

  lemma NextKeys(p: Plan, n: nat, ran: seq<Key>)
    requires n <= |Plans(p)| && ran <= Plans(p)[n..]
    ensures n + |ran| <= |Plans(p)|
    ensures forall k :: 0 <= k < |ran| ==> ran[k] == Plans(p)[n + k]
  {
  }

  lemma LinesKeep(p: Plan, before: seq<Line>, after: seq<Line>, ran: seq<Key>, scans: Key -> Scan)
    requires GoodPlan(p) && LedgerInv(p, before) && Appended(p, before, after, ran, scans)
    requires AllEntries(after) && ran <= Plans(p)[|before|..]
    ensures LedgerInv(p, after)
  {
    hide LineOk, EntryFor, Schedule;
    NextKeys(p, |before|, ran);
    forall i | 0 <= i < |after|
      ensures LineOk(after[i], p.config.repetitions, p.config.selected, p.sources) && KeyOf(after[i].row) == Plans(p)[i]
    {
      if i < |before| {
        assert after[i] == before[i];
      } else {
        var k := i - |before|;
        EntryIsOk(p, after[i], ran[k], scans(ran[k]));
      }
    }
  }

  /** Every session keeps the invariant, wherever it dies. */
  lemma SessionKeeps(p: Plan, d: Disk, e: Disk, scans: Key -> Scan, crash: Option<Crash>)
    requires GoodPlan(p) && DiskInv(p, d) && SessionStep(p, d, e, scans, crash)
    ensures DiskInv(p, e)
    ensures LinesOf(d.ledger) <= LinesOf(e.ledger)
  {
    hide LineOk, EntryFor, IsSummary, Todo, LedgerInv;
    if CanRead(p, d.ledger) {
      var before, after := LinesOf(d.ledger), LinesOf(e.ledger);
      InvRows(p, before);
      BoundByPlan(p, before);
      var todo := Plans(p)[|before|..];
      var ops := Done(|todo|, crash);
      LinesKeep(p, before, after, todo[..(ops + 1) / 2], scans);
      assert after[..|before|] == before;
      if ops >= 2 {
        assert Covers(p, e.summary.value, after, |before| + ops / 2);
      } else if d.summary.Some? {
        var k: nat :| Covers(p, d.summary.value, before, k);
        assert after[..k] == before[..k];
        assert Covers(p, e.summary.value, after, k);
      }
    }
  }

  // ----- Any sequence of sessions ----------------------------------------------------

  ghost predicate Session(p: Plan, d: Disk, e: Disk) {
    exists scans: Key -> Scan, crash: Option<Crash> :: SessionStep(p, d, e, scans, crash)
  }

  /** A suite's life: it starts without files, and each session ends in the next state. */
  ghost predicate History(p: Plan, ds: seq<Disk>) {
    && ds != [] && ds[0] == Disk(Missing, None)
    && forall i :: 0 <= i < |ds| - 1 ==> Session(p, ds[i], ds[i + 1])
  }

  /** After any sequence of runs, crashes and resumes: the ledger is a prefix of the schedule,
      no pair occurs twice, and the summary covers a prefix of the ledger. */
  lemma {:induction false} HistorySafe(p: Plan, ds: seq<Disk>, i: nat)
    requires GoodPlan(p) && History(p, ds) && i < |ds|
    ensures DiskInv(p, ds[i])
    ensures AllEntries(LinesOf(ds[i].ledger)) && DistinctKeys(Rows(LinesOf(ds[i].ledger)))
  {
    hide LineOk, SessionStep;
    if i > 0 {
      HistorySafe(p, ds, i - 1);
      assert Session(p, ds[i - 1], ds[i - 1 + 1]);
      var scans: Key -> Scan, crash: Option<Crash> :| SessionStep(p, ds[i - 1], ds[i], scans, crash);
      SessionKeeps(p, ds[i - 1], ds[i], scans, crash);
    }
    InvRows(p, LinesOf(ds[i].ledger));
  }

  lemma SessionGrows(p: Plan, d: Disk, e: Disk)
    requires GoodPlan(p) && DiskInv(p, d) && Session(p, d, e)
    ensures LinesOf(d.ledger) <= LinesOf(e.ledger)
    ensures d.ledger.File? && d.ledger.torn ==> e == d
  {
    hide LineOk, LedgerInv, SessionStep;
    var scans: Key -> Scan, crash: Option<Crash> :| SessionStep(p, d, e, scans, crash);
    SessionKeeps(p, d, e, scans, crash);
    if d.ledger.File? && d.ledger.torn { TornRefused(p, d, e, scans, crash); }
  }

  lemma TornRefused(p: Plan, d: Disk, e: Disk, scans: Key -> Scan, crash: Option<Crash>)
    requires SessionStep(p, d, e, scans, crash) && d.ledger.File? && d.ledger.torn
    ensures e == d
  {
  }

  /** Every recorded line is the outcome of running its own case. */
  ghost predicate HasOutcome(p: Plan, line: Line) {
    line.Entry? && exists scan :: EntryFor(p, line, KeyOf(line.row), scan)
  }

  ghost predicate Genuine(p: Plan, lines: seq<Line>) {
    forall i :: 0 <= i < |lines| ==> HasOutcome(p, lines[i])
  }

  lemma SessionGenuine(p: Plan, d: Disk, e: Disk)
    requires Genuine(p, LinesOf(d.ledger)) && Session(p, d, e)
    ensures Genuine(p, LinesOf(e.ledger))
  {
    hide LineOk, IsRowOf, StoredEvidence, Todo, IsSummary, SessionStep;
    var scans: Key -> Scan, crash: Option<Crash> :| SessionStep(p, d, e, scans, crash);
    StepGenuine(p, d, e, scans, crash);
  }

  lemma StepGenuine(p: Plan, d: Disk, e: Disk, scans: Key -> Scan, crash: Option<Crash>)
    requires Genuine(p, LinesOf(d.ledger)) && SessionStep(p, d, e, scans, crash)
    ensures Genuine(p, LinesOf(e.ledger))
  {
    hide LineOk, EntryFor, Todo, IsSummary;
    if CanRead(p, d.ledger) {
      var before, after := LinesOf(d.ledger), LinesOf(e.ledger);
      forall i | 0 <= i < |after| ensures HasOutcome(p, after[i]) {
        if i < |before| {
          assert after[i] == before[i];
        } else {
          var todo := Todo(p, Rows(before));
          var key := todo[i - |before|];
          assert EntryFor(p, after[i], key, scans(key));
          EntryKey(p, after[i], key, scans(key));
        }
      }
    }
  }

  lemma EntryKey(p: Plan, line: Line, key: Key, scan: Scan)
    requires EntryFor(p, line, key, scan)
    ensures KeyOf(line.row) == key
  {
  }

  lemma {:induction false} HistoryGenuine(p: Plan, ds: seq<Disk>, i: nat)
    requires History(p, ds) && i < |ds|
    ensures Genuine(p, LinesOf(ds[i].ledger))
  {
    hide Session;
    if i > 0 {
      HistoryGenuine(p, ds, i - 1);
      assert Session(p, ds[i - 1], ds[i - 1 + 1]);
      SessionGenuine(p, ds[i - 1], ds[i]);
    }
  }

  /** Recorded lines stay as they are, and after a torn append nothing changes any more. */
  lemma {:induction false} HistoryAppendOnly(p: Plan, ds: seq<Disk>, i: nat, j: nat)
    requires GoodPlan(p) && History(p, ds) && i <= j < |ds|
    ensures LinesOf(ds[i].ledger) <= LinesOf(ds[j].ledger)
    ensures ds[i].ledger.File? && ds[i].ledger.torn ==> ds[j] == ds[i]
    decreases j
  {
    hide LineOk, LedgerInv, SessionStep, DiskInv, Session;
    if i < j {
      HistoryAppendOnly(p, ds, i, j - 1);
      HistorySafe(p, ds, j - 1);
      assert Session(p, ds[j - 1], ds[j - 1 + 1]);
      SessionGrows(p, ds[j - 1], ds[j]);
    }
  }

  /** A summary that says "complete" covers the whole schedule and the whole ledger. */
  lemma CompleteCoversAll(p: Plan, d: Disk)
    requires GoodPlan(p) && DiskInv(p, d) && d.summary.Some? && d.summary.value.complete
    ensures |LinesOf(d.ledger)| == |Plans(p)|
    ensures Covers(p, d.summary.value, LinesOf(d.ledger), |LinesOf(d.ledger)|)
  {
    hide LineOk, Schedule, Plans;
    var lines, keys := LinesOf(d.ledger), Plans(p);
    var k: nat :| Covers(p, d.summary.value, lines, k);
    if k < |keys| { PrefixIncomplete(p, lines, k); }
    assert lines[..k] == lines;
  }

  /** A proper prefix of the schedule is not a complete matrix. */
  lemma PrefixIncomplete(p: Plan, lines: seq<Line>, k: nat)
    requires GoodPlan(p) && LedgerInv(p, lines) && k <= |lines| && k < |Plans(p)|
    ensures !CompleteMatrix(p.config, Rows(lines[..k]))
  {
    hide LineOk, Schedule, ExpectedPairs;
    var rows, keys := Rows(lines[..k]), Plans(p);
    ScheduleOnce(p.config.repetitions, p.config.selected);
    ExpectedAre(p.config);
    assert keys[k] in ExpectedPairs(p.config);
  }

  lemma ExpectedAre(c: Config)
    ensures forall key :: key in ExpectedPairs(c) <==> Scheduled(key, c.repetitions, c.selected)
  {
    forall key: Key | Scheduled(key, c.repetitions, c.selected) ensures key in ExpectedPairs(c) {
      var i :| 0 <= i < |c.selected| && c.selected[i] == key.1;
      assert (key.0, c.selected[i]) in ExpectedPairs(c);
    }
  }

  /** A ledger that holds the whole schedule makes a complete matrix. */
  lemma WholeIsComplete(p: Plan, lines: seq<Line>)
    requires GoodPlan(p) && LedgerInv(p, lines) && |lines| == |Plans(p)| && AllEntries(lines)
    ensures CompleteMatrix(p.config, Rows(lines))
  {
    hide LineOk, Schedule;
    var rows, keys := Rows(lines), Plans(p);
    ScheduleOnce(p.config.repetitions, p.config.selected);
    ExpectedAre(p.config);
    forall key ensures key in KeySet(rows) <==> key in keys {
      if key in keys {
        var i :| 0 <= i < |keys| && keys[i] == key;
        assert KeyOf(rows[i]) == key;
      }
    }
  }

  /** A session that is not interrupted brings the ledger to the whole schedule. It leaves a
      complete summary if and only if it had a case to run or the summary was complete before. */
  lemma FinishedSummaryIff(p: Plan, d: Disk, e: Disk, scans: Key -> Scan)
    requires GoodPlan(p) && DiskInv(p, d) && CanRead(p, d.ledger) && SessionStep(p, d, e, scans, None)
    ensures |LinesOf(e.ledger)| == |Plans(p)| && CanRead(p, e.ledger)
    ensures e.summary.Some? && e.summary.value.complete <==>
              |LinesOf(d.ledger)| < |Plans(p)| || (d.summary.Some? && d.summary.value.complete)
  {
    hide LineOk, EntryFor, Todo, LedgerInv, CompleteMatrix;
    SessionKeeps(p, d, e, scans, None);
    var before, after := LinesOf(d.ledger), LinesOf(e.ledger);
    InvRows(p, before);
    InvRows(p, after);
    BoundByPlan(p, before);
    var todo := Plans(p)[|before|..];
    assert after[..|after|] == after;
    ReadableIffWhole(p, e);
    if |todo| > 0 { WholeIsComplete(p, after); }
  }

  lemma BoundByPlan(p: Plan, lines: seq<Line>)
    requires LedgerInv(p, lines)
    ensures |lines| <= |Plans(p)|
  {
  }

  /** The other half of that condition is reachable. A first run that dies between its last
      append and its last summary leaves a whole ledger without a complete summary, and no later
      session changes anything: the suite stays outside what adjudication accepts. */
  lemma StuckWithoutSummary(p: Plan, d: Disk, e: Disk, scans: Key -> Scan, later: Key -> Scan, during: bool, crash: Option<Crash>)
    requires GoodPlan(p) && p.config.selected != []
    requires SessionStep(p, Disk(Missing, None), d, scans, Some(Crash(2 * |Plans(p)| - 1, during)))
    requires SessionStep(p, d, e, later, crash)
    ensures |LinesOf(d.ledger)| == |Plans(p)| && CanRead(p, d.ledger)
    ensures !(d.summary.Some? && d.summary.value.complete)
    ensures e == d
  {
    hide LineOk, LedgerInv, SessionStep, Plans, CompleteMatrix, IsSummary;
    PlanNotEmpty(p);
    var start, crashed := Disk(Missing, None), Some(Crash(2 * |Plans(p)| - 1, during));
    StartInv(p);
    FirstRun(p, d, scans, during);
    SessionKeeps(p, start, d, scans, crashed);
    ReadableIffWhole(p, d);
    NothingLeft(p, d, e, later, crash);
    if d.summary.Some? { PrefixIncomplete(p, LinesOf(d.ledger), |Plans(p)| - 1); SummaryComplete(p, d); }
  }

  lemma SummaryComplete(p: Plan, d: Disk)
    requires d.summary.Some? && |LinesOf(d.ledger)| == |Plans(p)| > 0 && AllEntries(LinesOf(d.ledger))
    requires IsSummary(d.summary.value, p.config, Rows(LinesOf(d.ledger)[..|Plans(p)| - 1]))
    ensures d.summary.value.complete <==> CompleteMatrix(p.config, Rows(LinesOf(d.ledger)[..|Plans(p)| - 1]))
  {
    hide CompleteMatrix;
  }

  lemma PlanNotEmpty(p: Plan)
    requires GoodPlan(p) && p.config.selected != []
    ensures |Plans(p)| > 0
  {
  }

  lemma StartInv(p: Plan)
    ensures DiskInv(p, Disk(Missing, None))
  {
  }

  lemma FirstRun(p: Plan, d: Disk, scans: Key -> Scan, during: bool)
    requires GoodPlan(p) && |Plans(p)| > 0
    requires SessionStep(p, Disk(Missing, None), d, scans, Some(Crash(2 * |Plans(p)| - 1, during)))
    ensures d.ledger.File? && !d.ledger.torn && |d.ledger.lines| == |Plans(p)| && AllEntries(d.ledger.lines)
    ensures d.summary.Some? ==> IsSummary(d.summary.value, p.config, Rows(d.ledger.lines[..|Plans(p)| - 1]))
  {
    hide LineOk, EntryFor, IsSummary, Todo, LedgerInv, Plans;
    StartInv(p);
    StartPending(p);
    assert Plans(p)[0..] == Plans(p);
  }

  lemma StartPending(p: Plan)
    requires GoodPlan(p)
    ensures Todo(p, Rows([])) == Plans(p)
  {
    InvRows(p, []);
  }

  lemma NothingLeft(p: Plan, d: Disk, e: Disk, later: Key -> Scan, crash: Option<Crash>)
    requires GoodPlan(p) && DiskInv(p, d) && SessionStep(p, d, e, later, crash)
    requires |LinesOf(d.ledger)| == |Plans(p)| && CanRead(p, d.ledger)
    ensures e == d
  {
    hide LineOk, EntryFor, IsSummary, Todo, LedgerInv, Plans;
    InvRows(p, LinesOf(d.ledger));
    assert LinesOf(e.ledger) == LinesOf(d.ledger);
  }
}

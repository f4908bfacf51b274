/** What a confirmed score means: its relation to the candidate score, and back to the evidence. */
module Confirmed {
  import opened Prelude
  import opened Harness
  import opened Differential
  import opened CaseRun
  import opened Ledger
  import opened Median
  import opened Summary
  import opened Suite
  import opened SuiteRuns
  import opened Adjudication

  // ----- Confirmed against candidate ---------------------------------------------------

  /** Every candidate kill is of a mutant and has a decision. */
  ghost predicate AllDecided(rows: seq<LedgerRow>, decisions: seq<Decision>) {
    forall i :: 0 <= i < |rows| && rows[i].candidateKill ==>
      rows[i].caseId != CONTROL && Find(decisions, KeyOf(rows[i])).Some?
  }

  /** `d` is one of the decisions, on this row's key, and names this row's test and evidence. */
  ghost predicate Decides(rows: seq<LedgerRow>, decisions: seq<Decision>, d: Decision, row: LedgerRow) {
    && d in decisions && DecisionKey(d) == KeyOf(row) && Names(d, row)
    && forall j :: 0 <= j < |decisions| && DecisionKey(decisions[j]) == KeyOf(row) ==> decisions[j] == d
  }

  lemma CandidateDecided(rows: seq<LedgerRow>, decisions: seq<Decision>, i: nat)
    requires Matched(rows, decisions) && i < |rows| && rows[i].candidateKill
    ensures Find(decisions, KeyOf(rows[i])).Some?
    ensures Decides(rows, decisions, Find(decisions, KeyOf(rows[i])).value, rows[i])
  {
    var row := rows[i];
    assert KeyOf(row) in CandidateKeys(rows);
    var j :| 0 <= j < |decisions| && DecisionKey(decisions[j]) == KeyOf(row);
    FindOnly(decisions, j);
    assert RowMatched(row, decisions);
  }

  lemma MatchedDecided(rows: seq<LedgerRow>, decisions: seq<Decision>)
    requires Matched(rows, decisions) && forall j :: 0 <= j < |decisions| ==> WellFormed(decisions[j])
    ensures AllDecided(rows, decisions)
  {
    hide Matched, Names, Find;
    forall i | 0 <= i < |rows| && rows[i].candidateKill
      ensures rows[i].caseId != CONTROL && Find(decisions, KeyOf(rows[i])).Some?
    {
      CandidateDecided(rows, decisions, i);
    }
  }

  /** Each candidate kill is one reviewed case, and a repetition confirms only what it killed. */
  lemma {:induction false} CasesCount(rows: seq<LedgerRow>, decisions: seq<Decision>, r: nat)
    requires AllDecided(rows, decisions)
    ensures |CasesOf(rows, decisions)| == TotalKills(rows)
    ensures ConfirmedIn(CasesOf(rows, decisions), r) <= KillsIn(rows, r)
  {
    hide Find;
    if rows != [] {
      var before, row := rows[..|rows| - 1], rows[|rows| - 1];
      assert AllDecided(before, decisions);
      CasesCount(before, decisions, r);
      if row.candidateKill {
        FindKey(decisions, KeyOf(row));
        assert rows[|rows| - 1].candidateKill;
        var d := Find(decisions, KeyOf(row)).value;
        var cases := CasesOf(rows, decisions);
        assert cases == CasesOf(before, decisions) + [Recorded(d)];
        assert cases[..|cases| - 1] == CasesOf(before, decisions);
      } else {
        assert CasesOf(rows, decisions) == CasesOf(before, decisions);
      }
    }
  }

  lemma FractionMonotone(a: nat, b: nat, n: nat)
    requires a <= b && n > 0
    ensures a as real / n as real <= b as real / n as real
  {
  }

  lemma GoodAccepted(x: Inputs)
    requires Accepts(x)
    ensures forall i :: 0 <= i < |x.ledger.lines| ==> x.ledger.lines[i].Entry?
    ensures GoodLedger(x.frozen.value.config, Rows(x.ledger.lines))
    ensures x.frozen.value.config.repetitions >= 1
  {
    hide CompleteMatrix, Matched, ArtifactsOk;
    var c, lines := x.frozen.value.config, x.ledger.lines;
    forall i | 0 <= i < |lines| ensures Scheduled(KeyOf(Rows(lines)[i]), c.repetitions, c.selected) {
      assert LineOk(lines[i], c.repetitions, c.selected, x.frozen.value.sources);
    }
  }

  /** The summary is the suite's own over the ledger it is adjudicated with. */
  ghost predicate OwnSummary(x: Inputs) {
    && Accepts(x) && (forall i :: 0 <= i < |x.ledger.lines| ==> x.ledger.lines[i].Entry?)
    && IsSummary(x.raw.value.summary, x.frozen.value.config, Rows(x.ledger.lines))
  }

  ghost function Cases(x: Inputs): seq<CaseDecision>
    requires Accepts(x) && forall i :: 0 <= i < |x.ledger.lines| ==> x.ledger.lines[i].Entry?
  {
    CasesOf(Rows(x.ledger.lines), x.decisions.value.decisions)
  }

  lemma AcceptedCount(x: Inputs, r: nat)
    requires OwnSummary(x)
    ensures |Cases(x)| == TotalKills(Rows(x.ledger.lines))
    ensures ConfirmedIn(Cases(x), r) <= KillsIn(Rows(x.ledger.lines), r) <= |Mutants(x.frozen.value.config.selected)|
  {
    hide CompleteMatrix, Matched, LineOk, CasesOf, KillsIn, ConfirmedIn, Mutants, IsSummary, GoodLedger;
    var rows := Rows(x.ledger.lines);
    MatchedDecided(rows, x.decisions.value.decisions);
    CasesCount(rows, x.decisions.value.decisions, r);
    GoodAccepted(x);
    KillsBound(x.frozen.value.config, rows, r);
  }

  /** Every reviewed candidate is confirmed or rejected, and none is lost. */
  lemma ReviewedAll(x: Inputs, a: Adjudicated)
    requires OwnSummary(x) && IsAdjudicated(a, x, Cases(x))
    ensures a.confirmedKills + a.rejectedKills == a.candidateKills == a.record.reviewed
  {
    hide Accepts, CompleteMatrix, CasesOf, ConfirmedTotal;
    AcceptedCount(x, 0);
  }

  lemma OwnParts(x: Inputs)
    requires OwnSummary(x)
    ensures x.frozen.Some? && x.raw.Some? && x.decisions.Some? && x.ledger.File?
    ensures x.frozen.value.config.repetitions >= 1
    ensures Accepts(x) && forall i :: 0 <= i < |x.ledger.lines| ==> x.ledger.lines[i].Entry?
  {
  }

  /** The summary a suite leaves on disk is its own: whatever runs, crashes and resumes led
      there, an accepted adjudication of a suite's two files satisfies `OwnSummary`. */
  lemma SuiteSummaryIsOwn(p: Plan, ds: seq<Disk>, n: nat, x: Inputs)
    requires GoodPlan(p) && History(p, ds) && n < |ds| && Accepts(x)
    requires x.ledger == ds[n].ledger && ds[n].summary == Some(x.raw.value.summary)
    requires x.frozen.value.config == p.config
    ensures OwnSummary(x)
  {
    hide LineOk, CompleteMatrix, Matched, IsSummary, History;
    HistorySafe(p, ds, n);
    CompleteCoversAll(p, ds[n]);
    assert x.ledger.lines[..|x.ledger.lines|] == x.ledger.lines;
  }

  /** Confirmed kills, as a fraction, are at most the candidate kills. */
  lemma FractionStep(x: Inputs, r: nat)
    requires OwnSummary(x) && |Mutants(x.frozen.value.config.selected)| > 0
    ensures var n := |Mutants(x.frozen.value.config.selected)| as real;
            && ConfirmedIn(Cases(x), r) <= KillsIn(Rows(x.ledger.lines), r)
            && 0.0 <= ConfirmedIn(Cases(x), r) as real / n <= KillsIn(Rows(x.ledger.lines), r) as real / n <= 1.0
  {
    hide *;
    hide OwnSummary, Cases;
    OwnParts(x);
    AcceptedCount(x, r);
    var confirmed, kills, n := ConfirmedIn(Cases(x), r), KillsIn(Rows(x.ledger.lines), r), |Mutants(x.frozen.value.config.selected)|;
    FractionMonotone(confirmed, kills, n);
    FractionBounds(confirmed, n);
    FractionBounds(kills, n);
  }

  /** Each repetition's confirmed score is at most its candidate score, which is at most one. */
  lemma ConfirmedBelowCandidate(x: Inputs, a: Adjudicated, i: nat)
    requires OwnSummary(x) && IsAdjudicated(a, x, Cases(x)) && Mutants(x.frozen.value.config.selected) != []
    requires i < x.frozen.value.config.repetitions
    ensures |a.scores| == |x.raw.value.summary.repetitionScores| == x.frozen.value.config.repetitions
    ensures var c, s := a.scores[i], x.raw.value.summary.repetitionScores[i];
            && c.repetition == s.repetition == i + 1
            && c.confirmed <= s.kills && c.score.Some? && s.score.Some?
            && 0.0 <= c.score.value <= s.score.value <= 1.0
  {
    hide Accepts, CasesOf, ConfirmedTotal, KillsIn, ConfirmedIn, Mutants, CompleteMatrix, RepComplete, MedianOf, MinOf, MaxOf;
    OwnParts(x);
    AcceptedComplete(x);
    CompleteRep(x.frozen.value.config, Rows(x.ledger.lines), i + 1);
    FractionStep(x, i + 1);
  }

  lemma AcceptedComplete(x: Inputs)
    requires OwnSummary(x)
    ensures CompleteMatrix(x.frozen.value.config, Rows(x.ledger.lines))
  {
  }

  /** The confirmed score, a median, is at most the candidate score. */
  lemma MedianBelowCandidate(x: Inputs, a: Adjudicated)
    requires OwnSummary(x) && IsAdjudicated(a, x, Cases(x)) && Mutants(x.frozen.value.config.selected) != []
    ensures a.confirmedScore.Some? && a.candidateScore.Some? && a.confirmedRange.Some?
    ensures 0.0 <= a.confirmedRange.value.0 <= a.confirmedScore.value <= a.confirmedRange.value.1 <= 1.0
    ensures a.confirmedScore.value <= a.candidateScore.value
  {
    hide Accepts, CasesOf, ConfirmedTotal, KillsIn, ConfirmedIn, Mutants, CompleteMatrix, RepComplete, MedianOf, MinOf, MaxOf,
         RepScores, ConfirmedScores, Values, ConfirmedValues;
    OwnParts(x);
    var c, rows, cases := x.frozen.value.config, Rows(x.ledger.lines), Cases(x);
    var low, high := ConfirmedValues(ConfirmedScores(c, cases, c.repetitions)), Values(RepScores(c, rows, c.repetitions));
    AcceptedComplete(x);
    CompleteScores(c, rows, c.repetitions);
    ConfirmedValuesAre(c, cases, c.repetitions);
    forall i | 0 <= i < c.repetitions ensures 0.0 <= low[i] <= high[i] <= 1.0 {
      FractionStep(x, i + 1);
    }
    MedianMonotone(low, high);
    MedianBetween(low);
  }

  /** The official score is eligible exactly when the full selection ran without an integrity
      error and without an infrastructure error, from a clean git state. */
  lemma EligibleIff(x: Inputs, a: Adjudicated)
    requires OwnSummary(x) && IsAdjudicated(a, x, Cases(x))
    ensures a.eligible <==>
      && x.frozen.value.config.selected == CASE_IDS && x.frozen.value.config.gitClean
      && forall i :: 0 <= i < |x.ledger.lines| ==>
           x.ledger.lines[i].row.integrityErrors == 0 && x.ledger.lines[i].row.infrastructureErrors == 0
  {
    hide Accepts, CasesOf, ConfirmedTotal, KillsIn, ConfirmedIn, Mutants, CompleteMatrix, MedianOf, MinOf, MaxOf,
         RepScores, ConfirmedScores, Values, ConfirmedValues;
    AcceptedComplete(x);
    OwnParts(x);
    var c, rows, raw := x.frozen.value.config, Rows(x.ledger.lines), x.raw.value.summary;
    if a.eligible {
      forall b | b != PendingAdjudication ensures !Blocked(c, rows, b) {
        assert b !in a.blockers;
      }
      assert !Blocked(c, rows, SubsetSelection) && !Blocked(c, rows, UnfrozenGit);
      assert !Blocked(c, rows, IntegrityFailed) && !Blocked(c, rows, InfrastructureFailed);
      forall i | 0 <= i < |x.ledger.lines|
        ensures x.ledger.lines[i].row.integrityErrors == 0 && x.ledger.lines[i].row.infrastructureErrors == 0
      {
        assert rows[i] == x.ledger.lines[i].row;
      }
    } else {
      var b := a.blockers[0];
      assert b in raw.blockers && Blocked(c, rows, b);
    }
  }

  // ----- Back to the evidence ----------------------------------------------------------

  /** The ledger row behind the `k`-th reviewed case. */
  lemma {:induction false} CaseHasRow(rows: seq<LedgerRow>, decisions: seq<Decision>, k: nat) returns (i: nat)
    requires AllDecided(rows, decisions) && k < |CasesOf(rows, decisions)|
    ensures i < |rows| && rows[i].candidateKill
    ensures CasesOf(rows, decisions)[k] == Recorded(Find(decisions, KeyOf(rows[i])).value)
  {
    hide Find;
    var before := rows[..|rows| - 1];
    assert AllDecided(before, decisions);
    if k < |CasesOf(before, decisions)| {
      i := CaseHasRow(before, decisions, k);
    } else {
      i := |rows| - 1;
    }
  }

  /** A ledger line stands on a kill: it is the line of a run that generated a test for a mutant,
      nothing changed under that run, both of its harnesses are complete, and one test of its own
      node lists passed clean and failed by assertion. The digest the line records is that of the
      evidence of this run. */
  ghost predicate Evidenced(p: Plan, line: Line, scan: Scan) {
    && line.Entry? && EntryFor(p, line, KeyOf(line.row), scan)
    && scan.Generated? && line.row.caseId != CONTROL && line.row.integrityErrors == 0
    && Untouched(line.row.caseId, scan.o)
    && Scoreable(scan.o.clean) && Scoreable(scan.o.mutant)
    && (exists c, m :: Kills(scan.o.clean.nodes, scan.o.mutant.nodes, scan.findings, c, m))
    && line.row.testHash == Some(scan.o.testHash)
    && line.row.evidenceDigest == Some(DigestOf(StoredEvidence(line.row.caseId, scan.findings, scan.o)))
  }

  lemma CandidateEvidenced(p: Plan, line: Line) returns (scan: Scan)
    requires HasOutcome(p, line) && line.row.candidateKill
    ensures Evidenced(p, line, scan)
  {
    hide Kills, HarnessStatus, StoredEvidence;
    scan :| EntryFor(p, line, KeyOf(line.row), scan);
    RowKillIff(line.row, line.row.repetition, line.row.caseId, p.sources[line.row.caseId], scan);
  }

  /** Soundness of a confirmed kill. Whatever runs, crashes and resumes produced the ledger, each
      confirmed case of an accepted adjudication stands on the ledger line of a mutant's run whose
      own nodes hold a killing pair, and on exactly one decision: a confirmation that names the
      test of that run and the digest of that run's evidence. */
  lemma ConfirmedKillSound(p: Plan, ds: seq<Disk>, n: nat, x: Inputs, k: nat) returns (i: nat, d: Decision, scan: Scan)
    requires History(p, ds) && n < |ds| && Accepts(x) && x.ledger == ds[n].ledger
    requires AllEntries(x.ledger.lines) && k < |Cases(x)| && Cases(x)[k].confirmed
    ensures i < |x.ledger.lines| && KeyOf(x.ledger.lines[i].row) == (Cases(x)[k].repetition, Cases(x)[k].caseId)
    ensures x.ledger.lines[i].row.candidateKill && Evidenced(p, x.ledger.lines[i], scan)
    ensures Decides(Rows(x.ledger.lines), x.decisions.value.decisions, d, x.ledger.lines[i].row)
    ensures d.verdict == Verdict.Confirmed && Recorded(d) == Cases(x)[k]
    ensures scan.Generated? && d.testHash == scan.o.testHash
            && d.evidenceDigest == DigestOf(StoredEvidence(d.caseId, scan.findings, scan.o))
  {
    hide Readable, CompleteMatrix, Matched, CasesOf, Find, Evidenced, Decides, Genuine, History, HasOutcome, StoredEvidence;
    var rows, decisions := Rows(x.ledger.lines), x.decisions.value.decisions;
    MatchedDecided(rows, decisions);
    i := CaseHasRow(rows, decisions, k);
    d := Find(decisions, KeyOf(rows[i])).value;
    CandidateDecided(rows, decisions, i);
    FindKey(decisions, KeyOf(rows[i]));
    HistoryGenuine(p, ds, n);
    LineOutcome(p, x.ledger.lines, i);
    scan := CandidateEvidenced(p, x.ledger.lines[i]);
    NamesEvidence(p, x.ledger.lines[i], scan, rows, decisions, d);
  }

  /** The decision on a line names the test and the evidence of the run behind it. */
  lemma NamesEvidence(p: Plan, line: Line, scan: Scan, rows: seq<LedgerRow>, decisions: seq<Decision>, d: Decision)
    requires Evidenced(p, line, scan) && Decides(rows, decisions, d, line.row)
    ensures scan.Generated? && d.testHash == scan.o.testHash
    ensures d.evidenceDigest == DigestOf(StoredEvidence(d.caseId, scan.findings, scan.o))
  {
    hide StoredEvidence, Kills, HarnessStatus;
  }

  lemma LineOutcome(p: Plan, lines: seq<Line>, i: nat)
    requires Genuine(p, lines) && i < |lines|
    ensures HasOutcome(p, lines[i])
  {
  }

  // ----- One suite with one mutant -----------------------------------------------------

  const ONE := Config(1, ["M01"], true)

  function OneRow(e: Evidence): LedgerRow {
    LedgerRow(1, "M01", "source", Completed, true, Some(e.testHash), Some(DigestOf(e)), true, true, 0, 0, 0, 1)
  }

  function OneSummary(row: LedgerRow): SuiteSummary {
    SuiteSummary(true, false, [SubsetSelection, PendingAdjudication], [row], 1, Some(1.0), Some((1.0, 1.0)), RepScores(ONE, [row], 1))
  }

  function OneInput(e: Evidence, verdict: Verdict): Inputs {
    Inputs(Some(Frozen("suite", "print", ONE, map["M01" := "source"])),
           File([Entry(OneRow(e), true, Some(e))], false),
           Some(RawSummary("suite", OneSummary(OneRow(e)))),
           Some(DecisionFile("suite", "print", [Decision(1, "M01", e.testHash, DigestOf(e), verdict, "reviewed")])))
  }

  lemma OneScores(row: LedgerRow)
    requires row.repetition == 1 && row.caseId == "M01" && row.candidateKill
    ensures Mutants(ONE.selected) == ["M01"]
    ensures CompleteMatrix(ONE, [row]) && TotalKills([row]) == KillsIn([row], 1) == 1
    ensures Values(RepScores(ONE, [row], 1)) == [1.0]
  {
    var rows := [row];
    assert Mutants(["M01"][1..]) == [];
    assert rows[..0] == [];
    assert KeyOf(rows[0]) == (1, "M01");
    forall key ensures key in KeySet(rows) <==> key in ExpectedPairs(ONE) {
      assert key in ExpectedPairs(ONE) <==> key == (1, ONE.selected[0]);
    }
    CompleteScores(ONE, rows, 1);
  }

  lemma OneIsSummary(row: LedgerRow)
    requires row.repetition == 1 && row.caseId == "M01" && row.candidateKill && row.needsAdjudication
    requires row.integrityErrors == 0 && row.infrastructureErrors == 0
    ensures IsSummary(OneSummary(row), ONE, [row])
  {
    hide CompleteMatrix, TotalKills, KillsIn, Mutants, Values, RepScores;
    OneScores(row);
    assert [row][0] == row;
    forall b ensures b in OneSummary(row).blockers <==> Blocked(ONE, [row], b) {
      match b case _ =>
    }
  }

  lemma OneAccepted(e: Evidence, verdict: Verdict)
    requires e.caseId == "M01" && e.caseKill
    ensures OwnSummary(OneInput(e, verdict))
    ensures Cases(OneInput(e, verdict)) == [CaseDecision(1, "M01", e.testHash, DigestOf(e), verdict == Verdict.Confirmed, "reviewed")]
  {
    hide IsSummary, CompleteMatrix, OneSummary, CasesOf;
    var x, row := OneInput(e, verdict), OneRow(e);
    OneScores(row);
    OneIsSummary(row);
    var rows, decisions := Rows(x.ledger.lines), x.decisions.value.decisions;
    assert rows == [row];
    OneMatched(row, decisions);
    OneRaw(row);
    OneCase([row], decisions);
  }

  lemma OneCase(rows: seq<LedgerRow>, decisions: seq<Decision>)
    requires |rows| == 1 && rows[0].candidateKill && |decisions| == 1 && DecisionKey(decisions[0]) == KeyOf(rows[0])
    ensures CasesOf(rows, decisions) == [Recorded(decisions[0])]
  {
    FindOnly(decisions, 0);
    assert rows[..0] == [];
  }

  lemma OneRaw(row: LedgerRow)
    ensures OneSummary(row).complete && OneSummary(row).rows == [row]
  {
  }

  lemma OneMatched(row: LedgerRow, decisions: seq<Decision>)
    requires row.candidateKill && |decisions| == 1 && DecisionKey(decisions[0]) == KeyOf(row) && Names(decisions[0], row)
    ensures Matched([row], decisions)
  {
    assert [row][0].candidateKill && KeyOf([row][0]) == KeyOf(row);
    forall key ensures key in DecidedKeys(decisions) <==> key in CandidateKeys([row]) {
      assert key in DecidedKeys(decisions) <==> key == DecisionKey(decisions[0]);
      assert key in CandidateKeys([row]) <==> key == KeyOf(row);
    }
  }

  lemma OneConfirmed(d: CaseDecision)
    requires d.repetition == 1
    ensures ConfirmedIn([d], 1) == ConfirmedTotal([d]) == Flag(d.confirmed)
    ensures ConfirmedValues(ConfirmedScores(ONE, [d], 1)) == [if d.confirmed then 1.0 else 0.0]
  {
    assert [d][..0] == [];
    OneMutant();
    ConfirmedValuesAre(ONE, [d], 1);
  }

  lemma OneMutant()
    ensures Mutants(ONE.selected) == ["M01"]
  {
    assert Mutants(["M01"][1..]) == [];
  }

  /** The bounds are met, and can be strict: of one killed mutant with a candidate score of one,
      a confirmation makes a confirmed score of one and a rejection a confirmed score of zero. */
  lemma ConfirmOrReject(e: Evidence, verdict: Verdict, a: Adjudicated)
    requires e.caseId == "M01" && e.caseKill
    requires IsAdjudicated(a, OneInput(e, verdict), CasesOf([OneRow(e)], OneInput(e, verdict).decisions.value.decisions))
    ensures OwnSummary(OneInput(e, verdict))
    ensures a.candidateScore == Some(1.0) && a.confirmedScore == Some(if verdict == Verdict.Confirmed then 1.0 else 0.0)
    ensures a.candidateKills == 1 && a.confirmedKills == Flag(verdict == Verdict.Confirmed)
    ensures !a.eligible
  {
    hide OwnSummary, Cases, RepScores, ConfirmedScores, ConfirmedValues, CasesOf, ConfirmedTotal;
    OneAccepted(e, verdict);
    var decisions := OneInput(e, verdict).decisions.value.decisions;
    OneCase([OneRow(e)], decisions);
    OneConfirmed(Recorded(decisions[0]));
    assert SubsetSelection in OneSummary(OneRow(e)).blockers;
  }
}

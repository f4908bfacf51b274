/** The suite summary: exact score arithmetic over the ledger. */
module Summary {
  import opened Prelude
  import opened CaseRun
  import opened Ledger
  import opened Median

  const CASE_IDS: seq<string> := ["C00", "M01", "M02", "M03", "M04", "M05", "M06", "M07", "M08", "M09", "M10"]

  /** The frozen parts a summary needs; `gitClean`: git state available and not dirty. */
  datatype Config = Config(repetitions: nat, selected: seq<string>, gitClean: bool)

  datatype Blocker =
    | SubsetSelection | IncompleteMatrix | IntegrityFailed | InfrastructureFailed | UnfrozenGit | PendingAdjudication

  datatype RepScore = RepScore(repetition: nat, complete: bool, evaluated: nat, expected: nat, kills: nat, score: Option<real>)

  datatype SuiteSummary = SuiteSummary(
    complete: bool, eligible: bool, blockers: seq<Blocker>, rows: seq<LedgerRow>, candidateKills: nat,
    score: Option<real>, range: Option<(real, real)>, repetitionScores: seq<RepScore>)

  // ----- Counting ------------------------------------------------------------------

  function Mutants(selected: seq<string>): seq<string> {
    if selected == [] then []
    else (if selected[0] != CONTROL then [selected[0]] else []) + Mutants(selected[1..])
  }

  predicate MutantOfRep(row: LedgerRow, r: nat) { row.caseId != CONTROL && row.repetition == r }

  function EvaluatedIn(rows: seq<LedgerRow>, r: nat): nat {
    if rows == [] then 0
    else EvaluatedIn(rows[..|rows| - 1], r) + Flag(MutantOfRep(rows[|rows| - 1], r))
  }

  function KillsIn(rows: seq<LedgerRow>, r: nat): nat {
    if rows == [] then 0
    else KillsIn(rows[..|rows| - 1], r)
         + Flag(MutantOfRep(rows[|rows| - 1], r) && rows[|rows| - 1].candidateKill)
  }

  function MutantRows(rows: seq<LedgerRow>): nat {
    if rows == [] then 0 else MutantRows(rows[..|rows| - 1]) + Flag(rows[|rows| - 1].caseId != CONTROL)
  }

  function TotalKills(rows: seq<LedgerRow>): nat {
    if rows == [] then 0
    else TotalKills(rows[..|rows| - 1]) + Flag(rows[|rows| - 1].caseId != CONTROL && rows[|rows| - 1].candidateKill)
  }

  // ----- The summary -----------------------------------------------------------------

  function ExpectedPairs(c: Config): set<Key> {
    set r, i | 1 <= r <= c.repetitions && 0 <= i < |c.selected| :: (r, c.selected[i])
  }

  predicate CompleteMatrix(c: Config, rows: seq<LedgerRow>) { KeySet(rows) == ExpectedPairs(c) }

  predicate RepComplete(c: Config, rows: seq<LedgerRow>, r: nat) {
    forall i :: 0 <= i < |c.selected| ==> (r, c.selected[i]) in KeySet(rows)
  }

  function RepScoreOf(c: Config, rows: seq<LedgerRow>, r: nat): RepScore {
    var expected := |Mutants(c.selected)|;
    var kills := KillsIn(rows, r);
    RepScore(r, RepComplete(c, rows, r), EvaluatedIn(rows, r), expected, kills,
             if RepComplete(c, rows, r) && expected > 0 then Some(kills as real / expected as real) else None)
  }

  /** The scores of repetitions 1..r. */
  function RepScores(c: Config, rows: seq<LedgerRow>, r: nat): (s: seq<RepScore>)
    ensures |s| == r && forall i :: 0 <= i < r ==> s[i] == RepScoreOf(c, rows, i + 1)
  {
    if r == 0 then [] else RepScores(c, rows, r - 1) + [RepScoreOf(c, rows, r)]
  }

  /** The scores that are there. */
  function Values(s: seq<RepScore>): seq<real> {
    if s == [] then []
    else Values(s[..|s| - 1]) + (if s[|s| - 1].score.Some? then [s[|s| - 1].score.value] else [])
  }

  predicate Available(c: Config, rows: seq<LedgerRow>) { CompleteMatrix(c, rows) && Mutants(c.selected) != [] }

  predicate Blocked(c: Config, rows: seq<LedgerRow>, b: Blocker) {
    match b
    case SubsetSelection => c.selected != CASE_IDS
    case IncompleteMatrix => !CompleteMatrix(c, rows)
    case IntegrityFailed => exists i :: 0 <= i < |rows| && rows[i].integrityErrors != 0
    case InfrastructureFailed => exists i :: 0 <= i < |rows| && rows[i].infrastructureErrors != 0
    case UnfrozenGit => !c.gitClean
    case PendingAdjudication => exists i :: 0 <= i < |rows| && rows[i].needsAdjudication
  }

  ghost predicate IsSummary(s: SuiteSummary, c: Config, rows: seq<LedgerRow>) {
    && s.rows == rows
    && s.complete == CompleteMatrix(c, rows)
    && (forall b :: b in s.blockers <==> Blocked(c, rows, b))
    && s.eligible == (s.blockers == [])
    && s.candidateKills == TotalKills(rows)
    && s.repetitionScores == RepScores(c, rows, c.repetitions)
    && (s.score.Some? <==> Available(c, rows))
    && (s.range.Some? <==> Available(c, rows))
    && (Available(c, rows) ==>
          && Values(s.repetitionScores) != []
          && s.score == Some(MedianOf(Values(s.repetitionScores)))
          && s.range == Some((MinOf(Values(s.repetitionScores)), MaxOf(Values(s.repetitionScores)))))
  }

  method WriteSummary(c: Config, rows: seq<LedgerRow>) returns (s: SuiteSummary)
    requires c.repetitions >= 1
    ensures IsSummary(s, c, rows)
  {
    hide MedianOf, MinOf, MaxOf;
    var complete := CompleteMatrix(c, rows);
    var scores: seq<RepScore> := [];
    for r := 1 to c.repetitions + 1
      invariant scores == RepScores(c, rows, r - 1)
    {
      scores := scores + [RepScoreOf(c, rows, r)];
    }
    var values := Values(scores);
    var available := complete && Mutants(c.selected) != [];
    if available { CompleteScores(c, rows, c.repetitions); }
    var blockers := CollectBlockers(c, rows);
    s := SuiteSummary(complete, blockers == [], blockers, rows, TotalKills(rows),
                      if available then Some(MedianOf(values)) else None,
                      if available then Some((MinOf(values), MaxOf(values))) else None,
                      scores);
  }

  method CollectBlockers(c: Config, rows: seq<LedgerRow>) returns (blockers: seq<Blocker>)
    ensures forall b :: b in blockers <==> Blocked(c, rows, b)
  {
    blockers := [];
    if c.selected != CASE_IDS { blockers := blockers + [SubsetSelection]; }
    if !CompleteMatrix(c, rows) { blockers := blockers + [IncompleteMatrix]; }
    if exists i :: 0 <= i < |rows| && rows[i].integrityErrors != 0 { blockers := blockers + [IntegrityFailed]; }
    if exists i :: 0 <= i < |rows| && rows[i].infrastructureErrors != 0 { blockers := blockers + [InfrastructureFailed]; }
    if !c.gitClean { blockers := blockers + [UnfrozenGit]; }
    if exists i :: 0 <= i < |rows| && rows[i].needsAdjudication { blockers := blockers + [PendingAdjudication]; }
    hide CompleteMatrix;
    forall b ensures b in blockers <==> Blocked(c, rows, b) {
      match b case _ =>
    }
  }

  // ----- CompleteMatrix matrices -------------------------------------------------------------

  lemma CompleteRep(c: Config, rows: seq<LedgerRow>, r: nat)
    requires CompleteMatrix(c, rows) && 1 <= r <= c.repetitions
    ensures RepComplete(c, rows, r)
  {
    forall i | 0 <= i < |c.selected| ensures (r, c.selected[i]) in KeySet(rows) {
      assert (r, c.selected[i]) in ExpectedPairs(c);
    }
  }

  /** In a complete matrix every repetition is complete, so each of them has its score. */
  lemma {:induction false} CompleteScores(c: Config, rows: seq<LedgerRow>, r: nat)
    requires Available(c, rows) && r <= c.repetitions
    ensures |Values(RepScores(c, rows, r))| == r
    ensures forall i :: 0 <= i < r ==>
              Values(RepScores(c, rows, r))[i] == KillsIn(rows, i + 1) as real / |Mutants(c.selected)| as real
  {
    hide CompleteMatrix, RepComplete, KillsIn, Mutants, EvaluatedIn;
    if r > 0 {
      CompleteScores(c, rows, r - 1);
      CompleteRep(c, rows, r);
      var s := RepScores(c, rows, r);
      assert s[..|s| - 1] == RepScores(c, rows, r - 1);
    }
  }

  // ----- Partition and bounds ------------------------------------------------------------

  /** Kills of repetitions 1..r. */
  function KillsUpTo(rows: seq<LedgerRow>, r: nat): nat {
    if r == 0 then 0 else KillsUpTo(rows, r - 1) + KillsIn(rows, r)
  }

  /** Mutants evaluated in repetitions 1..r. */
  function EvaluatedUpTo(rows: seq<LedgerRow>, r: nat): nat {
    if r == 0 then 0 else EvaluatedUpTo(rows, r - 1) + EvaluatedIn(rows, r)
  }

  lemma {:induction false} UpToEmpty(r: nat)
    ensures KillsUpTo([], r) == 0 && EvaluatedUpTo([], r) == 0
  {
    if r > 0 { UpToEmpty(r - 1); }
  }

  /** One more row adds to the repetition it belongs to, and to no other. */
  lemma {:induction false} UpToAppend(rows: seq<LedgerRow>, r: nat)
    requires rows != []
    ensures var row := rows[|rows| - 1];
            var here := row.caseId != CONTROL && 1 <= row.repetition <= r;
            && KillsUpTo(rows, r) == KillsUpTo(rows[..|rows| - 1], r) + Flag(here && row.candidateKill)
            && EvaluatedUpTo(rows, r) == EvaluatedUpTo(rows[..|rows| - 1], r) + Flag(here)
  {
    if r > 0 { UpToAppend(rows, r - 1); }
  }

  /** Per-repetition kills and evaluated mutants add up to the totals. */
  lemma {:induction false} SummaryPartition(rows: seq<LedgerRow>, repetitions: nat)
    requires forall i :: 0 <= i < |rows| ==> 1 <= rows[i].repetition <= repetitions
    ensures KillsUpTo(rows, repetitions) == TotalKills(rows)
    ensures EvaluatedUpTo(rows, repetitions) == MutantRows(rows)
  {
    if rows == [] {
      UpToEmpty(repetitions);
    } else {
      SummaryPartition(rows[..|rows| - 1], repetitions);
      UpToAppend(rows, repetitions);
    }
  }

  /** The totals of the per-repetition figures a summary reports. */
  function ReportedKills(scores: seq<RepScore>): nat {
    if scores == [] then 0 else ReportedKills(scores[..|scores| - 1]) + scores[|scores| - 1].kills
  }

  function ReportedEvaluated(scores: seq<RepScore>): nat {
    if scores == [] then 0 else ReportedEvaluated(scores[..|scores| - 1]) + scores[|scores| - 1].evaluated
  }

  lemma {:induction false} ReportedIsUpTo(c: Config, rows: seq<LedgerRow>, r: nat)
    ensures ReportedKills(RepScores(c, rows, r)) == KillsUpTo(rows, r)
    ensures ReportedEvaluated(RepScores(c, rows, r)) == EvaluatedUpTo(rows, r)
  {
    hide RepComplete, KillsIn, EvaluatedIn, Mutants;
    if r > 0 {
      ReportedIsUpTo(c, rows, r - 1);
      var s := RepScores(c, rows, r);
      assert s[..|s| - 1] == RepScores(c, rows, r - 1);
    }
  }

  /** The repetitions a summary reports account for every candidate kill and every evaluated mutant. */
  lemma SummaryTotals(c: Config, rows: seq<LedgerRow>, s: SuiteSummary)
    requires IsSummary(s, c, rows)
    requires forall i :: 0 <= i < |rows| ==> 1 <= rows[i].repetition <= c.repetitions
    ensures ReportedKills(s.repetitionScores) == s.candidateKills
    ensures ReportedEvaluated(s.repetitionScores) == MutantRows(rows)
  {
    ReportedIsUpTo(c, rows, c.repetitions);
    SummaryPartition(rows, c.repetitions);
  }

  /** A repetition evaluates each selected mutant at most once, so it cannot kill more than it has. */
  lemma {:induction false} EvaluatedBound(rows: seq<LedgerRow>, r: nat, mutants: set<string>)
    requires DistinctKeys(rows)
    requires forall i :: 0 <= i < |rows| && MutantOfRep(rows[i], r) ==> rows[i].caseId in mutants
    ensures KillsIn(rows, r) <= EvaluatedIn(rows, r) <= |mutants|
  {
    if rows != [] {
      var before, row := rows[..|rows| - 1], rows[|rows| - 1];
      if MutantOfRep(row, r) {
        forall i | 0 <= i < |before| && MutantOfRep(before[i], r) ensures before[i].caseId in mutants - {row.caseId} {
          assert KeyOf(rows[i]) != KeyOf(rows[|rows| - 1]);
        }
        EvaluatedBound(before, r, mutants - {row.caseId});
      } else {
        EvaluatedBound(before, r, mutants);
      }
    }
  }

  predicate Distinct(s: seq<string>) { forall i, j :: 0 <= i < j < |s| ==> s[i] != s[j] }

  lemma {:induction false} MutantsAre(selected: seq<string>)
    requires Distinct(selected)
    ensures Distinct(Mutants(selected))
    ensures forall c :: c in Mutants(selected) <==> c in selected && c != CONTROL
  {
    if selected != [] {
      var first, rest := selected[0], Mutants(selected[1..]);
      assert selected == [first] + selected[1..];
      MutantsAre(selected[1..]);
      assert first !in selected[1..];
      assert Mutants(selected) == if first != CONTROL then [first] + rest else rest;
    }
  }

  lemma {:induction false} DistinctSize(s: seq<string>)
    requires Distinct(s)
    ensures |set c | c in s| == |s|
  {
    if s != [] {
      DistinctSize(s[1..]);
      assert (set c | c in s) == (set c | c in s[1..]) + {s[0]};
    }
  }

  ghost function KillIndexes(rows: seq<LedgerRow>, r: nat): set<nat> {
    set i: nat | i < |rows| && MutantOfRep(rows[i], r) && rows[i].candidateKill
  }

  /** The kills of a repetition are its rows of mutants with a candidate kill, each counted once. */
  lemma {:induction false} KillsCount(rows: seq<LedgerRow>, r: nat)
    ensures KillsIn(rows, r) == |KillIndexes(rows, r)|
  {
    if rows != [] {
      var last := |rows| - 1;
      KillsCount(rows[..last], r);
      if MutantOfRep(rows[last], r) && rows[last].candidateKill {
        assert KillIndexes(rows, r) == KillIndexes(rows[..last], r) + {last};
      } else {
        assert KillIndexes(rows, r) == KillIndexes(rows[..last], r);
      }
    }
  }

  ghost function EvaluatedIndexes(rows: seq<LedgerRow>, r: nat): set<nat> {
    set i: nat | i < |rows| && rows[i].caseId != "C00" && rows[i].repetition == r
  }

  /** And the mutants a repetition evaluated are its rows other than the control's. */
  lemma {:induction false} EvaluatedCount(rows: seq<LedgerRow>, r: nat)
    ensures EvaluatedIn(rows, r) == |EvaluatedIndexes(rows, r)|
  {
    if rows != [] {
      var last := |rows| - 1;
      EvaluatedCount(rows[..last], r);
      if MutantOfRep(rows[last], r) {
        assert EvaluatedIndexes(rows, r) == EvaluatedIndexes(rows[..last], r) + {last};
      } else {
        assert EvaluatedIndexes(rows, r) == EvaluatedIndexes(rows[..last], r);
      }
    }
  }

  ghost predicate HasRow(rows: seq<LedgerRow>, r: nat, caseId: string) {
    exists i :: 0 <= i < |rows| && rows[i].repetition == r && rows[i].caseId == caseId
  }

  /** What a summary says of one repetition, over the rows themselves. */
  lemma RepScoreMeans(s: SuiteSummary, c: Config, rows: seq<LedgerRow>, r: nat)
    requires IsSummary(s, c, rows) && Distinct(c.selected) && 1 <= r <= c.repetitions
    ensures |s.repetitionScores| == c.repetitions
    ensures var score, mutants := s.repetitionScores[r - 1], set m | m in c.selected && m != "C00";
            && score.repetition == r
            && (score.complete <==> forall m :: m in c.selected ==> HasRow(rows, r, m))
            && score.evaluated == |EvaluatedIndexes(rows, r)| && score.expected == |mutants|
            && score.kills == |KillIndexes(rows, r)|
            && (score.score.Some? <==> score.complete && mutants != {})
            && (score.score.Some? ==> score.score.value == score.kills as real / |mutants| as real)
  {
    hide EvaluatedIn, KillsIn, Mutants, KillIndexes, EvaluatedIndexes, MedianOf, MinOf, MaxOf, Values, CompleteMatrix, Blocked, RepComplete;
    KillsCount(rows, r);
    EvaluatedCount(rows, r);
    SelectedMutants(c);
    RepCompleteMeans(c, rows, r);
  }

  lemma SelectedMutants(c: Config)
    requires Distinct(c.selected)
    ensures |set m | m in c.selected && m != "C00"| == |Mutants(c.selected)|
  {
    MutantsAre(c.selected);
    DistinctSize(Mutants(c.selected));
    assert (set m | m in c.selected && m != "C00") == (set m | m in Mutants(c.selected));
  }

  lemma RepCompleteMeans(c: Config, rows: seq<LedgerRow>, r: nat)
    ensures RepComplete(c, rows, r) <==> forall m :: m in c.selected ==> HasRow(rows, r, m)
  {
    hide KeySet, HasRow;
    forall m ensures (r, m) in KeySet(rows) <==> HasRow(rows, r, m) { KeyRecorded(rows, r, m); }
  }

  /** What "complete" means for the whole matrix, over the rows themselves. */
  lemma CompleteMeans(c: Config, rows: seq<LedgerRow>)
    ensures CompleteMatrix(c, rows) <==>
      && (forall r: nat, m :: 1 <= r <= c.repetitions && m in c.selected ==> HasRow(rows, r, m))
      && (forall i :: 0 <= i < |rows| ==> 1 <= rows[i].repetition <= c.repetitions && rows[i].caseId in c.selected)
  {
    hide HasRow;
    forall r: nat, m ensures (r, m) in ExpectedPairs(c) <==> 1 <= r <= c.repetitions && m in c.selected {
      if 1 <= r <= c.repetitions && m in c.selected {
        var i :| 0 <= i < |c.selected| && c.selected[i] == m;
        assert (r, c.selected[i]) in ExpectedPairs(c);
      }
    }
    forall r: nat, m ensures (r, m) in KeySet(rows) <==> HasRow(rows, r, m) { KeyRecorded(rows, r, m); }
    forall i | 0 <= i < |rows| ensures KeyOf(rows[i]) in KeySet(rows) {
    }
    if CompleteMatrix(c, rows) {
      forall i | 0 <= i < |rows| ensures 1 <= rows[i].repetition <= c.repetitions && rows[i].caseId in c.selected {
        assert KeyOf(rows[i]) in ExpectedPairs(c);
      }
    }
    assert (forall key :: key in KeySet(rows) <==> key in ExpectedPairs(c)) ==> KeySet(rows) == ExpectedPairs(c);
  }

  lemma KeyRecorded(rows: seq<LedgerRow>, r: nat, m: string)
    ensures (r, m) in KeySet(rows) <==> HasRow(rows, r, m)
  {
    if HasRow(rows, r, m) {
      var i :| 0 <= i < |rows| && rows[i].repetition == r && rows[i].caseId == m;
      assert KeyOf(rows[i]) == (r, m);
    }
  }

  /** The full selection: the control and the ten mutants, in order. */
  lemma FullSelection(k: nat)
    requires k < 11
    ensures |CASE_IDS| == 11 && CASE_IDS[0] == "C00" == CONTROL
    ensures k > 0 ==> CASE_IDS[k] == ['M', if k < 10 then '0' else '1', '0' + (k % 10) as char]
  {
  }

  ghost predicate GoodLedger(c: Config, rows: seq<LedgerRow>) {
    && Distinct(c.selected) && DistinctKeys(rows)
    && forall i :: 0 <= i < |rows| ==> Scheduled(KeyOf(rows[i]), c.repetitions, c.selected)
  }

  lemma KillsBound(c: Config, rows: seq<LedgerRow>, r: nat)
    requires GoodLedger(c, rows)
    ensures KillsIn(rows, r) <= EvaluatedIn(rows, r) <= |Mutants(c.selected)|
  {
    var mutants := set m | m in Mutants(c.selected);
    MutantsAre(c.selected);
    DistinctSize(Mutants(c.selected));
    EvaluatedBound(rows, r, mutants);
  }

  lemma ValuesBounded(c: Config, rows: seq<LedgerRow>, i: nat)
    requires GoodLedger(c, rows) && Available(c, rows) && i < c.repetitions
    ensures |Values(RepScores(c, rows, c.repetitions))| == c.repetitions
    ensures 0.0 <= Values(RepScores(c, rows, c.repetitions))[i] <= 1.0
  {
    hide *;
    CompleteScores(c, rows, c.repetitions);
    KillsBound(c, rows, i + 1);
    MutantsExist(c, rows);
    FractionBounds(KillsIn(rows, i + 1), |Mutants(c.selected)|);
  }

  lemma MutantsExist(c: Config, rows: seq<LedgerRow>)
    requires Available(c, rows)
    ensures |Mutants(c.selected)| > 0
  {
  }

  /** A published score is a median of fractions: minimum, median and maximum lie in order in [0, 1]. */
  lemma ScoreBounds(c: Config, rows: seq<LedgerRow>, s: SuiteSummary)
    requires GoodLedger(c, rows) && IsSummary(s, c, rows) && s.score.Some?
    ensures |Values(s.repetitionScores)| == c.repetitions
    ensures s.range.Some? && 0.0 <= s.range.value.0 <= s.score.value <= s.range.value.1 <= 1.0
  {
    hide MedianOf, MinOf, MaxOf, KillsIn, Mutants, GoodLedger, Available, RepScores, Values;
    var values := Values(s.repetitionScores);
    CompleteScores(c, rows, c.repetitions);
    forall i | 0 <= i < |values| ensures 0.0 <= values[i] <= 1.0 {
      ValuesBounded(c, rows, i);
    }
    MedianBetween(values);
  }

  lemma FractionBounds(k: nat, n: nat)
    requires k <= n && n > 0
    ensures 0.0 <= k as real / n as real <= 1.0
  {
  }

  /** The fraction of the selected mutants that each repetition killed. */
  ghost function KillFractions(c: Config, rows: seq<LedgerRow>): seq<real>
    requires (set m | m in c.selected && m != "C00") != {}
  {
    seq(c.repetitions, k requires 0 <= k < c.repetitions =>
      |KillIndexes(rows, k + 1)| as real / |set m | m in c.selected && m != "C00"| as real)
  }

  /** A score is published exactly for a complete matrix with a mutant in it. It is the middle one of
      the repetitions' kill fractions in order or, for an even number, the mean of the middle two. */
  lemma PublishedScore(s: SuiteSummary, c: Config, rows: seq<LedgerRow>, r: seq<real>)
    requires IsSummary(s, c, rows) && Distinct(c.selected) && c.repetitions >= 1
    ensures s.score.Some? <==> CompleteMatrix(c, rows) && (set m | m in c.selected && m != "C00") != {}
    ensures s.score.Some? && Sorted(r) && multiset(r) == multiset(KillFractions(c, rows)) ==>
              && |r| == c.repetitions
              && (|r| % 2 == 1 ==> s.score.value == r[|r| / 2])
              && (|r| % 2 == 0 ==> 2.0 * s.score.value == r[|r| / 2 - 1] + r[|r| / 2])
  {
    hide CompleteMatrix, MedianOf, MinOf, MaxOf, KillsIn, EvaluatedIn, KillIndexes, Mutants, Sorted, RepScores, Values, Blocked;
    SelectedMutants(c);
    if s.score.Some? {
      FractionsAre(c, rows);
      if Sorted(r) && multiset(r) == multiset(KillFractions(c, rows)) { MedianIsMiddle(KillFractions(c, rows), r); }
    }
  }

  lemma FractionsAre(c: Config, rows: seq<LedgerRow>)
    requires Available(c, rows) && Distinct(c.selected)
    ensures (set m | m in c.selected && m != "C00") != {}
    ensures Values(RepScores(c, rows, c.repetitions)) == KillFractions(c, rows)
  {
    hide CompleteMatrix, KillsIn, EvaluatedIn, KillIndexes, RepScores, Values, Mutants;
    MutantsExist(c, rows);
    SelectedMutants(c);
    CompleteScores(c, rows, c.repetitions);
    forall r: nat ensures KillsIn(rows, r) == |KillIndexes(rows, r)| { KillsCount(rows, r); }
  }
}

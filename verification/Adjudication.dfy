/** Adjudication: human decisions over candidate kills, joined to the frozen evidence. */
module Adjudication {
  import opened Prelude
  import opened CaseRun
  import opened Ledger
  import opened Median
  import opened Summary

  datatype Verdict = Confirmed | Rejected

  datatype Decision = Decision(repetition: nat, caseId: string, testHash: string, evidenceDigest: Digest, verdict: Verdict, reason: string)

  datatype DecisionFile = DecisionFile(suiteId: string, fingerprint: string, decisions: seq<Decision>)

  datatype Frozen = Frozen(suiteId: string, fingerprint: string, config: Config, sources: map<string, string>)

  datatype RawSummary = RawSummary(suiteId: string, summary: SuiteSummary)

  /** The four input files; `None` is a file that is missing or does not match its schema. */
  datatype Inputs = Inputs(frozen: Option<Frozen>, ledger: LedgerFile, raw: Option<RawSummary>, decisions: Option<DecisionFile>)

  datatype CaseDecision = CaseDecision(repetition: nat, caseId: string, testHash: string, evidenceDigest: Digest, confirmed: bool, reason: string)

  /** The immutable record; the digests of its inputs identify those inputs. */
  datatype Record = Record(inputs: Inputs, reviewed: nat, cases: seq<CaseDecision>)

  datatype ConfirmedScore = ConfirmedScore(repetition: nat, expected: nat, confirmed: nat, score: Option<real>)

  datatype Adjudicated = Adjudicated(
    record: Record, eligible: bool, blockers: seq<Blocker>,
    candidateKills: nat, candidateScore: Option<real>,
    confirmedKills: nat, rejectedKills: nat, confirmedScore: Option<real>, confirmedRange: Option<(real, real)>,
    scores: seq<ConfirmedScore>)

  datatype AdjudicationError =
    | MissingInput | BadConfig | BadLedger(error: LedgerError) | IncompleteSuite | WrongSuite | SummaryConflict
    | BadDecisions | WrongFingerprint | DuplicateDecision | CoverageMismatch | HashMismatch

  function DecisionKey(d: Decision): Key { (d.repetition, d.caseId) }

  predicate MutantId(id: string) {
    |id| == 3 && id[0] == 'M' && '0' <= id[1] <= '9' && '0' <= id[2] <= '9'
  }

  predicate WellFormed(d: Decision) { d.repetition >= 1 && MutantId(d.caseId) && d.reason != "" }

  predicate ValidFrozen(f: Frozen) {
    && f.config.repetitions >= 1 && f.config.selected != [] && Distinct(f.config.selected)
    && forall c :: c in f.config.selected ==> c in f.sources
  }

  // ----- What is accepted ------------------------------------------------------------

  ghost predicate DistinctDecisions(decisions: seq<Decision>) {
    forall i, j :: 0 <= i < j < |decisions| ==> DecisionKey(decisions[i]) != DecisionKey(decisions[j])
  }

  function CandidateKeys(rows: seq<LedgerRow>): set<Key> {
    set i | 0 <= i < |rows| && rows[i].candidateKill :: KeyOf(rows[i])
  }

  function DecidedKeys(decisions: seq<Decision>): set<Key> {
    set i | 0 <= i < |decisions| :: DecisionKey(decisions[i])
  }

  /** A decision names the very test and the very evidence of its row. */
  predicate Names(d: Decision, row: LedgerRow) {
    row.testHash == Some(d.testHash) && row.evidenceDigest == Some(d.evidenceDigest)
  }

  /** Each candidate kill has exactly one decision, each decision a candidate kill, and both
      hashes of every pair agree. */
  ghost predicate Matched(rows: seq<LedgerRow>, decisions: seq<Decision>) {
    && DistinctDecisions(decisions)
    && DecidedKeys(decisions) == CandidateKeys(rows)
    && forall i :: 0 <= i < |rows| && rows[i].candidateKill ==> RowMatched(rows[i], decisions)
  }

  ghost predicate LedgerReady(f: Frozen, ledger: LedgerFile) {
    && ledger.File? && ValidFrozen(f)
    && Readable(ledger, f.config.repetitions, f.config.selected, f.sources)
  }

  ghost predicate Accepts(x: Inputs) {
    && x.frozen.Some? && x.raw.Some? && x.decisions.Some?
    && LedgerReady(x.frozen.value, x.ledger)
    && var rows := Rows(x.ledger.lines);
    && CompleteMatrix(x.frozen.value.config, rows)
    && x.raw.value.suiteId == x.frozen.value.suiteId
    && x.raw.value.summary.complete && x.raw.value.summary.rows == rows
    && x.decisions.value.suiteId == x.frozen.value.suiteId
    && x.decisions.value.fingerprint == x.frozen.value.fingerprint
    && (forall j :: 0 <= j < |x.decisions.value.decisions| ==> WellFormed(x.decisions.value.decisions[j]))
    && Matched(rows, x.decisions.value.decisions)
  }

  // ----- The join --------------------------------------------------------------------

  function Find(decisions: seq<Decision>, key: Key): Option<Decision> {
    if decisions == [] then None
    else if DecisionKey(decisions[|decisions| - 1]) == key then Some(decisions[|decisions| - 1])
    else Find(decisions[..|decisions| - 1], key)
  }

  lemma {:induction false} FindOnly(decisions: seq<Decision>, j: nat)
    requires DistinctDecisions(decisions) && j < |decisions|
    ensures Find(decisions, DecisionKey(decisions[j])) == Some(decisions[j])
  {
    if j < |decisions| - 1 { FindOnly(decisions[..|decisions| - 1], j); }
  }

  lemma {:induction false} FindKey(decisions: seq<Decision>, key: Key)
    ensures var d := Find(decisions, key); d.Some? ==> d.value in decisions && DecisionKey(d.value) == key
  {
    if decisions != [] { FindKey(decisions[..|decisions| - 1], key); }
  }

  function Recorded(d: Decision): CaseDecision {
    CaseDecision(d.repetition, d.caseId, d.testHash, d.evidenceDigest, d.verdict == Confirmed, d.reason)
  }

  /** The decision on each candidate kill, in ledger order. */
  function CasesOf(rows: seq<LedgerRow>, decisions: seq<Decision>): seq<CaseDecision> {
    if rows == [] then []
    else
      var row := rows[|rows| - 1];
      CasesOf(rows[..|rows| - 1], decisions)
      + (if row.candidateKill && Find(decisions, KeyOf(row)).Some? then [Recorded(Find(decisions, KeyOf(row)).value)] else [])
  }

  method IndexDecisions(decisions: seq<Decision>) returns (index: Option<map<Key, Decision>>)
    ensures index.Some? <==> DistinctDecisions(decisions)
    ensures index.Some? ==> index.value.Keys == DecidedKeys(decisions)
    ensures index.Some? ==> forall j :: 0 <= j < |decisions| ==>
              DecisionKey(decisions[j]) in index.value && index.value[DecisionKey(decisions[j])] == decisions[j]
  {
    var indexed: map<Key, Decision> := map[];
    for k := 0 to |decisions|
      invariant forall j :: 0 <= j < k ==> DecisionKey(decisions[j]) in indexed && indexed[DecisionKey(decisions[j])] == decisions[j]
      invariant indexed.Keys == DecidedKeys(decisions[..k])
      invariant DistinctDecisions(decisions[..k])
    {
      var key := DecisionKey(decisions[k]);
      if key in indexed {
        ghost var j :| 0 <= j < k && DecisionKey(decisions[..k][j]) == key;
        assert DecisionKey(decisions[j]) == DecisionKey(decisions[k]);
        return None;
      }
      indexed := indexed[key := decisions[k]];
      DecidedGrows(decisions, k);
    }
    assert decisions[..|decisions|] == decisions;
    return Some(indexed);
  }

  /** The decisions on this row's key name this row's test and evidence. */
  ghost predicate RowMatched(row: LedgerRow, decisions: seq<Decision>) {
    forall j :: 0 <= j < |decisions| && DecisionKey(decisions[j]) == KeyOf(row) ==> Names(decisions[j], row)
  }

  method JoinDecisions(rows: seq<LedgerRow>, decisions: seq<Decision>) returns (r: Result<seq<CaseDecision>, AdjudicationError>)
    ensures r.Ok? <==> Matched(rows, decisions)
    ensures r.Ok? ==> r.value == CasesOf(rows, decisions)
  {
    hide DistinctDecisions, Names, Find, KeyOf;
    var found := IndexDecisions(decisions);
    if found.None? { return Err(DuplicateDecision); }
    var index := found.value;
    if index.Keys != CandidateKeys(rows) { return Err(CoverageMismatch); }
    var cases: seq<CaseDecision> := [];
    for i := 0 to |rows|
      invariant cases == CasesOf(rows[..i], decisions)
      invariant forall n :: 0 <= n < i && rows[n].candidateKill ==> RowMatched(rows[n], decisions)
    {
      assert rows[..i + 1][..i] == rows[..i];
      if rows[i].candidateKill {
        assert KeyOf(rows[i]) in CandidateKeys(rows);
        var d := index[KeyOf(rows[i])];
        DecisionFor(decisions, rows[i], d, index);
        if !Names(d, rows[i]) { return Err(HashMismatch); }
        cases := cases + [Recorded(d)];
      }
    }
    assert rows[..|rows|] == rows;
    return Ok(cases);
  }

  lemma DecisionFor(decisions: seq<Decision>, row: LedgerRow, d: Decision, index: map<Key, Decision>)
    requires DistinctDecisions(decisions) && KeyOf(row) in DecidedKeys(decisions)
    requires index.Keys == DecidedKeys(decisions) && index[KeyOf(row)] == d
    requires forall j :: 0 <= j < |decisions| ==> DecisionKey(decisions[j]) in index && index[DecisionKey(decisions[j])] == decisions[j]
    ensures Find(decisions, KeyOf(row)) == Some(d)
    ensures RowMatched(row, decisions) <==> Names(d, row)
  {
    var j :| 0 <= j < |decisions| && DecisionKey(decisions[j]) == KeyOf(row);
    FindOnly(decisions, j);
  }

  lemma DecidedGrows(decisions: seq<Decision>, k: nat)
    requires k < |decisions|
    ensures DecidedKeys(decisions[..k + 1]) == DecidedKeys(decisions[..k]) + {DecisionKey(decisions[k])}
  {
    var longer, shorter := decisions[..k + 1], decisions[..k];
    forall key | key in DecidedKeys(shorter) ensures key in DecidedKeys(longer) {
      var j :| 0 <= j < k && DecisionKey(shorter[j]) == key;
      assert DecisionKey(longer[j]) == key;
    }
    assert DecisionKey(longer[k]) in DecidedKeys(longer);
  }

  method Validate(x: Inputs) returns (r: Result<seq<CaseDecision>, AdjudicationError>)
    ensures r.Ok? <==> Accepts(x)
    ensures r.Ok? ==> r.value == CasesOf(Rows(x.ledger.lines), x.decisions.value.decisions)
  {
    hide LineOk, CompleteMatrix, Matched, DistinctKeys, CasesOf, Readable;
    if x.frozen.None? || x.raw.None? || x.ledger.Missing? { return Err(MissingInput); }
    var f := x.frozen.value;
    if !ValidFrozen(f) { return Err(BadConfig); }
    var read := ReadProgress(x.ledger, f.config.repetitions, f.config.selected, f.sources);
    if read.Err? { return Err(BadLedger(read.error)); }
    var rows := read.value;
    if !CompleteMatrix(f.config, rows) { return Err(IncompleteSuite); }
    var raw := x.raw.value;
    if raw.suiteId != f.suiteId { return Err(WrongSuite); }
    if !raw.summary.complete { return Err(IncompleteSuite); }
    if raw.summary.rows != rows { return Err(SummaryConflict); }
    if x.decisions.None? { return Err(BadDecisions); }
    var file := x.decisions.value;
    if exists j :: 0 <= j < |file.decisions| && !WellFormed(file.decisions[j]) { return Err(BadDecisions); }
    if file.suiteId != f.suiteId { return Err(WrongSuite); }
    if file.fingerprint != f.fingerprint { return Err(WrongFingerprint); }
    r := JoinDecisions(rows, file.decisions);
  }

  // ----- The adjudicated summary -------------------------------------------------------

  function ConfirmedIn(cases: seq<CaseDecision>, r: nat): nat {
    if cases == [] then 0
    else ConfirmedIn(cases[..|cases| - 1], r) + Flag(cases[|cases| - 1].repetition == r && cases[|cases| - 1].confirmed)
  }

  ghost function ConfirmedIndexes(cases: seq<CaseDecision>, r: nat): set<nat> {
    set i: nat | i < |cases| && cases[i].repetition == r && cases[i].confirmed
  }

  /** The confirmed kills of a repetition are its confirmed cases, each counted once. */
  lemma {:induction false} ConfirmedCount(cases: seq<CaseDecision>, r: nat)
    ensures ConfirmedIn(cases, r) == |ConfirmedIndexes(cases, r)|
  {
    if cases != [] {
      var last := |cases| - 1;
      ConfirmedCount(cases[..last], r);
      if cases[last].repetition == r && cases[last].confirmed {
        assert ConfirmedIndexes(cases, r) == ConfirmedIndexes(cases[..last], r) + {last};
      } else {
        assert ConfirmedIndexes(cases, r) == ConfirmedIndexes(cases[..last], r);
      }
    }
  }

  function ConfirmedTotal(cases: seq<CaseDecision>): nat {
    if cases == [] then 0 else ConfirmedTotal(cases[..|cases| - 1]) + Flag(cases[|cases| - 1].confirmed)
  }

  lemma {:induction false} ConfirmedAtMostAll(cases: seq<CaseDecision>)
    ensures ConfirmedTotal(cases) <= |cases|
  {
    if cases != [] { ConfirmedAtMostAll(cases[..|cases| - 1]); }
  }

  function ConfirmedScoreOf(c: Config, cases: seq<CaseDecision>, r: nat): ConfirmedScore {
    var expected := |Mutants(c.selected)|;
    ConfirmedScore(r, expected, ConfirmedIn(cases, r),
                   if expected > 0 then Some(ConfirmedIn(cases, r) as real / expected as real) else None)
  }

  function ConfirmedScores(c: Config, cases: seq<CaseDecision>, r: nat): (s: seq<ConfirmedScore>)
    ensures |s| == r && forall i :: 0 <= i < r ==> s[i] == ConfirmedScoreOf(c, cases, i + 1)
  {
    if r == 0 then [] else ConfirmedScores(c, cases, r - 1) + [ConfirmedScoreOf(c, cases, r)]
  }

  function ConfirmedValues(s: seq<ConfirmedScore>): seq<real> {
    if s == [] then []
    else ConfirmedValues(s[..|s| - 1]) + (if s[|s| - 1].score.Some? then [s[|s| - 1].score.value] else [])
  }

  function WithoutPending(blockers: seq<Blocker>): (r: seq<Blocker>)
    ensures forall b :: b in r <==> b in blockers && b != PendingAdjudication
  {
    if blockers == [] then []
    else WithoutPending(blockers[..|blockers| - 1])
         + (if blockers[|blockers| - 1] == PendingAdjudication then [] else [blockers[|blockers| - 1]])
  }

  ghost predicate IsAdjudicated(a: Adjudicated, x: Inputs, cases: seq<CaseDecision>)
    requires x.frozen.Some? && x.raw.Some?
  {
    var c, raw := x.frozen.value.config, x.raw.value.summary;
    var values := ConfirmedValues(ConfirmedScores(c, cases, c.repetitions));
    && a.record == Record(x, |cases|, cases)
    && a.blockers == WithoutPending(raw.blockers) && a.eligible == (a.blockers == [])
    && a.candidateKills == raw.candidateKills && a.candidateScore == raw.score
    && a.confirmedKills == ConfirmedTotal(cases) && a.confirmedKills + a.rejectedKills == |cases|
    && a.scores == ConfirmedScores(c, cases, c.repetitions)
    && (if values == [] then a.confirmedScore == None && a.confirmedRange == None
        else a.confirmedScore == Some(MedianOf(values)) && a.confirmedRange == Some((MinOf(values), MaxOf(values))))
  }

  method CountConfirmed(cases: seq<CaseDecision>, repetitions: nat) returns (counts: map<nat, nat>)
    requires forall i :: 0 <= i < |cases| ==> 1 <= cases[i].repetition <= repetitions
    ensures forall r :: r in counts <==> 1 <= r <= repetitions
    ensures forall r :: 1 <= r <= repetitions ==> counts[r] == ConfirmedIn(cases, r)
  {
    counts := map[];
    for r := 1 to repetitions + 1
      invariant forall k :: k in counts <==> 1 <= k < r
      invariant forall k :: 1 <= k < r ==> counts[k] == 0
    {
      counts := counts[r := 0];
    }
    for k := 0 to |cases|
      invariant forall r :: r in counts <==> 1 <= r <= repetitions
      invariant forall r :: 1 <= r <= repetitions ==> counts[r] == ConfirmedIn(cases[..k], r)
    {
      assert cases[..k + 1][..k] == cases[..k];
      if cases[k].confirmed {
        var r := cases[k].repetition;
        counts := counts[r := counts[r] + 1];
      }
    }
    assert cases[..|cases|] == cases;
  }

  method BuildAdjudicated(x: Inputs, cases: seq<CaseDecision>) returns (a: Adjudicated)
    requires x.frozen.Some? && x.raw.Some?
    requires forall i :: 0 <= i < |cases| ==> 1 <= cases[i].repetition <= x.frozen.value.config.repetitions
    ensures IsAdjudicated(a, x, cases)
  {
    hide ConfirmedIn, MedianOf, Mutants, ConfirmedValues;
    var c, raw := x.frozen.value.config, x.raw.value.summary;
    var counts := CountConfirmed(cases, c.repetitions);
    var expected := |Mutants(c.selected)|;
    var scores: seq<ConfirmedScore> := [];
    for r := 1 to c.repetitions + 1
      invariant scores == ConfirmedScores(c, cases, r - 1)
    {
      scores := scores + [ConfirmedScore(r, expected, counts[r],
                                         if expected > 0 then Some(counts[r] as real / expected as real) else None)];
    }
    var values := ConfirmedValues(scores);
    var blockers := WithoutPending(raw.blockers);
    var confirmed := ConfirmedTotal(cases);
    ConfirmedAtMostAll(cases);
    a := Adjudicated(
      Record(x, |cases|, cases), blockers == [], blockers, raw.candidateKills, raw.score,
      confirmed, |cases| - confirmed,
      if values == [] then None else Some(MedianOf(values)),
      if values == [] then None else Some((MinOf(values), MaxOf(values))),
      scores);
  }

  // ----- In terms of the files -----------------------------------------------------------

  /** A decision is about a case M followed by two digits. */
  lemma MutantIdMeans(id: string)
    ensures MutantId(id) <==> exists a, b :: '0' <= a <= '9' && '0' <= b <= '9' && id == ['M', a, b]
  {
    if MutantId(id) { assert id == ['M', id[1], id[2]]; }
  }

  /** What is accepted, condition by condition: a valid configuration; a ledger that reads without
      error and covers the schedule; this suite's summary, complete and over that very ledger; and
      a well-formed decision file for this suite and fingerprint that decides each candidate kill
      once, and nothing else, by its test and its evidence. */
  lemma AcceptsMeans(x: Inputs)
    ensures Accepts(x) <==>
      && x.frozen.Some? && x.raw.Some? && x.decisions.Some? && x.ledger.File?
      && var f, raw, file := x.frozen.value, x.raw.value, x.decisions.value;
      && f.config.repetitions >= 1 && f.config.selected != [] && Distinct(f.config.selected)
      && (forall c :: c in f.config.selected ==> c in f.sources)
      && Readable(x.ledger, f.config.repetitions, f.config.selected, f.sources)
      && (forall i :: 0 <= i < |x.ledger.lines| ==> x.ledger.lines[i].Entry?)
      && var rows := Rows(x.ledger.lines);
      && CompleteMatrix(f.config, rows)
      && raw.suiteId == f.suiteId == file.suiteId && file.fingerprint == f.fingerprint
      && raw.summary.complete && raw.summary.rows == rows
      && (forall j :: 0 <= j < |file.decisions| ==>
            file.decisions[j].repetition >= 1 && MutantId(file.decisions[j].caseId) && file.decisions[j].reason != "")
      && MatchedParts(rows, file.decisions)
  {
    hide ArtifactsOk, Scheduled, MutantId, CompleteMatrix;
    if x.frozen.Some? && x.decisions.Some? && LedgerReady(x.frozen.value, x.ledger) {
      MatchedMeans(Rows(x.ledger.lines), x.decisions.value.decisions);
    }
  }

  /** Some row of this repetition and case is a candidate kill. */
  ghost predicate Candidate(rows: seq<LedgerRow>, repetition: nat, caseId: string) {
    exists i :: 0 <= i < |rows| && rows[i].candidateKill && rows[i].repetition == repetition && rows[i].caseId == caseId
  }

  /** Some decision is on this row's repetition and case, and all that are name its test and evidence. */
  ghost predicate DecidedBy(row: LedgerRow, decisions: seq<Decision>) {
    && (exists j :: 0 <= j < |decisions| && decisions[j].repetition == row.repetition && decisions[j].caseId == row.caseId)
    && forall j :: 0 <= j < |decisions| && decisions[j].repetition == row.repetition && decisions[j].caseId == row.caseId ==>
         row.testHash == Some(decisions[j].testHash) && row.evidenceDigest == Some(decisions[j].evidenceDigest)
  }

  /** The decisions are on different keys, each on a candidate kill, and decide each of those. */
  ghost predicate MatchedParts(rows: seq<LedgerRow>, decisions: seq<Decision>) {
    && (forall j, k :: 0 <= j < k < |decisions| ==>
          decisions[j].repetition != decisions[k].repetition || decisions[j].caseId != decisions[k].caseId)
    && (forall j :: 0 <= j < |decisions| ==> Candidate(rows, decisions[j].repetition, decisions[j].caseId))
    && (forall i :: 0 <= i < |rows| && rows[i].candidateKill ==> DecidedBy(rows[i], decisions))
  }

  lemma MatchedMeans(rows: seq<LedgerRow>, decisions: seq<Decision>)
    ensures Matched(rows, decisions) <==> MatchedParts(rows, decisions)
  {
    forall repetition: nat, caseId ensures (repetition, caseId) in CandidateKeys(rows) <==> Candidate(rows, repetition, caseId) {
      if i :| 0 <= i < |rows| && rows[i].candidateKill && rows[i].repetition == repetition && rows[i].caseId == caseId {
        assert KeyOf(rows[i]) == (repetition, caseId);
      }
    }
    hide Candidate;
    forall j | 0 <= j < |decisions| ensures (decisions[j].repetition, decisions[j].caseId) in DecidedKeys(decisions) {
      assert DecisionKey(decisions[j]) == (decisions[j].repetition, decisions[j].caseId);
    }
    if Matched(rows, decisions) {
      forall i | 0 <= i < |rows| && rows[i].candidateKill ensures DecidedBy(rows[i], decisions) {
        assert KeyOf(rows[i]) in CandidateKeys(rows);
        assert RowMatched(rows[i], decisions);
      }
    } else if MatchedParts(rows, decisions) {
      forall key ensures key in DecidedKeys(decisions) <==> key in CandidateKeys(rows) {
        if key in CandidateKeys(rows) {
          var i :| 0 <= i < |rows| && rows[i].candidateKill && KeyOf(rows[i]) == key;
          assert DecidedBy(rows[i], decisions);
        }
      }
    }
  }

  /** What the adjudicated summary says of one repetition. */
  lemma ConfirmedScoreMeans(a: Adjudicated, x: Inputs, cases: seq<CaseDecision>, r: nat)
    requires x.frozen.Some? && x.raw.Some? && IsAdjudicated(a, x, cases) && Distinct(x.frozen.value.config.selected)
    requires 1 <= r <= x.frozen.value.config.repetitions
    ensures |a.scores| == x.frozen.value.config.repetitions
    ensures var score, mutants := a.scores[r - 1], set m | m in x.frozen.value.config.selected && m != "C00";
            && score.repetition == r && score.expected == |mutants|
            && score.confirmed == |ConfirmedIndexes(cases, r)|
            && (score.score.Some? <==> mutants != {})
            && (score.score.Some? ==> score.score.value == score.confirmed as real / |mutants| as real)
  {
    hide ConfirmedIn, ConfirmedIndexes, Mutants, MedianOf, MinOf, MaxOf, ConfirmedValues, ConfirmedTotal, WithoutPending;
    ConfirmedCount(cases, r);
    SelectedMutants(x.frozen.value.config);
  }

  lemma {:induction false} ConfirmedValuesAre(c: Config, cases: seq<CaseDecision>, r: nat)
    requires |Mutants(c.selected)| > 0
    ensures |ConfirmedValues(ConfirmedScores(c, cases, r))| == r
    ensures forall i :: 0 <= i < r ==>
              ConfirmedValues(ConfirmedScores(c, cases, r))[i] == ConfirmedIn(cases, i + 1) as real / |Mutants(c.selected)| as real
  {
    hide ConfirmedIn, Mutants;
    if r > 0 {
      ConfirmedValuesAre(c, cases, r - 1);
      var s := ConfirmedScores(c, cases, r);
      assert s[..|s| - 1] == ConfirmedScores(c, cases, r - 1);
    }
  }

  ghost function ConfirmedFractions(c: Config, cases: seq<CaseDecision>): seq<real>
    requires (set m | m in c.selected && m != "C00") != {}
  {
    seq(c.repetitions, k requires 0 <= k < c.repetitions =>
      |ConfirmedIndexes(cases, k + 1)| as real / |set m | m in c.selected && m != "C00"| as real)
  }

  /** The confirmed score is the middle one of the repetitions' confirmed fractions in order or, for
      an even number, the mean of the middle two; without a mutant there is none. */
  lemma PublishedConfirmed(a: Adjudicated, x: Inputs, cases: seq<CaseDecision>, r: seq<real>)
    requires x.frozen.Some? && x.raw.Some? && IsAdjudicated(a, x, cases) && Distinct(x.frozen.value.config.selected)
    requires x.frozen.value.config.repetitions >= 1
    ensures a.confirmedScore.Some? <==> (set m | m in x.frozen.value.config.selected && m != "C00") != {}
    ensures a.confirmedScore.Some? && Sorted(r) && multiset(r) == multiset(ConfirmedFractions(x.frozen.value.config, cases)) ==>
              && |r| == x.frozen.value.config.repetitions
              && (|r| % 2 == 1 ==> a.confirmedScore.value == r[|r| / 2])
              && (|r| % 2 == 0 ==> 2.0 * a.confirmedScore.value == r[|r| / 2 - 1] + r[|r| / 2])
  {
    hide ConfirmedIn, ConfirmedIndexes, Mutants, MedianOf, MinOf, MaxOf, ConfirmedValues, ConfirmedTotal, WithoutPending, Sorted, ConfirmedScores;
    var c := x.frozen.value.config;
    SelectedMutants(c);
    if |Mutants(c.selected)| > 0 {
      ConfirmedFractionsAre(c, cases);
      if Sorted(r) && multiset(r) == multiset(ConfirmedFractions(c, cases)) { MedianIsMiddle(ConfirmedFractions(c, cases), r); }
    } else {
      NoConfirmedValues(c, cases, c.repetitions);
    }
  }

  lemma {:induction false} NoConfirmedValues(c: Config, cases: seq<CaseDecision>, r: nat)
    requires |Mutants(c.selected)| == 0
    ensures ConfirmedValues(ConfirmedScores(c, cases, r)) == []
  {
    hide ConfirmedIn, Mutants;
    if r > 0 {
      NoConfirmedValues(c, cases, r - 1);
      var s := ConfirmedScores(c, cases, r);
      assert s[..|s| - 1] == ConfirmedScores(c, cases, r - 1);
    }
  }

  lemma ConfirmedFractionsAre(c: Config, cases: seq<CaseDecision>)
    requires |Mutants(c.selected)| > 0 && Distinct(c.selected)
    ensures (set m | m in c.selected && m != "C00") != {}
    ensures ConfirmedValues(ConfirmedScores(c, cases, c.repetitions)) == ConfirmedFractions(c, cases)
  {
    hide ConfirmedIn, ConfirmedIndexes, Mutants, ConfirmedValues, ConfirmedScores;
    SelectedMutants(c);
    ConfirmedValuesAre(c, cases, c.repetitions);
    forall r: nat ensures ConfirmedIn(cases, r) == |ConfirmedIndexes(cases, r)| { ConfirmedCount(cases, r); }
  }
}

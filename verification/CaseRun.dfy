/** One benchmark case, from the scanner's outcome to its ledger row. */
module CaseRun {
  import opened Prelude
  import opened Harness
  import opened Differential

  const CONTROL := "C00"

  datatype Side = CleanSide | MutantSide

  datatype IntegrityError = TestChanged | RepositoryChanged(side: Side)

  datatype HashPair = HashPair(side: Side, before: Option<string>, after: Option<string>)

  /** Everything the two neutral executions of a generated test produced. */
  datatype Observed = Observed(
    testHash: string, clean: Execution, mutant: Execution,
    cleanBefore: string, cleanAfter: string, mutantBefore: string, mutantAfter: string,
    testAfterClean: string, testAfterMutant: string)

  /** What the scanner left behind. */
  datatype Scan =
    | ModelOutputError
    | NoTest(findings: seq<Finding>)
    | Generated(findings: seq<Finding>, o: Observed)

  datatype RowStatus = Completed | ModelError

  /** A file's digest; two files with one digest are the same file. */
  datatype Digest = DigestOf(evidence: Evidence)

  datatype LedgerRow = LedgerRow(
    repetition: nat, caseId: string, sourceHash: string, status: RowStatus,
    testGenerated: bool, testHash: Option<string>, evidenceDigest: Option<Digest>,
    candidateKill: bool, needsAdjudication: bool,
    integrityErrors: nat, invalidTests: nat, infrastructureErrors: nat, findings: nat)

  // ----- Integrity -----------------------------------------------------------------

  ghost predicate PairChanged(p: HashPair) { p.before.Some? && p.after.Some? && p.before != p.after }

  ghost predicate HasError(expected: string, observed: seq<string>, pairs: seq<HashPair>, e: IntegrityError) {
    match e
    case TestChanged => exists i :: 0 <= i < |observed| && observed[i] != expected
    case RepositoryChanged(side) => exists i :: 0 <= i < |pairs| && pairs[i].side == side && PairChanged(pairs[i])
  }

  method IntegrityErrors(expected: string, observed: seq<string>, pairs: seq<HashPair>) returns (errors: set<IntegrityError>)
    ensures forall e :: e in errors <==> HasError(expected, observed, pairs, e)
  {
    errors := if exists i :: 0 <= i < |observed| && observed[i] != expected then {TestChanged} else {};
    for k := 0 to |pairs|
      invariant TestChanged in errors <==> HasError(expected, observed, pairs, TestChanged)
      invariant forall side :: RepositoryChanged(side) in errors <==>
                  exists i :: 0 <= i < k && pairs[i].side == side && PairChanged(pairs[i])
    {
      var p := pairs[k];
      if p.before.Some? && p.after.Some? && p.before != p.after {
        errors := errors + {RepositoryChanged(p.side)};
      }
    }
    forall e ensures e in errors <==> HasError(expected, observed, pairs, e) {
      match e
      case TestChanged =>
      case RepositoryChanged(side) =>
    }
  }

  /** No verdict of a tampered run counts. */
  function Invalidate(e: Evidence): Evidence {
    e.(nodes := map id | id in e.nodes :: e.nodes[id].(verdict := Invalid, reason := IntegrityCheckFailed),
       candidates := {}, caseKill := false)
  }

  // ----- The case ------------------------------------------------------------------

  function ObservedHashes(caseId: string, o: Observed): seq<string> {
    [o.testAfterClean, if caseId == CONTROL then o.testAfterClean else o.testAfterMutant]
  }

  function HashPairs(caseId: string, o: Observed): seq<HashPair> {
    [HashPair(CleanSide, Some(o.cleanBefore), Some(o.cleanAfter)),
     if caseId == CONTROL then HashPair(MutantSide, None, None)
     else HashPair(MutantSide, Some(o.mutantBefore), Some(o.mutantAfter))]
  }

  function MutantOf(caseId: string, o: Observed): Option<Execution> {
    if caseId == CONTROL then None else Some(o.mutant)
  }

  /** The three things that can change under a run: the test, and either repository. */
  predicate TestMoved(caseId: string, o: Observed) {
    o.testAfterClean != o.testHash || (caseId != CONTROL && o.testAfterMutant != o.testHash)
  }

  predicate CleanMoved(o: Observed) { o.cleanAfter != o.cleanBefore }

  predicate MutantMoved(caseId: string, o: Observed) { caseId != CONTROL && o.mutantAfter != o.mutantBefore }

  /** The run was not tampered with: same test, same repositories. */
  predicate Untouched(caseId: string, o: Observed) {
    && o.testAfterClean == o.testHash && o.cleanAfter == o.cleanBefore
    && (caseId != CONTROL ==> o.testAfterMutant == o.testHash && o.mutantAfter == o.mutantBefore)
  }

  /** The evidence file of a generated test. */
  function StoredEvidence(caseId: string, findings: seq<Finding>, o: Observed): Evidence {
    var e := EvidenceOf(caseId, o.clean, MutantOf(caseId, o), findings, o.testHash);
    if Untouched(caseId, o) then e else Invalidate(e)
  }

  function Flag(b: bool): nat { if b then 1 else 0 }

  /** The parts of a ledger row that decide scores. */
  ghost predicate IsRowOf(row: LedgerRow, repetition: nat, caseId: string, sourceHash: string, scan: Scan) {
    && row.repetition == repetition && row.caseId == caseId && row.sourceHash == sourceHash
    && row.needsAdjudication == row.candidateKill
    && match scan
       case ModelOutputError =>
         row == LedgerRow(repetition, caseId, sourceHash, ModelError, false, None, None, false, false, 0, 0, 0, 0)
       case NoTest(findings) =>
         row == LedgerRow(repetition, caseId, sourceHash, Completed, false, None, None, false, false, 0, 0, 0, |findings|)
       case Generated(findings, o) =>
         var e := StoredEvidence(caseId, findings, o);
         && row.status == Completed && row.testGenerated && row.testHash == Some(o.testHash)
         && row.evidenceDigest == Some(DigestOf(e)) && row.candidateKill == e.caseKill
         && row.integrityErrors == Flag(TestMoved(caseId, o)) + Flag(CleanMoved(o)) + Flag(MutantMoved(caseId, o))
         && row.invalidTests == Flag(InvalidGeneratedTest(o.clean))
                                + Flag(caseId != CONTROL && InvalidGeneratedTest(o.mutant))
         && row.infrastructureErrors == Flag(InfrastructureError(o.clean))
                                        + Flag(caseId != CONTROL && InfrastructureError(o.mutant))
         && row.findings == |findings|
  }

  method RunCase(repetition: nat, caseId: string, sourceHash: string, scan: Scan)
    returns (row: LedgerRow, evidence: Option<Evidence>)
    ensures IsRowOf(row, repetition, caseId, sourceHash, scan)
    ensures evidence == if scan.Generated? then Some(StoredEvidence(caseId, scan.findings, scan.o)) else None
  {
    match scan {
      case ModelOutputError =>
        row := LedgerRow(repetition, caseId, sourceHash, ModelError, false, None, None, false, false, 0, 0, 0, 0);
        evidence := None;
      case NoTest(findings) =>
        row := LedgerRow(repetition, caseId, sourceHash, Completed, false, None, None, false, false, 0, 0, 0, |findings|);
        evidence := None;
      case Generated(findings, o) =>
        hide EvidenceOf, HarnessStatus, Invalidate;
        var differential := BuildDifferential(caseId, o.clean, MutantOf(caseId, o), findings, o.testHash);
        var errors := IntegrityErrors(o.testHash, ObservedHashes(caseId, o), HashPairs(caseId, o));
        ErrorsMeanTouched(caseId, o, errors);
        if errors != {} { differential := Invalidate(differential); }
        evidence := Some(differential);
        var invalid := Flag(InvalidGeneratedTest(o.clean)) + Flag(caseId != CONTROL && InvalidGeneratedTest(o.mutant));
        var infrastructure := Flag(InfrastructureError(o.clean)) + Flag(caseId != CONTROL && InfrastructureError(o.mutant));
        row := LedgerRow(repetition, caseId, sourceHash, Completed, true, Some(o.testHash), Some(DigestOf(differential)),
                         differential.caseKill, differential.caseKill, |errors|, invalid, infrastructure, |findings|);
    }
  }

  lemma ErrorsMeanTouched(caseId: string, o: Observed, errors: set<IntegrityError>)
    requires forall e :: e in errors <==> HasError(o.testHash, ObservedHashes(caseId, o), HashPairs(caseId, o), e)
    ensures errors == {} <==> Untouched(caseId, o)
    ensures |errors| == Flag(TestMoved(caseId, o)) + Flag(CleanMoved(o)) + Flag(MutantMoved(caseId, o))
  {
    ErrorsAre(caseId, o);
    hide HasError;
    assert Untouched(caseId, o) <==> !TestMoved(caseId, o) && !CleanMoved(o) && !MutantMoved(caseId, o);
    hide Untouched, TestMoved, CleanMoved, MutantMoved;
    ErrorSet(errors, TestMoved(caseId, o), CleanMoved(o), MutantMoved(caseId, o));
  }

  lemma ErrorsAre(caseId: string, o: Observed)
    ensures HasError(o.testHash, ObservedHashes(caseId, o), HashPairs(caseId, o), TestChanged) <==> TestMoved(caseId, o)
    ensures HasError(o.testHash, ObservedHashes(caseId, o), HashPairs(caseId, o), RepositoryChanged(CleanSide)) <==> CleanMoved(o)
    ensures HasError(o.testHash, ObservedHashes(caseId, o), HashPairs(caseId, o), RepositoryChanged(MutantSide)) <==> MutantMoved(caseId, o)
  {
    var hashes, pairs := ObservedHashes(caseId, o), HashPairs(caseId, o);
    assert HasError(o.testHash, hashes, pairs, TestChanged) <==> hashes[0] != o.testHash || hashes[1] != o.testHash;
    assert HasError(o.testHash, hashes, pairs, RepositoryChanged(CleanSide)) <==> PairChanged(pairs[0]);
    assert HasError(o.testHash, hashes, pairs, RepositoryChanged(MutantSide)) <==> PairChanged(pairs[1]);
  }

  lemma ErrorSet(errors: set<IntegrityError>, test: bool, clean: bool, mutant: bool)
    requires TestChanged in errors <==> test
    requires RepositoryChanged(CleanSide) in errors <==> clean
    requires RepositoryChanged(MutantSide) in errors <==> mutant
    ensures errors == {} <==> !test && !clean && !mutant
    ensures |errors| == Flag(test) + Flag(clean) + Flag(mutant)
  {
    var expected: set<IntegrityError> :=
      (if test then {TestChanged} else {}) + (if clean then {RepositoryChanged(CleanSide)} else {})
      + (if mutant then {RepositoryChanged(MutantSide)} else {});
    forall e ensures e in errors <==> e in expected {
      match e
      case TestChanged =>
      case RepositoryChanged(side) => assert side == CleanSide || side == MutantSide;
    }
    assert errors == expected;
  }

  /** The evidence that is stored: that of the two runs as they were or, when anything changed under
      them, the same record with every verdict withdrawn and no kill left. */
  lemma StoredMeans(caseId: string, findings: seq<Finding>, o: Observed, id: string)
    ensures var e := StoredEvidence(caseId, findings, o);
            var raw := EvidenceOf(caseId, o.clean, if caseId == "C00" then None else Some(o.mutant), findings, o.testHash);
            && (Untouched(caseId, o) ==> e == raw)
            && (!Untouched(caseId, o) ==>
                  && e.candidates == {} && !e.caseKill && e.falsePositives == raw.falsePositives
                  && e.caseId == caseId && e.testHash == o.testHash && e.nodes.Keys == raw.nodes.Keys
                  && (id in e.nodes ==>
                        e.nodes[id] == Row(raw.nodes[id].baseName, raw.nodes[id].findingIndexes, Invalid, IntegrityCheckFailed)))
  {
  }

  /** A row is a candidate kill exactly when its case is a mutant, a test was generated, nothing
      changed under the run, both harnesses are complete and some node pair kills. */
  lemma RowKillIff(row: LedgerRow, repetition: nat, caseId: string, sourceHash: string, scan: Scan)
    requires IsRowOf(row, repetition, caseId, sourceHash, scan)
    ensures row.candidateKill <==>
      && scan.Generated? && caseId != CONTROL && row.integrityErrors == 0
      && Scoreable(scan.o.clean) && Scoreable(scan.o.mutant)
      && exists c, m :: Kills(scan.o.clean.nodes, scan.o.mutant.nodes, scan.findings, c, m)
  {
    hide Kills, HarnessStatus;
    if scan.Generated? && caseId != CONTROL {
      CaseKillIff(caseId, scan.o.clean, scan.o.mutant, scan.findings, scan.o.testHash);
    }
  }
}

/** What every verdict of a differential says about the raw node lists. */
module Verdicts {
  import opened Prelude
  import opened Harness
  import opened Differential

  // ----- Raw nodes -----------------------------------------------------------------------

  /** The id occurs once in the list, in a node that passed. */
  ghost predicate PassesOnce(nodes: seq<Node>, id: string) {
    exists n :: OccursOnce(nodes, n) && n.id == id && n.outcome == Passed && n.failure != Some(AssertionFailure)
  }

  /** The id occurs once in the list, in a node that failed by assertion. */
  ghost predicate FailsOnce(nodes: seq<Node>, id: string) {
    exists n :: OccursOnce(nodes, n) && n.id == id && n.failure == Some(AssertionFailure)
  }

  /** The id occurs once in the list, in a test whose base name exactly one finding claims. */
  ghost predicate ClaimedOnce(nodes: seq<Node>, findings: seq<Finding>, id: string) {
    exists n :: OccursOnce(nodes, n) && n.id == id && BaseName(n.testName) != "" && ExactlyOne(findings, BaseName(n.testName))
  }

  ghost predicate Occurs(nodes: seq<Node>, id: string) { exists i :: 0 <= i < |nodes| && nodes[i].id == id }

  /** What the index holds for an id, in terms of the list. */
  lemma IndexedIs(nodes: seq<Node>, id: string)
    ensures id in Indexed(nodes) <==> Occurs(nodes, id)
    ensures id in Indexed(nodes) ==>
      var n := Indexed(nodes)[id];
      && (PassesOnce(nodes, id) <==> n.outcome == Passed && n.failure != Some(AssertionFailure))
      && (FailsOnce(nodes, id) <==> n.failure == Some(AssertionFailure))
    ensures PassesOnce(nodes, id) || FailsOnce(nodes, id) ==> id in Indexed(nodes) && OccursOnce(nodes, Indexed(nodes)[id])
  {
    hide OccursOnce, Merged;
    if id in Indexed(nodes) { IndexedOnce(nodes, id); }
    if n :| OccursOnce(nodes, n) && n.id == id { OnceIndexed(nodes, n); }
  }

  lemma ClaimedIs(nodes: seq<Node>, findings: seq<Finding>, id: string)
    requires id in Indexed(nodes) && OccursOnce(nodes, Indexed(nodes)[id]) && Indexed(nodes)[id].id == id
    ensures ClaimedOnce(nodes, findings, id) <==> |Mapped(findings, BaseName(Indexed(nodes)[id].testName))| == 1
  {
    hide OccursOnce, ExactlyOne, Matching, Indexed;
    var base := BaseName(Indexed(nodes)[id].testName);
    MatchingOne(findings, base);
    if n :| OccursOnce(nodes, n) && n.id == id && BaseName(n.testName) != "" && ExactlyOne(findings, BaseName(n.testName)) {
      OnceIndexed(nodes, n);
    }
  }

  // ----- The verdicts ----------------------------------------------------------------------

  function MutantList(mutant: Option<Execution>): seq<Node> { if mutant.Some? then mutant.value.nodes else [] }

  ghost predicate BothScoreable(clean: Execution, mutant: Option<Execution>) {
    Scoreable(clean) && (mutant.Some? ==> Scoreable(mutant.value))
  }

  lemma MutantIndex(mutant: Option<Execution>)
    ensures MutantNodes(mutant) == Indexed(MutantList(mutant))
  {
    assert Ids([]) == {};
  }

  /** The reason recorded for a node id, exactly. */
  lemma ReasonIff(clean: Execution, mutant: Option<Execution>, findings: seq<Finding>, id: string)
    requires Occurs(clean.nodes, id) || Occurs(MutantList(mutant), id)
    ensures id in AllRows(clean, mutant, findings)
    ensures var reason := AllRows(clean, mutant, findings)[id].reason;
            var cs, ms, both := clean.nodes, MutantList(mutant), BothScoreable(clean, mutant);
            var passes, asserts := PassesOnce(cs, id), FailsOnce(cs, id);
            && (reason == CleanHarnessInvalid <==> !Scoreable(clean))
            && (reason == MutantHarnessInvalid <==> Scoreable(clean) && !both)
            && (reason == MissingOnClean <==> both && !Occurs(cs, id))
            && (reason == CleanAssertionFailure <==> both && asserts)
            && (reason == CleanNotEligible <==> both && Occurs(cs, id) && !passes && !asserts)
            && (reason == CleanControl <==> both && passes && mutant.None?)
            && (reason == MissingOnMutant <==> both && passes && mutant.Some? && !Occurs(ms, id))
            && (reason == MutantNotEligible <==> both && passes && mutant.Some? && Occurs(ms, id) && !PassesOnce(ms, id) && !FailsOnce(ms, id))
            && (reason == CleanPassMutantFailure <==> both && passes && mutant.Some? && FailsOnce(ms, id) && ClaimedOnce(cs, findings, id))
            && (reason == NotMapped <==> both && passes && mutant.Some? && FailsOnce(ms, id) && !ClaimedOnce(cs, findings, id))
            && (reason == BothPass <==> both && passes && mutant.Some? && PassesOnce(ms, id))
  {
    hide Indexed, Mapped, HarnessStatus, OccursOnce, PassesOnce, FailsOnce, ClaimedOnce, Occurs, BaseName;
    IndexedIs(clean.nodes, id);
    IndexedIs(MutantList(mutant), id);
    MutantIndex(mutant);
    if PassesOnce(clean.nodes, id) {
      IndexedId(clean.nodes, id);
      ClaimedIs(clean.nodes, findings, id);
    }
  }

  lemma IndexedId(nodes: seq<Node>, id: string)
    requires id in Indexed(nodes)
    ensures Indexed(nodes)[id].id == id
  {
    IndexedOnce(nodes, id);
  }

  /** The verdict on a node id, exactly: one class each for the eleven reasons. */
  lemma VerdictIff(clean: Execution, mutant: Option<Execution>, findings: seq<Finding>, id: string)
    requires Occurs(clean.nodes, id) || Occurs(MutantList(mutant), id)
    ensures id in AllRows(clean, mutant, findings)
    ensures var verdict := AllRows(clean, mutant, findings)[id].verdict;
            var cs, ms, both := clean.nodes, MutantList(mutant), BothScoreable(clean, mutant);
            var passes := PassesOnce(cs, id);
            && (verdict == CleanFalsePositive <==> both && FailsOnce(cs, id))
            && (verdict == CleanPass <==> both && passes && mutant.None?)
            && (verdict == Survived <==> both && passes && mutant.Some? && PassesOnce(ms, id))
            && (verdict == CandidateKill <==> both && passes && mutant.Some? && FailsOnce(ms, id) && ClaimedOnce(cs, findings, id))
            && (verdict == Unmatched <==> both && passes && mutant.Some? && FailsOnce(ms, id) && !ClaimedOnce(cs, findings, id))
            && (verdict == Invalid <==>
                  || !both
                  || (!passes && !FailsOnce(cs, id))
                  || (passes && mutant.Some? && !PassesOnce(ms, id) && !FailsOnce(ms, id)))
  {
    hide Indexed, Mapped, HarnessStatus, OccursOnce, PassesOnce, FailsOnce, ClaimedOnce, Occurs, BaseName;
    IndexedIs(clean.nodes, id);
    IndexedIs(MutantList(mutant), id);
    MutantIndex(mutant);
    if PassesOnce(clean.nodes, id) {
      IndexedId(clean.nodes, id);
      ClaimedIs(clean.nodes, findings, id);
    }
  }

  lemma RowsAre(clean: Execution, mutant: Option<Execution>, findings: seq<Finding>, id: string)
    ensures id in AllRows(clean, mutant, findings) <==> Occurs(clean.nodes, id) || Occurs(MutantList(mutant), id)
  {
    hide Indexed, RowFor;
    IndexedIs(clean.nodes, id);
    IndexedIs(MutantList(mutant), id);
    MutantIndex(mutant);
  }

  /** The evidence record over the raw lists: one row for every id that occurs on either side, the
      candidates are the claimed clean passes that fail by assertion on the mutant, the false
      positives the assertion failures of the clean build. */
  lemma EvidenceMeans(caseId: string, clean: Execution, mutant: Option<Execution>, findings: seq<Finding>, testHash: string, id: string)
    ensures var e := EvidenceOf(caseId, clean, mutant, findings, testHash);
            && e.caseId == caseId && e.testHash == testHash
            && (id in e.nodes <==> Occurs(clean.nodes, id) || Occurs(MutantList(mutant), id))
            && (id in e.falsePositives <==> BothScoreable(clean, mutant) && FailsOnce(clean.nodes, id))
            && (id in e.candidates <==>
                  && BothScoreable(clean, mutant) && mutant.Some? && PassesOnce(clean.nodes, id)
                  && FailsOnce(mutant.value.nodes, id) && ClaimedOnce(clean.nodes, findings, id))
            && (e.caseKill <==> e.candidates != {})
  {
    hide Indexed, Mapped, HarnessStatus, OccursOnce, PassesOnce, FailsOnce, ClaimedOnce, Occurs, AllRows;
    RowsAre(clean, mutant, findings, id);
    if Occurs(clean.nodes, id) || Occurs(MutantList(mutant), id) {
      VerdictIff(clean, mutant, findings, id);
    } else {
      NeverHere(clean.nodes, id);
    }
    NoMutantNoCandidates(clean, findings);
  }

  lemma NeverHere(nodes: seq<Node>, id: string)
    requires !Occurs(nodes, id)
    ensures !PassesOnce(nodes, id) && !FailsOnce(nodes, id)
  {
    IndexedIs(nodes, id);
  }

  lemma NoMutantNoCandidates(clean: Execution, findings: seq<Finding>)
    ensures OfClass(AllRows(clean, None, findings), CandidateKill) == {}
  {
    hide Indexed, Mapped, HarnessStatus, PassesOnce, FailsOnce, ClaimedOnce, Occurs, AllRows;
    forall id | id in AllRows(clean, None, findings) ensures AllRows(clean, None, findings)[id].verdict != CandidateKill {
      RowsAre(clean, None, findings, id);
      VerdictIff(clean, None, findings, id);
    }
  }

  /** The name a row is matched by and the findings it lists. */
  lemma RowNames(clean: Execution, mutant: Option<Execution>, findings: seq<Finding>, id: string, n: Node)
    requires OccursOnce(clean.nodes, n) && n.id == id
    ensures id in AllRows(clean, mutant, findings)
    ensures var row := AllRows(clean, mutant, findings)[id];
            && row.baseName == BaseName(n.testName)
            && (forall i :: i in row.findingIndexes <==> 0 <= i < |findings| && row.baseName != "" && BaseName(findings[i].testName) == row.baseName)
            && (forall a, b :: 0 <= a < b < |row.findingIndexes| ==> row.findingIndexes[a] < row.findingIndexes[b])
  {
    hide Indexed, Matching, HarnessStatus, OccursOnce, BaseName;
    OnceIndexed(clean.nodes, n);
    MatchingIs(findings, BaseName(n.testName));
    MatchingAscends(findings, BaseName(n.testName));
  }
}

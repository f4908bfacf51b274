/** Clean-versus-mutant classification of test nodes. */
module Differential {
  import opened Prelude
  import opened Harness

  datatype Finding = Finding(title: string, endpoint: string, claim: string, testName: string)

  datatype Class = Invalid | CleanFalsePositive | CleanPass | CandidateKill | Unmatched | Survived

  datatype Reason =
    | CleanHarnessInvalid | MutantHarnessInvalid | MissingOnClean | CleanAssertionFailure | CleanNotEligible
    | CleanControl | MissingOnMutant | MutantNotEligible | CleanPassMutantFailure | NotMapped | BothPass
    | IntegrityCheckFailed

  datatype Row = Row(baseName: string, findingIndexes: seq<nat>, verdict: Class, reason: Reason)

  datatype Evidence = Evidence(
    caseId: string, testHash: string, cleanStatus: Status, mutantStatus: Option<Status>,
    nodes: map<string, Row>, candidates: set<string>, falsePositives: set<string>, caseKill: bool)

  // ----- Base names -------------------------------------------------------------

  /** The test name up to its first bracket. */
  function BaseName(name: string): string {
    if name == "" || name[0] == '[' then "" else [name[0]] + BaseName(name[1..])
  }

  lemma {:induction false} BaseNameCuts(name: string)
    ensures BaseName(name) <= name && '[' !in BaseName(name)
    ensures BaseName(name) == name || name[|BaseName(name)|] == '['
  {
    if name != "" && name[0] != '[' { BaseNameCuts(name[1..]); }
  }

  // ----- Nodes of one side --------------------------------------------------------

  function Count(nodes: seq<Node>, id: string): nat {
    if nodes == [] then 0
    else Count(nodes[..|nodes| - 1], id) + (if nodes[|nodes| - 1].id == id then 1 else 0)
  }

  function Last(nodes: seq<Node>, id: string): (n: Node)
    requires Count(nodes, id) > 0
    ensures n.id == id && n in nodes
  {
    if nodes[|nodes| - 1].id == id then nodes[|nodes| - 1] else Last(nodes[..|nodes| - 1], id)
  }

  /** A node that occurs once stands for itself; one that occurs more often is an error node. */
  function Merged(nodes: seq<Node>, id: string): Node
    requires Count(nodes, id) > 0
  {
    if Count(nodes, id) == 1 then Last(nodes, id)
    else Node(id, Last(nodes, id).testName, Errored, Some(DuplicateNodeKey))
  }

  function Ids(nodes: seq<Node>): set<string> { set i | 0 <= i < |nodes| :: nodes[i].id }

  lemma {:induction false} CountPositive(nodes: seq<Node>, id: string)
    ensures Count(nodes, id) > 0 <==> id in Ids(nodes)
  {
    if nodes != [] {
      var n := |nodes| - 1;
      CountPositive(nodes[..n], id);
      assert nodes == nodes[..n] + [nodes[n]];
      if id in Ids(nodes) {
        var i :| 0 <= i < |nodes| && nodes[i].id == id;
        if i < n { assert nodes[..n][i].id == id; }
      }
      if id in Ids(nodes[..n]) {
        var i :| 0 <= i < n && nodes[..n][i].id == id;
        assert nodes[i].id == id;
      }
      assert nodes[n].id in Ids(nodes);
    }
  }

  function Indexed(nodes: seq<Node>): map<string, Node> {
    map id | id in Ids(nodes) :: (CountPositive(nodes, id); Merged(nodes, id))
  }

  /** The only node with its id. */
  ghost predicate OccursOnce(nodes: seq<Node>, n: Node) {
    exists i :: 0 <= i < |nodes| && nodes[i] == n && forall j :: 0 <= j < |nodes| && j != i ==> nodes[j].id != n.id
  }

  lemma {:induction false} CountOnce(nodes: seq<Node>, n: Node)
    ensures OccursOnce(nodes, n) <==> Count(nodes, n.id) == 1 && Last(nodes, n.id) == n
  {
    if nodes != [] {
      var k := |nodes| - 1;
      var before := nodes[..k];
      CountOnce(before, n);
      CountPositive(before, n.id);
      if OccursOnce(nodes, n) {
        var i :| 0 <= i < |nodes| && nodes[i] == n && forall j :: 0 <= j < |nodes| && j != i ==> nodes[j].id != n.id;
        if i < k {
          assert before[i] == n;
          assert OccursOnce(before, n);
        } else {
          assert forall j :: 0 <= j < k ==> before[j].id != n.id;
        }
      }
      if Count(nodes, n.id) == 1 && Last(nodes, n.id) == n {
        if nodes[k].id == n.id {
          forall j | 0 <= j < k ensures nodes[j].id != n.id {
            assert before[j].id in Ids(before);
          }
          assert nodes[k] == n;
          assert OccursOnce(nodes, n);
        } else {
          var i :| 0 <= i < k && before[i] == n && forall j :: 0 <= j < k && j != i ==> before[j].id != n.id;
          assert nodes[i] == n;
          forall j | 0 <= j < |nodes| && j != i ensures nodes[j].id != n.id {
            if j < k { assert before[j] == nodes[j]; }
          }
        }
      }
    }
  }

  /** The second pass: every repeated key becomes an error node. */
  method ReplaceDuplicates(nodes: seq<Node>, first: map<string, Node>, duplicates: set<string>)
    returns (indexed: map<string, Node>)
    requires first.Keys == Ids(nodes)
    requires forall id :: id in first ==> Count(nodes, id) > 0 && first[id] == Last(nodes, id)
    requires forall id :: id in duplicates <==> Count(nodes, id) > 1
    ensures indexed == Indexed(nodes)
  {
    hide Count, Last;
    indexed := first;
    var todo := duplicates;
    while todo != {}
      invariant todo <= duplicates
      invariant forall id :: id in indexed <==> id in first
      invariant forall id :: id in first && (id !in duplicates || id in todo) ==> indexed[id] == first[id]
      invariant forall id :: id in first && id in duplicates && id !in todo ==>
                  indexed[id] == Node(id, first[id].testName, Errored, Some(DuplicateNodeKey))
      decreases |todo|
    {
      var key :| key in todo;
      CountPositive(nodes, key);
      var original := indexed[key];
      indexed := indexed[key := Node(key, original.testName, Errored, Some(DuplicateNodeKey))];
      todo := todo - {key};
    }
    assert indexed.Keys == first.Keys;
  }

  /** Indexes a side's nodes, noting repeated keys on the way. */
  method UniqueNodes(nodes: seq<Node>) returns (indexed: map<string, Node>)
    ensures indexed == Indexed(nodes)
  {
    indexed := map[];
    var duplicates: set<string> := {};
    for k := 0 to |nodes|
      invariant indexed.Keys == Ids(nodes[..k])
      invariant forall id :: id in indexed ==> Count(nodes[..k], id) > 0 && indexed[id] == Last(nodes[..k], id)
      invariant forall id :: id in duplicates <==> Count(nodes[..k], id) > 1
    {
      var node := nodes[k];
      assert nodes[..k + 1][..k] == nodes[..k];
      CountPositive(nodes[..k], node.id);
      IdsGrow(nodes, k);
      if node.id in indexed {
        duplicates := duplicates + {node.id};
      }
      indexed := indexed[node.id := node];
    }
    assert nodes[..|nodes|] == nodes;
    indexed := ReplaceDuplicates(nodes, indexed, duplicates);
  }

  lemma IdsGrow(nodes: seq<Node>, k: nat)
    requires k < |nodes|
    ensures Ids(nodes[..k + 1]) == Ids(nodes[..k]) + {nodes[k].id}
  {
    var a, b := nodes[..k + 1], nodes[..k];
    forall id | id in Ids(a) ensures id in Ids(b) + {nodes[k].id} {
      var i :| 0 <= i < |a| && a[i].id == id;
      if i < k { assert b[i].id == id; }
    }
    forall id | id in Ids(b) ensures id in Ids(a) {
      var i :| 0 <= i < |b| && b[i].id == id;
      assert a[i].id == id;
    }
    assert a[k].id in Ids(a);
  }

  // ----- Findings -------------------------------------------------------------------

  /** Positions of the findings with this base name, in order. */
  function Matching(findings: seq<Finding>, base: string): seq<nat> {
    if findings == [] then []
    else
      var k := |findings| - 1;
      Matching(findings[..k], base) + (if BaseName(findings[k].testName) == base then [k] else [])
  }

  ghost predicate ExactlyOne(findings: seq<Finding>, base: string) {
    exists i :: 0 <= i < |findings| && BaseName(findings[i].testName) == base
                && forall j :: 0 <= j < |findings| && j != i ==> BaseName(findings[j].testName) != base
  }

  lemma {:induction false} MatchingIs(findings: seq<Finding>, base: string)
    ensures forall i :: i in Matching(findings, base) <==> 0 <= i < |findings| && BaseName(findings[i].testName) == base
  {
    if findings != [] {
      var k := |findings| - 1;
      MatchingIs(findings[..k], base);
    }
  }

  lemma {:induction false} MatchingAscends(findings: seq<Finding>, base: string)
    ensures forall a, b :: 0 <= a < b < |Matching(findings, base)| ==> Matching(findings, base)[a] < Matching(findings, base)[b]
  {
    if findings != [] {
      var before := findings[..|findings| - 1];
      MatchingAscends(before, base);
      MatchingIs(before, base);
      assert forall a :: 0 <= a < |Matching(before, base)| ==> Matching(before, base)[a] in Matching(before, base);
    }
  }

  lemma MatchingOne(findings: seq<Finding>, base: string)
    ensures |Matching(findings, base)| == 1 <==> ExactlyOne(findings, base)
  {
    hide Matching, BaseName;
    var m := Matching(findings, base);
    MatchingIs(findings, base);
    MatchingAscends(findings, base);
    if |m| == 1 {
      assert m[0] in m;
      assert forall j :: j in m ==> j == m[0];
    } else if |m| > 1 {
      assert m[0] in m && m[1] in m && m[0] != m[1];
    }
  }

  /** The finding positions a base name maps to; the empty one maps to none. */
  function Mapped(findings: seq<Finding>, base: string): seq<nat> {
    if base == "" then [] else Matching(findings, base)
  }

  function Get(indexes: map<string, seq<nat>>, base: string): seq<nat> {
    if base in indexes then indexes[base] else []
  }

  /** Groups finding positions by non-empty base name. */
  method IndexFindings(findings: seq<Finding>) returns (indexes: map<string, seq<nat>>)
    ensures forall base :: Get(indexes, base) == Mapped(findings, base)
  {
    hide BaseName;
    indexes := map[];
    for k := 0 to |findings|
      invariant forall base :: Get(indexes, base) == Mapped(findings[..k], base)
    {
      var base := BaseName(findings[k].testName);
      assert findings[..k + 1][..k] == findings[..k];
      ghost var before := indexes;
      if base != "" {
        indexes := indexes[base := Get(indexes, base) + [k]];
      }
      forall b: string ensures Get(indexes, b) == Mapped(findings[..k + 1], b) {
        assert Get(before, b) == Mapped(findings[..k], b);
      }
    }
    assert findings[..|findings|] == findings;
  }

  // ----- Classification -----------------------------------------------------------------

  function Classify(clean: Option<Node>, mutant: Option<Node>, mapped: bool,
                    cleanOnly: bool, cleanValid: bool, mutantValid: bool): (Class, Reason)
  {
    if !cleanValid then (Invalid, CleanHarnessInvalid)
    else if !cleanOnly && !mutantValid then (Invalid, MutantHarnessInvalid)
    else if clean.None? then (Invalid, MissingOnClean)
    else if clean.value.failure == Some(AssertionFailure) then (CleanFalsePositive, CleanAssertionFailure)
    else if !Eligible(clean.value) then (Invalid, CleanNotEligible)
    else if cleanOnly then (CleanPass, CleanControl)
    else if mutant.None? then (Invalid, MissingOnMutant)
    else if !Eligible(mutant.value) then (Invalid, MutantNotEligible)
    else if mutant.value.failure == Some(AssertionFailure) && mapped then (CandidateKill, CleanPassMutantFailure)
    else if mutant.value.failure == Some(AssertionFailure) then (Unmatched, NotMapped)
    else (Survived, BothPass)
  }

  function Lookup(m: map<string, Node>, id: string): Option<Node> {
    if id in m then Some(m[id]) else None
  }

  function RowOf(id: string, clean: map<string, Node>, mutant: map<string, Node>, mapped: seq<nat>,
                 cleanOnly: bool, cleanValid: bool, mutantValid: bool): Row
    requires id in clean || id in mutant
  {
    var (verdict, reason) :=
      Classify(Lookup(clean, id), Lookup(mutant, id), |mapped| == 1, cleanOnly, cleanValid, mutantValid);
    Row(NodeBase(id, clean, mutant), mapped, verdict, reason)
  }

  /** The base name a node is matched by: the clean side's, when there is one. */
  function NodeBase(id: string, clean: map<string, Node>, mutant: map<string, Node>): string
    requires id in clean || id in mutant
  {
    BaseName(if id in clean then clean[id].testName else mutant[id].testName)
  }

  function MutantNodes(mutant: Option<Execution>): map<string, Node> {
    if mutant.Some? then Indexed(mutant.value.nodes) else map[]
  }

  /** The row of one node key. */
  function RowFor(clean: Execution, mutant: Option<Execution>, findings: seq<Finding>, id: string): Row
    requires id in Indexed(clean.nodes) || id in MutantNodes(mutant)
  {
    var cleanNodes, mutantNodes := Indexed(clean.nodes), MutantNodes(mutant);
    RowOf(id, cleanNodes, mutantNodes, Mapped(findings, NodeBase(id, cleanNodes, mutantNodes)),
          mutant.None?, Scoreable(clean), mutant.Some? && Scoreable(mutant.value))
  }

  function AllRows(clean: Execution, mutant: Option<Execution>, findings: seq<Finding>): map<string, Row> {
    map id | id in Indexed(clean.nodes).Keys + MutantNodes(mutant).Keys :: RowFor(clean, mutant, findings, id)
  }

  function OfClass(nodes: map<string, Row>, v: Class): set<string> {
    set id | id in nodes && nodes[id].verdict == v
  }

  /** The whole evidence record. */
  function EvidenceOf(caseId: string, clean: Execution, mutant: Option<Execution>, findings: seq<Finding>, testHash: string): Evidence {
    var nodes := AllRows(clean, mutant, findings);
    Evidence(caseId, testHash, HarnessStatus(clean), if mutant.Some? then Some(HarnessStatus(mutant.value)) else None,
             nodes, OfClass(nodes, CandidateKill), OfClass(nodes, CleanFalsePositive),
             mutant.Some? && OfClass(nodes, CandidateKill) != {})
  }

  method BuildDifferential(caseId: string, clean: Execution, mutant: Option<Execution>, findings: seq<Finding>, testHash: string)
    returns (e: Evidence)
    ensures e == EvidenceOf(caseId, clean, mutant, findings, testHash)
  {
    hide HarnessStatus, RowOf, NodeBase, BaseName, Matching, Indexed, OfClass, Mapped, Get;
    var indexes := IndexFindings(findings);
    var cleanNodes := UniqueNodes(clean.nodes);
    var mutantNodes: map<string, Node> := map[];
    if mutant.Some? { mutantNodes := UniqueNodes(mutant.value.nodes); }
    var nodes := map id | id in cleanNodes.Keys + mutantNodes.Keys ::
      RowOf(id, cleanNodes, mutantNodes, Get(indexes, NodeBase(id, cleanNodes, mutantNodes)),
            mutant.None?, Scoreable(clean), mutant.Some? && Scoreable(mutant.value));
    forall id | id in nodes ensures nodes[id] == RowFor(clean, mutant, findings, id) {
      assert Get(indexes, NodeBase(id, cleanNodes, mutantNodes)) == Mapped(findings, NodeBase(id, cleanNodes, mutantNodes));
    }
    assert nodes == AllRows(clean, mutant, findings);
    var candidates := OfClass(nodes, CandidateKill);
    e := Evidence(caseId, testHash, HarnessStatus(clean), if mutant.Some? then Some(HarnessStatus(mutant.value)) else None,
                  nodes, candidates, OfClass(nodes, CleanFalsePositive), mutant.Some? && candidates != {});
  }

  // ----- When a case is a candidate kill -------------------------------------------------

  /** One test seen once on each side, passing clean, failing by assertion on the mutant, and
      claimed by exactly one finding. */
  ghost predicate Kills(clean: seq<Node>, mutant: seq<Node>, findings: seq<Finding>, c: Node, m: Node) {
    && c.id == m.id && OccursOnce(clean, c) && OccursOnce(mutant, m)
    && c.outcome == Passed && c.failure != Some(AssertionFailure)
    && m.failure == Some(AssertionFailure)
    && BaseName(c.testName) != "" && ExactlyOne(findings, BaseName(c.testName))
  }

  lemma IndexedOnce(nodes: seq<Node>, id: string)
    requires id in Indexed(nodes)
    ensures Indexed(nodes)[id].id == id
    ensures OccursOnce(nodes, Indexed(nodes)[id]) || (Indexed(nodes)[id].outcome == Errored && Indexed(nodes)[id].failure == Some(DuplicateNodeKey))
    ensures forall n :: OccursOnce(nodes, n) && n.id == id ==> Indexed(nodes)[id] == n
  {
    CountPositive(nodes, id);
    CountOnce(nodes, Last(nodes, id));
    forall n | OccursOnce(nodes, n) && n.id == id ensures Indexed(nodes)[id] == n {
      CountOnce(nodes, n);
    }
  }

  /** The node key's verdict is a kill exactly when its two nodes are a killing pair. */
  lemma RowKills(clean: Execution, mutant: Execution, findings: seq<Finding>, id: string)
    requires id in Indexed(clean.nodes) || id in MutantNodes(Some(mutant))
    requires Scoreable(clean) && Scoreable(mutant)
    ensures RowFor(clean, Some(mutant), findings, id).verdict == CandidateKill <==>
      id in Indexed(clean.nodes) && id in Indexed(mutant.nodes)
      && Kills(clean.nodes, mutant.nodes, findings, Indexed(clean.nodes)[id], Indexed(mutant.nodes)[id])
  {
    hide Indexed, Count, Last, Matching, HarnessStatus, OccursOnce, ExactlyOne;
    var cs, ms := Indexed(clean.nodes), Indexed(mutant.nodes);
    if id in cs {
      IndexedOnce(clean.nodes, id);
      MatchingOne(findings, BaseName(cs[id].testName));
    }
    if id in ms { IndexedOnce(mutant.nodes, id); }
  }

  /** Nothing is a kill on an incomplete harness. */
  lemma IncompleteNeverKills(clean: Execution, mutant: Execution, findings: seq<Finding>, id: string)
    requires id in Indexed(clean.nodes) || id in MutantNodes(Some(mutant))
    requires !Scoreable(clean) || !Scoreable(mutant)
    ensures RowFor(clean, Some(mutant), findings, id).verdict == Invalid
  {
  }

  lemma OnceIndexed(nodes: seq<Node>, n: Node)
    requires OccursOnce(nodes, n)
    ensures n.id in Indexed(nodes) && Indexed(nodes)[n.id] == n
  {
    var i :| 0 <= i < |nodes| && nodes[i] == n;
    assert nodes[i].id in Ids(nodes);
    IndexedOnce(nodes, n.id);
  }

  /** A case is a candidate kill exactly when both harnesses are complete and some pair of raw
      report nodes kills. */
  lemma CaseKillIff(caseId: string, clean: Execution, mutant: Execution, findings: seq<Finding>, testHash: string)
    ensures EvidenceOf(caseId, clean, Some(mutant), findings, testHash).caseKill <==>
      && Scoreable(clean) && Scoreable(mutant)
      && exists c, m :: Kills(clean.nodes, mutant.nodes, findings, c, m)
  {
    hide RowFor, Kills, HarnessStatus, Indexed;
    var e := EvidenceOf(caseId, clean, Some(mutant), findings, testHash);
    if e.caseKill {
      var id :| id in e.candidates;
      if Scoreable(clean) && Scoreable(mutant) {
        RowKills(clean, mutant, findings, id);
      } else {
        IncompleteNeverKills(clean, mutant, findings, id);
      }
    }
    if c, m :| Scoreable(clean) && Scoreable(mutant) && Kills(clean.nodes, mutant.nodes, findings, c, m) {
      KillsIndexed(clean.nodes, mutant.nodes, findings, c, m);
      RowKills(clean, mutant, findings, c.id);
      assert c.id in e.candidates;
    }
  }

  lemma KillsIndexed(clean: seq<Node>, mutant: seq<Node>, findings: seq<Finding>, c: Node, m: Node)
    requires Kills(clean, mutant, findings, c, m)
    ensures c.id in Indexed(clean) && Indexed(clean)[c.id] == c
    ensures c.id in Indexed(mutant) && Indexed(mutant)[c.id] == m
  {
    OnceIndexed(clean, c);
    OnceIndexed(mutant, m);
  }

  /** A mutant that behaves as the clean build does is never a kill, and neither is a clean control. */
  lemma SameBehaviourNeverKills(caseId: string, clean: Execution, mutant: Execution, findings: seq<Finding>, testHash: string)
    requires mutant.nodes == clean.nodes
    ensures !EvidenceOf(caseId, clean, Some(mutant), findings, testHash).caseKill
    ensures !EvidenceOf(caseId, clean, None, findings, testHash).caseKill
  {
    hide HarnessStatus, Indexed;
    CaseKillIff(caseId, clean, mutant, findings, testHash);
    if c, m :| Kills(clean.nodes, mutant.nodes, findings, c, m) {
      KillsIndexed(clean.nodes, mutant.nodes, findings, c, m);
    }
  }
}

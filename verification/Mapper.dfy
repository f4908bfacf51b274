/** The functions a route handler can reach: a worklist over the call graph of one module. */
module Mapper {

  /** A function of the module and the names it calls, in sorted order. */
  datatype Function = Function(name: string, calls: seq<string>)

  /** A handler and the module's functions by name. */
  datatype Graph = Graph(root: Function, functions: map<string, Function>)

  ghost predicate WellNamed(g: Graph) { forall n :: n in g.functions ==> g.functions[n].name == n }

  /** The handler stands for its own name, whatever else the module defines under it. */
  ghost predicate Known(g: Graph, name: string) { name == g.root.name || name in g.functions }

  ghost function Node(g: Graph, name: string): Function
    requires Known(g, name)
  {
    if name == g.root.name then g.root else g.functions[name]
  }

  ghost predicate Calls(g: Graph, caller: string, callee: string) {
    Known(g, caller) && callee in Node(g, caller).calls && callee in g.functions
  }

  /** The function can be reached from the handler over at most `k` calls. */
  ghost predicate Within(g: Graph, name: string, k: nat)
    decreases k
  {
    if k == 0 then name == g.root.name
    else Within(g, name, k - 1) || exists caller :: Within(g, caller, k - 1) && Calls(g, caller, name)
  }

  ghost predicate Reachable(g: Graph, name: string) { exists k: nat :: Within(g, name, k) }

  lemma {:induction false} WithinGrows(g: Graph, name: string, k: nat, m: nat)
    requires Within(g, name, k) && k <= m
    ensures Within(g, name, m)
  {
    if k < m { WithinGrows(g, name, k, m - 1); }
  }

  lemma {:induction false} WithinKnown(g: Graph, name: string, k: nat)
    requires Within(g, name, k)
    ensures Known(g, name)
  {
    if k > 0 && Within(g, name, k - 1) { WithinKnown(g, name, k - 1); }
  }

  // ----- The worklist ----------------------------------------------------------------

  /** `k` is the exact call distance. */
  ghost predicate Distance(g: Graph, name: string, k: nat) {
    Within(g, name, k) && (k > 0 ==> !Within(g, name, k - 1))
  }

  /** The queue holds functions in the order of the distance they were found at, over at most
      two adjacent distances; the same function may be waiting more than once. */
  ghost predicate Waiting(g: Graph, queue: seq<Function>, depths: seq<nat>) {
    && |depths| == |queue|
    && (forall i :: 0 <= i < |queue| ==> Within(g, queue[i].name, depths[i]) && Known(g, queue[i].name) && queue[i] == Node(g, queue[i].name))
    && (forall i, j :: 0 <= i < j < |depths| ==> depths[i] <= depths[j])
    && (|depths| > 0 ==> depths[|depths| - 1] <= depths[0] + 1)
  }

  /** Visited functions, in the order of their exact distances, all before anything that waits. */
  ghost predicate Visited(g: Graph, depths: seq<nat>, rank: map<string, nat>, result: seq<Function>) {
    && (forall i :: 0 <= i < |result| ==> result[i].name in rank && Known(g, result[i].name) && result[i] == Node(g, result[i].name))
    && (forall n :: n in rank ==> exists i :: 0 <= i < |result| && result[i].name == n)
    && (forall i, j :: 0 <= i < j < |result| ==> result[i].name != result[j].name && rank[result[i].name] <= rank[result[j].name])
    && (forall n :: n in rank ==> Distance(g, n, rank[n]) && (|depths| > 0 ==> rank[n] <= depths[0]))
  }

  /** Whatever a visited function calls is visited or waits one call further. */
  ghost predicate Pushed(queue: seq<Function>, depths: seq<nat>, rank: map<string, nat>, callee: string, k: nat)
    requires |depths| == |queue|
  {
    callee in rank || exists i :: 0 <= i < |queue| && queue[i].name == callee && depths[i] == k
  }

  ghost predicate Closed(g: Graph, queue: seq<Function>, depths: seq<nat>, rank: map<string, nat>)
    requires |depths| == |queue|
  {
    && (g.root.name in rank || (|queue| > 0 && queue[0].name == g.root.name && depths[0] == 0))
    && forall n, m :: n in rank && Calls(g, n, m) ==> Pushed(queue, depths, rank, m, rank[n] + 1)
  }

  ghost predicate Inv(g: Graph, queue: seq<Function>, depths: seq<nat>, rank: map<string, nat>, result: seq<Function>) {
    Waiting(g, queue, depths) && Visited(g, depths, rank, result) && Closed(g, queue, depths, rank)
  }

  /** Everything nearer than the head of the queue has been visited. */
  lemma {:induction false} Nearer(g: Graph, queue: seq<Function>, depths: seq<nat>, rank: map<string, nat>, result: seq<Function>,
                                  name: string, k: nat)
    requires Inv(g, queue, depths, rank, result) && Within(g, name, k) && (|queue| > 0 ==> k < depths[0])
    ensures name in rank
    decreases k
  {
    if k > 0 && !Within(g, name, k - 1) {
      var caller :| Within(g, caller, k - 1) && Calls(g, caller, name);
      Nearer(g, queue, depths, rank, result, caller, k - 1);
      if rank[caller] > k - 1 { WithinGrows(g, caller, k - 1, rank[caller] - 1); }
      assert Pushed(queue, depths, rank, name, rank[caller] + 1);
    } else if k > 0 {
      Nearer(g, queue, depths, rank, result, name, k - 1);
    }
  }

  /** Dropping a function that was visited meanwhile. */
  lemma DropSeen(g: Graph, queue: seq<Function>, depths: seq<nat>, rank: map<string, nat>, result: seq<Function>)
    requires Inv(g, queue, depths, rank, result) && |queue| > 0 && queue[0].name in rank
    ensures Inv(g, queue[1..], depths[1..], rank, result)
  {
    forall n, m | n in rank && Calls(g, n, m) ensures Pushed(queue[1..], depths[1..], rank, m, rank[n] + 1) {
      assert Pushed(queue, depths, rank, m, rank[n] + 1);
      PushedTail(queue, depths, rank, m, rank[n] + 1);
    }
  }

  lemma PushedTail(queue: seq<Function>, depths: seq<nat>, rank: map<string, nat>, callee: string, k: nat)
    requires |depths| == |queue| > 0 && Pushed(queue, depths, rank, callee, k)
    ensures callee in rank || queue[0].name == callee || Pushed(queue[1..], depths[1..], rank, callee, k)
  {
    if callee !in rank && queue[0].name != callee {
      var i :| 0 <= i < |queue| && queue[i].name == callee && depths[i] == k;
      assert queue[1..][i - 1].name == callee && depths[1..][i - 1] == k;
    }
  }

  /** The functions a visited one adds to the queue: those it calls that exist and are not visited. */
  function Called(functions: map<string, Function>, calls: seq<string>, seen: set<string>): (added: seq<Function>)
    ensures forall f :: f in added <==> exists n :: n in calls && n in functions && n !in seen && f == functions[n]
  {
    if calls == [] then []
    else
      assert calls == [calls[0]] + calls[1..];
      (if calls[0] in functions && calls[0] !in seen then [functions[calls[0]]] else []) + Called(functions, calls[1..], seen)
  }

  method ReachableFunctions(root: Function, functions: map<string, Function>) returns (result: seq<Function>)
    requires WellNamed(Graph(root, functions))
    ensures |result| > 0 && result[0] == root
    ensures forall i, j :: 0 <= i < j < |result| ==> result[i].name != result[j].name
    ensures forall i :: 0 <= i < |result| ==> Known(Graph(root, functions), result[i].name)
                                              && result[i] == Node(Graph(root, functions), result[i].name)
    ensures forall name :: Reachable(Graph(root, functions), name) <==> exists i :: 0 <= i < |result| && result[i].name == name
    ensures forall i, j, k: nat :: 0 <= i < j < |result| && Within(Graph(root, functions), result[j].name, k) ==>
              Within(Graph(root, functions), result[i].name, k)
  {
    hide Called, Waiting, Visited, Closed, Within, Known, Node, Reachable, WellNamed;
    ghost var g := Graph(root, functions);
    Started(g);
    var queue := [root];
    var seen: set<string> := {};
    result := [];
    ghost var depths: seq<nat>, rank: map<string, nat> := [0], map[];
    while queue != []
      invariant Inv(g, queue, depths, rank, result) && rank.Keys == seen
      invariant seen <= functions.Keys + {root.name}
      invariant if result == [] then queue == [root] && seen == {} else result[0] == root
      decreases |(functions.Keys + {root.name}) - seen|, |queue|
    {
      var current := queue[0];
      HeadKnown(g, queue, depths);
      if current.name in seen {
        DropSeen(g, queue, depths, rank, result);
        queue, depths := queue[1..], depths[1..];
        continue;
      }
      var added := Called(functions, current.calls, seen + {current.name});
      Visit(g, queue, depths, rank, result, added);
      rank, depths := rank[current.name := depths[0]], depths[1..] + seq(|added|, _ => depths[0] + 1);
      queue := queue[1..] + added;
      assert current.name in (functions.Keys + {root.name}) - seen;
      seen := seen + {current.name};
      result := result + [current];
    }
    AllVisited(g, depths, rank, result);
    Listed(g, depths, rank, result);
  }

  lemma Started(g: Graph)
    ensures Inv(g, [g.root], [0], map[], [])
  {
  }

  lemma HeadKnown(g: Graph, queue: seq<Function>, depths: seq<nat>)
    requires Waiting(g, queue, depths) && |queue| > 0
    ensures |depths| == |queue| && queue[0].name in g.functions.Keys + {g.root.name}
  {
  }

  lemma Listed(g: Graph, depths: seq<nat>, rank: map<string, nat>, result: seq<Function>)
    requires Inv(g, [], depths, rank, result)
    ensures forall i, j :: 0 <= i < j < |result| ==> result[i].name != result[j].name
    ensures forall i :: 0 <= i < |result| ==> Known(g, result[i].name) && result[i] == Node(g, result[i].name)
    ensures |result| > 0
  {
  }

  /** Visiting the head of the queue. */
  lemma Visit(g: Graph, queue: seq<Function>, depths: seq<nat>, rank: map<string, nat>, result: seq<Function>, added: seq<Function>)
    requires WellNamed(g) && Inv(g, queue, depths, rank, result) && |queue| > 0 && queue[0].name !in rank
    requires added == Called(g.functions, queue[0].calls, rank.Keys + {queue[0].name})
    ensures Inv(g, queue[1..] + added, depths[1..] + seq(|added|, _ => depths[0] + 1), rank[queue[0].name := depths[0]], result + [queue[0]])
  {
    hide Within, Calls, Called;
    var longer := depths[1..] + seq(|added|, _ => depths[0] + 1);
    VisitWaiting(g, queue, depths, rank, result, added);
    VisitVisited(g, queue, depths, longer, rank, result);
    VisitClosed(g, queue, depths, rank, result, added);
  }

  lemma VisitWaiting(g: Graph, queue: seq<Function>, depths: seq<nat>, rank: map<string, nat>, result: seq<Function>, added: seq<Function>)
    requires WellNamed(g) && Inv(g, queue, depths, rank, result) && |queue| > 0 && queue[0].name !in rank
    requires added == Called(g.functions, queue[0].calls, rank.Keys + {queue[0].name})
    ensures Waiting(g, queue[1..] + added, depths[1..] + seq(|added|, _ => depths[0] + 1))
  {
    hide Called, Visited;
    var current, d := queue[0], depths[0];
    forall f | f in added ensures Within(g, f.name, d + 1) && Known(g, f.name) && f == Node(g, f.name) {
      var n :| n in current.calls && n in g.functions && n !in rank && n != current.name && f == g.functions[n];
      assert Calls(g, current.name, n);
    }
  }

  lemma VisitDistance(g: Graph, queue: seq<Function>, depths: seq<nat>, rank: map<string, nat>, result: seq<Function>)
    requires Inv(g, queue, depths, rank, result) && |queue| > 0 && queue[0].name !in rank
    ensures Distance(g, queue[0].name, depths[0]) && Known(g, queue[0].name) && queue[0] == Node(g, queue[0].name)
  {
    hide Within, Closed, Visited;
    var name, d := queue[0].name, depths[0];
    if d > 0 && Within(g, name, d - 1) { Nearer(g, queue, depths, rank, result, name, d - 1); }
  }

  lemma VisitVisited(g: Graph, queue: seq<Function>, depths: seq<nat>, longer: seq<nat>, rank: map<string, nat>, result: seq<Function>)
    requires Inv(g, queue, depths, rank, result) && |queue| > 0 && queue[0].name !in rank
    requires |longer| > 0 ==> depths[0] <= longer[0]
    ensures Visited(g, longer, rank[queue[0].name := depths[0]], result + [queue[0]])
  {
    hide Within, Closed, Distance, Known, Node;
    var current, d, more := queue[0], depths[0], result + [queue[0]];
    VisitDistance(g, queue, depths, rank, result);
    assert more[|result|].name == current.name;
    forall n | n in rank ensures exists i :: 0 <= i < |more| && more[i].name == n {
      var i :| 0 <= i < |result| && result[i].name == n;
      assert more[i].name == n;
    }
  }

  lemma VisitClosed(g: Graph, queue: seq<Function>, depths: seq<nat>, rank: map<string, nat>, result: seq<Function>, added: seq<Function>)
    requires WellNamed(g) && Inv(g, queue, depths, rank, result) && |queue| > 0 && queue[0].name !in rank
    requires added == Called(g.functions, queue[0].calls, rank.Keys + {queue[0].name})
    ensures Closed(g, queue[1..] + added, depths[1..] + seq(|added|, _ => depths[0] + 1), rank[queue[0].name := depths[0]])
  {
    hide Called, Visited, Within;
    var current, d := queue[0], depths[0];
    var later, longer, ranks := queue[1..] + added, depths[1..] + seq(|added|, _ => d + 1), rank[current.name := d];
    forall n, m | n in ranks && Calls(g, n, m) ensures Pushed(later, longer, ranks, m, ranks[n] + 1) {
      if n == current.name {
        assert current == Node(g, n);
        if m !in ranks {
          assert g.functions[m] in added;
          var i :| 0 <= i < |added| && added[i] == g.functions[m];
          assert later[|queue| - 1 + i].name == m && longer[|queue| - 1 + i] == d + 1;
        }
      } else {
        assert Pushed(queue, depths, rank, m, rank[n] + 1);
        PushedTail(queue, depths, rank, m, rank[n] + 1);
        if m !in ranks {
          var i :| 0 <= i < |queue[1..]| && queue[1..][i].name == m && depths[1..][i] == rank[n] + 1;
          assert later[i].name == m && longer[i] == rank[n] + 1;
        }
      }
    }
  }

  /** With an empty queue everything reachable has been visited, nearest first. */
  lemma AllVisited(g: Graph, depths: seq<nat>, rank: map<string, nat>, result: seq<Function>)
    requires Inv(g, [], depths, rank, result)
    ensures forall name :: Reachable(g, name) <==> exists i :: 0 <= i < |result| && result[i].name == name
    ensures forall i, j, k: nat :: 0 <= i < j < |result| && Within(g, result[j].name, k) ==> Within(g, result[i].name, k)
  {
    hide Closed;
    forall name ensures Reachable(g, name) <==> exists i :: 0 <= i < |result| && result[i].name == name {
      if k: nat :| Within(g, name, k) { Nearer(g, [], depths, rank, result, name, k); }
    }
    forall i, j, k: nat | 0 <= i < j < |result| && Within(g, result[j].name, k) ensures Within(g, result[i].name, k) {
      var near, far := rank[result[i].name], rank[result[j].name];
      if far > k { WithinGrows(g, result[j].name, k, far - 1); }
      WithinGrows(g, result[i].name, near, k);
    }
  }
}

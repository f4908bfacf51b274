/** Exact medians: the value statistics.median takes from a sorted copy of its data. */
module Median {

  predicate Sorted(s: seq<real>) { forall i, j :: 0 <= i < j < |s| ==> s[i] <= s[j] }

  function Insert(x: real, s: seq<real>): (r: seq<real>)
    ensures |r| == |s| + 1
  {
    if s == [] || x <= s[0] then [x] + s else [s[0]] + Insert(x, s[1..])
  }

  function Sort(s: seq<real>): (r: seq<real>)
    ensures |r| == |s|
  {
    if s == [] then [] else Insert(s[0], Sort(s[1..]))
  }

  lemma {:induction false} InsertKeeps(x: real, s: seq<real>)
    ensures multiset(Insert(x, s)) == multiset(s) + multiset{x}
  {
    if s != [] && x > s[0] {
      InsertKeeps(x, s[1..]);
      assert s == [s[0]] + s[1..];
    }
  }

  lemma {:induction false} InsertSorted(x: real, s: seq<real>)
    requires Sorted(s)
    ensures Sorted(Insert(x, s))
  {
    if s != [] && x > s[0] {
      InsertSorted(x, s[1..]);
      InsertKeeps(x, s[1..]);
      var r := Insert(x, s[1..]);
      forall k | 0 <= k < |r| ensures s[0] <= r[k] {
        assert r[k] in multiset(r);
        if r[k] != x { assert r[k] in s[1..]; }
      }
    }
  }

  lemma {:induction false} SortSorts(s: seq<real>)
    ensures Sorted(Sort(s)) && multiset(Sort(s)) == multiset(s)
  {
    if s != [] {
      SortSorts(s[1..]);
      InsertSorted(s[0], Sort(s[1..]));
      InsertKeeps(s[0], Sort(s[1..]));
      assert s == [s[0]] + s[1..];
    }
  }

  function MedianOf(s: seq<real>): real
    requires s != []
  {
    var r := Sort(s);
    var n := |s|;
    if n % 2 == 1 then r[n / 2] else (r[n / 2 - 1] + r[n / 2]) / 2.0
  }

  function MinOf(s: seq<real>): (m: real)
    requires s != []
    ensures m in s && forall i :: 0 <= i < |s| ==> m <= s[i]
  {
    if |s| == 1 then s[0] else
    var m := MinOf(s[1..]);
    if s[0] <= m then s[0] else m
  }

  function MaxOf(s: seq<real>): (m: real)
    requires s != []
    ensures m in s && forall i :: 0 <= i < |s| ==> s[i] <= m
  {
    if |s| == 1 then s[0] else
    var m := MaxOf(s[1..]);
    if s[0] >= m then s[0] else m
  }

  ghost predicate Below(s: seq<real>, t: seq<real>) {
    |s| == |t| && forall i :: 0 <= i < |s| ==> s[i] <= t[i]
  }

  lemma {:induction false} InsertFront(x: real, s: seq<real>)
    requires Sorted([x] + s)
    ensures Insert(x, s) == [x] + s
  {
    if s != [] { assert ([x] + s)[0] <= ([x] + s)[1]; }
  }

  lemma SortedTail(s: seq<real>)
    requires Sorted(s) && s != []
    ensures Sorted(s[1..])
  {
  }

  lemma BelowTail(s: seq<real>, t: seq<real>)
    requires Below(s, t) && s != []
    ensures Below(s[1..], t[1..])
  {
    forall i | 0 <= i < |s| - 1 ensures s[1..][i] <= t[1..][i] {
      assert s[i + 1] <= t[i + 1];
    }
  }

  lemma BelowCons(x: real, y: real, s: seq<real>, t: seq<real>)
    requires x <= y && Below(s, t)
    ensures Below([x] + s, [y] + t)
  {
  }

  /** Inserting a smaller value into a pointwise smaller sorted list gives a pointwise smaller list. */
  lemma {:induction false} InsertMonotone(x: real, s: seq<real>, y: real, t: seq<real>)
    requires Sorted(s) && Sorted(t) && Below(s, t) && x <= y
    ensures Below(Insert(x, s), Insert(y, t))
    decreases |s|
  {
    if s != [] {
      var s1, t1 := s[1..], t[1..];
      SortedTail(s);
      SortedTail(t);
      BelowTail(s, t);
      assert s == [s[0]] + s1 && t == [t[0]] + t1;
      if x <= s[0] && y <= t[0] {
        BelowCons(x, y, s, t);
      } else if x > s[0] && y > t[0] {
        InsertMonotone(x, s1, y, t1);
        BelowCons(s[0], t[0], Insert(x, s1), Insert(y, t1));
      } else if x <= s[0] {
        InsertFront(s[0], s1);
        InsertMonotone(s[0], s1, y, t1);
        BelowCons(x, t[0], s, Insert(y, t1));
      } else {
        InsertFront(t[0], t1);
        InsertMonotone(x, s1, t[0], t1);
        BelowCons(s[0], y, Insert(x, s1), t);
      }
    }
  }

  lemma {:induction false} SortMonotone(s: seq<real>, t: seq<real>)
    requires Below(s, t)
    ensures Below(Sort(s), Sort(t))
  {
    if s != [] {
      BelowTail(s, t);
      SortMonotone(s[1..], t[1..]);
      SortSorts(s[1..]);
      SortSorts(t[1..]);
      InsertMonotone(s[0], Sort(s[1..]), t[0], Sort(t[1..]));
    }
  }

  lemma LeastFirst(r: seq<real>, x: real)
    requires Sorted(r) && x in multiset(r)
    ensures r != [] && r[0] <= x
  {
    assert x in r;
  }

  lemma HeadIn(r: seq<real>)
    requires r != []
    ensures r[0] in multiset(r)
  {
    assert r[0] in r;
  }

  lemma SortedTails(r: seq<real>, q: seq<real>)
    requires Sorted(r) && Sorted(q) && multiset(r) == multiset(q) && r != [] && q != []
    ensures r[0] == q[0] && multiset(r[1..]) == multiset(q[1..])
  {
    HeadIn(r);
    HeadIn(q);
    LeastFirst(r, q[0]);
    LeastFirst(q, r[0]);
    hide Sorted;
    TailMultiset(r);
    TailMultiset(q);
  }

  lemma TailMultiset(r: seq<real>)
    requires r != []
    ensures multiset(r[1..]) == multiset(r) - multiset{r[0]}
  {
    assert r == [r[0]] + r[1..];
  }

  /** There is one sorted arrangement of any values. */
  lemma {:induction false} SortedOnce(r: seq<real>, q: seq<real>)
    requires Sorted(r) && Sorted(q) && multiset(r) == multiset(q)
    ensures r == q
  {
    if r == [] || q == [] {
      assert |multiset(r)| == |r| && |multiset(q)| == |q|;
    } else {
      SortedTails(r, q);
      SortedTail(r);
      SortedTail(q);
      SortedOnce(r[1..], q[1..]);
      assert r == [r[0]] + r[1..] && q == [q[0]] + q[1..];
    }
  }

  /** The median is the middle value of the data in order or, for an even number of values, the
      mean of the middle two. */
  lemma MedianIsMiddle(s: seq<real>, r: seq<real>)
    requires s != [] && Sorted(r) && multiset(r) == multiset(s)
    ensures |r| == |s|
    ensures |s| % 2 == 1 ==> MedianOf(s) == r[|s| / 2]
    ensures |s| % 2 == 0 ==> 2.0 * MedianOf(s) == r[|s| / 2 - 1] + r[|s| / 2]
  {
    SortSorts(s);
    SortedOnce(r, Sort(s));
  }

  /** The median is monotone under pointwise order. */
  lemma MedianMonotone(s: seq<real>, t: seq<real>)
    requires s != [] && Below(s, t)
    ensures MedianOf(s) <= MedianOf(t)
  {
    SortMonotone(s, t);
  }

  /** The median lies between the extremes. */
  lemma MedianBetween(s: seq<real>)
    requires s != []
    ensures MinOf(s) <= MedianOf(s) <= MaxOf(s)
  {
    SortSorts(s);
    var r := Sort(s);
    forall k | 0 <= k < |r| ensures MinOf(s) <= r[k] <= MaxOf(s) {
      assert r[k] in multiset(r);
      assert r[k] in s;
    }
  }
}

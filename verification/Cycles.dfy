/** When every semaphore has one holder the wait-for relation of a closed pair is a
    permutation, and its cycles are the circular waits. */
module Cycles {
  import opened Lists
  import opened KernelState
  import opened DeadlockGraph

  ghost predicate UniqueHolders(g: Graph, sems: set<Name>) {
    forall n, p, q :: n in sems && Has(g, p, n) && Has(g, q, n) ==> p == q
  }

  // ------------------------------------------------------------ permutations

  /** A map onto its own keys; they are finite, so it is one-to-one (see Injective). */
  ghost predicate Permutation(m: map<Pid, Pid>) { m.Values == m.Keys }

  lemma Injective(m: map<Pid, Pid>, x: Pid, y: Pid)
    requires Permutation(m) && x in m && y in m
    ensures m[x] in m && (m[x] == m[y] ==> x == y)
  {
    assert m[x] in m.Values;
    EqualSizesInject(m);
  }

  ghost function Iter(m: map<Pid, Pid>, p: Pid, k: nat): (r: Pid)
    requires Permutation(m) && p in m
    ensures r in m
  {
    if k == 0 then p
    else
      var q := Iter(m, p, k - 1);
      assert m[q] in m.Values;
      m[q]
  }

  lemma {:induction false} IterAdd(m: map<Pid, Pid>, p: Pid, j: nat, k: nat)
    requires Permutation(m) && p in m
    ensures Iter(m, Iter(m, p, j), k) == Iter(m, p, j + k)
    decreases k
  {
    hide Permutation;
    if k > 0 { IterAdd(m, p, j, k - 1); }
  }

  lemma {:induction false} IterInjective(m: map<Pid, Pid>, p: Pid, q: Pid, k: nat)
    requires Permutation(m) && p in m && q in m && Iter(m, p, k) == Iter(m, q, k)
    ensures p == q
    decreases k
  {
    hide Permutation;
    if k > 0 {
      Injective(m, Iter(m, p, k - 1), Iter(m, q, k - 1));
      IterInjective(m, p, q, k - 1);
    }
  }

  /** Iterating a permutation of a finite set comes back. */
  lemma IterReturns(m: map<Pid, Pid>, p: Pid) returns (k: nat)
    requires Permutation(m) && p in m
    ensures k > 0 && Iter(m, p, k) == p
  {
    hide Permutation;
    var w := seq(|m.Keys| + 1, i requires 0 <= i => Iter(m, p, i));
    var i, j := Pigeonhole(w, m.Keys);
    k := j - i;
    IterAdd(m, p, k, i);
    IterInjective(m, Iter(m, p, k), p, i);
  }

  ghost predicate Reaches(m: map<Pid, Pid>, p: Pid, q: Pid)
    requires Permutation(m) && p in m
  {
    exists k: nat :: Iter(m, p, k) == q
  }

  lemma {:induction false} ReachesBack(m: map<Pid, Pid>, p: Pid, k: nat)
    requires Permutation(m) && p in m
    ensures Reaches(m, Iter(m, p, k), p)
    decreases k
  {
    hide Permutation;
    if k == 0 {
      assert Iter(m, p, 0) == p;
    } else {
      Injective(m, p, p);
      IterAdd(m, p, 1, k - 1);
      assert Iter(m, p, 1) == m[Iter(m, p, 0)] == m[p];
      ReachesBack(m, m[p], k - 1);
      var q := Iter(m, p, k);
      var j: nat :| Iter(m, q, j) == m[p];
      if j > 0 {
        Injective(m, Iter(m, q, j - 1), p);
        assert Iter(m, q, j - 1) == p;
      } else {
        var r := IterReturns(m, p);
        IterAdd(m, p, 1, r - 1);
        assert Iter(m, q, r - 1) == p;
      }
    }
  }

  // ---------------------------------------------------------- the wait-for map

  ghost predicate HasSuccessor(g: Graph, a: set<Pid>, p: Pid) { exists q :: q in a && Edge(g, p, q) }

  ghost function Successor(g: Graph, a: set<Pid>, p: Pid): (q: Pid)
    requires HasSuccessor(g, a, p)
    ensures q in a && Edge(g, p, q)
  {
    var q :| q in a && Edge(g, p, q);
    q
  }

  /** Maps the processes of a to a holder, in a, of the semaphore each waits on. */
  ghost function NextMap(g: Graph, a: set<Pid>): (m: map<Pid, Pid>) {
    map p | p in a && HasSuccessor(g, a, p) :: Successor(g, a, p)
  }

  lemma NextInside(g: Graph, a: set<Pid>, b: set<Name>)
    requires Closed(g, a, b)
    ensures NextMap(g, a).Keys == a
  {
    hide Closed, HasSuccessor;
    forall p | p in a ensures HasSuccessor(g, a, p) {
      SuccessorExists(g, a, b, p);
    }
  }

  lemma NextStep(g: Graph, a: set<Pid>, b: set<Name>, p: Pid)
    requires Closed(g, a, b) && p in a
    ensures p in NextMap(g, a) && NextMap(g, a)[p] in a && Edge(g, p, NextMap(g, a)[p])
  {
    hide Closed;
    SuccessorExists(g, a, b, p);
  }

  lemma SuccessorExists(g: Graph, a: set<Pid>, b: set<Name>, p: Pid)
    requires Closed(g, a, b) && p in a
    ensures HasSuccessor(g, a, p)
  {
    hide PcbOk, SemOk;
    var q := ClosedSuccessor(g, a, b, p);
  }

  /** With one holder for each semaphore, the wait-for relation is that map. */
  lemma EdgeIsNext(g: Graph, a: set<Pid>, b: set<Name>, p: Pid, q: Pid)
    requires Closed(g, a, b) && UniqueHolders(g, b) && p in a && Edge(g, p, q)
    ensures p in NextMap(g, a) && NextMap(g, a)[p] == q
  {
    hide PcbOk, SemOk, NextMap;
    NextStep(g, a, b, p);
    var n := PcbOkParts(g, b, p);
  }

  lemma NextOnto(g: Graph, a: set<Pid>, b: set<Name>, q: Pid) returns (p: Pid)
    requires Closed(g, a, b) && UniqueHolders(g, b) && q in a
    ensures p in a && p in NextMap(g, a) && NextMap(g, a)[p] == q
  {
    hide PcbOk, SemOk, NextMap, UniqueHolders;
    var n := PcbOkParts(g, b, q);
    var r;
    p, r := SemOkParts(g, a, n);
    EdgeIsNext(g, a, b, p, q);
  }

  /** The holder map is onto, so it is a permutation of the processes of the pair. */
  lemma NextPermutes(g: Graph, a: set<Pid>, b: set<Name>)
    requires Closed(g, a, b) && UniqueHolders(g, b)
    ensures NextMap(g, a).Keys == a && Permutation(NextMap(g, a))
  {
    hide Closed, NextMap, UniqueHolders, Edge;
    var m := NextMap(g, a);
    NextInside(g, a, b);
    forall v | v in m.Values ensures v in a {
      var p :| p in m && m[p] == v;
      NextStep(g, a, b, p);
    }
    forall q | q in a ensures q in m.Values {
      var p := NextOnto(g, a, b, q);
    }
  }

  /** Every process of the pair lies on a circular wait inside the pair. */
  lemma OnCircular(g: Graph, a: set<Pid>, b: set<Name>, p: Pid) returns (c: seq<Pid>)
    requires Closed(g, a, b) && UniqueHolders(g, b) && p in a
    ensures Circular(g, c) && p in c && Within(g, c, a, b)
  {
    hide PcbOk, SemOk, UniqueHolders, Permutation, NextMap;
    var m := NextMap(g, a);
    NextInside(g, a, b);
    NextPermutes(g, a, b);
    var k := IterReturns(m, p);
    c := seq(k, i requires 0 <= i => Iter(m, p, i));
    assert c[0] == p;
    forall i | 0 <= i < k - 1 ensures Edge(g, c[i], c[i + 1]) {
      NextStep(g, a, b, c[i]);
      assert c[i + 1] == m[c[i]];
    }
    NextStep(g, a, b, c[k - 1]);
    assert m[c[k - 1]] == Iter(m, p, k) == p;
    forall x | x in c ensures x in a && x in g.waits && g.waits[x] in b {
      var n := PcbOkParts(g, b, x);
    }
  }

  // ------------------------------------------------- circular waits are orbits

  lemma {:induction false} CircularIsOnward(g: Graph, a: set<Pid>, b: set<Name>, c: seq<Pid>, p: Pid, k: nat)
    requires Closed(g, a, b) && UniqueHolders(g, b) && NextMap(g, a).Keys == a && Permutation(NextMap(g, a))
    requires Circular(g, c) && Within(g, c, a, b) && p in c
    ensures Iter(NextMap(g, a), p, k) in c
    decreases k
  {
    hide PcbOk, SemOk, Circular, NextMap, Permutation, UniqueHolders;
    if k > 0 {
      CircularIsOnward(g, a, b, c, p, k - 1);
      var x := Iter(NextMap(g, a), p, k - 1);
      var q, r := Neighbours(g, c, x);
      EdgeIsNext(g, a, b, x, q);
    }
  }

  lemma {:induction false} CircularFromStart(g: Graph, a: set<Pid>, b: set<Name>, c: seq<Pid>, i: nat)
    requires Closed(g, a, b) && UniqueHolders(g, b) && NextMap(g, a).Keys == a && Permutation(NextMap(g, a))
    requires Circular(g, c) && Within(g, c, a, b) && i < |c|
    ensures c[0] in c && Iter(NextMap(g, a), c[0], i) == c[i]
    decreases i
  {
    hide PcbOk, SemOk, NextMap, Permutation, UniqueHolders;
    if i > 0 {
      CircularFromStart(g, a, b, c, i - 1);
      assert c[i - 1] in c;
      EdgeIsNext(g, a, b, c[i - 1], c[i - 1 + 1]);
    }
  }

  /** Two circular waits that share a process have the same processes. */
  lemma SameCycle(g: Graph, a: set<Pid>, b: set<Name>, c: seq<Pid>, d: seq<Pid>, p: Pid)
    requires Closed(g, a, b) && UniqueHolders(g, b)
    requires Circular(g, c) && Within(g, c, a, b) && Circular(g, d) && Within(g, d, a, b)
    requires p in c && p in d
    ensures Elems(c) == Elems(d)
  {
    hide Closed, UniqueHolders, Circular, Within;
    CycleInside(g, a, b, c, d, p);
    CycleInside(g, a, b, d, c, p);
  }

  lemma CycleInside(g: Graph, a: set<Pid>, b: set<Name>, c: seq<Pid>, d: seq<Pid>, p: Pid)
    requires Closed(g, a, b) && UniqueHolders(g, b)
    requires Circular(g, c) && Within(g, c, a, b) && Circular(g, d) && Within(g, d, a, b)
    requires p in c && p in d
    ensures Elems(c) <= Elems(d)
  {
    hide PcbOk, SemOk, NextMap, Permutation, UniqueHolders, Circular;
    NextInside(g, a, b);
    NextPermutes(g, a, b);
    var m := NextMap(g, a);
    forall x | x in c ensures x in d {
      var i: nat :| i < |c| && c[i] == p;
      var j: nat :| j < |c| && c[j] == x;
      CircularFromStart(g, a, b, c, i);
      CircularFromStart(g, a, b, c, j);
      ReachesBack(m, c[0], i);
      var k: nat :| Iter(m, p, k) == c[0];
      IterAdd(m, p, k, j);
      CircularIsOnward(g, a, b, d, p, k + j);
    }
  }
}

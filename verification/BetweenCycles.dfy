/** What the reduction leaves when semaphores have several holders: exactly the processes that
    lie on a walk from a circular wait to a circular wait. */
module BetweenCycles {
  import opened Lists
  import opened KernelState
  import opened DeadlockGraph
  import opened Recovery
  import opened Detection

  /** p lies on a circular wait among the processes of a and the semaphores of b. */
  ghost predicate OnCycle(g: Graph, a: set<Pid>, b: set<Name>, p: Pid) {
    exists c: seq<Pid> :: Circular(g, c) && Within(g, c, a, b) && p in c
  }

  /** w leads from a circular wait to a circular wait. */
  ghost predicate Bridge(g: Graph, a: set<Pid>, b: set<Name>, w: seq<Pid>) {
    w != [] && IsWalk(g, w) && Within(g, w, a, b) && OnCycle(g, a, b, w[0]) && OnCycle(g, a, b, w[|w| - 1])
  }

  ghost predicate Between(g: Graph, a: set<Pid>, b: set<Name>, p: Pid) {
    exists w: seq<Pid> :: Bridge(g, a, b, w) && p in w
  }

  // ------------------------------------------------- a bridge is in the residual

  /** p waits for somebody in a and somebody in a waits for p. */
  ghost predicate Chained(g: Graph, a: set<Pid>, p: Pid) {
    (exists q :: q in a && Edge(g, p, q)) && (exists q :: q in a && Edge(g, q, p))
  }

  lemma ChainedParts(g: Graph, a: set<Pid>, p: Pid) returns (q: Pid, r: Pid)
    requires Chained(g, a, p)
    ensures q in a && Edge(g, p, q) && r in a && Edge(g, r, p)
  {
    q :| q in a && Edge(g, p, q);
    r :| r in a && Edge(g, r, p);
  }

  lemma ChainedIsClosed(g: Graph, a: set<Pid>)
    requires forall p :: p in a ==> Chained(g, a, p)
    ensures Closed(g, a, WaitedBy(g, a))
  {
    hide PcbOk, SemOk, Chained;
    var b := WaitedBy(g, a);
    forall p | p in a ensures PcbOk(g, b, p) {
      var q, r := ChainedParts(g, a, p);
      PcbOkFrom(g, b, p, g.waits[r]);
    }
    forall n | n in b ensures SemOk(g, a, n) {
      var p :| p in a && p in g.waits && g.waits[p] == n;
      var q, r := ChainedParts(g, a, p);
      SemOkFrom(g, a, n, p, q);
    }
  }

  /** Everyone between circular waits waits for somebody between circular waits. */
  lemma Onward(g: Graph, a: set<Pid>, b: set<Name>, p: Pid) returns (q: Pid)
    requires Between(g, a, b, p)
    ensures Between(g, a, b, q) && Edge(g, p, q)
  {
    hide Circular, Within, OnCycle;
    var w: seq<Pid> :| Bridge(g, a, b, w) && p in w;
    var i: nat :| i < |w| && w[i] == p;
    if i < |w| - 1 {
      q := w[i + 1];
    } else {
      q := NextOnCycle(g, a, b, p);
    }
  }

  lemma CycleIsBetween(g: Graph, a: set<Pid>, b: set<Name>, c: seq<Pid>, p: Pid)
    requires Circular(g, c) && Within(g, c, a, b) && p in c
    ensures Between(g, a, b, p)
  {
    assert OnCycle(g, a, b, p);
    assert Bridge(g, a, b, [p]);
  }

  lemma NextOnCycle(g: Graph, a: set<Pid>, b: set<Name>, p: Pid) returns (q: Pid)
    requires OnCycle(g, a, b, p)
    ensures Between(g, a, b, q) && Edge(g, p, q)
  {
    hide Circular, Between;
    var c: seq<Pid> :| Circular(g, c) && Within(g, c, a, b) && p in c;
    var r;
    q, r := Neighbours(g, c, p);
    CycleIsBetween(g, a, b, c, q);
  }

  lemma PreviousOnCycle(g: Graph, a: set<Pid>, b: set<Name>, p: Pid) returns (q: Pid)
    requires OnCycle(g, a, b, p)
    ensures Between(g, a, b, q) && Edge(g, q, p)
  {
    hide Circular, Between;
    var c: seq<Pid> :| Circular(g, c) && Within(g, c, a, b) && p in c;
    var r;
    r, q := Neighbours(g, c, p);
    CycleIsBetween(g, a, b, c, q);
  }

  lemma Backward(g: Graph, a: set<Pid>, b: set<Name>, p: Pid) returns (q: Pid)
    requires Between(g, a, b, p)
    ensures Between(g, a, b, q) && Edge(g, q, p)
  {
    hide Circular, Within, OnCycle;
    var w: seq<Pid> :| Bridge(g, a, b, w) && p in w;
    var i: nat :| i < |w| && w[i] == p;
    if i > 0 {
      q := w[i - 1];
      assert Edge(g, w[i - 1], w[i - 1 + 1]);
    } else {
      q := PreviousOnCycle(g, a, b, p);
    }
  }

  lemma BetweenInside(g: Graph, a: set<Pid>, b: set<Name>, p: Pid)
    requires Between(g, a, b, p)
    ensures p in a && p in g.waits && g.waits[p] in b
  {
    hide Circular, OnCycle;
  }

  /** Together they form a closed pair. */
  lemma BetweenIsClosed(g: Graph, a: set<Pid>, b: set<Name>) returns (x: set<Pid>, y: set<Name>)
    ensures x <= a && y <= b && Closed(g, x, y)
    ensures forall p :: p in x <==> Between(g, a, b, p)
  {
    hide Between, Edge, Closed, Chained;
    x := set p | p in a && Between(g, a, b, p);
    forall p | Between(g, a, b, p) ensures p in x && p in g.waits && g.waits[p] in b { BetweenInside(g, a, b, p); }
    forall p | p in x ensures Chained(g, x, p) {
      var q := Onward(g, a, b, p);
      var r := Backward(g, a, b, p);
      ChainedFrom(g, x, p, q, r);
    }
    ChainedIsClosed(g, x);
    y := WaitedBy(g, x);
  }

  lemma ChainedFrom(g: Graph, a: set<Pid>, p: Pid, q: Pid, r: Pid)
    requires q in a && Edge(g, p, q) && r in a && Edge(g, r, p)
    ensures Chained(g, a, p)
  {
  }

  // ---------------------------------------------- the residual is made of bridges

  /** In a closed pair every process is waited for by a process of the pair. */
  lemma ClosedPredecessor(g: Graph, a: set<Pid>, b: set<Name>, p: Pid) returns (q: Pid)
    requires Closed(g, a, b) && p in a
    ensures q in a && Edge(g, q, p)
  {
    hide PcbOk, SemOk;
    var n := PcbOkParts(g, b, p);
    var x, y := SemOkParts(g, a, n);
    q := x;
  }

  lemma {:induction false} WalkBack(g: Graph, a: set<Pid>, b: set<Name>, p: Pid, k: nat) returns (w: seq<Pid>)
    requires Closed(g, a, b) && p in a
    ensures |w| == k + 1 && w[k] == p && (forall x :: x in w ==> x in a) && IsWalk(g, w)
    decreases k
  {
    hide Closed;
    w := [p];
    if k > 0 {
      var q := ClosedPredecessor(g, a, b, p);
      var rest := WalkBack(g, a, b, q, k - 1);
      w := rest + [p];
    }
  }

  lemma AllWithin(g: Graph, a: set<Pid>, b: set<Name>, w: seq<Pid>)
    requires Closed(g, a, b) && forall x :: x in w ==> x in a
    ensures Within(g, w, a, b)
  {
    hide PcbOk, SemOk;
    forall x | x in w ensures x in g.waits && g.waits[x] in b { var n := PcbOkParts(g, b, x); }
  }

  /** The stretch of a walk between two visits to the same process is a circular wait. */
  lemma LoopIsCircular(g: Graph, w: seq<Pid>, i: nat, j: nat)
    requires IsWalk(g, w) && i < j < |w| && w[i] == w[j]
    ensures Circular(g, w[i..j])
  {
    var c := w[i..j];
    forall k | 0 <= k < |c| - 1 ensures Edge(g, c[k], c[k + 1]) { assert Edge(g, w[i + k], w[i + k + 1]); }
    assert Edge(g, w[j - 1], w[j - 1 + 1]);
  }

  /** From p, along the pair, to a circular wait. */
  lemma ToCycle(g: Graph, a: set<Pid>, b: set<Name>, p: Pid) returns (w: seq<Pid>)
    requires Closed(g, a, b) && p in a
    ensures w != [] && w[0] == p && IsWalk(g, w) && Within(g, w, a, b) && OnCycle(g, a, b, w[|w| - 1])
  {
    hide Closed, Edge;
    var v := Walk(g, a, b, p, |a|);
    var i, j := Pigeonhole(v, a);
    LoopIsCircular(g, v, i, j);
    AllWithin(g, a, b, v);
    w := v[..i + 1];
    assert v[i] in v[i..j];
    WithinPart(g, a, b, v, i, j);
    WithinPart(g, a, b, v, 0, i + 1);
    assert v[0..i + 1] == w;
  }

  /** From a circular wait, along the pair, to p. */
  lemma FromCycle(g: Graph, a: set<Pid>, b: set<Name>, p: Pid) returns (w: seq<Pid>)
    requires Closed(g, a, b) && p in a
    ensures w != [] && w[|w| - 1] == p && IsWalk(g, w) && Within(g, w, a, b) && OnCycle(g, a, b, w[0])
  {
    hide Closed, Edge;
    var v := WalkBack(g, a, b, p, |a|);
    var i, j := Pigeonhole(v, a);
    LoopIsCircular(g, v, i, j);
    AllWithin(g, a, b, v);
    w := v[i..];
    assert v[i] in v[i..j];
    WithinPart(g, a, b, v, i, j);
    WithinPart(g, a, b, v, i, |v|);
    assert v[i..|v|] == w;
    forall k | 0 <= k < |w| - 1 ensures Edge(g, w[k], w[k + 1]) { assert Edge(g, v[i + k], v[i + k + 1]); }
  }

  lemma WithinPart(g: Graph, a: set<Pid>, b: set<Name>, v: seq<Pid>, i: nat, j: nat)
    requires Within(g, v, a, b) && i <= j <= |v|
    ensures Within(g, v[i..j], a, b)
  {
  }

  lemma ClosedIsBetween(g: Graph, a: set<Pid>, b: set<Name>, p: Pid)
    requires Closed(g, a, b) && p in a
    ensures Between(g, a, b, p)
  {
    hide Closed, Edge, OnCycle;
    var v := FromCycle(g, a, b, p);
    var w := ToCycle(g, a, b, p);
    var u := v + w[1..];
    forall k | 0 <= k < |u| - 1 ensures Edge(g, u[k], u[k + 1]) {
      if k < |v| - 1 { assert Edge(g, v[k], v[k + 1]); } else { assert Edge(g, w[k + 1 - |v|], w[k + 1 - |v| + 1]); }
    }
    assert u[|v| - 1] == p;
    assert Bridge(g, a, b, u);
  }

  lemma BetweenMore(g: Graph, a: set<Pid>, b: set<Name>, a': set<Pid>, b': set<Name>, p: Pid)
    requires Between(g, a, b, p) && a <= a' && b <= b'
    ensures Between(g, a', b', p)
  {
    hide Circular;
    var w: seq<Pid> :| Bridge(g, a, b, w) && p in w;
    forall x | OnCycle(g, a, b, x) ensures OnCycle(g, a', b', x) {
      var c: seq<Pid> :| Circular(g, c) && Within(g, c, a, b) && x in c;
      assert Within(g, c, a', b');
    }
    assert Bridge(g, a', b', w);
  }

  /** The reduction leaves exactly the processes that lie between circular waits. */
  lemma ResidualIsBetween(g: Graph, pcbs: seq<Pid>, sems: seq<Name>, p: Pid)
    ensures p in ReduceLoop(g, pcbs, sems).0 <==> Between(g, Elems(pcbs), Elems(sems), p)
  {
    hide Closed, ReduceLoop, Between;
    var r := ReduceLoop(g, pcbs, sems);
    ReduceClosed(g, pcbs, sems);
    ReduceMembers(g, pcbs, sems);
    if p in r.0 {
      ClosedIsBetween(g, Elems(r.0), Elems(r.1), p);
      BetweenMore(g, Elems(r.0), Elems(r.1), Elems(pcbs), Elems(sems), p);
    }
    if Between(g, Elems(pcbs), Elems(sems), p) {
      var x, y := BetweenIsClosed(g, Elems(pcbs), Elems(sems));
      ReduceGreatest(g, pcbs, sems, x, y);
      assert p in x;
    }
  }

  ghost predicate BetweenWaits(s: State, p: Pid) {
    Between(GraphOf(s), Elems(DeadlockPcbs(s)), Elems(s.names), p)
  }

  ghost predicate HighestBetween(s: State, v: Pid) {
    BetweenWaits(s, v) && forall p: Pid :: BetweenWaits(s, p) ==> p <= v
  }

  /** Whom a detection round kills, without any assumption on the semaphores: the highest PID
      among the processes that lie between circular waits. */
  lemma VictimIsHighestBetween(s: State)
    requires DeadlockFound(Residual(s))
    ensures HighestBetween(s, Victim(s))
  {
    hide Between, ReduceLoop, DeadlockPcbs, GraphOf;
    MaxPidIsMax(Residual(s).0);
    forall p ensures p in Residual(s).0 <==> BetweenWaits(s, p) {
      ResidualIsBetween(GraphOf(s), DeadlockPcbs(s), s.names, p);
    }
  }

  // ------------------------------------------------- circles that cannot be left

  /** A circular wait that enters a set closed under waiting stays in it. */
  lemma {:induction false} StaysInside(g: Graph, c: seq<Pid>, x: set<Pid>, i: nat, k: nat)
    requires Circular(g, c) && i < |c| && c[i] in x && i + k < |c|
    requires forall p, q :: p in x && Edge(g, p, q) ==> q in x
    ensures c[i + k] in x
    decreases k
  {
    if k > 0 {
      StaysInside(g, c, x, i, k - 1);
      assert Edge(g, c[i + k - 1], c[i + k - 1 + 1]);
    }
  }

  lemma AllInside(g: Graph, c: seq<Pid>, x: set<Pid>, p: Pid)
    requires Circular(g, c) && p in c && p in x
    requires forall p, q :: p in x && Edge(g, p, q) ==> q in x
    ensures forall q :: q in c ==> q in x
  {
    var i: nat :| i < |c| && c[i] == p;
    StaysInside(g, c, x, i, |c| - 1 - i);
    assert i + (|c| - 1 - i) == |c| - 1;
    assert Edge(g, c[|c| - 1], c[0]);
    forall q | q in c ensures q in x {
      var j: nat :| j < |c| && c[j] == q;
      StaysInside(g, c, x, 0, j);
    }
  }
}

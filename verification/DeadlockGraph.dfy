/** The detector's reduction over a wait/retention graph, and what its result means. */
module DeadlockGraph {
  import opened Lists
  import opened KernelState

  /** waits: the semaphore a process waits on; holds: the semaphores it retains. */
  datatype Graph = Graph(waits: map<Pid, Name>, holds: map<Pid, set<Name>>)

  predicate Has(g: Graph, p: Pid, n: Name) { p in g.holds && n in g.holds[p] }

  predicate Asks(g: Graph, p: Pid, n: Name) { p in g.waits && g.waits[p] == n }

  /** p asks for a semaphore of sems and retains one of them. */
  ghost predicate PcbOk(g: Graph, sems: set<Name>, p: Pid) {
    (exists n :: n in sems && Asks(g, p, n)) && (exists n :: n in sems && Has(g, p, n))
  }

  /** n is asked for and retained by processes of pcbs. */
  ghost predicate SemOk(g: Graph, pcbs: set<Pid>, n: Name) {
    (exists p :: p in pcbs && Asks(g, p, n)) && (exists p :: p in pcbs && Has(g, p, n))
  }

  // The two predicates above feed each other's witnesses, so the proofs below
  // hide them and go through these introduction and elimination rules.

  lemma PcbOkParts(g: Graph, sems: set<Name>, p: Pid) returns (n: Name)
    requires PcbOk(g, sems, p)
    ensures p in g.waits && g.waits[p] in sems && n in sems && Has(g, p, n)
  {
    n :| n in sems && Has(g, p, n);
  }

  lemma PcbOkFrom(g: Graph, sems: set<Name>, p: Pid, n: Name)
    requires p in g.waits && g.waits[p] in sems && n in sems && Has(g, p, n)
    ensures PcbOk(g, sems, p)
  {
    assert Asks(g, p, g.waits[p]);
  }

  lemma SemOkParts(g: Graph, pcbs: set<Pid>, n: Name) returns (p: Pid, q: Pid)
    requires SemOk(g, pcbs, n)
    ensures p in pcbs && Asks(g, p, n) && q in pcbs && Has(g, q, n)
  {
    p :| p in pcbs && Asks(g, p, n);
    q :| q in pcbs && Has(g, q, n);
  }

  lemma SemOkFrom(g: Graph, pcbs: set<Pid>, n: Name, p: Pid, q: Pid)
    requires p in pcbs && Asks(g, p, n) && q in pcbs && Has(g, q, n)
    ensures SemOk(g, pcbs, n)
  {
  }

  lemma OkMonotone(g: Graph, a: set<Pid>, b: set<Name>, a': set<Pid>, b': set<Name>)
    requires a <= a' && b <= b'
    ensures forall p :: PcbOk(g, b, p) ==> PcbOk(g, b', p)
    ensures forall n :: SemOk(g, a, n) ==> SemOk(g, a', n)
  {
    forall p | PcbOk(g, b, p) ensures PcbOk(g, b', p) {
      var n := PcbOkParts(g, b, p);
      PcbOkFrom(g, b', p, n);
    }
    forall n | SemOk(g, a, n) ensures SemOk(g, a', n) {
      var p, q := SemOkParts(g, a, n);
      SemOkFrom(g, a', n, p, q);
    }
  }

  /** Every process asks for and retains something in the pair; every semaphore is asked for and retained in it. */
  ghost predicate Closed(g: Graph, pcbs: set<Pid>, sems: set<Name>) {
    && (forall p :: p in pcbs ==> PcbOk(g, sems, p))
    && (forall n :: n in sems ==> SemOk(g, pcbs, n))
  }

  // ----------------------------------------------------------- the reduction

  ghost function StrikeSems(g: Graph, pcbs: seq<Pid>, sems: seq<Name>): seq<Name> {
    Filter(sems, n => SemOk(g, Elems(pcbs), n))
  }

  ghost function StrikePcbs(g: Graph, pcbs: seq<Pid>, sems: seq<Name>): seq<Pid> {
    Filter(pcbs, p => PcbOk(g, Elems(sems), p))
  }

  /** One round strikes semaphores, then processes; rounds go on until one strikes nothing. */
  ghost function ReduceLoop(g: Graph, pcbs: seq<Pid>, sems: seq<Name>): (seq<Pid>, seq<Name>)
    decreases |pcbs| + |sems|
  {
    var sems' := StrikeSems(g, pcbs, sems);
    var pcbs' := StrikePcbs(g, pcbs, sems');
    if |sems'| < |sems| || |pcbs'| < |pcbs| then ReduceLoop(g, pcbs', sems') else (pcbs', sems')
  }

  ghost function Reduce(g: Graph, pcbs: seq<Pid>, sems: seq<Name>): (seq<Pid>, seq<Name>) {
    if pcbs != [] && sems != [] then ReduceLoop(g, pcbs, sems) else (pcbs, sems)
  }

  predicate DeadlockFound(r: (seq<Pid>, seq<Name>)) { r.0 != [] && r.1 != [] }

  // -------------------------------------------------------- greatest fixpoint

  /** r is s with some elements deleted and the order kept. */
  ghost predicate Sublist<T(!new)>(r: seq<T>, s: seq<T>) { r == Filter(s, x => x in r) }

  lemma SublistTrans<T(!new)>(s: seq<T>, keep: T -> bool, r: seq<T>)
    requires Sublist(r, Filter(s, keep))
    ensures Sublist(r, s)
  {
    FilterMembers(s, keep);
    FilterMembers(Filter(s, keep), x => x in r);
    FilterTwice(s, keep, x => x in r, x => x in r);
  }

  lemma FilterIsSublist<T(!new)>(s: seq<T>, keep: T -> bool)
    ensures Sublist(Filter(s, keep), s)
  {
    FilterMembers(s, keep);
    FilterSame(s, keep, x => x in Filter(s, keep));
  }

  lemma SublistMembers<T(!new)>(r: seq<T>, s: seq<T>)
    requires Sublist(r, s)
    ensures Elems(r) <= Elems(s)
    ensures NoDup(s) ==> NoDup(r)
  {
    FilterMembers(s, x => x in r);
    if NoDup(s) { FilterNoDup(s, x => x in r); }
  }

  /** The reduction keeps the order of both lists. */
  lemma {:induction false} ReduceSublists(g: Graph, pcbs: seq<Pid>, sems: seq<Name>)
    ensures Sublist(ReduceLoop(g, pcbs, sems).0, pcbs) && Sublist(ReduceLoop(g, pcbs, sems).1, sems)
    decreases |pcbs| + |sems|
  {
    hide Sublist, PcbOk, SemOk;
    var sems' := StrikeSems(g, pcbs, sems);
    var pcbs' := StrikePcbs(g, pcbs, sems');
    var r := ReduceLoop(g, pcbs, sems);
    if |sems'| < |sems| || |pcbs'| < |pcbs| {
      ReduceSublists(g, pcbs', sems');
      SublistTrans(sems, n => SemOk(g, Elems(pcbs), n), r.1);
      SublistTrans(pcbs, p => PcbOk(g, Elems(sems'), p), r.0);
    } else {
      FilterIsSublist(sems, n => SemOk(g, Elems(pcbs), n));
      FilterIsSublist(pcbs, p => PcbOk(g, Elems(sems'), p));
    }
  }

  /** Its result is closed. */
  lemma {:induction false} ReduceClosed(g: Graph, pcbs: seq<Pid>, sems: seq<Name>)
    ensures var r := ReduceLoop(g, pcbs, sems); Closed(g, Elems(r.0), Elems(r.1))
    decreases |pcbs| + |sems|
  {
    hide PcbOk, SemOk;
    var sems' := StrikeSems(g, pcbs, sems);
    var pcbs' := StrikePcbs(g, pcbs, sems');
    if |sems'| < |sems| || |pcbs'| < |pcbs| {
      ReduceClosed(g, pcbs', sems');
    } else {
      FilterFull(sems, n => SemOk(g, Elems(pcbs), n));
      FilterFull(pcbs, p => PcbOk(g, Elems(sems'), p));
    }
  }

  /** Every closed pair inside the lists is inside the result. */
  lemma {:induction false} ReduceGreatest(g: Graph, pcbs: seq<Pid>, sems: seq<Name>, a: set<Pid>, b: set<Name>)
    requires Closed(g, a, b) && a <= Elems(pcbs) && b <= Elems(sems)
    ensures var r := ReduceLoop(g, pcbs, sems); a <= Elems(r.0) && b <= Elems(r.1)
    decreases |pcbs| + |sems|
  {
    hide PcbOk, SemOk;
    var sems' := StrikeSems(g, pcbs, sems);
    var pcbs' := StrikePcbs(g, pcbs, sems');
    assert b <= Elems(sems') by {
      OkMonotone(g, a, b, Elems(pcbs), b);
      FilterMembers(sems, n => SemOk(g, Elems(pcbs), n));
    }
    assert a <= Elems(pcbs') by {
      OkMonotone(g, a, b, a, Elems(sems'));
      FilterMembers(pcbs, p => PcbOk(g, Elems(sems'), p));
    }
    if |sems'| < |sems| || |pcbs'| < |pcbs| {
      ReduceGreatest(g, pcbs', sems', a, b);
    }
  }

  lemma ReduceMembers(g: Graph, pcbs: seq<Pid>, sems: seq<Name>)
    ensures var r := ReduceLoop(g, pcbs, sems); Elems(r.0) <= Elems(pcbs) && Elems(r.1) <= Elems(sems)
  {
    hide Sublist, ReduceLoop;
    ReduceSublists(g, pcbs, sems);
    SublistMembers(ReduceLoop(g, pcbs, sems).0, pcbs);
    SublistMembers(ReduceLoop(g, pcbs, sems).1, sems);
  }

  // -------------------------------------------------- any order of elimination

  datatype Pair = Pair(pcbs: set<Pid>, sems: set<Name>)

  /** One semaphore or one process without support is struck. */
  ghost predicate StrikesOne(g: Graph, x: Pair, y: Pair) {
    || (exists n :: n in x.sems && !SemOk(g, x.pcbs, n) && y == Pair(x.pcbs, x.sems - {n}))
    || (exists p :: p in x.pcbs && !PcbOk(g, x.sems, p) && y == Pair(x.pcbs - {p}, x.sems))
  }

  ghost predicate StrikeChain(g: Graph, chain: seq<Pair>) {
    chain != [] && forall i :: 0 <= i < |chain| - 1 ==> StrikesOne(g, chain[i], chain[i + 1])
  }

  lemma StrikeKeepsClosed(g: Graph, x: Pair, y: Pair, a: set<Pid>, b: set<Name>)
    requires StrikesOne(g, x, y) && Closed(g, a, b) && a <= x.pcbs && b <= x.sems
    ensures a <= y.pcbs <= x.pcbs && b <= y.sems <= x.sems
  {
    hide PcbOk, SemOk;
    OkMonotone(g, a, b, x.pcbs, x.sems);
  }

  lemma {:induction false} ChainKeepsClosed(g: Graph, chain: seq<Pair>, a: set<Pid>, b: set<Name>)
    requires StrikeChain(g, chain) && Closed(g, a, b) && a <= chain[0].pcbs && b <= chain[0].sems
    ensures a <= chain[|chain| - 1].pcbs <= chain[0].pcbs && b <= chain[|chain| - 1].sems <= chain[0].sems
  {
    hide Closed, StrikesOne;
    if |chain| > 1 {
      StrikeKeepsClosed(g, chain[0], chain[1], a, b);
      ChainKeepsClosed(g, chain[1..], a, b);
    }
  }

  /** Striking one unsupported entry at a time, in whatever order, ends where the reduction ends. */
  lemma AnyOrderSameResult(g: Graph, pcbs: seq<Pid>, sems: seq<Name>, chain: seq<Pair>)
    requires StrikeChain(g, chain) && chain[0] == Pair(Elems(pcbs), Elems(sems))
    requires Closed(g, chain[|chain| - 1].pcbs, chain[|chain| - 1].sems)
    ensures chain[|chain| - 1] == Pair(Elems(ReduceLoop(g, pcbs, sems).0), Elems(ReduceLoop(g, pcbs, sems).1))
  {
    hide Closed, StrikesOne, ReduceLoop;
    var r := ReduceLoop(g, pcbs, sems);
    var last := chain[|chain| - 1];
    ReduceClosed(g, pcbs, sems);
    ReduceMembers(g, pcbs, sems);
    ChainKeepsClosed(g, chain, Elems(r.0), Elems(r.1));
    ChainKeepsClosed(g, chain, {}, {}) by { assert Closed(g, {}, {}) by { EmptyClosed(g); } }
    ReduceGreatest(g, pcbs, sems, last.pcbs, last.sems);
  }

  lemma EmptyClosed(g: Graph)
    ensures Closed(g, {}, {})
  {
  }

  // ------------------------------------------------------------ circular wait

  /** p waits for something that q retains. */
  predicate Edge(g: Graph, p: Pid, q: Pid) { p in g.waits && Has(g, q, g.waits[p]) }

  /** c[0] waits for c[1], which waits for c[2], ..., and the last waits for c[0]. */
  predicate Circular(g: Graph, c: seq<Pid>) {
    && c != []
    && (forall i :: 0 <= i < |c| - 1 ==> Edge(g, c[i], c[i + 1]))
    && Edge(g, c[|c| - 1], c[0])
  }

  /** The processes of c and the semaphores they wait on are in the two sets. */
  ghost predicate Within(g: Graph, c: seq<Pid>, pcbs: set<Pid>, sems: set<Name>) {
    forall p :: p in c ==> p in pcbs && p in g.waits && g.waits[p] in sems
  }

  /** What the processes of a wait on. */
  ghost function WaitedBy(g: Graph, a: set<Pid>): set<Name> { set p | p in a && p in g.waits :: g.waits[p] }

  /** Position i of a circular wait: whom it waits for, and who waits for it. */
  lemma Neighbours(g: Graph, c: seq<Pid>, p: Pid) returns (q: Pid, r: Pid)
    requires Circular(g, c) && p in c
    ensures q in c && Edge(g, p, q)
    ensures r in c && Edge(g, r, p)
  {
    var i: nat :| i < |c| && c[i] == p;
    if i == |c| - 1 { q := c[0]; } else { q := c[i + 1]; assert Edge(g, c[i], c[i + 1]); }
    if i == 0 { r := c[|c| - 1]; } else { r := c[i - 1]; assert Edge(g, c[i - 1], c[i - 1 + 1]); }
  }

  lemma CircularIsClosed(g: Graph, c: seq<Pid>)
    requires Circular(g, c)
    ensures Closed(g, Elems(c), WaitedBy(g, Elems(c)))
    ensures Within(g, c, Elems(c), WaitedBy(g, Elems(c)))
  {
    hide PcbOk, SemOk, Circular;
    var b := WaitedBy(g, Elems(c));
    forall p | p in c ensures PcbOk(g, b, p) && p in g.waits && g.waits[p] in b {
      var q, r := Neighbours(g, c, p);
      PcbOkFrom(g, b, p, g.waits[r]);
    }
    forall n | n in b ensures SemOk(g, Elems(c), n) {
      var p :| p in c && p in g.waits && g.waits[p] == n;
      var q, r := Neighbours(g, c, p);
      SemOkFrom(g, Elems(c), n, p, q);
    }
  }

  ghost predicate IsWalk(g: Graph, w: seq<Pid>) {
    forall i :: 0 <= i < |w| - 1 ==> Edge(g, w[i], w[i + 1])
  }

  /** In a closed pair every process waits for a process of the pair. */
  lemma ClosedSuccessor(g: Graph, a: set<Pid>, b: set<Name>, p: Pid) returns (q: Pid)
    requires Closed(g, a, b) && p in a
    ensures q in a && Edge(g, p, q)
  {
    hide PcbOk, SemOk;
    var n := PcbOkParts(g, b, p);
    var x, y := SemOkParts(g, a, g.waits[p]);
    q := y;
  }

  /** A walk along edges, k steps long, inside a closed pair. */
  lemma {:induction false} Walk(g: Graph, a: set<Pid>, b: set<Name>, p: Pid, k: nat) returns (w: seq<Pid>)
    requires Closed(g, a, b) && p in a
    ensures |w| == k + 1 && w[0] == p && (forall x :: x in w ==> x in a) && IsWalk(g, w)
    decreases k
  {
    hide Closed;
    w := [p];
    if k > 0 {
      var q := ClosedSuccessor(g, a, b, p);
      var rest := Walk(g, a, b, q, k - 1);
      w := [p] + rest;
    }
  }

  /** By the pigeonhole principle a closed pair contains a circular wait. */
  lemma ClosedHasCircular(g: Graph, a: set<Pid>, b: set<Name>, p: Pid) returns (c: seq<Pid>)
    requires Closed(g, a, b) && p in a
    ensures Circular(g, c) && Within(g, c, a, b)
  {
    hide PcbOk, SemOk;
    var w := Walk(g, a, b, p, |a|);
    var i, j := Pigeonhole(w, a);
    c := w[i..j];
    assert Edge(g, w[j - 1], w[j - 1 + 1]);
    forall x | x in c ensures x in a && x in g.waits && g.waits[x] in b {
      assert x in w;
      var n := PcbOkParts(g, b, x);
    }
  }

  /** Every circular wait in the lists lies inside what the reduction leaves. */
  lemma CircularInResult(g: Graph, pcbs: seq<Pid>, sems: seq<Name>, c: seq<Pid>)
    requires Circular(g, c) && Within(g, c, Elems(pcbs), Elems(sems))
    ensures DeadlockFound(Reduce(g, pcbs, sems))
    ensures Within(g, c, Elems(Reduce(g, pcbs, sems).0), Elems(Reduce(g, pcbs, sems).1))
  {
    hide Closed, ReduceLoop;
    assert c[0] in c;
    CircularIsClosed(g, c);
    ReduceGreatest(g, pcbs, sems, Elems(c), WaitedBy(g, Elems(c)));
    assert c[0] in Elems(Reduce(g, pcbs, sems).0);
  }

  /** The detector reports a deadlock exactly when there is a circular wait in its lists. */
  lemma DetectorDecides(g: Graph, pcbs: seq<Pid>, sems: seq<Name>)
    ensures DeadlockFound(Reduce(g, pcbs, sems)) <==>
            exists c :: Circular(g, c) && Within(g, c, Elems(pcbs), Elems(sems))
  {
    hide Closed, ReduceLoop, Circular;
    var r := Reduce(g, pcbs, sems);
    if DeadlockFound(r) {
      ReduceClosed(g, pcbs, sems);
      ReduceMembers(g, pcbs, sems);
      var c := ClosedHasCircular(g, Elems(r.0), Elems(r.1), r.0[0]);
      assert Within(g, c, Elems(pcbs), Elems(sems));
    }
    forall c | Circular(g, c) && Within(g, c, Elems(pcbs), Elems(sems)) ensures DeadlockFound(r) {
      CircularInResult(g, pcbs, sems, c);
    }
  }
}

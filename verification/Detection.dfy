/** A detection call: recover until the reduction finds nothing. */
module Detection {
  import opened Lists
  import opened KernelState
  import opened Steps
  import opened DeadlockGraph
  import opened Recovery

  /** The processes of c wait for one another in a ring of system semaphores. */
  ghost predicate CircularWait(s: State, c: seq<Pid>) { Circular(GraphOf(s), c) }

  /** p waits on a semaphore that q retains. */
  predicate Behind(s: State, p: Pid, q: Pid) {
    p in s.pcbs && s.pcbs[p].waitsOn.Some? && q in s.pcbs && s.pcbs[p].waitsOn.value in s.pcbs[q].held
  }

  /** In a ring everybody is behind the next, and the last behind the first. */
  lemma CircularMeans(s: State, c: seq<Pid>)
    ensures CircularWait(s, c) <==>
            c != [] && forall i :: 0 <= i < |c| ==> Behind(s, c[i], c[if i == |c| - 1 then 0 else i + 1])
  {
    var g := GraphOf(s);
    assert forall p, q :: Edge(g, p, q) <==> Behind(s, p, q);
    hide GraphOf, Edge, Behind;
    if c != [] && forall i :: 0 <= i < |c| ==> Behind(s, c[i], c[if i == |c| - 1 then 0 else i + 1]) {
      assert Behind(s, c[|c| - 1], c[0]);
      forall i | 0 <= i < |c| - 1 ensures Edge(g, c[i], c[i + 1]) {
        assert Behind(s, c[i], c[if i == |c| - 1 then 0 else i + 1]);
      }
    }
  }

  /** The two filtered queues hold exactly the processes that wait on a semaphore. */
  lemma SleepersListed(s: State)
    requires Inv(s, {})
    ensures forall p :: p in DeadlockPcbs(s) <==> Waiting(s, p)
  {
    hide IoQueued, Positive, Counted, Listed, TokensMatch, SlotsMatch, PidsBelow, NoDup;
    FilterMembers(s.Q(Blocked), p => Waiting(s, p));
    FilterMembers(s.Q(SusBlocked), p => Waiting(s, p));
    forall p ensures p in DeadlockPcbs(s) <==> Waiting(s, p) {
      if Waiting(s, p) { assert p in s.Q(s.pcbs[p].status); }
    }
  }

  /** Every circular wait is inside the detector's lists. */
  lemma CircularListed(s: State, c: seq<Pid>)
    requires Inv(s, {}) && CircularWait(s, c)
    ensures Within(GraphOf(s), c, Elems(DeadlockPcbs(s)), Elems(s.names))
  {
    SleepersListed(s);
    hide Placed, IoQueued, Positive, Counted, TokensMatch, SlotsMatch, PidsBelow, NoDup, Circular, DeadlockPcbs;
    var g := GraphOf(s);
    forall p | p in c ensures p in Elems(DeadlockPcbs(s)) && p in g.waits && g.waits[p] in Elems(s.names) {
      var q, r := Neighbours(g, c, p);
      assert Waiting(s, p);
    }
  }

  /** The detector finds a deadlock exactly when some circular wait exists. */
  lemma FoundIffCircular(s: State)
    requires Inv(s, {})
    ensures DeadlockFound(Residual(s)) <==> exists c :: CircularWait(s, c)
  {
    hide Inv, Circular, Reduce, DeadlockPcbs;
    DetectorDecides(GraphOf(s), DeadlockPcbs(s), s.names);
    if DeadlockFound(Residual(s)) {
      var c :| Circular(GraphOf(s), c) && Within(GraphOf(s), c, Elems(DeadlockPcbs(s)), Elems(s.names));
      assert CircularWait(s, c);
    }
    forall c | CircularWait(s, c) ensures DeadlockFound(Residual(s)) {
      CircularListed(s, c);
    }
  }

  // ------------------------------------------------------------- the recovery

  ghost function Victim(s: State): Pid
    requires DeadlockFound(Residual(s))
  {
    MaxPid(Residual(s).0)
  }

  /** The victim waits on a system semaphore and retains another, or the same, one. */
  lemma VictimWaits(s: State) returns (j: nat)
    requires Inv(s, {}) && DeadlockFound(Residual(s))
    ensures Waiting(s, Victim(s)) && j < |s.names| && Retains(s, Victim(s), s.names[j])
  {
    hide Inv, Reduce, ReduceLoop, DeadlockPcbs, PcbOk, SemOk;
    var g := GraphOf(s);
    var r := Residual(s);
    MaxPidIsMax(r.0);
    ResidualClosed(s);
    var n := PcbOkParts(g, Elems(r.1), Victim(s));
    assert n in s.names;
    j :| 0 <= j < |s.names| && s.names[j] == n;
  }

  lemma ResidualClosed(s: State)
    requires DeadlockFound(Residual(s))
    ensures Closed(GraphOf(s), Elems(Residual(s).0), Elems(Residual(s).1))
    ensures Elems(Residual(s).0) <= Elems(DeadlockPcbs(s)) && Elems(Residual(s).1) <= Elems(s.names)
  {
    hide Closed, ReduceLoop, DeadlockPcbs;
    ReduceClosed(GraphOf(s), DeadlockPcbs(s), s.names);
    ReduceMembers(GraphOf(s), DeadlockPcbs(s), s.names);
  }

  lemma ListedSems(s: State, gone: set<Pid>)
    requires Inv(s, gone)
    ensures forall n :: n in s.names <==> n in s.sems
  {
    hide Placed, Linked, IoQueued, Positive, Counted, TokensMatch, SlotsMatch, PidsBelow;
  }

  lemma VictimLives(s: State)
    requires Good(s) && DeadlockFound(Residual(s))
    ensures Victim(s) in s.pcbs && forall n :: n in s.names ==> n in s.sems
  {
    hide Inv, Residual;
    var j := VictimWaits(s);
    ListedSems(s, {});
  }

  /** One recovery: the victim is destroyed after its instances are released. */
  ghost function Recover(s: State): State
    requires Good(s) && DeadlockFound(Residual(s))
  {
    VictimLives(s);
    Destroy(RecoverFrom(s, Victim(s), 0, false), Victim(s))
  }

  /** From s to t the process v was killed and its instances given back. */
  ghost predicate Killed(s: State, t: State, v: Pid) {
    && v in s.pcbs && t.pcbs.Keys == s.pcbs.Keys - {v} && t.names == s.names && SameInitials(s, t)
    && (forall p :: p in t.pcbs ==> t.pcbs[p] == s.pcbs[p] || WokenBy(s, t, v, p))
    && |t.Q(Blocked)| + |t.Q(SusBlocked)| < |s.Q(Blocked)| + |s.Q(SusBlocked)|
  }

  lemma DetachShrinks(s: State, v: Pid)
    requires Inv(s, {}) && Waiting(s, v)
    ensures var t := Detach(s, v);
      |t.Q(Blocked)| + |t.Q(SusBlocked)| < |s.Q(Blocked)| + |s.Q(SusBlocked)|
  {
    SleeperFacts(s, v);
    DetachShape(s, v);
    hide Inv, Detach;
  }

  lemma DetachInitials(s: State, v: Pid)
    ensures SameInitials(s, Detach(s, v))
  {
  }

  /** Recovery is clean: the victim was waiting, it is removed from every queue before it
      releases, it is never woken, it ends with no system semaphore, and what is left is a
      good state with fewer sleepers. */
  lemma RecoverInv(s: State)
    requires Good(s) && DeadlockFound(Residual(s))
    ensures Waiting(s, Victim(s)) && forall n :: n in s.names ==> n in s.sems
    ensures Good(Recover(s)) && Killed(s, Recover(s), Victim(s))
    ensures var t := RecoverFrom(s, Victim(s), 0, false);
      && Inv(t, {Victim(s)}) && Waiting(t, Victim(s))
      && forall n :: n in s.sems ==> !Retains(t, Victim(s), n)
  {
    hide Inv, Residual, Detach, Post, RecoverFrom, SuspensionCase;
    var v := Victim(s);
    var j := VictimWaits(s);
    ListedSems(s, {});
    DetachedFirst(s, v, 0, j);
    var d := Detach(s, v);
    DetachInv(s, v);
    DetachShrinks(s, v);
    DetachInitials(s, v);
    ReleasesAll(d, v, 0);
    var t := RecoverFrom(d, v, 0, true);
    assert Waiting(t, v);
    DestroyInv(t, v);
    assert Recover(s) == Destroy(t, v);
    KilledFrom(s, d, t, v);
    forall n | n in s.sems ensures !Retains(t, v, n) {
      assert n in s.names;
    }
  }

  lemma KilledFrom(s: State, d: State, t: State, v: Pid)
    requires Freed(d, t, v) && d.pcbs == s.pcbs && d.names == s.names && SameInitials(s, d)
    requires |d.Q(Blocked)| + |d.Q(SusBlocked)| < |s.Q(Blocked)| + |s.Q(SusBlocked)|
    ensures Killed(s, Destroy(t, v), v)
  {
    var u := Destroy(t, v);
    forall p | p in u.pcbs ensures u.pcbs[p] == s.pcbs[p] || WokenBy(s, u, v, p) {
      assert t.pcbs[p] == d.pcbs[p] || WokenBy(d, t, v, p);
    }
    assert u.Q(Blocked) == t.Q(Blocked) && u.Q(SusBlocked) == t.Q(SusBlocked);
  }

  // ----------------------------------------------------------- the whole call

  /** detectar_y_recuperarse_del_deadlock. */
  ghost function Detect(s: State): State
    requires Good(s)
    decreases |s.Q(Blocked)| + |s.Q(SusBlocked)|
  {
    if DeadlockFound(Residual(s)) then
      RecoverInv(s);
      Detect(Recover(s))
    else s
  }

  ghost function Victims(s: State): set<Pid>
    requires Good(s)
    decreases |s.Q(Blocked)| + |s.Q(SusBlocked)|
  {
    if DeadlockFound(Residual(s)) then
      RecoverInv(s);
      {Victim(s)} + Victims(Recover(s))
    else {}
  }
}

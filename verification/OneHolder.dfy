/** When every system semaphore has at most one retained instance, a detection call kills
    exactly the highest PID of each cycle: one victim for each cycle, the fewest possible. */
module OneHolder {
  import opened Lists
  import opened KernelState
  import opened Steps
  import opened StepInvariants
  import opened DeadlockGraph
  import opened Cycles
  import opened Recovery
  import opened Detection
  import opened DetectionTheorems
  import opened RecoveryQueues
  import opened RingSurvival

  /** At most one instance of each system semaphore is retained. */
  ghost predicate Single(s: State) {
    forall n, p, q :: n in s.sems && Retains(s, p, n) && Retains(s, q, n) ==> p == q && s.pcbs[p].held[n] == 1
  }

  // ------------------------------------------------------ recovery keeps Single

  lemma SingleAfterRelease(s: State, t: State, v: Pid, n: Name)
    requires Single(s) && n in s.sems && Retains(s, v, n) && t.sems.Keys == s.sems.Keys
    requires t.pcbs == s.pcbs[v := Release(s.pcbs[v], n)]
    ensures Single(t) && forall q :: !Retains(t, q, n)
  {
    assert s.pcbs[v].held[n] == 1;
    assert forall p, k :: Retains(t, p, k) ==> Retains(s, p, k) && t.pcbs[p].held[k] == s.pcbs[p].held[k];
  }

  lemma SingleAfterGrant(s: State, t: State, h: Pid, n: Name)
    requires Single(s) && n in s.sems && h in s.pcbs && t.sems.Keys == s.sems.Keys
    requires forall q :: !Retains(s, q, n)
    requires h in t.pcbs && t.pcbs == s.pcbs[h := t.pcbs[h]] && t.pcbs[h].held == s.pcbs[h].held[n := 1]
    ensures Single(t)
  {
    assert forall p, k :: k != n ==> (Retains(t, p, k) <==> Retains(s, p, k));
    assert forall p, k :: k != n && Retains(t, p, k) ==> t.pcbs[p].held[k] == s.pcbs[p].held[k];
    assert forall p :: p != h ==> (Retains(t, p, n) <==> Retains(s, p, n));
  }

  /** The holder gives its only instance back, and the woken process, if any, takes it. */
  lemma PostSingle(s: State, v: Pid, n: Name, gone: set<Pid>)
    requires Inv(s, gone) && Single(s) && n in s.sems && Retains(s, v, n)
    ensures Single(Post(s, v, n))
  {
    hide Single, Release;
    var g := GiveBack(s, v, n);
    SingleAfterRelease(s, g, v, n);
    if s.sems[n].queue != [] {
      PostShape(s, v, n, gone);
      var h := s.sems[n].queue[0];
      assert !Retains(g, h, n);
      hide Post, GiveBack, Inv;
      SingleAfterGrant(g, Post(s, v, n), h, n);
    } else {
      hide Inv;
      SameHoldings(g, Post(s, v, n));
    }
  }

  lemma SameHoldings(s: State, t: State)
    requires Single(s) && t.pcbs == s.pcbs && t.sems.Keys == s.sems.Keys
    ensures Single(t)
  {
    assert forall p, n :: Retains(t, p, n) <==> Retains(s, p, n);
  }

  lemma {:induction false} PostTimesSingle(s: State, v: Pid, n: Name, k: nat)
    requires Inv(s, {v}) && Single(s) && v in s.pcbs && n in s.sems && k == Count(s, v, n)
    ensures Single(PostTimes(s, v, n, k))
    decreases k
  {
    hide Inv, Post, Release, Single, Freed, SuspensionCase;
    CountPositive(s, v, n, {v});
    if k > 0 {
      HolderPost(s, v, n);
      hide Count;
      PostSingle(s, v, n, {v});
      PostTimesSingle(Post(s, v, n), v, n, k - 1);
    }
  }

  lemma {:induction false} ReleasesSingle(s: State, v: Pid, i: nat)
    requires Inv(s, {v}) && Single(s) && v in s.pcbs && i <= |s.names| && forall n :: n in s.names ==> n in s.sems
    ensures Single(RecoverFrom(s, v, i, true))
    decreases |s.names| - i
  {
    hide Inv, PostTimes, Single;
    if i < |s.names| {
      var n := s.names[i];
      if Retains(s, v, n) {
        PostTimesFreed(s, v, n, Count(s, v, n));
        PostTimesSingle(s, v, n, Count(s, v, n));
        ReleasesSingle(PostTimes(s, v, n, Count(s, v, n)), v, i + 1);
      } else {
        ReleasesSingle(s, v, i + 1);
      }
    }
  }

  lemma DestroySingle(s: State, v: Pid)
    requires Single(s)
    ensures Single(Destroy(s, v))
  {
    assert forall p, n :: Retains(Destroy(s, v), p, n) ==> Retains(s, p, n);
  }

  lemma DetachSingle(s: State, v: Pid)
    requires Single(s)
    ensures Single(Detach(s, v))
  {
    hide Detach;
    assert forall p, n :: Retains(Detach(s, v), p, n) ==> Retains(s, p, n);
  }

  lemma RecoverSingle(s: State)
    requires Good(s) && Single(s) && DeadlockFound(Residual(s))
    ensures Single(Recover(s))
  {
    hide Inv, Residual, Detach, RecoverFrom, SuspensionCase, Single;
    var v := Victim(s);
    VictimLives(s);
    var j := VictimWaits(s);
    DetachedFirst(s, v, 0, j);
    DetachInv(s, v);
    DetachSingle(s, v);
    ReleasesSingle(Detach(s, v), v, 0);
    DestroySingle(RecoverFrom(s, v, 0, false), v);
  }

  // ----------------------------------------------------------- cycles survive

  lemma SingleUnique(s: State)
    requires Single(s)
    ensures UniqueHolders(GraphOf(s), s.sems.Keys)
  {
    var g := GraphOf(s);
    forall n, p, q | n in s.sems && Has(g, p, n) && Has(g, q, n) ensures p == q {
      assert Retains(s, p, n) && Retains(s, q, n);
    }
  }

  /** Nobody on the circular wait waits for an instance of the victim: its holder is on it too. */
  lemma SingleSpares(s: State, v: Pid, c: seq<Pid>)
    requires Inv(s, {}) && Single(s) && CircularWait(s, c) && v !in c
    ensures Spared(s, v, c)
  {
    hide Inv, Circular, Without, Count;
    RingWaits(s, c);
    forall p | p in c ensures p !in GivenTo(s, v, s.pcbs[p].waitsOn.value) {
      var q, r := Neighbours(GraphOf(s), c, p);
      var n := s.pcbs[p].waitsOn.value;
      WaitsListed(s, p);
      assert Retains(s, q, n);
      CountNone(s, v, n);
    }
  }

  /** A recovery leaves every circular wait its victim is not on: see RingSurvives for any number
      of holders. */
  lemma OtherCyclesSurvive(s: State, c: seq<Pid>)
    requires Good(s) && Single(s) && DeadlockFound(Residual(s)) && CircularWait(s, c) && Victim(s) !in c
    ensures CircularWait(Recover(s), c)
  {
    hide Inv, SuspensionCase, Residual, Recover, Single, CircularWait, Spared;
    SingleSpares(s, Victim(s), c);
    RingSurvives(s, c);
  }

  /** The victim is the highest PID of a circular wait. */
  lemma VictimTopsCycle(s: State) returns (c: seq<Pid>)
    requires Good(s) && Single(s) && DeadlockFound(Residual(s))
    ensures CircularWait(s, c) && Top(c, Victim(s))
  {
    hide Inv, Residual, Closed, Circular, UniqueHolders, Single;
    var g := GraphOf(s);
    var r := Residual(s);
    ResidualClosed(s);
    SingleUnique(s);
    ListedSems(s, {});
    assert UniqueHolders(g, Elems(r.1)) by {
      FewerSems(g, s.sems.Keys, Elems(r.1));
    }
    MaxPidIsMax(r.0);
    c := OnCircular(g, Elems(r.0), Elems(r.1), Victim(s));
  }

  lemma FewerSems(g: Graph, b: set<Name>, b': set<Name>)
    requires UniqueHolders(g, b) && b' <= b
    ensures UniqueHolders(g, b')
  {
  }

  /** p is the highest PID of c. */
  ghost predicate Top(c: seq<Pid>, p: Pid) { p in c && forall q :: q in c ==> q <= p }

  ghost predicate TopsSomeCycle(s: State, p: Pid) { exists c: seq<Pid> :: CircularWait(s, c) && Top(c, p) }

  /** A circular wait with the victim on it has no higher PID. */
  lemma VictimIsHighest(s: State, c: seq<Pid>)
    requires Good(s) && DeadlockFound(Residual(s)) && CircularWait(s, c)
    ensures forall p :: p in c ==> p <= Victim(s)
  {
    hide Inv, Circular, Reduce, DeadlockPcbs;
    CircularListed(s, c);
    CircularInResult(GraphOf(s), DeadlockPcbs(s), s.names, c);
    MaxPidIsMax(Residual(s).0);
  }

  /** A process is killed if and only if it is the highest PID of some circular wait. */
  lemma {:induction false} KillsTopOfEachCycle(s: State, p: Pid)
    requires Good(s) && Single(s)
    ensures p in Victims(s) <==> TopsSomeCycle(s, p)
    decreases |s.Q(Blocked)| + |s.Q(SusBlocked)|
  {
    hide Inv, SuspensionCase, Residual, CircularWait, Recover, Single;
    if DeadlockFound(Residual(s)) {
      var v, t := Victim(s), Recover(s);
      RecoverInv(s);
      RecoverSingle(s);
      KillsTopOfEachCycle(t, p);
      var c0 := VictimTopsCycle(s);
      if TopsSomeCycle(t, p) {
        var c: seq<Pid> :| CircularWait(t, c) && Top(c, p);
        RecoveryCreatesNone(s, c);
      }
      if TopsSomeCycle(s, p) {
        var c: seq<Pid> :| CircularWait(s, c) && Top(c, p);
        VictimIsHighest(s, c);
        if v !in c {
          OtherCyclesSurvive(s, c);
        }
      }
    } else {
      FoundIffCircular(s);
    }
  }

  // --------------------------------------------------------- one for each cycle

  /** Two circular waits of s that meet have the same processes. */
  lemma CyclesDisjoint(s: State, c: seq<Pid>, d: seq<Pid>, p: Pid)
    requires Good(s) && Single(s) && CircularWait(s, c) && CircularWait(s, d) && p in c && p in d
    ensures Elems(c) == Elems(d)
  {
    hide Inv, Closed, Circular, UniqueHolders, Single, Reduce, DeadlockPcbs, SuspensionCase;
    var g := GraphOf(s);
    var r := Residual(s);
    CircularListed(s, c);
    CircularListed(s, d);
    CircularInResult(g, DeadlockPcbs(s), s.names, c);
    CircularInResult(g, DeadlockPcbs(s), s.names, d);
    ResidualClosed(s);
    SingleUnique(s);
    ListedSems(s, {});
    FewerSems(g, s.sems.Keys, Elems(r.1));
    SameCycle(g, Elems(r.0), Elems(r.1), c, d, p);
  }

  /** Each circular wait loses exactly one process: its highest PID. */
  lemma OneVictimPerCycle(s: State, c: seq<Pid>)
    requires Good(s) && Single(s) && CircularWait(s, c)
    ensures exists v: Pid :: Top(c, v) && Elems(c) * Victims(s) == {v}
  {
    hide Good, Single, CircularWait, Victims;
    assert c != [] by { CircularNonEmpty(s, c); }
    MaxPidIsMax(c);
    var v := MaxPid(c);
    assert TopsSomeCycle(s, v);
    KillsTopOfEachCycle(s, v);
    forall p | p in c && p in Victims(s) ensures p == v {
      KillsTopOfEachCycle(s, p);
      var d: seq<Pid> :| CircularWait(s, d) && Top(d, p);
      CyclesDisjoint(s, c, d, p);
      assert v in Elems(d) && p in Elems(c);
    }
    assert Elems(c) * Victims(s) == {v};
  }

  lemma CircularNonEmpty(s: State, c: seq<Pid>)
    requires CircularWait(s, c)
    ensures c != []
  {
  }

  ghost predicate HitsAll(s: State, h: set<Pid>) {
    forall c :: CircularWait(s, c) ==> exists p :: p in c && p in h
  }

  /** A process of h on the cycle that v tops. */
  ghost predicate HitOf(s: State, h: set<Pid>, v: Pid, x: Pid) {
    x in h && exists c: seq<Pid> :: CircularWait(s, c) && Top(c, v) && x in c
  }

  ghost function Hit(s: State, h: set<Pid>, v: Pid): (x: Pid)
    requires exists x :: HitOf(s, h, v, x)
    ensures HitOf(s, h, v, x)
  {
    var x :| HitOf(s, h, v, x);
    x
  }

  lemma VictimHit(s: State, h: set<Pid>, v: Pid)
    requires Good(s) && Single(s) && HitsAll(s, h) && v in Victims(s)
    ensures exists x :: HitOf(s, h, v, x)
  {
    hide Good, Single, CircularWait, Victims, Top;
    KillsTopOfEachCycle(s, v);
    var c: seq<Pid> :| CircularWait(s, c) && Top(c, v);
    var x :| x in c && x in h;
    assert HitOf(s, h, v, x);
  }

  lemma HitsDiffer(s: State, h: set<Pid>, v: Pid, w: Pid, x: Pid)
    requires Good(s) && Single(s) && HitOf(s, h, v, x) && HitOf(s, h, w, x)
    ensures v == w
  {
    hide Good, Single, CircularWait;
    var c: seq<Pid> :| CircularWait(s, c) && Top(c, v) && x in c;
    var d: seq<Pid> :| CircularWait(s, d) && Top(d, w) && x in d;
    CyclesDisjoint(s, c, d, x);
    assert v in Elems(d) && w in Elems(c);
  }

  /** No set of processes that meets every circular wait is smaller than the set killed. */
  lemma FewestVictims(s: State, h: set<Pid>)
    requires Good(s) && Single(s) && HitsAll(s, h)
    ensures |Victims(s)| <= |h|
  {
    hide Good, Single, HitsAll, Victims, HitOf;
    forall v | v in Victims(s) ensures exists x :: HitOf(s, h, v, x) { VictimHit(s, h, v); }
    var m := map v | v in Victims(s) :: Hit(s, h, v);
    forall v, w | v in m && w in m && m[v] == m[w] ensures v == w {
      HitsDiffer(s, h, v, w, m[v]);
    }
    InjectiveSize(m);
    forall x | x in m.Values ensures x in h {
      var v :| v in m && m[v] == x;
      HitInside(s, h, v, x);
    }
    SubsetSize(m.Values, h);
    assert m.Keys == Victims(s);
  }

  lemma HitInside(s: State, h: set<Pid>, v: Pid, x: Pid)
    requires HitOf(s, h, v, x)
    ensures x in h
  {
  }
}

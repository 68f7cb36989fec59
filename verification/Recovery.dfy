/** Recovery kills one process of the residual; detection goes on until nothing is left to kill. */
module Recovery {
  import opened Wrappers
  import opened Lists
  import opened KernelState
  import opened Steps
  import opened StepInvariants
  import opened DeadlockGraph

  ghost function GraphOf(s: State): Graph {
    Graph(map p | p in s.pcbs && s.pcbs[p].waitsOn.Some? :: s.pcbs[p].waitsOn.value,
          map p | p in s.pcbs :: s.pcbs[p].held.Keys)
  }

  /** The sleeping processes that wait on some semaphore, blocked ones first. */
  ghost function DeadlockPcbs(s: State): seq<Pid> {
    Filter(s.Q(Blocked), p => Waiting(s, p)) + Filter(s.Q(SusBlocked), p => Waiting(s, p))
  }

  ghost function Residual(s: State): (seq<Pid>, seq<Name>) { Reduce(GraphOf(s), DeadlockPcbs(s), s.names) }

  function MaxPid(ps: seq<Pid>): Pid
    requires ps != []
  {
    if |ps| == 1 then ps[0]
    else
      var m := MaxPid(ps[..|ps| - 1]);
      if m > ps[|ps| - 1] then m else ps[|ps| - 1]
  }

  lemma {:induction false} MaxPidIsMax(ps: seq<Pid>)
    requires ps != []
    ensures MaxPid(ps) in ps && forall p :: p in ps ==> p <= MaxPid(ps)
  {
    if |ps| > 1 {
      MaxPidIsMax(ps[..|ps| - 1]);
      assert ps == ps[..|ps| - 1] + [ps[|ps| - 1]];
    }
  }

  // ------------------------------------------------------------- the recovery

  /** The victim leaves its scheduling queue and the queue of the semaphore it waits on. */
  function Detach(s: State, v: Pid): (r: State)
    ensures r.pcbs == s.pcbs && r.sems.Keys == s.sems.Keys && r.names == s.names
  {
    var t := if v in s.Q(Blocked) then
        s.(qs := s.qs[Blocked := Remove(s.Q(Blocked), v)], slots := s.slots + 1)
      else
        s.(qs := s.qs[SusBlocked := Remove(s.Q(SusBlocked), v)]);
    if v in s.pcbs && s.pcbs[v].waitsOn.Some? && s.pcbs[v].waitsOn.value in s.sems then
      var n := s.pcbs[v].waitsOn.value;
      t.(sems := s.sems[n := s.sems[n].(value := s.sems[n].value + 1, queue := Remove(s.sems[n].queue, v))])
    else t
  }

  /** The victim posts n k times. */
  function PostTimes(s: State, v: Pid, n: Name, k: nat): (r: State)
    requires v in s.pcbs && n in s.sems
    ensures r.pcbs.Keys == s.pcbs.Keys && r.sems.Keys == s.sems.Keys && r.names == s.names
    decreases k
  {
    if k == 0 then s else PostTimes(Post(s, v, n), v, n, k - 1)
  }

  function Count(s: State, v: Pid, n: Name): nat {
    if Retains(s, v, n) && s.pcbs[v].held[n] > 0 then s.pcbs[v].held[n] else 0
  }

  /** Goes down the system's semaphores from position i: the first one the victim retains
      takes it off its queues; each one it retains is posted as often as it is retained. */
  function RecoverFrom(s: State, v: Pid, i: nat, removed: bool): (r: State)
    requires v in s.pcbs && i <= |s.names| && forall n :: n in s.names ==> n in s.sems
    ensures r.pcbs.Keys == s.pcbs.Keys
    decreases |s.names| - i
  {
    if i == |s.names| then s
    else
      var n := s.names[i];
      if Retains(s, v, n) then
        var t := if removed then s else Detach(s, v);
        RecoverFrom(PostTimes(t, v, n, Count(t, v, n)), v, i + 1, true)
      else RecoverFrom(s, v, i + 1, removed)
  }

  // ------------------------------------------------- detaching comes first anyway

  /** When the victim retains a listed semaphore the removal block always runs, and it
      may as well have run before the loop. */
  lemma {:induction false} DetachedFirst(s: State, v: Pid, i: nat, j: nat)
    requires v in s.pcbs && i <= j < |s.names| && Retains(s, v, s.names[j])
    requires forall n :: n in s.names ==> n in s.sems
    ensures RecoverFrom(s, v, i, false) == RecoverFrom(Detach(s, v), v, i, true)
    decreases |s.names| - i
  {
    hide Detach;
    assert Retains(s, v, s.names[i]) == Retains(Detach(s, v), v, s.names[i]);
    if !Retains(s, v, s.names[i]) {
      DetachedFirst(s, v, i + 1, j);
    }
  }

  // --------------------------------------------------------- detaching, invariant

  /** Where a waiting process is to be found. */
  lemma SleeperFacts(s: State, v: Pid)
    requires Inv(s, {}) && Waiting(s, v)
    ensures var n := s.pcbs[v].waitsOn.value; var st := s.pcbs[v].status;
      && n in s.sems && v in s.sems[n].queue && Asleep(st) && v in s.Q(st)
      && (v in s.Q(Blocked) <==> st == Blocked)
  {
    hide IoQueued, Positive, Counted, Listed, TokensMatch, SlotsMatch, PidsBelow, NoDup;
    assert WaitsFor(s, v, s.pcbs[v].waitsOn.value);
  }

  /** Detach, field by field. */
  lemma DetachShape(s: State, v: Pid)
    requires Waiting(s, v) && s.pcbs[v].waitsOn.value in s.sems && Asleep(s.pcbs[v].status)
    requires v in s.Q(Blocked) <==> s.pcbs[v].status == Blocked
    ensures var t := Detach(s, v); var n := s.pcbs[v].waitsOn.value; var st := s.pcbs[v].status;
      && t.sems == s.sems[n := s.sems[n].(value := s.sems[n].value + 1, queue := Remove(s.sems[n].queue, v))]
      && t.Q(st) == Remove(s.Q(st), v) && (forall x :: x != st ==> t.Q(x) == s.Q(x))
      && t.slots == (if st == Blocked then s.slots + 1 else s.slots)
      && t.pcbs == s.pcbs && t.names == s.names && t.io == s.io && t.tokens == s.tokens
      && t.nextPid == s.nextPid && t.degree == s.degree
  {
  }

  lemma GonePlaced(s: State, t: State, v: Pid, st: Status)
    requires Placed(s, {}) && t.pcbs == s.pcbs && v in s.pcbs && s.pcbs[v].status == st
    requires t.Q(st) == Remove(s.Q(st), v) && forall x :: x != st ==> t.Q(x) == s.Q(x)
    ensures Placed(t, {v})
  {
    RemoveNoDup(s.Q(st), v);
    RemoveKeeps(s.Q(st), v);
    hide NoDup, Remove;
    forall x ensures NoDup(t.Q(x)) { assert NoDup(s.Q(x)); }
    forall x, p ensures p in t.Q(x) <==> p in t.pcbs && p !in {v} && t.pcbs[p].status == x {
      assert p in s.Q(x) <==> p in s.pcbs && s.pcbs[p].status == x;
    }
  }

  lemma DetachPlaced(s: State, v: Pid)
    requires Inv(s, {}) && Waiting(s, v)
    ensures Placed(Detach(s, v), {v})
  {
    SleeperFacts(s, v);
    DetachShape(s, v);
    hide Detach, IoQueued, Linked, Positive, Counted, Listed, TokensMatch, SlotsMatch, PidsBelow, Placed;
    GonePlaced(s, Detach(s, v), v, s.pcbs[v].status);
  }

  lemma DetachLinked(s: State, v: Pid)
    requires Inv(s, {}) && Waiting(s, v)
    ensures Linked(Detach(s, v), {v})
  {
    hide Detach, IoQueued, Placed, Positive, Counted, Listed, TokensMatch, SlotsMatch, PidsBelow, Linked;
    SleeperFacts(s, v);
    DetachShape(s, v);
    var n := s.pcbs[v].waitsOn.value;
    GoneLinked(s, Detach(s, v), v, n, s.sems[n].(value := s.sems[n].value + 1, queue := Remove(s.sems[n].queue, v)));
  }

  /** v leaves the queue of the semaphore it waits on. */
  lemma GoneLinked(s: State, t: State, v: Pid, n: Name, m: Sem)
    requires Linked(s, {}) && t.pcbs == s.pcbs && WaitsFor(s, v, n) && n in s.sems
    requires m.queue == Remove(s.sems[n].queue, v) && t.sems == s.sems[n := m]
    ensures Linked(t, {v})
  {
    hide NoDup, Remove;
    RemoveNoDup(s.sems[n].queue, v);
    RemoveKeeps(s.sems[n].queue, v);
    assert forall p, k :: WaitsFor(t, p, k) <==> WaitsFor(s, p, k);
    assert forall p :: Waiting(t, p) <==> Waiting(s, p);
    forall k, p | k in t.sems ensures p in t.sems[k].queue <==> WaitsFor(t, p, k) && p !in {v} {
      assert p in s.sems[k].queue <==> WaitsFor(s, p, k);
    }
  }

  lemma DetachRest(s: State, v: Pid)
    requires Inv(s, {}) && Waiting(s, v)
    ensures var t := Detach(s, v); IoQueued(t, {v}) && Positive(t) && PidsBelow(t)
  {
    SleeperFacts(s, v);
    DetachShape(s, v);
    hide Detach, Placed, Linked, Counted, Listed, TokensMatch, SlotsMatch, IoQueued;
    IoFrame(s, Detach(s, v), v, {}, {v});
    hide Positive, PidsBelow;
    SameHeld(s, Detach(s, v));
  }

  lemma DetachCounts(s: State, v: Pid)
    requires Inv(s, {}) && Waiting(s, v)
    ensures var t := Detach(s, v); Listed(t) && Counted(t) && TokensMatch(t) && SlotsMatch(t)
    ensures SuspensionCase(Detach(s, v)) ==> SuspensionCase(s)
  {
    hide Detach, Placed, Linked, IoQueued, Positive, PidsBelow, Remove;
    SleeperFacts(s, v);
    DetachShape(s, v);
    assert SemLaw(s.sems[s.pcbs[v].waitsOn.value]);
  }

  lemma DetachInv(s: State, v: Pid)
    requires Inv(s, {}) && Waiting(s, v)
    ensures Inv(Detach(s, v), {v})
    ensures SuspensionCase(Detach(s, v)) ==> SuspensionCase(s)
  {
    hide Placed, Linked, IoQueued, Listed, Positive, Counted, TokensMatch, SlotsMatch, PidsBelow, Detach;
    DetachPlaced(s, v);
    DetachLinked(s, v);
    DetachRest(s, v);
    DetachCounts(s, v);
  }

  // ----------------------------------------------------- what releasing can change

  /** p was woken between s and t by a post on the semaphore it waited on, which v
      retained; it now retains one instance more of it. */
  ghost predicate WokenBy(s: State, t: State, v: Pid, p: Pid) {
    && Waiting(s, p) && Retains(s, v, s.pcbs[p].waitsOn.value)
    && p in t.pcbs
    && t.pcbs[p] == Retain(Pcb(WokenStatus(s.pcbs[p].status), None, s.pcbs[p].held), s.pcbs[p].waitsOn.value)
  }

  ghost predicate SameInitials(s: State, t: State) {
    t.sems.Keys == s.sems.Keys && forall n :: n in s.sems ==> t.sems[n].initial == s.sems[n].initial
  }

  /** From s to t the detached process v only gave instances back. */
  ghost predicate Freed(s: State, t: State, v: Pid) {
    && t.pcbs.Keys == s.pcbs.Keys && t.names == s.names && SameInitials(s, t)
    && (forall p :: p in s.pcbs && p != v ==> t.pcbs[p] == s.pcbs[p] || WokenBy(s, t, v, p))
    && v in s.pcbs && t.pcbs[v].waitsOn == s.pcbs[v].waitsOn
    && (forall n :: Retains(t, v, n) ==> Retains(s, v, n) && t.pcbs[v].held[n] <= s.pcbs[v].held[n])
    && |t.Q(Blocked)| + |t.Q(SusBlocked)| <= |s.Q(Blocked)| + |s.Q(SusBlocked)|
  }

  lemma FreedTrans(s: State, t: State, u: State, v: Pid)
    requires Freed(s, t, v) && Freed(t, u, v)
    ensures Freed(s, u, v)
  {
    forall p | p in s.pcbs && p != v ensures u.pcbs[p] == s.pcbs[p] || WokenBy(s, u, v, p) {
      assert t.pcbs[p] == s.pcbs[p] || WokenBy(s, t, v, p);
      assert u.pcbs[p] == t.pcbs[p] || WokenBy(t, u, v, p);
    }
  }

  lemma PostAsleep(s: State, v: Pid, n: Name, gone: set<Pid>)
    requires Inv(s, gone) && v in s.pcbs && n in s.sems
    ensures var t := Post(s, v, n);
      |t.Q(Blocked)| + |t.Q(SusBlocked)| <= |s.Q(Blocked)| + |s.Q(SusBlocked)|
  {
    hide IoQueued, Linked, Listed, Positive, Counted, TokensMatch, SlotsMatch, PidsBelow, Placed;
    if s.sems[n].queue != [] {
      PostShape(s, v, n, gone);
      hide Post, GiveBack, Shift;
      var h := s.sems[n].queue[0];
      var st := s.pcbs[h].status;
      ShiftLengths(s, h, st, WokenStatus(st), gone);
      assert forall x :: Post(s, v, n).Q(x) == Shift(s, h, st, WokenStatus(st)).Q(x);
    } else {
      assert forall x :: Post(s, v, n).Q(x) == s.Q(x);
    }
  }

  lemma PostPcbs(s: State, v: Pid, n: Name, gone: set<Pid>)
    requires Inv(s, gone) && v in gone && v in s.pcbs && n in s.sems && Retains(s, v, n)
    ensures Post(s, v, n).pcbs[v] == Release(s.pcbs[v], n)
    ensures forall p :: p in s.pcbs && p != v ==>
      Post(s, v, n).pcbs[p] == s.pcbs[p] || WokenBy(s, Post(s, v, n), v, p)
  {
    hide IoQueued, Listed, Positive, Counted, TokensMatch, SlotsMatch, PidsBelow, Placed;
    if s.sems[n].queue != [] {
      PostShape(s, v, n, gone);
      var h := s.sems[n].queue[0];
      assert h in s.sems[n].queue;
      assert WaitsFor(s, h, n);
      hide Linked, Post;
    }
  }

  lemma PostInitials(s: State, v: Pid, n: Name)
    requires v in s.pcbs && n in s.sems
    ensures SameInitials(s, Post(s, v, n))
  {
  }

  lemma ReleaseCount(b: Pcb, n: Name)
    requires n in b.held && b.held[n] > 0
    ensures Release(b, n).held - {n} == b.held - {n}
    ensures if b.held[n] == 1 then n !in Release(b, n).held
            else n in Release(b, n).held && Release(b, n).held[n] == b.held[n] - 1
    ensures Release(b, n).waitsOn == b.waitsOn
    ensures forall k :: k in Release(b, n).held ==> k in b.held && Release(b, n).held[k] <= b.held[k]
  {
  }

  /** One post by a detached process that retains n. */
  lemma PostFreed(s: State, v: Pid, n: Name)
    requires Inv(s, {v}) && v in s.pcbs && n in s.sems && Retains(s, v, n) && s.pcbs[v].held[n] > 0
    ensures Freed(s, Post(s, v, n), v)
    ensures Post(s, v, n).pcbs[v] == Release(s.pcbs[v], n)
  {
    PostInitials(s, v, n);
    hide Inv, Post, Release, SameInitials;
    PostPcbs(s, v, n, {v});
    PostAsleep(s, v, n, {v});
    ReleaseCount(s.pcbs[v], n);
  }

  lemma CountPositive(s: State, v: Pid, n: Name, gone: set<Pid>)
    requires Inv(s, gone)
    ensures Retains(s, v, n) <==> Count(s, v, n) > 0
  {
    hide Placed, Linked, IoQueued, Listed, Counted, TokensMatch, SlotsMatch, PidsBelow;
  }

  /** The same, with what the loop over posts needs. */
  lemma HolderPost(s: State, v: Pid, n: Name)
    requires Inv(s, {v}) && n in s.sems && Retains(s, v, n) && Count(s, v, n) > 0
    ensures var t := Post(s, v, n);
      && Inv(t, {v}) && Freed(s, t, v) && v in t.pcbs
      && Count(t, v, n) == Count(s, v, n) - 1
      && t.pcbs[v].held - {n} == s.pcbs[v].held - {n}
      && (SuspensionCase(t) ==> SuspensionCase(s))
  {
    hide Inv, SuspensionCase, Post, Release, Freed;
    PostFreed(s, v, n);
    PostInv(s, v, n, {v});
    ReleaseCount(s.pcbs[v], n);
  }

  /** Posting as often as v retains n empties its entry for n and leaves its others. */
  lemma {:induction false} PostTimesFreed(s: State, v: Pid, n: Name, k: nat)
    requires Inv(s, {v}) && v in s.pcbs && n in s.sems && k == Count(s, v, n)
    ensures var t := PostTimes(s, v, n, k);
      && Inv(t, {v}) && Freed(s, t, v) && !Retains(t, v, n)
      && t.pcbs[v].held == s.pcbs[v].held - {n}
    ensures SuspensionCase(PostTimes(s, v, n, k)) ==> SuspensionCase(s)
    decreases k
  {
    hide Inv, SuspensionCase, Post, Release, Freed;
    CountPositive(s, v, n, {v});
    if k > 0 {
      HolderPost(s, v, n);
      hide Count;
      PostTimesFreed(Post(s, v, n), v, n, k - 1);
      FreedTrans(s, Post(s, v, n), PostTimes(s, v, n, k), v);
    } else {
      FreedSelf(s, v);
    }
  }

  lemma FreedSelf(s: State, v: Pid)
    requires v in s.pcbs
    ensures Freed(s, s, v)
  {
  }

  /** Going down the list releases every listed instance the victim retains. */
  lemma {:induction false} ReleasesAll(s: State, v: Pid, i: nat)
    requires Inv(s, {v}) && v in s.pcbs && i <= |s.names| && forall n :: n in s.names ==> n in s.sems
    ensures var t := RecoverFrom(s, v, i, true);
      && Inv(t, {v}) && Freed(s, t, v)
      && forall j :: i <= j < |s.names| ==> !Retains(t, v, s.names[j])
    ensures SuspensionCase(RecoverFrom(s, v, i, true)) ==> SuspensionCase(s)
    decreases |s.names| - i
  {
    hide Inv, SuspensionCase, PostTimes;
    if i == |s.names| {
      FreedSelf(s, v);
    } else {
      var n := s.names[i];
      if Retains(s, v, n) {
        var t := PostTimes(s, v, n, Count(s, v, n));
        PostTimesFreed(s, v, n, Count(s, v, n));
        ReleasesAll(t, v, i + 1);
        FreedTrans(s, t, RecoverFrom(t, v, i + 1, true), v);
        StaysReleased(t, RecoverFrom(t, v, i + 1, true), v, n);
      } else {
        ReleasesAll(s, v, i + 1);
        StaysReleased(s, RecoverFrom(s, v, i + 1, true), v, n);
      }
    }
  }

  lemma StaysReleased(s: State, t: State, v: Pid, n: Name)
    requires Freed(s, t, v) && !Retains(s, v, n)
    ensures !Retains(t, v, n)
  {
  }

  function Destroy(s: State, v: Pid): State { s.(pcbs := s.pcbs - {v}) }

  lemma DestroyInv(s: State, v: Pid)
    requires Inv(s, {v}) && Waiting(s, v)
    ensures Inv(Destroy(s, v), {})
    ensures SuspensionCase(Destroy(s, v)) == SuspensionCase(s)
  {
    hide Listed, Counted, Placed, Linked, IoQueued, Positive, PidsBelow;
    var t := Destroy(s, v);
    assert forall st :: t.Q(st) == s.Q(st);
    DestroyPlaced(s, v);
    DestroyLinked(s, v);
    IoFrame(s, t, v, {v}, {});
    HeldFrame(s, t, v);
    assert Listed(t) && Counted(t) by { DestroySems(s, v); }
  }

  lemma DestroySems(s: State, v: Pid)
    requires Listed(s) && Counted(s)
    ensures Listed(Destroy(s, v)) && Counted(Destroy(s, v))
  {
  }

  lemma DestroyPlaced(s: State, v: Pid)
    requires Placed(s, {v})
    ensures Placed(Destroy(s, v), {})
  {
    hide NoDup;
    var t := Destroy(s, v);
    assert forall st :: t.Q(st) == s.Q(st);
    forall st, p ensures p in t.Q(st) <==> p in t.pcbs && t.pcbs[p].status == st {
      assert p in s.Q(st) <==> p in s.pcbs && p !in {v} && s.pcbs[p].status == st;
    }
  }

  lemma DestroyLinked(s: State, v: Pid)
    requires Linked(s, {v})
    ensures Linked(Destroy(s, v), {})
  {
    hide NoDup;
    var t := Destroy(s, v);
    assert forall p, n :: WaitsFor(t, p, n) <==> WaitsFor(s, p, n) && p != v;
    assert forall p :: Waiting(t, p) <==> Waiting(s, p) && p != v;
  }
}

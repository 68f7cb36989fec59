/** Reachable states that show what the theorems leave open: a victim off every circular wait, a
    circular wait undone by a running co-holder, a semaphore with a negative initial value. */
module Examples {
  import opened Wrappers
  import opened Lists
  import opened KernelState
  import opened DeadlockGraph
  import opened BetweenCycles
  import opened Recovery
  import opened Detection
  import opened RecoveryQueues
  import opened RingSurvival
  import opened Runs
  import opened RingEnds
  import opened PlannerTheorems
  import opened Scenes

  // --------------------------------------------------------------- a shared start

  function Runner(held: map<Name, int>): Pcb { Pcb(Exec, None, held) }

  function Sleeper(n: Name, held: map<Name, int>): Pcb { Pcb(Blocked, Some(n), held) }

  /** Four processes run. Process 1 retains the only instance of a, processes 2 and 3 retain the
      two instances of b. */
  function Shared(): Cast {
    Cast(map[1 := Runner(map["a" := 1]), 2 := Runner(map["b" := 1]), 3 := Runner(map["b" := 1]), 4 := Runner(map[])],
         [1, 2, 3, 4], [], ["a", "b"], map["a" := Sem(1, 0, []), "b" := Sem(2, 0, [])])
  }

  lemma FourIdle()
    ensures Opening(4) == Cast(map[1 := Runner(map[]), 2 := Runner(map[]), 3 := Runner(map[]), 4 := Runner(map[])],
                               [1, 2, 3, 4], [], [], map[])
  {
    assert Upto(1) == [1] && Upto(2) == [1, 2] && Upto(3) == [1, 2, 3];
    assert Idlers(1) == map[1 := Runner(map[])];
    assert Idlers(2) == map[1 := Runner(map[]), 2 := Runner(map[])];
    assert Idlers(3) == map[1 := Runner(map[]), 2 := Runner(map[]), 3 := Runner(map[])];
  }

  function Made(): Cast {
    Cast(map[1 := Runner(map[]), 2 := Runner(map[]), 3 := Runner(map[]), 4 := Runner(map[])],
         [1, 2, 3, 4], [], ["a", "b"], map["a" := Sem(1, 1, []), "b" := Sem(2, 2, [])])
  }

  lemma MadePlayed()
    ensures Played(Made(), 4, 4)
  {
    hide Played;
    PlayOpening(4, 4);
    FourIdle();
    var c0 := Opening(4);
    PlayAddSem(c0, 4, 4, 1, "a", 1);
    var c1 := AddSem(c0, "a", 1);
    PlayAddSem(c1, 4, 4, 1, "b", 2);
    assert AddSem(c1, "b", 2) == Made();
  }

  lemma SharedPlayed()
    ensures Played(Shared(), 4, 4)
  {
    hide Played;
    MadePlayed();
    PlayTake(Made(), 4, 4, 1, "a");
    var c3 := Take(Made(), 1, "a");
    PlayTake(c3, 4, 4, 2, "b");
    var c4 := Take(c3, 2, "b");
    PlayTake(c4, 4, 4, 3, "b");
    assert Take(c4, 3, "b") == Shared();
  }

  lemma Removals()
    ensures Remove<Pid>([1, 2, 3, 4], 2) == [1, 3, 4] && Remove<Pid>([1, 2, 3, 4], 4) == [1, 2, 3]
    ensures Remove<Pid>([1, 2, 3], 1) == [2, 3] && Remove<Pid>([1, 3, 4], 1) == [3, 4]
    ensures Remove<Pid>([2, 3], 2) == [3] && Remove<Pid>([3, 4], 3) == [4] && Remove<Pid>([3], 3) == []
  {
    assert Remove<Pid>([2, 3, 4], 4) == [2, 3];
  }

  lemma Leftovers()
    ensures Without([1, 3], {3}) == [1] && Without([4, 2], {3}) == [4, 2] && Without([2], {3}) == [2]
  {
  }

  /** One blocking wait, with the new lists spelled out. */
  function Stopped(c: Cast, p: Pid, n: Name, exec: seq<Pid>, blocked: seq<Pid>, queue: seq<Pid>): Cast
    requires p in c.pcbs && n in c.sems
  {
    c.(pcbs := c.pcbs[p := Sleeper(n, c.pcbs[p].held)], exec := exec, blocked := blocked,
       sems := c.sems[n := Sem(c.sems[n].initial, c.sems[n].value - 1, queue)])
  }

  lemma StopTo(c: Cast, p: Pid, n: Name, exec: seq<Pid>, blocked: seq<Pid>, queue: seq<Pid>)
    requires Played(c, 4, 4) && p in c.exec && p in c.pcbs && n in c.sems && c.sems[n].value <= 0
    requires exec == Remove(c.exec, p) && blocked == c.blocked + [p] && queue == c.sems[n].queue + [p]
    ensures Played(Stopped(c, p, n, exec, blocked, queue), 4, 4)
  {
    hide Played;
    PlayStop(c, 4, 4, p, n);
    assert Stop(c, p, n) == Stopped(c, p, n, exec, blocked, queue);
  }

  // ------------------------------------------- a circular wait that a co-holder undoes

  /** Process 2 waits for a second instance of b. */
  function CoHeld(): Cast {
    Cast(map[1 := Runner(map["a" := 1]), 2 := Sleeper("b", map["b" := 1]), 3 := Runner(map["b" := 1]), 4 := Runner(map[])],
         [1, 3, 4], [2], ["a", "b"], map["a" := Sem(1, 0, []), "b" := Sem(2, -1, [2])])
  }

  lemma CoHeldPlayed()
    ensures Played(CoHeld(), 4, 4)
  {
    hide Played, Remove;
    Removals();
    SharedPlayed();
    StopTo(Shared(), 2, "b", [1, 3, 4], [2], [2]);
    assert Stopped(Shared(), 2, "b", [1, 3, 4], [2], [2]) == CoHeld();
  }

  lemma SelfRing(s: State, p: Pid)
    requires Edge(GraphOf(s), p, p)
    ensures CircularWait(s, [p])
  {
  }

  lemma CoHeldFacts(s: State)
    requires s == Stage(CoHeld(), 4, 4)
    ensures Edge(GraphOf(s), 2, 2) && 3 in s.Q(Exec) && "b" in s.sems && s.sems["b"].queue == [2]
  {
  }

  lemma FoundFrom(s: State, c: seq<Pid>)
    requires Good(s) && CircularWait(s, c)
    ensures DeadlockFound(Residual(s))
  {
    hide Inv, Residual, CircularWait;
    FoundIffCircular(s);
  }

  /** With two instances a circular wait need not last: process 2 waits on b, which it retains
      itself, and the detector finds it, but process 3 runs and its post ends the circular wait. */
  lemma CoHolderEndsRing(s: State)
    requires s == Stage(CoHeld(), 4, 4)
    ensures Reachable(s, 4) && CircularWait(s, [2]) && DeadlockFound(Residual(s))
    ensures Good(s) && Enabled(s, PostCall(3, "b")) && !CircularWait(Apply(s, PostCall(3, "b")), [2])
  {
    hide Good, Reachable, Residual, Apply, CoHeld, Stage, CircularWait, Edge;
    CoHeldPlayed();
    CoHeldFacts(s);
    SelfRing(s, 2);
    FoundFrom(s, [2]);
    assert Step(s, PostCall(3, "b"), Apply(s, PostCall(3, "b")));
    StepEndsRing(s, PostCall(3, "b"), Apply(s, PostCall(3, "b")), [2]);
  }

  // -------------------------------------------------- a victim off every circular wait

  /** Processes 1 and 2 wait for what they retain themselves; process 3 waits for 1 and one of
      the instances that 2 waits for is its own. */
  ghost predicate Trap(s: State) {
    && s.pcbs.Keys == {1, 2, 3, 4} && s.names == ["a", "b"]
    && WaitsFor(s, 1, "a") && WaitsFor(s, 2, "b") && WaitsFor(s, 3, "a")
    && (forall p :: Retains(s, p, "a") <==> p == 1)
    && (forall p :: Retains(s, p, "b") <==> p == 2 || p == 3)
    && (forall n :: !Retains(s, 4, n))
  }

  lemma TrapEdges(s: State)
    requires Trap(s)
    ensures var g := GraphOf(s);
      && Edge(g, 1, 1) && Edge(g, 2, 2) && Edge(g, 2, 3) && Edge(g, 3, 1)
      && (forall q :: Edge(g, 1, q) ==> q == 1) && (forall q :: Edge(g, 3, q) ==> q == 1)
  {
    forall q | Edge(GraphOf(s), 1, q) || Edge(GraphOf(s), 3, q) ensures q == 1 { assert Retains(s, q, "a"); }
    assert Retains(s, 1, "a") && Retains(s, 2, "b") && Retains(s, 3, "b");
  }

  lemma ThreeOffCycle(s: State, c: seq<Pid>)
    requires Trap(s) && CircularWait(s, c)
    ensures 3 !in c
  {
    hide Trap, Circular, Edge;
    if 3 in c {
      TrapEdges(s);
      var q, r := Neighbours(GraphOf(s), c, 3);
      AllInside(GraphOf(s), c, {1}, 1);
      assert false;
    }
  }

  lemma TrapWithin(s: State, w: seq<Pid>)
    requires Good(s) && Trap(s) && forall p :: p in w ==> p in {1, 2, 3}
    ensures Within(GraphOf(s), w, Elems(DeadlockPcbs(s)), Elems(s.names))
  {
    hide Inv, DeadlockPcbs;
    SleepersListed(s);
    assert "a" in s.names && "b" in s.names;
    forall p | p in w ensures p in Elems(DeadlockPcbs(s)) && p in GraphOf(s).waits && GraphOf(s).waits[p] in Elems(s.names) {
      assert Waiting(s, p);
    }
  }

  lemma ThreeIsBetween(s: State)
    requires Good(s) && Trap(s)
    ensures BetweenWaits(s, 3)
  {
    hide Good, Trap, Edge, DeadlockPcbs, Within, Circular, GraphOf;
    var g, a, b := GraphOf(s), Elems(DeadlockPcbs(s)), Elems(s.names);
    var w: seq<Pid>, one: seq<Pid>, two: seq<Pid> := [2, 3, 1], [1], [2];
    TrapEdges(s);
    SelfRing(s, 1);
    SelfRing(s, 2);
    TrapWithin(s, w);
    TrapWithin(s, one);
    TrapWithin(s, two);
    assert 1 in one && 2 in two;
    assert OnCycle(g, a, b, 1) && OnCycle(g, a, b, 2);
    assert Bridge(g, a, b, w) && 3 in w;
  }

  lemma VictimHolds(s: State)
    requires Good(s) && DeadlockFound(Residual(s))
    ensures Victim(s) in s.pcbs && exists n :: Retains(s, Victim(s), n)
  {
    hide Inv, Residual;
    var j := VictimWaits(s);
  }

  lemma TrapVictim(s: State)
    requires Good(s) && Trap(s)
    ensures CircularWait(s, [1]) && CircularWait(s, [2]) && DeadlockFound(Residual(s)) && Victim(s) == 3
  {
    hide Good, Trap, Residual, CircularWait, Edge, BetweenWaits, Victim;
    TrapEdges(s);
    SelfRing(s, 1);
    SelfRing(s, 2);
    FoundFrom(s, [1]);
    ThreeIsBetween(s);
    VictimIsHighestBetween(s);
    VictimHolds(s);
    NotFour(s, Victim(s));
  }

  lemma NotFour(s: State, p: Pid)
    requires Trap(s) && p in s.pcbs && (exists n :: Retains(s, p, n)) && 3 <= p
    ensures p == 3
  {
    assert p in s.pcbs.Keys;
  }

  /** Process 4 waits for b ahead of process 2. */
  function OffRing(): Cast {
    Cast(map[1 := Sleeper("a", map["a" := 1]), 2 := Sleeper("b", map["b" := 1]),
             3 := Sleeper("a", map["b" := 1]), 4 := Sleeper("b", map[])],
         [], [4, 1, 2, 3], ["a", "b"], map["a" := Sem(1, -2, [1, 3]), "b" := Sem(2, -2, [4, 2])])
  }

  // The way there.

  function FourWaits(): Cast {
    Cast(map[1 := Runner(map["a" := 1]), 2 := Runner(map["b" := 1]), 3 := Runner(map["b" := 1]),
             4 := Sleeper("b", map[])],
         [1, 2, 3], [4], ["a", "b"], map["a" := Sem(1, 0, []), "b" := Sem(2, -1, [4])])
  }

  function OneWaits(): Cast {
    Cast(map[1 := Sleeper("a", map["a" := 1]), 2 := Runner(map["b" := 1]),
             3 := Runner(map["b" := 1]), 4 := Sleeper("b", map[])],
         [2, 3], [4, 1], ["a", "b"], map["a" := Sem(1, -1, [1]), "b" := Sem(2, -1, [4])])
  }

  lemma FourWaitsPlayed()
    ensures Played(FourWaits(), 4, 4)
  {
    hide Played, Remove;
    Removals();
    SharedPlayed();
    StopTo(Shared(), 4, "b", [1, 2, 3], [4], [4]);
    assert Stopped(Shared(), 4, "b", [1, 2, 3], [4], [4]) == FourWaits();
  }

  lemma OneWaitsPlayed()
    ensures Played(OneWaits(), 4, 4)
  {
    hide Played, Remove;
    Removals();
    FourWaitsPlayed();
    StopTo(FourWaits(), 1, "a", [2, 3], [4, 1], [1]);
    assert Stopped(FourWaits(), 1, "a", [2, 3], [4, 1], [1]) == OneWaits();
  }

  function TwoWaits(): Cast {
    Cast(map[1 := Sleeper("a", map["a" := 1]), 2 := Sleeper("b", map["b" := 1]),
             3 := Runner(map["b" := 1]), 4 := Sleeper("b", map[])],
         [3], [4, 1, 2], ["a", "b"], map["a" := Sem(1, -1, [1]), "b" := Sem(2, -2, [4, 2])])
  }

  lemma TwoWaitsPlayed()
    ensures Played(TwoWaits(), 4, 4)
  {
    hide Played, Remove;
    Removals();
    OneWaitsPlayed();
    StopTo(OneWaits(), 2, "b", [3], [4, 1, 2], [4, 2]);
    assert Stopped(OneWaits(), 2, "b", [3], [4, 1, 2], [4, 2]) == TwoWaits();
  }

  lemma OffRingPlayed()
    ensures Played(OffRing(), 4, 4)
  {
    hide Played, Remove;
    Removals();
    TwoWaitsPlayed();
    StopTo(TwoWaits(), 3, "a", [], [4, 1, 2, 3], [1, 3]);
    assert Stopped(TwoWaits(), 3, "a", [], [4, 1, 2, 3], [1, 3]) == OffRing();
  }

  lemma OffRingTrap(s: State)
    requires s == Stage(OffRing(), 4, 4)
    ensures Trap(s)
  {
  }

  lemma OffRingSpares(s: State)
    requires s == Stage(OffRing(), 4, 4)
    ensures Spared(s, 3, [1]) && Spared(s, 3, [2])
  {
    hide Without;
    Leftovers();
    assert GivenTo(s, 3, "a") == [] && GivenTo(s, 3, "b") == [4];
  }

  /** With several instances the victim need not be on a circular wait, and its death need not end
      any: process 3 is killed, the instance it retained goes to process 4, and processes 1 and 2
      stay in their circular waits. */
  lemma VictimOffCycle(s: State)
    requires s == Stage(OffRing(), 4, 4)
    ensures Reachable(s, 4) && Good(s) && DeadlockFound(Residual(s)) && Victim(s) == 3
    ensures forall c :: CircularWait(s, c) ==> 3 !in c
    ensures CircularWait(s, [1]) && CircularWait(s, [2])
    ensures CircularWait(Recover(s), [1]) && CircularWait(Recover(s), [2])
  {
    hide Good, Reachable, Residual, OffRing, Stage, CircularWait, Trap, Recover, Spared, Victim;
    OffRingPlayed();
    OffRingTrap(s);
    OffRingSpares(s);
    TrapVictim(s);
    forall c | CircularWait(s, c) ensures 3 !in c { ThreeOffCycle(s, c); }
    RingSurvives(s, [1]);
    RingSurvives(s, [2]);
  }

  /** The same without process 4 in the queue. */
  function NextInLine(): Cast {
    Cast(map[1 := Sleeper("a", map["a" := 1]), 2 := Sleeper("b", map["b" := 1]),
             3 := Sleeper("a", map["b" := 1]), 4 := Runner(map[])],
         [4], [2, 1, 3], ["a", "b"], map["a" := Sem(1, -2, [1, 3]), "b" := Sem(2, -1, [2])])
  }

  function OnlyThreeRuns(): Cast {
    Cast(map[1 := Sleeper("a", map["a" := 1]), 2 := Sleeper("b", map["b" := 1]), 3 := Runner(map["b" := 1]),
             4 := Runner(map[])],
         [3, 4], [2, 1], ["a", "b"], map["a" := Sem(1, -1, [1]), "b" := Sem(2, -1, [2])])
  }

  lemma OnlyThreeRunsIs()
    ensures Stopped(CoHeld(), 1, "a", [3, 4], [2, 1], [1]) == OnlyThreeRuns()
  {
  }

  lemma OnlyThreeRunsPlayed()
    ensures Played(OnlyThreeRuns(), 4, 4)
  {
    hide Played, Remove, Stopped, OnlyThreeRuns;
    Removals();
    CoHeldPlayed();
    StopTo(CoHeld(), 1, "a", [3, 4], [2, 1], [1]);
    OnlyThreeRunsIs();
  }

  lemma NextInLinePlayed()
    ensures Played(NextInLine(), 4, 4)
  {
    hide Played, Remove;
    Removals();
    OnlyThreeRunsPlayed();
    StopTo(OnlyThreeRuns(), 3, "a", [4], [2, 1, 3], [1, 3]);
    assert Stopped(OnlyThreeRuns(), 3, "a", [4], [2, 1, 3], [1, 3]) == NextInLine();
  }

  lemma NextInLineTrap(s: State)
    requires s == Stage(NextInLine(), 4, 4)
    ensures Trap(s)
  {
  }

  lemma NextInLineSpares(s: State)
    requires s == Stage(NextInLine(), 4, 4)
    ensures Spared(s, 3, [1]) && !Spared(s, 3, [2])
  {
    hide Without;
    Leftovers();
    assert GivenTo(s, 3, "a") == [] && GivenTo(s, 3, "b") == [2];
    assert 2 in [2];
  }

  /** Then the instance goes to process 2, and the kill ends a circular wait that its victim was
      not on. */
  lemma VictimOffCycleEndsOne(s: State)
    requires s == Stage(NextInLine(), 4, 4)
    ensures Reachable(s, 4) && Good(s) && DeadlockFound(Residual(s)) && Victim(s) == 3
    ensures forall c :: CircularWait(s, c) ==> 3 !in c
    ensures CircularWait(s, [1]) && CircularWait(s, [2])
    ensures CircularWait(Recover(s), [1]) && !CircularWait(Recover(s), [2])
  {
    hide Good, Reachable, Residual, NextInLine, Stage, CircularWait, Trap, Recover, Spared, Victim;
    NextInLinePlayed();
    NextInLineTrap(s);
    NextInLineSpares(s);
    TrapVictim(s);
    forall c | CircularWait(s, c) ensures 3 !in c { ThreeOffCycle(s, c); }
    RingSurvives(s, [1]);
    RingSurvives(s, [2]);
  }

  // ------------------------------------------------------ a negative initial value

  /** Process 1 runs and has initialised a to -1. */
  function Negative(): Cast { Cast(map[1 := Runner(map[])], [1], [], ["a"], map["a" := Sem(-1, -1, [])]) }

  lemma NegativePlayed()
    ensures Played(Negative(), 1, 1)
  {
    hide Played;
    PlayOpening(1, 1);
    PlayAddSem(Opening(1), 1, 1, 1, "a", -1);
    assert Idlers(1) == map[1 := Runner(map[])] && Upto(1) == [1];
    assert AddSem(Opening(1), "a", -1) == Negative();
  }

  /** The value of a is negative, a post on it can happen and wakes nobody. */
  lemma NegativeInitialWakesNobody(s: State)
    requires s == Stage(Negative(), 1, 1)
    ensures Reachable(s, 1) && Good(s) && Enabled(s, PostCall(1, "a")) && "a" in s.sems && s.sems["a"].value < 0
    ensures forall q :: !Wakes(s, Apply(s, PostCall(1, "a")), q)
  {
    hide Good, Reachable, Apply;
    NegativePlayed();
    assert forall q :: !Waiting(s, q);
  }
}

/** What ends a circular wait, with no assumption on how semaphores are used. */
module RingEnds {
  import opened Lists
  import opened KernelState
  import opened Steps
  import opened DeadlockGraph
  import opened Detection
  import opened DetectionTheorems
  import opened Runs
  import opened RunTheorems

  /** Whoever is on a circular wait sleeps, so it neither posts nor leaves. */
  lemma OnCycleAsleep(s: State, c: seq<Pid>, p: Pid)
    requires Inv(s, {}) && CircularWait(s, c) && p in c
    ensures Waiting(s, p) && Asleep(s.pcbs[p].status) && s.pcbs[p].waitsOn.value in s.sems
  {
    hide Inv, Circular, CircularWait;
    CircularWaiters(s, c);
    WaitsListed(s, p);
  }

  lemma HeadWaits(s: State, n: Name)
    requires Inv(s, {}) && n in s.sems && s.sems[n].queue != []
    ensures WaitsFor(s, s.sems[n].queue[0], n)
  {
    hide Placed, IoQueued, Listed, Positive, Counted, TokensMatch, SlotsMatch, PidsBelow, NoDup;
    assert s.sems[n].queue[0] in s.sems[n].queue;
  }

  lemma DepartedAwake(s: State)
    requires Good(s) && s.Q(Exit) != []
    ensures !Waiting(s, s.Q(Exit)[0])
  {
    assert s.Q(Exit)[0] in s.Q(Exit);
    QueuedLive(s, s.Q(Exit)[0], Exit);
  }

  /** The step is a post whose semaphore has a process of c at the head of its queue. */
  ghost predicate WakesMember(s: State, e: Event, c: seq<Pid>) {
    e.PostCall? && e.n in s.sems && s.sems[e.n].queue != [] && s.sems[e.n].queue[0] in c
  }

  lemma OnlyWakesTouch(s: State, e: Event, c: seq<Pid>, p: Pid)
    requires Good(s) && Enabled(s, e) && e != DetectorRun && CircularWait(s, c) && p in c && !WakesMember(s, e, c)
    ensures p !in Touched(s, e)
  {
    hide Inv, CircularWait, SuspensionCase;
    OnCycleAsleep(s, c, p);
    match e
    case Arrival => NextFree(s);
    case WaitCall(q, n) => QueuedLive(s, q, Exec);
    case PostCall(q, n) => QueuedLive(s, q, Exec);
    case Departure => DepartedAwake(s);
    case _ =>
  }

  lemma RingStays(s: State, e: Event, t: State, c: seq<Pid>)
    requires Step(s, e, t) && e != DetectorRun && CircularWait(s, c) && !WakesMember(s, e, c)
    ensures CircularWait(t, c)
  {
    hide Inv, SuspensionCase, CircularWait, Apply, WakesMember;
    StepTouches(s, e, t);
    CircularWaiters(s, c);
    forall p | p in c ensures SamePcb(t, s, p) {
      OnlyWakesTouch(s, e, c, p);
      assert SamePcb(s, t, p);
    }
    SameEdges(t, s, c);
  }

  /** The woken process waits for nothing, so no circular wait holds it any more. */
  lemma WokenLeavesRing(s: State, e: Event, t: State, c: seq<Pid>)
    requires Step(s, e, t) && CircularWait(s, c) && WakesMember(s, e, c)
    ensures !CircularWait(t, c)
  {
    hide Inv, SuspensionCase, CircularWait, Post;
    QueuedLive(s, e.p, Exec);
    PostNotWaiting(s, e.p, e.n);
    if CircularWait(t, c) {
      CircularWaiters(t, c);
      assert false;
    }
  }

  /** A step ends a circular wait if and only if it is the detector's or a post that wakes one of
      its processes. */
  lemma StepEndsRing(s: State, e: Event, t: State, c: seq<Pid>)
    requires Step(s, e, t) && CircularWait(s, c)
    ensures !CircularWait(t, c) <==> e == DetectorRun || WakesMember(s, e, c)
  {
    hide Inv, SuspensionCase, CircularWait, Apply;
    if e == DetectorRun {
      assert t == Detect(s) by { DetectorApplies(s, e, t); }
      DetectEndsDeadlock(s);
    } else if WakesMember(s, e, c) {
      WokenLeavesRing(s, e, t, c);
    } else {
      RingStays(s, e, t, c);
    }
  }
}

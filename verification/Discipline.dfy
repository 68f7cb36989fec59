/** Semaphores used as locks: initial value at most one, posts by holders only, no lock
    destroyed while retained. Then a circular wait lasts until the detector breaks it. */
module Discipline {
  import opened Wrappers
  import opened Lists
  import opened KernelState
  import opened Steps
  import opened StepInvariants
  import opened SchedulerInvariants
  import opened DeadlockGraph
  import opened Cycles
  import opened Recovery
  import opened Detection
  import opened DetectionTheorems
  import opened OneHolder
  import opened Conservation
  import opened Runs
  import opened RunTheorems
  import opened RingEnds

  /** No semaphore is destroyed while somebody retains it. A request that is refused, because the
      name is unknown or somebody waits, is no matter. */
  ghost predicate Careful(s: State, e: Event) {
    e.DestroyCall? && e.n in s.sems && s.sems[e.n].queue == [] ==> forall q :: !Retains(s, q, e.n)
  }

  ghost predicate Allowed(s: State, e: Event) {
    match e
    case InitCall(p, n, v) => n !in s.sems ==> 0 <= v <= 1
    case PostCall(p, n) => n in s.sems ==> Retains(s, p, n)
    case DestroyCall(p, n) => Careful(s, e)
    case _ => true
  }

  ghost predicate OneInstance(s: State) {
    forall n :: n in s.sems ==> s.sems[n].initial >= 0 && Books(s, n) <= 1
  }

  /** Only semaphores of the system are retained. */
  ghost predicate NoStale(s: State) { forall p, n :: Retains(s, p, n) ==> n in s.sems }

  ghost predicate Disciplined(s: State) { OneInstance(s) && NoStale(s) }

  ghost predicate DisciplinedRun(ss: seq<State>, es: seq<Event>) {
    Run(ss, es) && forall i :: 0 <= i < |es| ==> Allowed(ss[i], es[i])
  }

  // ------------------------------------------------------- the discipline is kept

  /** The names and initial values of the semaphores after a step. */
  lemma EvaluateSems(s: State)
    ensures Evaluate(s).sems == s.sems
  {
  }

  /** n is in the system after the step: it was before, with the same initial value, or the
      step created it. */
  ghost predicate SemOrigin(s: State, e: Event, t: State, n: Name)
    requires n in t.sems
  {
    if n in s.sems then t.sems[n].initial == s.sems[n].initial
    else e.InitCall? && e.n == n && t == SemInit(s, n, e.v)
  }

  lemma StepSems(s: State, e: Event, t: State, n: Name)
    requires Step(s, e, t) && n in t.sems
    ensures SemOrigin(s, e, t, n)
  {
    hide Inv, SuspensionCase;
    match e
    case Arrival => EvaluateSems(s.(pcbs := s.pcbs[s.nextPid := Pcb(New, None, map[])],
                                    qs := s.qs[New := s.Q(New) + [s.nextPid]], nextPid := s.nextPid + 1));
                    hide Evaluate;
    case Admission =>
    case Chosen(p) => EvaluateSems(Shift(s, p, Ready, Exec)); hide Evaluate;
    case InitCall(p, k, v) =>
    case WaitCall(p, k) => QueuedLive(s, p, Exec); if k in s.sems { WaitInitials(s, p, k); }
    case PostCall(p, k) => QueuedLive(s, p, Exec); if k in s.sems { PostInitials(s, p, k); }
    case DestroyCall(p, k) =>
    case IoCall(p, d) => if d in s.io { EvaluateSems(IoQueue(s, p, d)); hide Evaluate; }
    case IoEnd(d) =>
    case CloseCall(p) =>
    case Departure =>
    case DetectorRun => hide Detect; DetectEndsDeadlock(s);
  }

  lemma WaitInitials(s: State, p: Pid, n: Name)
    requires p in s.pcbs && n in s.sems
    ensures SameInitials(s, Wait(s, p, n))
  {
    EvaluateSems(Sleep(s, p, n, s.sems[n].(value := s.sems[n].value - 1)));
    hide Evaluate;
  }

  /** What is retained after a step was retained before, or is of a semaphore of the system. */
  lemma StepHoldings(s: State, e: Event, t: State, p: Pid, n: Name)
    requires Step(s, e, t) && Retains(t, p, n)
    ensures Retains(s, p, n) || n in s.sems
  {
    hide Inv, SuspensionCase;
    if e == DetectorRun {
      hide Detect;
      DetectHoldings(s, p, n);
    } else {
      StepTouches(s, e, t);
      if p !in Touched(s, e) {
        assert SamePcb(s, t, p);
      } else {
        hide OnlyTouches;
        TouchedHoldings(s, e, t, p, n);
      }
    }
  }

  lemma TouchedHoldings(s: State, e: Event, t: State, p: Pid, n: Name)
    requires Step(s, e, t) && p in Touched(s, e) && e != DetectorRun && Retains(t, p, n)
    ensures Retains(s, p, n) || n in s.sems
  {
    hide Inv, SuspensionCase;
    match e
    case Arrival => ArriveHolds(s);
    case WaitCall(q, k) => QueuedLive(s, q, Exec); if k in s.sems { WaitHolds(s, q, k, n); }
    case PostCall(q, k) => QueuedLive(s, q, Exec); if k in s.sems { PostHolds(s, q, k, p, n); }
    case Departure =>
  }

  lemma ArriveHolds(s: State)
    ensures s.nextPid in Arrive(s).pcbs && Arrive(s).pcbs[s.nextPid].held == map[]
  {
  }

  lemma WaitHolds(s: State, p: Pid, k: Name, n: Name)
    requires p in s.pcbs && k in s.sems && Retains(Wait(s, p, k), p, n)
    ensures Retains(s, p, n) || n == k
  {
    var m := s.sems[k].(value := s.sems[k].value - 1);
    if m.value < 0 {
      EvaluateTouches(Sleep(s, p, k, m));
      hide Evaluate;
    }
  }

  lemma ReleaseGrantHolds(s: State, g: State, t: State, q: Pid, h: Pid, b: Pcb, k: Name, p: Pid, n: Name)
    requires q in s.pcbs && g.pcbs == s.pcbs[q := Release(s.pcbs[q], k)]
    requires h in g.pcbs && b.held == g.pcbs[h].held && t.pcbs == g.pcbs[h := Retain(b, k)] && Retains(t, p, n)
    ensures Retains(s, p, n) || n == k
  {
  }

  lemma PostHolds(s: State, q: Pid, k: Name, p: Pid, n: Name)
    requires Good(s) && q in s.pcbs && k in s.sems && Retains(Post(s, q, k), p, n)
    ensures Retains(s, p, n) || n == k
  {
    hide Inv, SuspensionCase, Retain, Release;
    var g := GiveBack(s, q, k);
    if s.sems[k].queue != [] {
      PostShape(s, q, k, {});
      hide Post;
      var h := s.sems[k].queue[0];
      ReleaseGrantHolds(s, g, Post(s, q, k), q, h, Pcb(WokenStatus(s.pcbs[h].status), None, g.pcbs[h].held), k, p, n);
    } else {
      ReleaseHolds(s, g, q, k, p, n);
    }
  }

  lemma ReleaseHolds(s: State, g: State, q: Pid, k: Name, p: Pid, n: Name)
    requires q in s.pcbs && g.pcbs == s.pcbs[q := Release(s.pcbs[q], k)] && Retains(g, p, n)
    ensures Retains(s, p, n)
  {
  }

  lemma DisciplineKept(s: State, e: Event, t: State)
    requires Step(s, e, t) && Disciplined(s) && Allowed(s, e)
    ensures Disciplined(t)
  {
    hide Step;
    forall n | n in t.sems ensures t.sems[n].initial >= 0 && Books(t, n) <= 1 {
      BooksAtMostOne(s, e, t, n);
    }
    forall p, n | Retains(t, p, n) ensures n in t.sems {
      HeldStaysListed(s, e, t, p, n);
    }
  }

  lemma BooksAtMostOne(s: State, e: Event, t: State, n: Name)
    requires Step(s, e, t) && Disciplined(s) && Allowed(s, e) && n in t.sems
    ensures t.sems[n].initial >= 0 && Books(t, n) <= 1
  {
    StepSems(s, e, t, n);
    if n in s.sems {
      StepConserves(s, e, t, n);
      assert StepDelta(s, e, n) <= 0 by {
        assert Positive(s);
        PositiveHeld(s, n);
      }
    } else {
      hide Step;
      InitOpensBooks(s, n, e.v);
    }
  }

  /** A destroyed semaphore was retained by nobody, so no entry is left stale. */
  lemma HeldStaysListed(s: State, e: Event, t: State, p: Pid, n: Name)
    requires Step(s, e, t) && NoStale(s) && Careful(s, e) && Retains(t, p, n)
    ensures n in t.sems
  {
    hide Inv, SuspensionCase;
    StepHoldings(s, e, t, p, n);
    if e.DestroyCall? {
      assert Retains(s, p, n);
    } else {
      hide Step;
      SemsStay(s, e, t, n);
    }
  }

  lemma SemsStay(s: State, e: Event, t: State, n: Name)
    requires Step(s, e, t) && n in s.sems && !e.DestroyCall?
    ensures n in t.sems
  {
    hide Inv, SuspensionCase;
    match e
    case Arrival => EvaluateSems(s.(pcbs := s.pcbs[s.nextPid := Pcb(New, None, map[])],
                                    qs := s.qs[New := s.Q(New) + [s.nextPid]], nextPid := s.nextPid + 1));
                    hide Evaluate;
    case Admission =>
    case Chosen(p) => EvaluateSems(Shift(s, p, Ready, Exec)); hide Evaluate;
    case InitCall(p, k, v) =>
    case WaitCall(p, k) => QueuedLive(s, p, Exec); if k in s.sems { WaitInitials(s, p, k); }
    case PostCall(p, k) => QueuedLive(s, p, Exec); if k in s.sems { PostInitials(s, p, k); }
    case IoCall(p, d) => if d in s.io { EvaluateSems(IoQueue(s, p, d)); hide Evaluate; }
    case IoEnd(d) =>
    case CloseCall(p) =>
    case Departure =>
    case DetectorRun => hide Detect; DetectEndsDeadlock(s);
  }

  /** Exactly when SEM_DESTROY leaves entries behind: a destroyed semaphore that somebody retains. */
  lemma DestroyLeavesStale(s: State, n: Name)
    requires NoStale(s)
    ensures NoStale(SemDestroy(s, n)) <==>
            n !in s.sems || s.sems[n].queue != [] || forall q :: !Retains(s, q, n)
  {
    var t := SemDestroy(s, n);
    assert forall p, k :: Retains(t, p, k) <==> Retains(s, p, k);
    if n in s.sems && s.sems[n].queue == [] && !forall q :: !Retains(s, q, n) {
      var q :| Retains(s, q, n);
      assert Retains(t, q, n) && n !in t.sems;
    }
  }

  /** Under the discipline at most one instance of a semaphore is retained. */
  lemma DisciplineSingle(s: State)
    requires Good(s) && Disciplined(s)
    ensures Single(s)
  {
    hide Inv, SuspensionCase, Books;
    forall n, p, q | n in s.sems && Retains(s, p, n) && Retains(s, q, n) ensures p == q && s.pcbs[p].held[n] == 1 {
      OneHolderOnly(s, n, p, q);
    }
  }

  // ---------------------------------------------------------------- stability

  /** What a process on a circular wait waits for is retained by a sleeping process. */
  lemma SleepingHolder(s: State, c: seq<Pid>, h: Pid, n: Name) returns (x: Pid)
    requires Inv(s, {}) && CircularWait(s, c) && h in c && WaitsFor(s, h, n)
    ensures Retains(s, x, n) && Asleep(s.pcbs[x].status)
  {
    hide Inv, Circular;
    var y;
    x, y := Neighbours(GraphOf(s), c, h);
    OnCycleAsleep(s, c, x);
  }

  /** A holder's post wakes nobody on a circular wait: its holders are asleep. */
  lemma PosterWakesOutside(s: State, q: Pid, n: Name, c: seq<Pid>)
    requires Good(s) && Single(s) && CircularWait(s, c)
    requires q in s.Q(Exec) && n in s.sems && Retains(s, q, n) && s.sems[n].queue != []
    ensures s.sems[n].queue[0] !in c && q !in c
  {
    QueuedLive(s, q, Exec);
    PostShape(s, q, n, {});
    var h := s.sems[n].queue[0];
    assert WaitsFor(s, h, n) by { HeadWaits(s, n); }
    hide Inv, SuspensionCase, Circular, Post;
    if q in c { OnCycleAsleep(s, c, q); }
    if h in c {
      var x := SleepingHolder(s, c, h, n);
    }
  }

  /** Under the discipline no step but the detector's ends a circular wait: see StepEndsRing for
      when one does without it. */
  lemma CycleIsStable(s: State, e: Event, t: State, c: seq<Pid>)
    requires Step(s, e, t) && e != DetectorRun && Disciplined(s) && Allowed(s, e) && CircularWait(s, c)
    ensures CircularWait(t, c)
  {
    hide Inv, SuspensionCase, CircularWait, Apply, Disciplined, Single;
    DisciplineSingle(s);
    if WakesMember(s, e, c) {
      PosterWakesOutside(s, e.p, e.n, c);
      assert false;
    }
    StepEndsRing(s, e, t, c);
  }

  /** No false alarm: whoever the detector would list stays listed, and asleep, whatever
      the rest of the system does. */
  lemma ResidualIsStable(s: State, e: Event, t: State, p: Pid)
    requires Step(s, e, t) && e != DetectorRun && Disciplined(s) && Allowed(s, e)
    requires DeadlockFound(Residual(s)) && p in Residual(s).0
    ensures DeadlockFound(Residual(t)) && p in Residual(t).0
    ensures Waiting(t, p) && Asleep(t.pcbs[p].status)
  {
    hide Inv, SuspensionCase, Closed, Apply, Allowed, Disciplined, Circular, Residual, UniqueHolders, Single;
    var g := GraphOf(s);
    DisciplineSingle(s);
    ResidualClosed(s);
    SingleUnique(s);
    ListedSems(s, {});
    FewerSems(g, s.sems.Keys, Elems(Residual(s).1));
    var c := OnCircular(g, Elems(Residual(s).0), Elems(Residual(s).1), p);
    CycleIsStable(s, e, t, c);
    GoodStep(s, e);
    CycleInResidual(t, c);
    OnCycleAsleep(t, c, p);
  }

  lemma CycleInResidual(s: State, c: seq<Pid>)
    requires Inv(s, {}) && CircularWait(s, c)
    ensures DeadlockFound(Residual(s)) && forall p :: p in c ==> p in Residual(s).0
  {
    CircularListed(s, c);
    hide Inv, Circular, Reduce, DeadlockPcbs;
    CircularInResult(GraphOf(s), DeadlockPcbs(s), s.names, c);
  }

  /** Along a disciplined run from the initial state every state is disciplined, so every
      detector run meets the premise of KillsTopOfEachCycle. */
  lemma {:induction false} DisciplinedRunSingle(ss: seq<State>, es: seq<Event>, degree: nat, devices: set<Device>, i: nat)
    requires DisciplinedRun(ss, es) && ss[0] == Initial(degree, devices) && i < |ss|
    ensures Good(ss[i]) && Disciplined(ss[i]) && Single(ss[i])
    decreases i
  {
    RunGood(ss, es, degree, devices, i);
    hide Inv, SuspensionCase, Allowed, OneInstance, Single;
    if i == 0 {
      assert OneInstance(ss[0]) && NoStale(ss[0]) by { NothingYet(degree, devices); }
    } else {
      DisciplinedRunSingle(ss, es, degree, devices, i - 1);
      assert Step(ss[i - 1], es[i - 1], ss[i - 1 + 1]);
      DisciplineKept(ss[i - 1], es[i - 1], ss[i]);
    }
    DisciplineSingle(ss[i]);
  }

  lemma NothingYet(degree: nat, devices: set<Device>)
    ensures Disciplined(Initial(degree, devices))
  {
  }

  /** A circular wait lasts through any disciplined run in which the detector does not run. */
  lemma {:induction false} CycleLasts(ss: seq<State>, es: seq<Event>, c: seq<Pid>, i: nat)
    requires DisciplinedRun(ss, es) && Disciplined(ss[0]) && CircularWait(ss[0], c) && i < |ss|
    requires forall j :: 0 <= j < |es| ==> es[j] != DetectorRun
    ensures CircularWait(ss[i], c) && Disciplined(ss[i])
    decreases i
  {
    hide Step, CircularWait, Disciplined, Allowed;
    if i > 0 {
      CycleLasts(ss, es, c, i - 1);
      assert Step(ss[i - 1], es[i - 1], ss[i - 1 + 1]) && Allowed(ss[i - 1], es[i - 1]);
      CycleIsStable(ss[i - 1], es[i - 1], ss[i], c);
      DisciplineKept(ss[i - 1], es[i - 1], ss[i]);
    }
  }
}

/** What the planners can rely on, over every step and every run. */
module PlannerTheorems {
  import opened Wrappers
  import opened KernelState
  import opened Steps
  import opened StepInvariants
  import opened SchedulerInvariants
  import opened DeadlockGraph
  import opened Recovery
  import opened Detection
  import opened Runs

  // -------------------------------------------------------------------- admission

  /** There is a token exactly when somebody is to be admitted, so the long-term planner never
      takes from an empty queue and leaves nobody waiting without a token. */
  lemma TokensExact(s: State)
    requires Good(s)
    ensures s.tokens > 0 <==> s.Q(SusReady) != [] || s.Q(New) != []
  {
    hide Placed, Linked, IoQueued, Listed, Positive, Counted, SlotsMatch, PidsBelow;
  }

  /** p is suspended by the step from s to t. */
  ghost predicate JustSuspended(s: State, t: State, p: Pid) {
    HasStatus(t, p, SusBlocked) && !HasStatus(s, p, SusBlocked)
  }

  /** Suspending frees a slot while somebody is in NEW. */
  ghost predicate Admits(s: State) { s.slots > 0 && s.Q(New) != [] }

  lemma EvaluateAdmits(s: State, p: Pid)
    requires JustSuspended(s, Evaluate(s), p)
    ensures Admits(Evaluate(s))
  {
  }

  lemma NotSuspending(s: State, t: State, p: Pid, q: Pid, st: Status)
    requires t.pcbs == SetStatus(s.pcbs, q, st) && st != SusBlocked
    ensures !JustSuspended(s, t, p)
  {
  }

  /** Suspension after a step u from s that suspends nobody itself. */
  lemma ThenEvaluate(s: State, u: State, p: Pid)
    requires !JustSuspended(s, u, p) && JustSuspended(s, Evaluate(u), p)
    ensures Admits(Evaluate(u))
  {
    EvaluateAdmits(u, p);
  }

  lemma ArriveSuspends(s: State, p: Pid)
    requires JustSuspended(s, Arrive(s), p)
    ensures Admits(Arrive(s))
  {
    var u := s.(pcbs := s.pcbs[s.nextPid := Pcb(New, None, map[])],
                qs := s.qs[New := s.Q(New) + [s.nextPid]], nextPid := s.nextPid + 1);
    hide Evaluate;
    ThenEvaluate(s, u, p);
  }

  lemma DispatchSuspends(s: State, q: Pid, p: Pid)
    requires JustSuspended(s, Dispatch(s, q), p)
    ensures Admits(Dispatch(s, q))
  {
    NotSuspending(s, Shift(s, q, Ready, Exec), p, q, Exec);
    hide Evaluate, Shift;
    ThenEvaluate(s, Shift(s, q, Ready, Exec), p);
  }

  lemma CallIoSuspends(s: State, q: Pid, d: Device, p: Pid)
    requires d in s.io && JustSuspended(s, CallIo(s, q, d), p)
    ensures Admits(CallIo(s, q, d))
  {
    NotSuspending(s, IoQueue(s, q, d), p, q, Blocked);
    assert CallIo(s, q, d) == Evaluate(IoQueue(s, q, d));
    hide Evaluate, IoQueue, CallIo;
    ThenEvaluate(s, IoQueue(s, q, d), p);
  }

  lemma WaitSuspends(s: State, q: Pid, n: Name, p: Pid)
    requires q in s.pcbs && n in s.sems && JustSuspended(s, Wait(s, q, n), p)
    ensures Admits(Wait(s, q, n))
  {
    var m := s.sems[n].(value := s.sems[n].value - 1);
    if m.value < 0 {
      SleepShape(s, q, n, m);
      hide Evaluate, Sleep;
      ThenEvaluate(s, Sleep(s, q, n, m), p);
    }
  }

  lemma PostSuspendsNobody(s: State, q: Pid, n: Name, p: Pid)
    requires Good(s) && q in s.pcbs && n in s.sems
    ensures !JustSuspended(s, Post(s, q, n), p)
  {
    hide Inv, SuspensionCase;
    if s.sems[n].queue != [] {
      PostShape(s, q, n, {});
      hide Post;
    }
  }

  lemma {:induction false} DetectSuspendsNobody(s: State, p: Pid)
    requires Good(s)
    ensures !JustSuspended(s, Detect(s), p)
    decreases |s.Q(Blocked)| + |s.Q(SusBlocked)|
  {
    hide Inv, SuspensionCase, Residual, Recover;
    if DeadlockFound(Residual(s)) {
      RecoverInv(s);
      DetectSuspendsNobody(Recover(s), p);
    }
  }

  /** After any step that suspends somebody an admission is enabled. */
  lemma SuspensionEnablesAdmission(s: State, e: Event, t: State, p: Pid)
    requires Step(s, e, t) && JustSuspended(s, t, p)
    ensures Enabled(t, Admission)
  {
    hide Inv, SuspensionCase;
    assert Good(t) by { GoodStep(s, e); }
    StepSuspends(s, e, t, p);
    hide Step;
    TokensExact(t);
  }

  lemma StepSuspends(s: State, e: Event, t: State, p: Pid)
    requires Step(s, e, t) && JustSuspended(s, t, p)
    ensures Admits(t)
  {
    hide Inv, SuspensionCase, JustSuspended, Admits;
    match e
    case Arrival => ArriveSuspends(s, p);
    case Admission =>
      AdmitReady(s);
      NotSuspending(s, t, p, if s.Q(SusReady) != [] then s.Q(SusReady)[0] else s.Q(New)[0], Ready);
    case Chosen(q) => DispatchSuspends(s, q, p);
    case InitCall(q, n, v) => SamePcbs(s, t, p);
    case WaitCall(q, n) =>
      QueuedLive(s, q, Exec);
      if n in s.sems { WaitSuspends(s, q, n, p); } else { SamePcbs(s, t, p); }
    case PostCall(q, n) =>
      QueuedLive(s, q, Exec);
      if n in s.sems { PostSuspendsNobody(s, q, n, p); } else { SamePcbs(s, t, p); }
    case DestroyCall(q, n) => SamePcbs(s, t, p);
    case IoCall(q, d) => if d in s.io { CallIoSuspends(s, q, d, p); } else { SamePcbs(s, t, p); }
    case IoEnd(d) => IoDoneSuspends(s, d, p);
    case CloseCall(q) => NotSuspending(s, t, p, q, Exit);
    case Departure => DepartSuspends(s, p);
    case DetectorRun => DetectSuspendsNobody(s, p);
  }

  lemma SamePcbs(s: State, t: State, p: Pid)
    requires t.pcbs == s.pcbs
    ensures !JustSuspended(s, t, p)
  {
  }

  lemma IoDoneSuspends(s: State, d: Device, p: Pid)
    requires d in s.io && s.io[d] != []
    ensures !JustSuspended(s, IoDone(s, d), p)
  {
    var h := s.io[d][0];
    if HasStatus(s, h, SusBlocked) {
      NotSuspending(s, IoDone(s, d), p, h, SusReady);
    } else if HasStatus(s, h, Blocked) {
      NotSuspending(s, IoDone(s, d), p, h, Ready);
    }
  }

  lemma DepartSuspends(s: State, p: Pid)
    requires s.Q(Exit) != []
    ensures !JustSuspended(s, FreeExit(s), p)
  {
  }

  // ------------------------------------------------------------------------ slots

  lemma StepDegree(s: State, e: Event, t: State)
    requires Step(s, e, t)
    ensures t.degree == s.degree
  {
    hide Inv, SuspensionCase;
    match e
    case PostCall(p, n) => QueuedLive(s, p, Exec); if n in s.sems { PostDegree(s, p, n); }
    case DetectorRun => hide Detect; DetectDegree(s);
    case _ =>
  }

  lemma PostDegree(s: State, p: Pid, n: Name)
    requires p in s.pcbs && n in s.sems
    ensures Post(s, p, n).degree == s.degree
  {
  }

  lemma {:induction false} PostTimesDegree(s: State, v: Pid, n: Name, k: nat)
    requires v in s.pcbs && n in s.sems
    ensures PostTimes(s, v, n, k).degree == s.degree
    decreases k
  {
    PostDegree(s, v, n);
    hide Post;
    if k > 0 { PostTimesDegree(Post(s, v, n), v, n, k - 1); }
  }

  lemma {:induction false} RecoverDegree(s: State, v: Pid, i: nat, removed: bool)
    requires v in s.pcbs && i <= |s.names| && forall n :: n in s.names ==> n in s.sems
    ensures RecoverFrom(s, v, i, removed).degree == s.degree
    decreases |s.names| - i
  {
    hide PostTimes;
    if i < |s.names| {
      var n := s.names[i];
      if Retains(s, v, n) {
        var t := if removed then s else Detach(s, v);
        PostTimesDegree(t, v, n, Count(t, v, n));
        RecoverDegree(PostTimes(t, v, n, Count(t, v, n)), v, i + 1, true);
      } else {
        RecoverDegree(s, v, i + 1, removed);
      }
    }
  }

  lemma {:induction false} DetectDegree(s: State)
    requires Good(s)
    ensures Detect(s).degree == s.degree
    decreases |s.Q(Blocked)| + |s.Q(SusBlocked)|
  {
    hide Inv, SuspensionCase, Residual, RecoverFrom;
    if DeadlockFound(Residual(s)) {
      RecoverInv(s);
      VictimLives(s);
      RecoverDegree(s, Victim(s), 0, false);
      DetectDegree(Recover(s));
    }
  }

  /** In every state of every run the free slots and the processes in memory add up to the
      configured degree, the tokens are exact, and if somebody is new and somebody blocked then
      somebody is ready or a slot is free. */
  lemma {:induction false} RunSlots(ss: seq<State>, es: seq<Event>, degree: nat, devices: set<Device>, i: nat)
    requires Run(ss, es) && ss[0] == Initial(degree, devices) && i < |ss|
    ensures var s := ss[i];
      && s.slots + |s.Q(Ready)| + |s.Q(Exec)| + |s.Q(Blocked)| + |s.Q(Exit)| == degree
      && s.tokens == |s.Q(New)| + |s.Q(SusReady)|
      && (s.Q(New) != [] && s.Q(Blocked) != [] ==> s.Q(Ready) != [] || s.slots > 0)
    ensures ss[i].degree == degree
    decreases i
  {
    RunGood(ss, es, degree, devices, i);
    hide Placed, Linked, IoQueued, Listed, Positive, Counted, PidsBelow, Step;
    if i > 0 {
      RunSlots(ss, es, degree, devices, i - 1);
      assert Step(ss[i - 1], es[i - 1], ss[i - 1 + 1]);
      StepDegree(ss[i - 1], es[i - 1], ss[i]);
    }
  }

  // ------------------------------------------------------------------ value and queue

  /** The queue is as long as the value is negative. */
  ghost predicate QueueMatches(m: Sem) { |m.queue| == Max0(-m.value) }

  /** q waits in s and does not in t. */
  ghost predicate Wakes(s: State, t: State, q: Pid) { Waiting(s, q) && q in t.pcbs && !Waiting(t, q) }

  /** A post by a running process wakes the head of the queue, if there is one, and nobody else. */
  lemma PostWakesHead(s: State, p: Pid, n: Name, q: Pid)
    requires Good(s) && p in s.Q(Exec) && n in s.sems
    ensures Wakes(s, Apply(s, PostCall(p, n)), q) <==> s.sems[n].queue != [] && q == s.sems[n].queue[0]
  {
    hide Inv, SuspensionCase, Release;
    QueuedLive(s, p, Exec);
    if s.sems[n].queue != [] {
      hide Post;
      PostShape(s, p, n, {});
    }
  }

  lemma QueueLength(s: State, n: Name)
    requires Good(s) && n in s.sems && s.sems[n].initial >= 0
    ensures QueueMatches(s.sems[n])
  {
    hide Placed, Linked, IoQueued, Listed, Positive, TokensMatch, SlotsMatch, PidsBelow;
    assert SemLaw(s.sems[n]);
  }

  /** A semaphore initialised non-negative keeps that in every good state, and a post on it
      wakes somebody exactly when its value is negative. */
  lemma PostWakesIffNegative(s: State, p: Pid, n: Name)
    requires Good(s) && p in s.Q(Exec) && n in s.sems && s.sems[n].initial >= 0
    ensures QueueMatches(s.sems[n])
    ensures (exists q :: Wakes(s, Apply(s, PostCall(p, n)), q)) <==> s.sems[n].value < 0
  {
    hide Good, Apply, Wakes;
    QueueLength(s, n);
    if s.sems[n].value < 0 {
      PostWakesHead(s, p, n, s.sems[n].queue[0]);
    }
    forall q | Wakes(s, Apply(s, PostCall(p, n)), q) ensures s.sems[n].value < 0 { PostWakesHead(s, p, n, q); }
  }

  /** SEM_INIT accepts a negative value, and then the law fails from the start: it holds of a
      new semaphore exactly when the value is not negative. */
  lemma NewQueueMatches(s: State, n: Name, v: int)
    requires n !in s.sems
    ensures QueueMatches(SemInit(s, n, v).sems[n]) <==> v >= 0
  {
  }
}

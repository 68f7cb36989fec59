/** The seven-state diagram: where every process is after every step, and when and whom a step
    suspends, in terms of the queues and states before it. */
module Transitions {
  import opened Wrappers
  import opened Lists
  import opened KernelState
  import opened Steps
  import opened StepInvariants
  import opened SchedulerInvariants
  import opened DeadlockGraph
  import opened Recovery
  import opened Detection
  import opened DetectionTheorems
  import opened Runs
  import opened PlannerTheorems

  /** The state of a process, if it exists. */
  ghost function Where(s: State, p: Pid): Option<Status> { if p in s.pcbs then Some(s.pcbs[p].status) else None }

  /** Where a sleeper goes when it is woken. */
  function WokenTo(o: Option<Status>): Option<Status> {
    if o == Some(Blocked) then Some(Ready) else if o == Some(SusBlocked) then Some(SusReady) else o
  }

  /** A SEM_WAIT that blocks. */
  ghost predicate Stops(s: State, n: Name) { n in s.sems && s.sems[n].value <= 0 }

  /** Where e takes p, the suspension that it may trigger not counted. The detector is apart: see
      DetectorMoves. */
  ghost function Moved(s: State, e: Event, p: Pid): Option<Status>
    requires Enabled(s, e)
  {
    var here := Where(s, p);
    match e
    case Arrival => if p == s.nextPid then Some(New) else here
    case Admission =>
      if s.Q(SusReady) != [] then (if p == s.Q(SusReady)[0] then Some(Ready) else here)
      else if s.Q(New) != [] && p == s.Q(New)[0] then Some(Ready) else here
    case Chosen(q) => if p == q then Some(Exec) else here
    case WaitCall(q, n) => if p == q && Stops(s, n) then Some(Blocked) else here
    case PostCall(q, n) => if n in s.sems && s.sems[n].queue != [] && p == s.sems[n].queue[0] then WokenTo(here) else here
    case IoCall(q, d) => if p == q && d in s.io then Some(Blocked) else here
    case IoEnd(d) => if p == s.io[d][0] then WokenTo(here) else here
    case CloseCall(q) => if p == q then Some(Exit) else here
    case Departure => if p == s.Q(Exit)[0] then None else here
    case _ => here
  }

  /** The steps after which suspension is evaluated. */
  ghost predicate Evaluates(s: State, e: Event) {
    match e
    case Arrival => true
    case Chosen(p) => true
    case WaitCall(p, n) => Stops(s, n)
    case IoCall(p, d) => d in s.io
    case _ => false
  }

  // -------------------------------------------------------------- before the evaluation

  /** The state in which suspension is evaluated. */
  ghost function Mid(s: State, e: Event): State
    requires Good(s) && Enabled(s, e) && Evaluates(s, e)
  {
    match e
    case Arrival => s.(pcbs := s.pcbs[s.nextPid := Pcb(New, None, map[])],
                       qs := s.qs[New := s.Q(New) + [s.nextPid]], nextPid := s.nextPid + 1)
    case Chosen(p) => Shift(s, p, Ready, Exec)
    case WaitCall(p, n) => QueuedLive(s, p, Exec); Sleep(s, p, n, s.sems[n].(value := s.sems[n].value - 1))
    case IoCall(p, d) => IoQueue(s, p, d)
  }

  lemma MidThenEvaluate(s: State, e: Event, t: State)
    requires Step(s, e, t) && Evaluates(s, e)
    ensures var u := Evaluate(Mid(s, e)); t.pcbs == u.pcbs && t.qs == u.qs && t.slots == u.slots && t.sems == u.sems
    ensures Mid(s, e).slots == s.slots
  {
    hide Inv, SuspensionCase, Evaluate;
    match e
    case Arrival =>
    case Chosen(p) =>
    case WaitCall(p, n) => QueuedLive(s, p, Exec);
    case IoCall(p, d) =>
  }

  lemma ShapeOf(s: State)
    requires Good(s)
    ensures Shape(s, {}) && Placed(s, {})
  {
  }

  lemma MidPlaced(s: State, e: Event)
    requires Good(s) && Enabled(s, e) && Evaluates(s, e)
    ensures Placed(Mid(s, e), {})
  {
    hide Inv, SuspensionCase, Placed, Linked, IoQueued, Positive, PidsBelow;
    ShapeOf(s);
    match e
    case Arrival => ArrivalShape(s, Mid(s, e));
    case Chosen(p) => ShiftPlaced(s, p, Ready, Exec, {});
    case WaitCall(p, n) => SleepPlaced(s, p, n, s.sems[n].(value := s.sems[n].value - 1));
    case IoCall(p, d) => IoQueueShape(s, p, d);
  }

  lemma MidMoves(s: State, e: Event, q: Pid)
    requires Good(s) && Enabled(s, e) && Evaluates(s, e)
    ensures Where(Mid(s, e), q) == Moved(s, e, q)
  {
    hide Inv, SuspensionCase;
    match e
    case Arrival =>
    case Chosen(p) => QueuedLive(s, p, Ready);
    case WaitCall(p, n) =>
      QueuedLive(s, p, Exec);
      SleepShape(s, p, n, s.sems[n].(value := s.sems[n].value - 1));
      hide Sleep;
    case IoCall(p, d) => QueuedLive(s, p, Exec);
  }

  // ------------------------------------------------------------------- the diagram

  /** Suspension takes the last of BLOCKED, if anybody. */
  lemma EvaluateMoves(m: State, p: Pid)
    requires Placed(m, {})
    ensures if SuspensionCase(m) && p == m.Q(Blocked)[|m.Q(Blocked)| - 1]
            then Where(m, p) == Some(Blocked) && Where(Evaluate(m), p) == Some(SusBlocked)
            else Where(Evaluate(m), p) == Where(m, p)
  {
    if SuspensionCase(m) {
      assert m.Q(Blocked)[|m.Q(Blocked)| - 1] in m.Q(Blocked);
    }
  }

  /** Every process is, after a step, where the diagram says, or suspended from BLOCKED if it would
      have been there and the step is one that evaluates suspension. */
  lemma EveryMove(s: State, e: Event, t: State, p: Pid)
    requires Step(s, e, t) && e != DetectorRun
    ensures Where(t, p) == Moved(s, e, p) ||
            (Evaluates(s, e) && Moved(s, e, p) == Some(Blocked) && Where(t, p) == Some(SusBlocked))
  {
    hide Inv, SuspensionCase, Placed, Evaluate, Mid, Moved;
    if Evaluates(s, e) {
      MidThenEvaluate(s, e, t);
      MidPlaced(s, e);
      MidMoves(s, e, p);
      EvaluateMoves(Mid(s, e), p);
    } else {
      PlainMoves(s, e, t, p);
    }
  }

  lemma PlainMoves(s: State, e: Event, t: State, p: Pid)
    requires Step(s, e, t) && e != DetectorRun && !Evaluates(s, e)
    ensures Where(t, p) == Moved(s, e, p)
  {
    hide Inv, SuspensionCase;
    match e
    case Admission => AdmitReady(s); AdmitMoves(s, p);
    case InitCall(q, n, v) =>
    case WaitCall(q, n) => QueuedLive(s, q, Exec);
    case PostCall(q, n) => QueuedLive(s, q, Exec); if n in s.sems { PostMoves(s, q, n, p); }
    case DestroyCall(q, n) =>
    case IoCall(q, d) =>
    case IoEnd(d) => IoDoneMoves(s, d, p);
    case CloseCall(q) => QueuedLive(s, q, Exec);
    case Departure =>
  }

  lemma AdmitMoves(s: State, p: Pid)
    requires Good(s) && Enabled(s, Admission) && (s.Q(SusReady) != [] || s.Q(New) != [])
    ensures Where(Admit(s), p) == Moved(s, Admission, p)
  {
    hide Inv, SuspensionCase, Placed, Shift;
    ShapeOf(s);
    var from := if s.Q(SusReady) != [] then SusReady else New;
    HeadStatus(s, from);
    ShiftPcbs(s, s.Q(from)[0], from, Ready);
  }

  lemma ShiftPcbs(s: State, p: Pid, from: Status, to: Status)
    ensures Shift(s, p, from, to).pcbs == SetStatus(s.pcbs, p, to)
    ensures forall k: nat, j: nat :: Shift(s.(tokens := k, slots := j), p, from, to).pcbs == SetStatus(s.pcbs, p, to)
  {
  }

  lemma PostMoves(s: State, q: Pid, n: Name, p: Pid)
    requires Good(s) && Enabled(s, PostCall(q, n)) && q in s.pcbs && n in s.sems
    ensures Where(Post(s, q, n), p) == Moved(s, PostCall(q, n), p)
  {
    hide Inv, SuspensionCase, Post;
    if s.sems[n].queue != [] {
      PostShape(s, q, n, {});
    } else {
      PostAlone(s, q, n);
    }
  }

  lemma IoDoneMoves(s: State, d: Device, p: Pid)
    requires d in s.io && s.io[d] != []
    ensures Where(IoDone(s, d), p) == Moved(s, IoEnd(d), p)
  {
  }

  /** A detection call kills its victims; of the others it wakes some waiters and leaves the rest
      where they are. */
  lemma {:induction false} DetectorMoves(s: State, p: Pid)
    requires Good(s)
    ensures Where(Detect(s), p) == (
              if p in Victims(s) then None
              else if Waiting(s, p) && !Waiting(Detect(s), p) then WokenTo(Where(s, p))
              else Where(s, p))
    decreases |s.Q(Blocked)| + |s.Q(SusBlocked)|
  {
    hide Inv, SuspensionCase, Residual, Recover;
    DetectEndsDeadlock(s);
    if DeadlockFound(Residual(s)) {
      RecoverInv(s);
      var t := Recover(s);
      DetectEndsDeadlock(t);
      DetectorMoves(t, p);
      if Waiting(s, p) { WaitsListed(s, p); }
    }
  }

  // -------------------------------------------------------------------- suspension

  /** Nobody would be ready, somebody would be new and somebody blocked, and no slot is free. */
  ghost predicate Due(s: State, e: Event)
    requires Enabled(s, e)
  {
    && s.slots == 0
    && (forall q :: Moved(s, e, q) != Some(Ready))
    && (exists q :: Moved(s, e, q) == Some(New))
    && (exists q :: Moved(s, e, q) == Some(Blocked))
  }

  lemma CaseByStatus(m: State)
    requires Placed(m, {})
    ensures SuspensionCase(m) <==>
            && m.slots == 0 && (forall q :: Where(m, q) != Some(Ready))
            && (exists q :: Where(m, q) == Some(New)) && (exists q :: Where(m, q) == Some(Blocked))
  {
    hide NoDup;
    forall st ensures m.Q(st) != [] <==> exists q :: Where(m, q) == Some(st) {
      if m.Q(st) != [] { assert m.Q(st)[0] in m.Q(st); assert Where(m, m.Q(st)[0]) == Some(st); }
      forall q | Where(m, q) == Some(st) ensures m.Q(st) != [] { assert q in m.Q(st); }
    }
  }

  lemma DueIsCase(s: State, e: Event)
    requires Good(s) && Enabled(s, e) && Evaluates(s, e)
    ensures Due(s, e) <==> SuspensionCase(Mid(s, e))
  {
    hide Inv, SuspensionCase, Placed, Mid, Moved, Where;
    var m := Mid(s, e);
    MidPlaced(s, e);
    CaseByStatus(m);
    forall q ensures Where(m, q) == Moved(s, e, q) { MidMoves(s, e, q); }
    MidSlots(s, e);
    if exists q :: Moved(s, e, q) == Some(New) {
      var q :| Moved(s, e, q) == Some(New);
      assert Where(m, q) == Some(New);
    }
    if exists q :: Where(m, q) == Some(New) {
      var q :| Where(m, q) == Some(New);
      assert Moved(s, e, q) == Some(New);
    }
    if exists q :: Moved(s, e, q) == Some(Blocked) {
      var q :| Moved(s, e, q) == Some(Blocked);
      assert Where(m, q) == Some(Blocked);
    }
    if exists q :: Where(m, q) == Some(Blocked) {
      var q :| Where(m, q) == Some(Blocked);
      assert Moved(s, e, q) == Some(Blocked);
    }
  }

  lemma MidSlots(s: State, e: Event)
    requires Good(s) && Enabled(s, e) && Evaluates(s, e)
    ensures Mid(s, e).slots == s.slots
  {
    hide Inv, SuspensionCase;
  }

  /** Whom a step would suspend: the caller that has just blocked, or else the last of BLOCKED. */
  ghost predicate LastBlocked(s: State, e: Event, p: Pid) {
    match e
    case WaitCall(q, n) => p == q
    case IoCall(q, d) => p == q
    case _ => s.Q(Blocked) != [] && p == s.Q(Blocked)[|s.Q(Blocked)| - 1]
  }

  lemma MidBlocked(s: State, e: Event, p: Pid)
    requires Good(s) && Enabled(s, e) && Evaluates(s, e) && SuspensionCase(Mid(s, e))
    ensures var q := Mid(s, e).Q(Blocked); p == q[|q| - 1] <==> LastBlocked(s, e, p)
  {
    hide Inv;
    match e
    case Arrival =>
    case Chosen(q) =>
    case WaitCall(q, n) => QueuedLive(s, q, Exec);
    case IoCall(q, d) =>
  }

  /** A step suspends p if and only if it evaluates suspension, suspension is due and p is the last
      to have blocked. */
  lemma SuspendsExactly(s: State, e: Event, t: State, p: Pid)
    requires Step(s, e, t)
    ensures JustSuspended(s, t, p) <==> e != DetectorRun && Evaluates(s, e) && Due(s, e) && LastBlocked(s, e, p)
  {
    hide Inv, SuspensionCase, Placed, Evaluate, Mid, Moved, Due, LastBlocked;
    if e == DetectorRun {
      DetectorStep(s, e, t);
      DetectSuspendsNobody(s, p);
    } else if Evaluates(s, e) {
      MidThenEvaluate(s, e, t);
      MidPlaced(s, e);
      MidMoves(s, e, p);
      EvaluateMoves(Mid(s, e), p);
      DueIsCase(s, e);
      StaysSuspended(s, e, p);
      if SuspensionCase(Mid(s, e)) { MidBlocked(s, e, p); }
    } else {
      PlainMoves(s, e, t, p);
      NoneSuspended(s, e, p);
    }
  }

  lemma DetectorStep(s: State, e: Event, t: State)
    requires Step(s, e, t) && e == DetectorRun
    ensures t == Detect(s)
  {
  }

  lemma StaysSuspended(s: State, e: Event, p: Pid)
    requires Good(s) && Enabled(s, e) && Evaluates(s, e)
    ensures Moved(s, e, p) == Some(SusBlocked) ==> Where(s, p) == Some(SusBlocked)
    ensures Moved(s, e, p) == Some(Blocked) ==> Where(s, p) != Some(SusBlocked)
  {
    hide Inv, SuspensionCase;
    match e
    case Arrival =>
    case Chosen(q) =>
    case WaitCall(q, n) => QueuedLive(s, q, Exec);
    case IoCall(q, d) => QueuedLive(s, q, Exec);
  }

  lemma NoneSuspended(s: State, e: Event, p: Pid)
    requires Enabled(s, e) && e != DetectorRun && !Evaluates(s, e)
    ensures Moved(s, e, p) == Some(SusBlocked) ==> Where(s, p) == Some(SusBlocked)
  {
  }

  /** After a step that suspends somebody READY is empty, NEW is not, and one slot is free. */
  lemma AfterSuspension(s: State, e: Event, t: State, p: Pid)
    requires Step(s, e, t) && JustSuspended(s, t, p)
    ensures t.Q(Ready) == [] && t.Q(New) != [] && t.slots == 1
  {
    hide Inv, SuspensionCase, Placed, Mid, Evaluate, Due, LastBlocked, Moved;
    SuspendsExactly(s, e, t, p);
    DueIsCase(s, e);
    MidThenEvaluate(s, e, t);
    EvaluateQueues(Mid(s, e));
    assert forall st :: t.Q(st) == Evaluate(Mid(s, e)).Q(st);
  }

  lemma EvaluateQueues(m: State)
    requires SuspensionCase(m)
    ensures Evaluate(m).Q(Ready) == [] && Evaluate(m).Q(New) != [] && Evaluate(m).slots == 1
  {
  }

  // ---------------------------------------------------------------- when, and what else

  /** When each event may happen, by the states of the processes alone. */
  lemma EnabledByState(s: State, e: Event)
    requires Good(s)
    ensures e == Admission ==>
      (Enabled(s, e) <==> s.slots > 0 && exists p :: Where(s, p) == Some(New) || Where(s, p) == Some(SusReady))
    ensures e.Chosen? ==> (Enabled(s, e) <==> Where(s, e.p) == Some(Ready))
    ensures e.InitCall? || e.WaitCall? || e.PostCall? || e.DestroyCall? || e.IoCall? || e.CloseCall? ==>
      (Enabled(s, e) <==> Where(s, e.p) == Some(Exec))
    ensures e == Departure ==> (Enabled(s, e) <==> exists p :: Where(s, p) == Some(Exit))
    ensures e == Arrival || e == DetectorRun ==> Enabled(s, e)
  {
    hide Good, Where;
    TokensExact(s);
    SomebodyIn(s, New);
    SomebodyIn(s, SusReady);
    SomebodyIn(s, Exit);
    if e.Chosen? {
      InState(s, Ready, e.p);
    } else if e.InitCall? || e.WaitCall? || e.PostCall? || e.DestroyCall? || e.IoCall? || e.CloseCall? {
      InState(s, Exec, e.p);
    }
  }

  lemma InState(s: State, st: Status, p: Pid)
    requires Good(s)
    ensures p in s.Q(st) <==> Where(s, p) == Some(st)
  {
    ShapeOf(s);
    hide Inv, SuspensionCase, NoDup, Linked, IoQueued, Positive, PidsBelow;
  }

  lemma SomebodyIn(s: State, st: Status)
    requires Good(s)
    ensures s.Q(st) != [] <==> exists p :: Where(s, p) == Some(st)
  {
    hide Good, Where;
    if s.Q(st) != [] { InState(s, st, s.Q(st)[0]); }
    forall p | Where(s, p) == Some(st) ensures s.Q(st) != [] { InState(s, st, p); }
  }

  /** The events that no request is behind. */
  predicate Background(e: Event) { e == Arrival || e == Admission || e.Chosen? || e.IoEnd? || e == Departure }

  /** They change where processes are, and nothing else about them: nobody begins or stops waiting on
      a semaphore or retaining instances, a newcomer does neither, and no semaphore changes. */
  lemma BackgroundKeeps(s: State, e: Event, t: State, p: Pid)
    requires Step(s, e, t) && Background(e)
    ensures t.sems == s.sems && t.names == s.names
    ensures p in t.pcbs && p in s.pcbs ==> t.pcbs[p].waitsOn == s.pcbs[p].waitsOn && t.pcbs[p].held == s.pcbs[p].held
    ensures p in t.pcbs && p !in s.pcbs ==> t.pcbs[p].waitsOn == None && t.pcbs[p].held == map[]
  {
    hide Inv, SuspensionCase, Shift, Evaluate;
    match e
    case Arrival => EvaluateKeeps(Mid(s, e), p); FreshPid(s);
    case Admission => AdmitReady(s); AdmitKeeps(s, p);
    case Chosen(q) => EvaluateKeeps(Mid(s, e), p); ShiftFields(s, q, Ready, Exec);
    case IoEnd(d) => IoDoneKeeps(s, d, p);
    case Departure =>
  }

  lemma AdmitKeeps(s: State, p: Pid)
    requires s.tokens > 0 && s.slots > 0 && (s.Q(SusReady) != [] || s.Q(New) != [])
    ensures var t := Admit(s); t.sems == s.sems && t.names == s.names && t.pcbs.Keys == s.pcbs.Keys
    ensures p in s.pcbs ==>
      Admit(s).pcbs[p].waitsOn == s.pcbs[p].waitsOn && Admit(s).pcbs[p].held == s.pcbs[p].held
  {
  }

  lemma IoDoneKeeps(s: State, d: Device, p: Pid)
    requires d in s.io && s.io[d] != []
    ensures var t := IoDone(s, d); t.sems == s.sems && t.names == s.names && t.pcbs.Keys == s.pcbs.Keys
    ensures p in s.pcbs ==>
      IoDone(s, d).pcbs[p].waitsOn == s.pcbs[p].waitsOn && IoDone(s, d).pcbs[p].held == s.pcbs[p].held
  {
  }

  lemma FreshPid(s: State)
    requires Inv(s, {})
    ensures s.nextPid !in s.pcbs
  {
    hide Placed, Linked, IoQueued, Listed, Positive, Counted, TokensMatch, SlotsMatch;
  }

  lemma EvaluateKeeps(m: State, p: Pid)
    ensures Evaluate(m).sems == m.sems && Evaluate(m).names == m.names && Evaluate(m).pcbs.Keys == m.pcbs.Keys
    ensures p in m.pcbs ==>
      Evaluate(m).pcbs[p].waitsOn == m.pcbs[p].waitsOn && Evaluate(m).pcbs[p].held == m.pcbs[p].held
  {
  }
}

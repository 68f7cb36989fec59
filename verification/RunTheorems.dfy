/** Whole-run theorems: where circular waits come from, when they last, and conservation. */
module RunTheorems {
  import opened Wrappers
  import opened KernelState
  import opened Steps
  import opened StepInvariants
  import opened SchedulerInvariants
  import opened DeadlockGraph
  import opened Recovery
  import opened Detection
  import opened DetectionTheorems
  import opened Conservation
  import opened Runs

  // ------------------------------------------------------- what a step touches

  /** The processes whose waiting or holdings a step may change, the detector aside. */
  ghost function Touched(s: State, e: Event): set<Pid> {
    match e
    case Arrival => {s.nextPid}
    case WaitCall(p, n) => {p}
    case PostCall(p, n) => if n in s.sems && s.sems[n].queue != [] then {p, s.sems[n].queue[0]} else {p}
    case Departure => if s.Q(Exit) != [] then {s.Q(Exit)[0]} else {}
    case _ => {}
  }

  ghost predicate OnlyTouches(s: State, t: State, x: set<Pid>) {
    forall p :: p !in x && (p in s.pcbs || p in t.pcbs) ==> SamePcb(s, t, p)
  }

  lemma StatusTouches(s: State, t: State, p: Pid, st: Status)
    requires t.pcbs == SetStatus(s.pcbs, p, st)
    ensures OnlyTouches(s, t, {})
  {
  }

  lemma EvaluateTouches(s: State)
    ensures OnlyTouches(s, Evaluate(s), {})
  {
    if SuspensionCase(s) {
      StatusTouches(s, Evaluate(s), s.Q(Blocked)[|s.Q(Blocked)| - 1], SusBlocked);
    }
  }

  lemma TouchTrans(s: State, t: State, u: State, x: set<Pid>)
    requires OnlyTouches(s, t, x) && OnlyTouches(t, u, {})
    ensures OnlyTouches(s, u, x)
  {
    forall p | p !in x && (p in s.pcbs || p in u.pcbs) ensures SamePcb(s, u, p) {
      assert p in u.pcbs ==> SamePcb(t, u, p);
      assert SamePcb(s, t, p);
      assert SamePcb(t, u, p);
    }
  }

  lemma WaitTouches(s: State, p: Pid, n: Name)
    requires p in s.pcbs && n in s.sems
    ensures OnlyTouches(s, Wait(s, p, n), {p})
  {
    var m := s.sems[n].(value := s.sems[n].value - 1);
    if m.value < 0 {
      SleepShape(s, p, n, m);
      EvaluateTouches(Sleep(s, p, n, m));
      hide Sleep, Evaluate;
      TouchTrans(s, Sleep(s, p, n, m), Evaluate(Sleep(s, p, n, m)), {p});
    }
  }

  lemma ArriveTouches(s: State)
    ensures OnlyTouches(s, Arrive(s), {s.nextPid})
  {
    var t := s.(pcbs := s.pcbs[s.nextPid := Pcb(New, None, map[])],
                qs := s.qs[New := s.Q(New) + [s.nextPid]], nextPid := s.nextPid + 1);
    EvaluateTouches(t);
    hide Evaluate;
    assert OnlyTouches(s, t, {s.nextPid});
    TouchTrans(s, t, Evaluate(t), {s.nextPid});
    assert Arrive(s).pcbs == Evaluate(t).pcbs;
  }

  lemma DispatchTouches(s: State, p: Pid)
    ensures OnlyTouches(s, Dispatch(s, p), {})
  {
    StatusTouches(s, Shift(s, p, Ready, Exec), p, Exec);
    EvaluateTouches(Shift(s, p, Ready, Exec));
    hide Evaluate, Shift;
    TouchTrans(s, Shift(s, p, Ready, Exec), Dispatch(s, p), {});
  }

  lemma CallIoTouches(s: State, p: Pid, d: Device)
    requires p in s.pcbs
    ensures OnlyTouches(s, CallIo(s, p, d), {})
  {
    if d in s.io {
      var t := IoQueue(s, p, d);
      StatusTouches(s, t, p, Blocked);
      EvaluateTouches(t);
      assert CallIo(s, p, d) == Evaluate(t);
      hide Evaluate, IoQueue, CallIo;
      TouchTrans(s, t, Evaluate(t), {});
    }
  }

  lemma TwoTouched(s: State, t: State, p: Pid, b: Pcb, h: Pid, c: Pcb)
    requires p in s.pcbs && h in s.pcbs && t.pcbs == s.pcbs[p := b][h := c]
    ensures OnlyTouches(s, t, {p, h})
  {
  }

  lemma PostTouches(s: State, p: Pid, n: Name)
    requires Good(s) && p in s.pcbs && n in s.sems
    ensures OnlyTouches(s, Post(s, p, n), Touched(s, PostCall(p, n)))
  {
    hide OnlyTouches, Inv, SuspensionCase, Release, Retain;
    if s.sems[n].queue != [] {
      PostShape(s, p, n, {});
      var h := s.sems[n].queue[0];
      TwoTouched(s, Post(s, p, n), p, Release(s.pcbs[p], n), h, Post(s, p, n).pcbs[h]);
    } else {
      TwoTouched(s, Post(s, p, n), p, Release(s.pcbs[p], n), p, Release(s.pcbs[p], n));
      assert {p, p} == {p};
    }
  }

  lemma StepTouches(s: State, e: Event, t: State)
    requires Step(s, e, t) && e != DetectorRun
    ensures OnlyTouches(s, t, Touched(s, e))
  {
    hide Inv, SuspensionCase, OnlyTouches;
    match e
    case Arrival => ArriveTouches(s);
    case Admission => AdmitReady(s); AdmitTouches(s);
    case Chosen(p) => DispatchTouches(s, p);
    case InitCall(p, n, v) => NoneTouched(s, t);
    case WaitCall(p, n) =>
      QueuedLive(s, p, Exec);
      if n in s.sems { WaitTouches(s, p, n); } else { SomeTouched(s, {p}); }
    case PostCall(p, n) =>
      QueuedLive(s, p, Exec);
      if n in s.sems { PostTouches(s, p, n); } else { SomeTouched(s, {p}); }
    case DestroyCall(p, n) => NoneTouched(s, t);
    case IoCall(p, d) => QueuedLive(s, p, Exec); CallIoTouches(s, p, d);
    case IoEnd(d) => IoDoneTouches(s, d);
    case CloseCall(p) => StatusTouches(s, t, p, Exit);
    case Departure => DepartTouches(s);
  }

  lemma NoneTouched(s: State, t: State)
    requires t.pcbs == s.pcbs
    ensures OnlyTouches(s, t, {})
  {
  }

  lemma SomeTouched(s: State, x: set<Pid>)
    ensures OnlyTouches(s, s, x)
  {
  }

  lemma DepartTouches(s: State)
    requires s.Q(Exit) != []
    ensures OnlyTouches(s, FreeExit(s), {s.Q(Exit)[0]})
  {
  }

  lemma AdmitTouches(s: State)
    requires s.tokens > 0 && s.slots > 0 && (s.Q(SusReady) != [] || s.Q(New) != [])
    ensures OnlyTouches(s, Admit(s), {})
  {
    StatusTouches(s, Admit(s), if s.Q(SusReady) != [] then s.Q(SusReady)[0] else s.Q(New)[0], Ready);
  }

  lemma IoDoneTouches(s: State, d: Device)
    requires d in s.io && s.io[d] != []
    ensures OnlyTouches(s, IoDone(s, d), {})
  {
    var h := s.io[d][0];
    if HasStatus(s, h, SusBlocked) {
      StatusTouches(s, IoDone(s, d), h, SusReady);
    } else if HasStatus(s, h, Blocked) {
      StatusTouches(s, IoDone(s, d), h, Ready);
    }
  }

  // ------------------------------------------------- only a wait makes a cycle

  /** The running process blocks on this step. */
  ghost predicate Blocks(s: State, e: Event, p: Pid) {
    e.WaitCall? && e.p == p && e.n in s.sems && s.sems[e.n].value <= 0
  }

  /** A process that begins to wait does so in its own blocking SEM_WAIT. */
  lemma BeginsToWait(s: State, e: Event, t: State, p: Pid)
    requires Step(s, e, t) && e != DetectorRun && p in Touched(s, e) && Waiting(t, p)
    ensures Blocks(s, e, p)
  {
    hide Inv, SuspensionCase;
    match e {
      case Arrival => ArriveNew(s);
      case WaitCall(q, n) =>
        QueuedLive(s, q, Exec);
      case PostCall(q, n) =>
        QueuedLive(s, q, Exec);
        if n in s.sems { PostNotWaiting(s, q, n); }
      case Departure =>
    }
  }

  lemma ArriveNew(s: State)
    ensures s.nextPid in Arrive(s).pcbs && !Waiting(Arrive(s), s.nextPid)
  {
  }

  lemma PostNotWaiting(s: State, p: Pid, n: Name)
    requires Good(s) && p in s.pcbs && n in s.sems && !Waiting(s, p)
    ensures !Waiting(Post(s, p, n), p)
    ensures s.sems[n].queue != [] ==> !Waiting(Post(s, p, n), s.sems[n].queue[0])
  {
    hide Inv, SuspensionCase, Post, Release, Retain, Shift;
    if s.sems[n].queue != [] {
      PostShape(s, p, n, {});
      ReleaseRetainWaits(s.pcbs[p], n);
      ReleaseRetainWaits(Pcb(Ready, None, map[]), n);
    } else {
      PostAlone(s, p, n);
      ReleaseRetainWaits(s.pcbs[p], n);
    }
  }

  lemma ReleaseRetainWaits(b: Pcb, n: Name)
    ensures Release(b, n).waitsOn == b.waitsOn && forall c :: Retain(c, n).waitsOn == c.waitsOn
  {
  }

  /** Over every step, only a blocking wait can create a circular wait, and a new one
      passes through the process that just blocked; no detector run creates one. */
  lemma OnlyWaitsCreate(s: State, e: Event, t: State, c: seq<Pid>)
    requires Step(s, e, t) && CircularWait(t, c)
    ensures CircularWait(s, c) || exists p :: p in c && Blocks(s, e, p)
  {
    hide Inv, SuspensionCase, CircularWait, Apply;
    if e == DetectorRun {
      assert t == Detect(s) by { DetectorApplies(s, e, t); }
      DetectEndsDeadlock(s);
    } else if !exists p :: p in c && Blocks(s, e, p) {
      StepTouches(s, e, t);
      CircularWaiters(t, c);
      forall p | p in c ensures SamePcb(s, t, p) {
        if p in Touched(s, e) {
          BeginsToWait(s, e, t, p);
          assert false;
        }
      }
      SameEdges(s, t, c);
    }
  }

  lemma DetectorApplies(s: State, e: Event, t: State)
    requires Step(s, e, t) && e == DetectorRun
    ensures t == Detect(s)
  {
  }

  lemma CircularWaiters(s: State, c: seq<Pid>)
    requires CircularWait(s, c)
    ensures forall p :: p in c ==> Waiting(s, p)
  {
    forall p | p in c ensures Waiting(s, p) {
      var q, r := Neighbours(GraphOf(s), c, p);
    }
  }

  /** A circular wait at the end of a run was created by a blocking wait of one of its
      processes, unless it was there from the start. */
  lemma {:induction false} CycleHasItsWait(ss: seq<State>, es: seq<Event>, c: seq<Pid>) returns (i: nat, p: Pid)
    requires Run(ss, es) && CircularWait(ss[|es|], c) && !CircularWait(ss[0], c)
    ensures i < |es| && p in c && Blocks(ss[i], es[i], p)
    ensures forall j :: i < j < |ss| ==> CircularWait(ss[j], c)
    ensures !CircularWait(ss[i], c)
    decreases |es|
  {
    hide CircularWait, Blocks, Step;
    var k := |es| - 1;
    assert Step(ss[k], es[k], ss[k + 1]);
    if CircularWait(ss[k], c) {
      assert Run(ss[..|es|], es[..k]) by {
        forall j | 0 <= j < k ensures Step(ss[..|es|][j], es[..k][j], ss[..|es|][j + 1]) {
          assert Step(ss[j], es[j], ss[j + 1]);
        }
      }
      i, p := CycleHasItsWait(ss[..|es|], es[..k], c);
      forall j | i < j < |ss| ensures CircularWait(ss[j], c) {
        if j < |es| { assert ss[..|es|][j] == ss[j]; }
      }
    } else {
      OnlyWaitsCreate(ss[k], es[k], ss[k + 1], c);
      i := k;
      p :| p in c && Blocks(ss[k], es[k], p);
    }
  }

  // -------------------------------------------------------------- conservation

  /** What a step adds to the books of n: a post by somebody who retains no instance makes
      one, a process that leaves the system takes its own along. */
  ghost function StepDelta(s: State, e: Event, n: Name): int {
    match e
    case PostCall(p, k) => if k == n && !Retains(s, p, n) then 1 else 0
    case Departure => if s.Q(Exit) != [] && s.Q(Exit)[0] in s.pcbs then -HeldBy(s.pcbs[s.Q(Exit)[0]], n) else 0
    case _ => 0
  }

  lemma StatusBooks(s: State, t: State, p: Pid, st: Status, n: Name)
    requires n in s.sems && t.sems == s.sems && t.pcbs == SetStatus(s.pcbs, p, st)
    ensures Books(t, n) == Books(s, n)
  {
    SetStatusHeld(s.pcbs, p, st, n);
  }

  lemma ArriveBooks(s: State, n: Name)
    requires Good(s) && n in s.sems
    ensures n in Arrive(s).sems && Books(Arrive(s), n) == Books(s, n)
  {
    hide Inv, SuspensionCase, Evaluate, Books;
    NextFree(s);
    var t := s.(pcbs := s.pcbs[s.nextPid := Pcb(New, None, map[])],
                qs := s.qs[New := s.Q(New) + [s.nextPid]], nextPid := s.nextPid + 1);
    NewcomerBooks(s, t, n);
    EvaluateBooks(t, n);
    SameBooks(Evaluate(t), Arrive(s), n);
  }

  lemma NextFree(s: State)
    requires Inv(s, {})
    ensures s.nextPid !in s.pcbs
  {
    hide Placed, Linked, IoQueued, Listed, Positive, Counted, TokensMatch, SlotsMatch;
  }

  lemma NewcomerBooks(s: State, t: State, n: Name)
    requires s.nextPid !in s.pcbs && n in s.sems && t.sems == s.sems
    requires t.pcbs == s.pcbs[s.nextPid := Pcb(New, None, map[])]
    ensures Books(t, n) == Books(s, n)
  {
    HeldUpdate(s.pcbs, s.nextPid, Pcb(New, None, map[]), n);
  }

  lemma DispatchBooks(s: State, p: Pid, n: Name)
    requires n in s.sems
    ensures n in Dispatch(s, p).sems && Books(Dispatch(s, p), n) == Books(s, n)
  {
    StatusBooks(s, Shift(s, p, Ready, Exec), p, Exec, n);
    EvaluateBooks(Shift(s, p, Ready, Exec), n);
    hide Evaluate;
  }

  lemma CallIoBooks(s: State, p: Pid, d: Device, n: Name)
    requires n in s.sems && p in s.pcbs
    ensures n in CallIo(s, p, d).sems && Books(CallIo(s, p, d), n) == Books(s, n)
  {
    if d in s.io {
      StatusBooks(s, IoQueue(s, p, d), p, Blocked, n);
      EvaluateBooks(IoQueue(s, p, d), n);
      hide Evaluate;
    }
  }

  lemma IoDoneBooks(s: State, d: Device, n: Name)
    requires d in s.io && s.io[d] != [] && n in s.sems
    ensures n in IoDone(s, d).sems && Books(IoDone(s, d), n) == Books(s, n)
  {
    var h := s.io[d][0];
    SetStatusHeld(s.pcbs, h, Ready, n);
    SetStatusHeld(s.pcbs, h, SusReady, n);
  }

  lemma AdmitBooks(s: State, n: Name)
    requires s.tokens > 0 && s.slots > 0 && (s.Q(SusReady) != [] || s.Q(New) != []) && n in s.sems
    ensures n in Admit(s).sems && Books(Admit(s), n) == Books(s, n)
  {
    var p := if s.Q(SusReady) != [] then s.Q(SusReady)[0] else s.Q(New)[0];
    SetStatusHeld(s.pcbs, p, Ready, n);
  }

  lemma DepartBooks(s: State, n: Name)
    requires Good(s) && s.Q(Exit) != [] && n in s.sems
    ensures Books(FreeExit(s), n) == Books(s, n) + StepDelta(s, Departure, n)
  {
    assert s.Q(Exit)[0] in s.Q(Exit);
    QueuedLive(s, s.Q(Exit)[0], Exit);
    hide Inv;
    HeldRemove(s.pcbs, s.Q(Exit)[0], n);
  }

  /** Value, waiters and retained instances of a semaphore change together: every step, the
      detector's kills included, moves their sum by StepDelta. */
  lemma StepConserves(s: State, e: Event, t: State, n: Name)
    requires Step(s, e, t) && n in s.sems && n in t.sems
    ensures Books(t, n) == Books(s, n) + StepDelta(s, e, n)
  {
    hide Inv, SuspensionCase, Books;
    match e
    case Arrival => ArriveBooks(s, n);
    case Admission => AdmitReady(s); AdmitBooks(s, n);
    case Chosen(p) => DispatchBooks(s, p, n);
    case InitCall(p, k, v) => SameBooks(s, t, n);
    case WaitCall(p, k) => QueuedLive(s, p, Exec); if k in s.sems { WaitBooks(s, p, k, n); }
    case PostCall(p, k) => QueuedLive(s, p, Exec); if k in s.sems { PostBooks(s, p, k, n, {}); }
    case DestroyCall(p, k) => SameBooks(s, t, n);
    case IoCall(p, d) => QueuedLive(s, p, Exec); CallIoBooks(s, p, d, n);
    case IoEnd(d) => IoDoneBooks(s, d, n);
    case CloseCall(p) => StatusBooks(s, t, p, Exit, n);
    case Departure => DepartBooks(s, n);
    case DetectorRun => DetectBooks(s, n);
  }

  lemma SameBooks(s: State, t: State, n: Name)
    requires n in s.sems && n in t.sems && t.sems[n] == s.sems[n] && t.pcbs == s.pcbs
    ensures Books(t, n) == Books(s, n)
  {
  }

  ghost function DeltaSum(ss: seq<State>, es: seq<Event>, n: Name): int
    requires |ss| == |es| + 1
  {
    if es == [] then 0 else StepDelta(ss[0], es[0], n) + DeltaSum(ss[1..], es[1..], n)
  }

  /** Over any run that keeps n in the system the books of n change by the sum of the deltas. */
  lemma {:induction false} RunConserves(ss: seq<State>, es: seq<Event>, n: Name)
    requires Run(ss, es) && forall i :: 0 <= i < |ss| ==> n in ss[i].sems
    ensures Books(ss[|es|], n) == Books(ss[0], n) + DeltaSum(ss, es, n)
    decreases |es|
  {
    hide Books, Step, StepDelta;
    if es != [] {
      assert Step(ss[0], es[0], ss[0 + 1]);
      StepConserves(ss[0], es[0], ss[1], n);
      assert Run(ss[1..], es[1..]) by {
        forall j | 0 <= j < |es| - 1 ensures Step(ss[1..][j], es[1..][j], ss[1..][j + 1]) {
          assert Step(ss[j + 1], es[j + 1], ss[j + 1 + 1]);
        }
      }
      RunConserves(ss[1..], es[1..], n);
    }
  }

  /** A semaphore that nobody retains yet starts with its initial value in the books. */
  lemma InitOpensBooks(s: State, n: Name, v: int)
    requires n !in s.sems && forall p :: !Retains(s, p, n)
    ensures Books(SemInit(s, n, v), n) == v
  {
    NothingHeld(s.pcbs, n) by {
      assert forall p :: p in s.pcbs && n in s.pcbs[p].held ==> Retains(s, p, n);
    }
  }

  lemma {:induction false} NothingHeld(m: map<Pid, Pcb>, n: Name)
    requires forall p :: p in m ==> n !in m[p].held
    ensures HeldTotal(m, n) == 0
    decreases |m|
  {
    if m.Keys != {} {
      var p :| p in m.Keys;
      assert (m - {p}).Keys == m.Keys - {p};
      HeldSplit(m, p, n);
      NothingHeld(m - {p}, n);
    }
  }

  /** For a non-negative initial value: what is free plus what is retained equals the initial
      value plus the posts by non-holders less what departed holders took along. */
  lemma FreePlusRetained(s: State, n: Name)
    requires Good(s) && n in s.sems && s.sems[n].initial >= 0
    ensures Books(s, n) == Max0(s.sems[n].value) + HeldTotal(s.pcbs, n)
  {
    hide Placed, Linked, IoQueued, Listed, Positive, TokensMatch, SlotsMatch, PidsBelow;
    assert SemLaw(s.sems[n]);
  }
}

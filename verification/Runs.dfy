/** The kernel as a state machine: its events, its runs, and what every run keeps. */
module Runs {
  import opened Lists
  import opened KernelState
  import opened Steps
  import opened StepInvariants
  import opened SchedulerInvariants
  import opened Detection
  import opened DetectionTheorems

  /** One atomic step: a client request, a planner's hand-off, a device, or the detector. */
  datatype Event =
    | Arrival
    | Admission
    | Chosen(p: Pid)
    | InitCall(p: Pid, n: Name, v: int)
    | WaitCall(p: Pid, n: Name)
    | PostCall(p: Pid, n: Name)
    | DestroyCall(p: Pid, n: Name)
    | IoCall(p: Pid, d: Device)
    | IoEnd(d: Device)
    | CloseCall(p: Pid)
    | Departure
    | DetectorRun

  ghost predicate Enabled(s: State, e: Event) {
    match e
    case Arrival => true
    case Admission => s.tokens > 0 && s.slots > 0
    case Chosen(p) => p in s.Q(Ready)
    case InitCall(p, n, v) => p in s.Q(Exec)
    case WaitCall(p, n) => p in s.Q(Exec)
    case PostCall(p, n) => p in s.Q(Exec)
    case DestroyCall(p, n) => p in s.Q(Exec)
    case IoCall(p, d) => p in s.Q(Exec)
    case IoEnd(d) => d in s.io && s.io[d] != []
    case CloseCall(p) => p in s.Q(Exec)
    case Departure => s.Q(Exit) != []
    case DetectorRun => true
  }

  lemma QueuedLive(s: State, p: Pid, st: Status)
    requires Inv(s, {}) && p in s.Q(st)
    ensures p in s.pcbs && s.pcbs[p].status == st && (!Asleep(st) ==> !Waiting(s, p))
  {
    hide IoQueued, Listed, Positive, Counted, TokensMatch, SlotsMatch, PidsBelow, NoDup;
  }

  /** A request that names no semaphore of the system changes nothing. */
  ghost function Apply(s: State, e: Event): State
    requires Good(s) && Enabled(s, e)
  {
    match e
    case Arrival => Arrive(s)
    case Admission => AdmitReady(s); Admit(s)
    case Chosen(p) => Dispatch(s, p)
    case InitCall(p, n, v) => SemInit(s, n, v)
    case WaitCall(p, n) => QueuedLive(s, p, Exec); if n in s.sems then Wait(s, p, n) else s
    case PostCall(p, n) => QueuedLive(s, p, Exec); if n in s.sems then Post(s, p, n) else s
    case DestroyCall(p, n) => SemDestroy(s, n)
    case IoCall(p, d) => QueuedLive(s, p, Exec); CallIo(s, p, d)
    case IoEnd(d) => IoDone(s, d)
    case CloseCall(p) => QueuedLive(s, p, Exec); Close(s, p)
    case Departure => FreeExit(s)
    case DetectorRun => Detect(s)
  }

  /** Good(s) only makes Apply defined: GoodStep and GoodInitial show it is no restriction. */
  ghost predicate Step(s: State, e: Event, t: State) {
    Good(s) && Enabled(s, e) && t == Apply(s, e)
  }

  ghost predicate Run(ss: seq<State>, es: seq<Event>) {
    |ss| == |es| + 1 && forall i :: 0 <= i < |es| ==> Step(ss[i], es[i], ss[i + 1])
  }

  lemma GoodInitial(degree: nat, devices: set<Device>)
    ensures Good(Initial(degree, devices))
  {
    var s := Initial(degree, devices);
    assert forall st :: s.Q(st) == [];
    assert forall p :: !OnDevice(s.io, p);
  }

  /** Every step, the detector's included, leads from a good state to a good state. */
  lemma GoodStep(s: State, e: Event)
    requires Good(s) && Enabled(s, e)
    ensures Good(Apply(s, e))
  {
    hide Inv, SuspensionCase;
    match e
    case Arrival => ArriveInv(s);
    case Admission => AdmitInv(s);
    case Chosen(p) => DispatchInv(s, p);
    case InitCall(p, n, v) => SemInitInv(s, n, v);
    case WaitCall(p, n) => if n in s.sems { WaitInv(s, p, n); }
    case PostCall(p, n) => QueuedLive(s, p, Exec); if n in s.sems { PostInv(s, p, n, {}); }
    case DestroyCall(p, n) => SemDestroyInv(s, n);
    case IoCall(p, d) => CallIoInv(s, p, d);
    case IoEnd(d) => IoDoneInv(s, d);
    case CloseCall(p) => QueuedLive(s, p, Exec); CloseInv(s, p);
    case Departure => FreeExitInv(s);
    case DetectorRun => DetectEndsDeadlock(s);
  }

  /** Every state of every run from the initial state is good. */
  lemma {:induction false} RunGood(ss: seq<State>, es: seq<Event>, degree: nat, devices: set<Device>, i: nat)
    requires Run(ss, es) && ss[0] == Initial(degree, devices) && i < |ss|
    ensures Good(ss[i])
    decreases i
  {
    hide Good;
    if i == 0 {
      GoodInitial(degree, devices);
    } else {
      RunGood(ss, es, degree, devices, i - 1);
      assert Step(ss[i - 1], es[i - 1], ss[i - 1 + 1]);
      GoodStep(ss[i - 1], es[i - 1]);
    }
  }
}

/** A CPU serving the requests of the process it runs, until one takes the CPU away. */
module Service {
  import opened Wrappers
  import opened Lists
  import opened KernelState
  import Steps
  import opened StepInvariants
  import opened SchedulerInvariants
  import opened Runs
  import opened KernelObjects
  import opened KernelOps
  import opened Scheduler

  /** A message of the client. Memory requests are forwarded and change nothing here; Unknown
      is any other operation code. */
  datatype Request =
    | InitSem(n: Name, v: int)
    | WaitSem(n: Name)
    | PostSem(n: Name)
    | DestroySem(n: Name)
    | UseDevice(d: Device)
    | Memory
    | Unknown
    | MateClose

  /** The event of the state machine that a request is, if it is one. */
  function EventOf(p: Pid, r: Request): Option<Event> {
    match r
    case InitSem(n, v) => Some(InitCall(p, n, v))
    case WaitSem(n) => Some(WaitCall(p, n))
    case PostSem(n) => Some(PostCall(p, n))
    case DestroySem(n) => Some(DestroyCall(p, n))
    case UseDevice(d) => Some(IoCall(p, d))
    case MateClose => Some(CloseCall(p))
    case _ => None
  }

  ghost function Served(s: State, p: Pid, r: Request): State
    requires Good(s) && p in s.Q(Exec)
  {
    if EventOf(p, r).Some? then Apply(s, EventOf(p, r).value) else s
  }

  /** Requests after which the CPU looks for another process. */
  predicate Yields(s: State, r: Request) {
    match r
    case WaitSem(n) => n in s.sems && s.sems[n].value - 1 < 0
    case UseDevice(d) => true
    case Unknown => true
    case MateClose => true
    case _ => false
  }

  // ------------------------------------------------------------- who keeps the CPU

  lemma EvaluateKeepsExec(s: State)
    ensures Steps.Evaluate(s).Q(Exec) == s.Q(Exec)
  {
  }

  /** A shift out of EXEC removes the process from it; one between other queues leaves it. */
  lemma ShiftExec(s: State, p: Pid, from: Status, to: Status)
    requires to != Exec && NoDup(s.Q(from))
    ensures from == Exec ==> p !in Steps.Shift(s, p, from, to).Q(Exec)
    ensures from != Exec ==> Steps.Shift(s, p, from, to).Q(Exec) == s.Q(Exec)
  {
    RemoveNoDup(s.Q(from), p);
    hide NoDup, Remove;
  }

  lemma QueueOnce(s: State, st: Status)
    requires Inv(s, {})
    ensures NoDup(s.Q(st))
  {
    hide Linked, IoQueued, Listed, Positive, Counted, TokensMatch, SlotsMatch, PidsBelow, NoDup;
  }

  lemma WaitExec(s: State, p: Pid, n: Name)
    requires Good(s) && p in s.Q(Exec) && p in s.pcbs && n in s.sems
    ensures p in Steps.Wait(s, p, n).Q(Exec) <==> s.sems[n].value - 1 >= 0
  {
    var m := s.sems[n].(value := s.sems[n].value - 1);
    hide Inv, SuspensionCase, NoDup;
    QueueOnce(s, Exec);
    if m.value < 0 {
      ShiftExec(s, p, Exec, Blocked);
      EvaluateKeepsExec(Steps.Sleep(s, p, n, m));
      hide Steps.Evaluate, Steps.Shift;
    }
  }

  lemma PostExec(s: State, p: Pid, n: Name)
    requires Good(s) && p in s.pcbs && n in s.sems
    ensures Steps.Post(s, p, n).Q(Exec) == s.Q(Exec)
  {
    hide Inv, SuspensionCase, NoDup, Steps.Shift;
    if s.sems[n].queue != [] {
      hide Steps.Post, Steps.GiveBack;
      PostShape(s, p, n, {});
      var h := s.sems[n].queue[0];
      QueueOnce(s, s.pcbs[h].status);
      ShiftExec(s, h, s.pcbs[h].status, WokenStatus(s.pcbs[h].status));
    }
  }

  lemma CallIoExec(s: State, p: Pid, d: Device)
    requires Good(s) && d in s.io
    ensures p !in Steps.CallIo(s, p, d).Q(Exec)
  {
    hide Inv, SuspensionCase, NoDup;
    QueueOnce(s, Exec);
    ShiftExec(s, p, Exec, Blocked);
    EvaluateKeepsExec(IoQueue(s, p, d));
    hide Steps.Evaluate, Steps.Shift;
  }

  lemma UnknownDevice(s: State, p: Pid, d: Device)
    requires d !in s.io
    ensures Steps.CallIo(s, p, d) == s
  {
  }

  /** The CPU looks for another process exactly when the process has left EXEC or has sent an unknown
      operation code or asked for an unknown device; in these two cases the process stays in
      EXEC and nothing changes. */
  lemma YieldsWhenGone(s: State, p: Pid, r: Request)
    requires Good(s) && p in s.Q(Exec)
    ensures Yields(s, r) <==> p !in Served(s, p, r).Q(Exec) || r == Unknown || (r.UseDevice? && r.d !in s.io)
    ensures r == Unknown || (r.UseDevice? && r.d !in s.io) ==> Served(s, p, r) == s
  {
    hide Inv, SuspensionCase, Steps.Wait, Steps.Post, Steps.CallIo, Steps.Close;
    QueuedLive(s, p, Exec);
    match r
    case WaitSem(n) => if n in s.sems { WaitExec(s, p, n); }
    case PostSem(n) => if n in s.sems { PostExec(s, p, n); }
    case UseDevice(d) => if d in s.io { CallIoExec(s, p, d); } else { UnknownDevice(s, p, d); }
    case MateClose => CloseExec(s, p);
    case _ =>
  }

  lemma CloseExec(s: State, p: Pid)
    requires Good(s)
    ensures p !in Steps.Close(s, p).Q(Exec)
  {
    hide Inv, SuspensionCase, NoDup, Steps.Shift;
    QueueOnce(s, Exec);
    ShiftExec(s, p, Exec, Exit);
  }

  // ---------------------------------------------------------------- the handler

  /** SEM_INIT and SEM_DESTROY. */
  method ManageSemaphore(k: Kernel, x: Process, r: Request)
    requires k.WellFormed() && Good(k.Model()) && k.Live(x) && x.pid in k.Model().Q(Exec)
    requires r.InitSem? || r.DestroySem?
    modifies k`byName, k`semaphores
    ensures k.WellFormed() && k.live == old(k.live) && fresh(k.byName.Values - old(k.byName.Values))
    ensures k.Model() == Served(old(k.Model()), x.pid, r)
  {
    hide Kernel.WellFormed, Kernel.Model, Good, Steps.SemInit, Steps.SemDestroy;
    if r.InitSem? {
      SemInit(k, r.n, r.v);
    } else {
      FewerValues(k.byName, r.n);
      SemDestroy(k, r.n);
    }
  }

  /** __realizar_tarea and MATE_CLOSE: tells whether the CPU is to look for another process. */
  method Serve(k: Kernel, x: Process, r: Request) returns (gives: bool)
    requires k.WellFormed() && Good(k.Model()) && k.Live(x) && x.pid in k.Model().Q(Exec)
    modifies k`queues, k`slots, k`tokens, k`io, k`byName, k`semaphores, k.live.Values, k.byName.Values
    ensures k.WellFormed() && k.live == old(k.live) && fresh(k.byName.Values - old(k.byName.Values))
    ensures k.Model() == Served(old(k.Model()), x.pid, r)
    ensures gives <==> Yields(old(k.Model()), r)
  {
    hide Kernel.WellFormed, Kernel.Model, Good;
    hide Steps.Wait, Steps.Post, Steps.CallIo, Steps.Close, Steps.SemInit, Steps.SemDestroy;
    k.ProcessFacts(x);
    gives := false;
    match r
    case WaitSem(n) => gives := WaitOn(k, x, n);
    case PostSem(n) => PostOn(k, x, n);
    case UseDevice(d) =>
      CallIo(k, x, d);
      gives := true;
    case Memory =>
    case Unknown => gives := true;
    case MateClose =>
      Close(k, x);
      gives := true;
    case _ => ManageSemaphore(k, x, r);
  }

  lemma FewerValues(m: map<Name, Semaphore>, n: Name)
    ensures (m - {n}).Values <= m.Values
  {
  }

  /** SEM_WAIT: a name that is not in the system is only logged. */
  method WaitOn(k: Kernel, x: Process, n: Name) returns (blocks: bool)
    requires k.WellFormed() && k.Live(x) && x.pid in k.Model().pcbs
    modifies k`queues, k`slots, k.live.Values, k.byName.Values
    ensures k.WellFormed() && k.SameObjects()
    ensures n in old(k.Model()).sems ==> k.Model() == Steps.Wait(old(k.Model()), x.pid, n)
    ensures n !in old(k.Model()).sems ==> k.Model() == old(k.Model())
    ensures blocks <==> n in old(k.Model()).sems && old(k.Model()).sems[n].value - 1 < 0
  {
    hide Kernel.WellFormed, Kernel.Model, Steps.Wait;
    var i := FindSemaphore(k, n);
    blocks := false;
    if i != -1 {
      k.WaiterFacts(k.semaphores[i]);
      blocks := SemWait(k, k.semaphores[i], x);
    }
  }

  /** SEM_POST, likewise. */
  method PostOn(k: Kernel, x: Process, n: Name)
    requires k.WellFormed() && k.Live(x) && x.pid in k.Model().pcbs
    modifies k`queues, k`tokens, k.live.Values, k.byName.Values
    ensures k.WellFormed() && k.SameObjects()
    ensures n in old(k.Model()).sems ==> k.Model() == Steps.Post(old(k.Model()), x.pid, n)
    ensures n !in old(k.Model()).sems ==> k.Model() == old(k.Model())
  {
    hide Kernel.WellFormed, Kernel.Model, Steps.Post;
    var i := FindSemaphore(k, n);
    if i != -1 {
      var woken := SemPost(k, k.semaphores[i], x);
    }
  }

  // -------------------------------------------------------------------- the loop

  /** The events of a list of requests by p, in order. */
  function EventsOf(p: Pid, rs: seq<Request>): seq<Event> {
    if rs == [] then []
    else
      var e := EventOf(p, rs[|rs| - 1]);
      EventsOf(p, rs[..|rs| - 1]) + if e.Some? then [e.value] else []
  }

  /** The states between the requests: p runs before each, and none but the last gives the CPU up. */
  ghost predicate ServedInTurn(ts: seq<State>, p: Pid, rs: seq<Request>) {
    && |ts| == |rs| + 1
    && (forall i :: 0 <= i < |rs| ==> Good(ts[i]) && p in ts[i].Q(Exec) && ts[i + 1] == Served(ts[i], p, rs[i]))
    && (forall i :: 0 <= i < |rs| - 1 ==> !Yields(ts[i], rs[i]))
  }

  lemma OneMoreServed(ts: seq<State>, p: Pid, rs: seq<Request>, r: Request)
    requires ServedInTurn(ts, p, rs) && (rs != [] ==> !Yields(ts[|rs| - 1], rs[|rs| - 1]))
    requires Good(ts[|rs|]) && p in ts[|rs|].Q(Exec)
    ensures ServedInTurn(ts + [Served(ts[|rs|], p, r)], p, rs + [r])
  {
    hide Good, Served, Yields;
    var us, qs := ts + [Served(ts[|rs|], p, r)], rs + [r];
    forall i | 0 <= i < |qs| ensures Good(us[i]) && p in us[i].Q(Exec) && us[i + 1] == Served(us[i], p, qs[i]) {
      if i < |rs| { assert us[i + 1] == ts[i + 1]; }
    }
    forall i | 0 <= i < |qs| - 1 ensures !Yields(us[i], qs[i]) {
      if i < |rs| - 1 { assert !Yields(ts[i], rs[i]); }
    }
  }

  lemma RequestEnabled(s: State, p: Pid, r: Request)
    requires Good(s) && p in s.Q(Exec)
    ensures if EventOf(p, r).Some? then Step(s, EventOf(p, r).value, Served(s, p, r)) else Served(s, p, r) == s
    ensures Good(Served(s, p, r))
  {
    hide Good;
    if EventOf(p, r).Some? { GoodStep(s, EventOf(p, r).value); }
  }

  lemma RunExtends(ss: seq<State>, es: seq<Event>, e: Event, t: State)
    requires Run(ss, es) && Step(ss[|es|], e, t)
    ensures Run(ss + [t], es + [e])
  {
    hide Step;
    var ts, fs := ss + [t], es + [e];
    forall i | 0 <= i < |fs| ensures Step(ts[i], fs[i], ts[i + 1]) {
      if i < |es| { assert Step(ss[i], es[i], ss[i + 1]); }
    }
  }

  /** Serving requests in turn is a run of the state machine, with their events in their order. */
  lemma {:induction false} ServedIsRun(ts: seq<State>, p: Pid, rs: seq<Request>) returns (ss: seq<State>)
    requires ServedInTurn(ts, p, rs)
    ensures Run(ss, EventsOf(p, rs)) && ss[0] == ts[0] && ss[|EventsOf(p, rs)|] == ts[|rs|]
    decreases |rs|
  {
    hide Good, Served, Yields, Step;
    if rs == [] {
      ss := ts;
    } else {
      var k := |rs| - 1;
      var front := ServedIsRun(ts[..k + 1], p, rs[..k]);
      assert ts[k + 1] == Served(ts[k], p, rs[k]);
      RequestEnabled(ts[k], p, rs[k]);
      if EventOf(p, rs[k]).Some? {
        RunExtends(front, EventsOf(p, rs[..k]), EventOf(p, rs[k]).value, ts[k + 1]);
        ss := front + [ts[k + 1]];
      } else {
        ss := front;
        assert EventsOf(p, rs) == EventsOf(p, rs[..k]);
      }
    }
  }

  /** One message more. */
  method AttendOne(k: Kernel, x: Process, r: Request, ghost ts: seq<State>, ghost rs: seq<Request>)
    returns (gives: bool, ghost us: seq<State>)
    requires k.WellFormed() && Good(k.Model()) && k.Live(x) && x.pid in k.Model().Q(Exec)
    requires |ts| == |rs| + 1 && ServedInTurn(ts, x.pid, rs) && ts[|rs|] == k.Model()
    requires rs != [] ==> !Yields(ts[|rs| - 1], rs[|rs| - 1])
    modifies k`queues, k`slots, k`tokens, k`io, k`byName, k`semaphores, k.live.Values, k.byName.Values
    ensures k.WellFormed() && k.live == old(k.live) && fresh(k.byName.Values - old(k.byName.Values))
    ensures Good(k.Model()) && us == ts + [k.Model()] && ServedInTurn(us, x.pid, rs + [r])
    ensures gives <==> Yields(old(k.Model()), r)
    ensures !gives ==> x.pid in k.Model().Q(Exec)
  {
    hide Kernel.WellFormed, Kernel.Model, Good, Served, ServedInTurn, Yields;
    YieldsWhenGone(k.Model(), x.pid, r);
    RequestEnabled(k.Model(), x.pid, r);
    OneMoreServed(ts, x.pid, rs, r);
    gives := Serve(k, x, r);
    us := ts + [k.Model()];
  }

  lemma GoesOn(ts: seq<State>, p: Pid, rs: seq<Request>, i: nat)
    requires ServedInTurn(ts, p, rs) && i < |rs| - 1
    ensures !rs[i].UseDevice? && rs[i] != Unknown && rs[i] != MateClose
    ensures rs[i].WaitSem? && rs[i].n in ts[i].sems ==> ts[i].sems[rs[i].n].value > 0
  {
    hide Good, Served;
    assert !Yields(ts[i], rs[i]);
  }

  /** __atender_peticiones_del_carpincho over the messages rs: the first of them are served in turn
      while there are any. Nothing is served after MATE_CLOSE, an operation code that is not
      known, a request for a device, known or not, or a wait on a semaphore with no instance left;
      and only such a message stops the service. */
  method Attend(k: Kernel, x: Process, rs: seq<Request>) returns (served: nat, ghost ts: seq<State>)
    requires k.WellFormed() && Good(k.Model()) && k.Live(x) && x.pid in k.Model().Q(Exec)
    modifies k`queues, k`slots, k`tokens, k`io, k`byName, k`semaphores, k.live.Values, k.byName.Values
    ensures k.WellFormed() && k.live == old(k.live) && Good(k.Model())
    ensures served <= |rs| && |ts| == served + 1 && ServedInTurn(ts, x.pid, rs[..served])
    ensures ts[0] == old(k.Model()) && ts[served] == k.Model()
    ensures forall i :: 0 <= i < served - 1 ==> !rs[i].UseDevice? && rs[i] != Unknown && rs[i] != MateClose
    ensures forall i :: 0 <= i < served - 1 && rs[i].WaitSem? && rs[i].n in ts[i].sems ==>
      ts[i].sems[rs[i].n].value > 0
    ensures served < |rs| ==> served > 0
    ensures served < |rs| ==> var r, s := rs[served - 1], ts[served - 1];
      r.UseDevice? || r == Unknown || r == MateClose || (r.WaitSem? && r.n in s.sems && s.sems[r.n].value <= 0)
  {
    hide Kernel.WellFormed, Kernel.Model, Good, ServedInTurn, Yields;
    served, ts := 0, [k.Model()];
    NothingServed(k.Model(), x.pid, rs);
    var gives := false;
    while !gives && served < |rs|
      invariant k.WellFormed() && k.live == old(k.live) && Good(k.Model()) && served <= |rs|
      invariant |ts| == served + 1 && ServedInTurn(ts, x.pid, rs[..served])
      invariant ts[0] == old(k.Model()) && ts[served] == k.Model()
      invariant fresh(k.byName.Values - old(k.byName.Values))
      invariant gives <==> served > 0 && Yields(ts[served - 1], rs[served - 1])
      invariant !gives ==> x.pid in k.Model().Q(Exec)
      decreases |rs| - served
    {
      gives, ts := AttendOne(k, x, rs[served], ts, rs[..served]);
      assert rs[..served + 1] == rs[..served] + [rs[served]];
      served := served + 1;
    }
    forall i | 0 <= i < served - 1
      ensures !rs[i].UseDevice? && rs[i] != Unknown && rs[i] != MateClose
      ensures rs[i].WaitSem? && rs[i].n in ts[i].sems ==> ts[i].sems[rs[i].n].value > 0
    {
      GoesOn(ts, x.pid, rs[..served], i);
    }
    if gives { YieldsFor(ts[served - 1], rs[served - 1]); }
  }

  lemma YieldsFor(s: State, r: Request)
    requires Yields(s, r)
    ensures r.UseDevice? || r == Unknown || r == MateClose || (r.WaitSem? && r.n in s.sems && s.sems[r.n].value <= 0)
  {
  }

  lemma NothingServed(s: State, p: Pid, rs: seq<Request>)
    ensures ServedInTurn([s], p, rs[..0])
  {
  }
}

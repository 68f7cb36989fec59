/** The objects carry out every event of the state machine, and so every run of it. */
module Machine {
  import opened Wrappers
  import opened KernelState
  import Steps
  import opened SchedulerInvariants
  import opened Detection
  import opened Runs
  import opened KernelObjects
  import opened Scheduler
  import opened DetectorOps
  import opened Service

  /** The process with PID p, known to be in the queue of st. */
  method FindProcess(k: Kernel, st: Status, p: Pid) returns (x: Process)
    requires k.WellFormed() && p in k.Model().Q(st)
    ensures k.Live(x) && x.pid == p
  {
    k.QueueFacts(st);
    hide Kernel.WellFormed, Kernel.Model;
    var q := k.Queue(st);
    ghost var at: nat :| at < |q| && Pids(q)[at] == p;
    var i := 0;
    while q[i].pid != p
      invariant 0 <= i <= at
      decreases at - i
    {
      i := i + 1;
    }
    x := q[i];
  }

  /** The process p, running, makes the request r. */
  method Request(k: Kernel, p: Pid, r: Request)
    requires k.WellFormed() && Good(k.Model()) && p in k.Model().Q(Exec)
    modifies k`queues, k`slots, k`tokens, k`io, k`byName, k`semaphores, k.live.Values, k.byName.Values
    ensures k.WellFormed() && k.live == old(k.live) && fresh(k.byName.Values - old(k.byName.Values))
    ensures k.Model() == Served(old(k.Model()), p, r)
  {
    hide Kernel.WellFormed, Kernel.Model, Good, Served;
    var x := FindProcess(k, Exec, p);
    var gives := Serve(k, x, r);
  }

  /** The request that an event is, if a running process makes it. */
  function RequestOf(e: Event): Option<(Pid, Request)> {
    match e
    case InitCall(p, n, v) => Some((p, InitSem(n, v)))
    case WaitCall(p, n) => Some((p, WaitSem(n)))
    case PostCall(p, n) => Some((p, PostSem(n)))
    case DestroyCall(p, n) => Some((p, DestroySem(n)))
    case IoCall(p, d) => Some((p, UseDevice(d)))
    case CloseCall(p) => Some((p, MateClose))
    case _ => None
  }

  lemma RequestIsEvent(s: State, e: Event)
    requires Good(s) && Enabled(s, e) && RequestOf(e).Some?
    ensures var p := RequestOf(e).value.0; p in s.Q(Exec) && Served(s, p, RequestOf(e).value.1) == Apply(s, e)
  {
    hide Good;
  }

  /** The end of the burst of d, which has to begin first if it has not. */
  method FinishBurst(k: Kernel, d: Device)
    requires k.WellFormed() && d in k.Model().io && k.Model().io[d] != []
    modifies k`queues, k`tokens, k`io, k`serving, k.live.Values
    ensures k.WellFormed() && k.SameObjects()
    ensures k.Model() == Steps.IoDone(old(k.Model()), d)
  {
    k.IoFacts(d);
    hide Kernel.WellFormed, Kernel.Model, Steps.IoDone;
    if d !in k.serving { StartBurst(k, d); }
    IoDone(k, d);
  }

  /** The events that no process asks for. */
  method Background(k: Kernel, e: Event)
    requires k.WellFormed() && Good(k.Model()) && Enabled(k.Model(), e) && RequestOf(e).None?
    modifies k`queues, k`slots, k`tokens, k`io, k`serving, k`nextPid, k`live, k.live.Values, k.byName.Values
    ensures k.WellFormed() && k.Model() == Apply(old(k.Model()), e)
    ensures fresh(k.live.Values - old(k.live.Values)) && k.byName == old(k.byName)
  {
    hide Kernel.WellFormed, Kernel.Model, Good;
    hide Steps.Arrive, Steps.Admit, Steps.Dispatch, Steps.IoDone, Steps.FreeExit, Detect;
    match e
    case Arrival => var x := Arrive(k);
    case Admission => AdmitReady(k.Model()); AdmitNext(k);
    case Chosen(p) => var x := FindProcess(k, Ready, p); Dispatch(k, x);
    case IoEnd(d) => FinishBurst(k, d);
    case Departure => FreeExit(k);
    case DetectorRun => DetectAndRecover(k);
  }

  /** Any event that may happen, happens to the objects as to the abstract state. */
  method Perform(k: Kernel, e: Event)
    requires k.WellFormed() && Good(k.Model()) && Enabled(k.Model(), e)
    modifies k, k.live.Values, k.byName.Values
    ensures k.WellFormed() && Step(old(k.Model()), e, k.Model()) && Good(k.Model())
    ensures fresh(k.live.Values - old(k.live.Values)) && fresh(k.byName.Values - old(k.byName.Values))
  {
    hide Kernel.WellFormed, Kernel.Model, Good, Apply, Enabled, Served;
    GoodStep(k.Model(), e);
    if RequestOf(e).Some? {
      RequestIsEvent(k.Model(), e);
      Request(k, RequestOf(e).value.0, RequestOf(e).value.1);
    } else {
      Background(k, e);
    }
  }

  lemma StepIsFunction(s: State, e: Event, t: State, u: State)
    requires Step(s, e, t) && Step(s, e, u)
    ensures t == u
  {
  }

  lemma StepEnabled(s: State, e: Event, t: State)
    requires Step(s, e, t)
    ensures Enabled(s, e)
  {
  }

  /** iniciar_planificacion and then any run of the state machine: the objects go through the
      states of the run. */
  method Simulate(degree: nat, devices: set<Device>, es: seq<Event>, ghost ss: seq<State>) returns (k: Kernel)
    requires Run(ss, es) && ss[0] == Initial(degree, devices)
    ensures fresh(k) && k.WellFormed() && k.Model() == ss[|es|]
  {
    k := new Kernel(degree, devices);
    GoodInitial(degree, devices);
    hide Kernel.WellFormed, Kernel.Model, Good, Step, Enabled;
    var i := 0;
    while i < |es|
      invariant 0 <= i <= |es| && k.WellFormed() && Good(k.Model()) && k.Model() == ss[i]
      invariant fresh(k.live.Values) && fresh(k.byName.Values)
    {
      assert Step(ss[i], es[i], ss[i + 1]);
      StepEnabled(ss[i], es[i], ss[i + 1]);
      Perform(k, es[i]);
      StepIsFunction(ss[i], es[i], k.Model(), ss[i + 1]);
      i := i + 1;
    }
  }
}

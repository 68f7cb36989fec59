/** The planners and the request handler, on the objects. Each method is one event of the
    state machine. */
module Scheduler {
  import opened Wrappers
  import opened Lists
  import opened KernelState
  import Steps
  import opened KernelObjects
  import opened KernelOps

  // -------------------------------------------------------------------- lookups

  lemma SemaphoreFacts(k: Kernel, n: Name)
    requires k.WellFormed()
    ensures n in k.Model().sems <==> n in k.byName
    ensures n in k.byName <==> n in Names(k.semaphores)
    ensures forall i :: 0 <= i < |k.semaphores| ==> k.Known(k.semaphores[i])
  {
    hide Kernel.QueuesLive, Kernel.IoLive, Kernel.WaitersLive, Kernel.PcbMap, Kernel.QueueMap, Kernel.IoMap;
    if n in Names(k.semaphores) {
      var i :| 0 <= i < |k.semaphores| && Names(k.semaphores)[i] == n;
      assert k.Known(k.semaphores[i]);
    }
  }

  /** list_get_index over the system's semaphores: the first position of the name, or -1. */
  method FindSemaphore(k: Kernel, n: Name) returns (i: int)
    requires k.WellFormed()
    ensures -1 <= i < |k.semaphores| && (i == -1 <==> n !in k.Model().sems)
    ensures i >= 0 ==> k.semaphores[i].name == n && k.Known(k.semaphores[i])
    ensures forall j :: 0 <= j < i ==> k.semaphores[j].name != n
  {
    SemaphoreFacts(k, n);
    hide Kernel.WellFormed, Kernel.Model;
    i := 0;
    while i < |k.semaphores|
      invariant 0 <= i <= |k.semaphores| && forall j :: 0 <= j < i ==> k.semaphores[j].name != n
    {
      if k.semaphores[i].name == n { return; }
      i := i + 1;
    }
    i := -1;
  }

  /** __get_and_remove_first_pcb_from_queue: null on an empty queue. */
  method TakeFirst(k: Kernel, st: Status) returns (x: Process?)
    requires k.WellFormed()
    modifies k`queues
    ensures k.WellFormed() && k.SameObjects()
    ensures x == null <==> old(k.Model()).Q(st) == []
    ensures x == null ==> k.Model() == old(k.Model())
    ensures x != null ==> k.Live(x) && x.pid == old(k.Model()).Q(st)[0]
    ensures x != null ==> k.Model() == PutQueue(old(k.Model()), st, old(k.Model()).Q(st)[1..])
  {
    k.QueueFacts(st);
    hide Kernel.WellFormed, Kernel.Model;
    x := null;
    if k.Queue(st) != [] {
      x := k.Queue(st)[0];
      assert Pids(k.Queue(st)[1..]) == Pids(k.Queue(st))[1..];
      k.SetQueue(st, k.Queue(st)[1..]);
    }
  }

  // ------------------------------------------------------------------- long term

  lemma FreshPid(k: Kernel)
    requires k.WellFormed() && Good(k.Model())
    ensures k.nextPid !in k.live && k.nextPid == k.Model().nextPid
  {
    hide Placed, Linked, IoQueued, Listed, Positive, Counted, TokensMatch, SlotsMatch;
    assert k.Model().nextPid !in k.Model().pcbs;
  }

  ghost function Entered(s: State): State {
    var a := s.(pcbs := s.pcbs[s.nextPid := Pcb(New, None, map[])], nextPid := s.nextPid + 1);
    PutQueue(a, New, a.Q(New) + [s.nextPid])
  }

  ghost function Announced(s: State): State {
    var t := Steps.Evaluate(s);
    t.(tokens := t.tokens + 1)
  }

  lemma ArriveSteps(s: State)
    ensures Announced(Entered(s)) == Steps.Arrive(s)
  {
    hide Steps.Evaluate;
  }

  /** A process with the next PID joins NEW. */
  method EnterNew(k: Kernel) returns (x: Process)
    requires k.WellFormed() && k.nextPid !in k.live
    modifies k`queues, k`live, k`nextPid
    ensures k.WellFormed() && k.byName == old(k.byName) && k.semaphores == old(k.semaphores)
    ensures fresh(x) && k.live == old(k.live)[x.pid := x] && x.pid == old(k.nextPid)
    ensures k.Model() == Entered(old(k.Model()))
  {
    assert k.nextPid == k.Model().nextPid;
    hide Kernel.WellFormed, Kernel.Model, PutQueue;
    x := k.CreateProcess();
    k.Enqueue(New, x);
  }

  /** Suspension is evaluated before the long-term planner gets its token. */
  method Announce(k: Kernel)
    requires k.WellFormed()
    modifies k`queues, k`slots, k`tokens, k.live.Values
    ensures k.WellFormed() && k.SameObjects()
    ensures k.Model() == Announced(old(k.Model()))
  {
    hide Kernel.WellFormed, Kernel.Model, Steps.Evaluate;
    EvaluateSuspension(k);
    k.AddToken();
  }

  /** encolar_en_new_nuevo_carpincho_entrante */
  method Arrive(k: Kernel) returns (x: Process)
    requires k.WellFormed() && Good(k.Model())
    modifies k`queues, k`live, k`nextPid, k`slots, k`tokens, k.live.Values
    ensures k.WellFormed() && k.Model() == Steps.Arrive(old(k.Model()))
    ensures fresh(x) && k.live == old(k.live)[x.pid := x] && x.pid == old(k.nextPid)
    ensures k.byName == old(k.byName) && k.semaphores == old(k.semaphores)
  {
    FreshPid(k);
    ArriveSteps(k.Model());
    hide Kernel.WellFormed, Kernel.Model, Entered, Announced, Steps.Arrive, Good;
    x := EnterNew(k);
    Announce(k);
  }

  /** The first process of a queue goes to READY. */
  ghost function MadeReady(s: State, from: Status): State
    requires s.Q(from) != []
  {
    var b := PutStatus(PutQueue(s, from, s.Q(from)[1..]), s.Q(from)[0], Ready);
    PutQueue(b, Ready, b.Q(Ready) + [s.Q(from)[0]])
  }

  lemma AdmitSteps(s: State, from: Status)
    requires s.tokens > 0 && s.slots > 0 && s.Q(from) != []
    requires from == if s.Q(SusReady) != [] then SusReady else New
    ensures var a := s.(tokens := s.tokens - 1, slots := s.slots - 1);
      a.Q(from) == s.Q(from) && MadeReady(a, from) == Steps.Admit(s)
  {
  }

  lemma CounterFacts(k: Kernel)
    requires k.WellFormed()
    ensures k.slots == k.Model().slots && k.tokens == k.Model().tokens
  {
  }

  method NextSource(k: Kernel) returns (from: Status)
    requires k.WellFormed()
    ensures from == if k.Model().Q(SusReady) != [] then SusReady else New
  {
    k.QueueFacts(SusReady);
    hide Kernel.WellFormed, Kernel.Model;
    from := if k.Queue(SusReady) != [] then SusReady else New;
  }

  method TakeToReady(k: Kernel, from: Status)
    requires k.WellFormed() && k.Model().Q(from) != []
    modifies k`queues, k.live.Values
    ensures k.WellFormed() && k.SameObjects()
    ensures k.Model() == MadeReady(old(k.Model()), from)
  {
    hide Kernel.WellFormed, Kernel.Model, PutQueue, PutStatus, Pids;
    var x := TakeFirst(k, from);
    k.Transition(x, Ready);
    k.Enqueue(Ready, x);
  }

  /** One round of the long-term planner: a suspended-ready process goes before a new one. */
  method AdmitNext(k: Kernel)
    requires k.WellFormed() && k.Model().tokens > 0 && k.Model().slots > 0
    requires k.Model().Q(SusReady) != [] || k.Model().Q(New) != []
    modifies k`queues, k`slots, k`tokens, k.live.Values
    ensures k.WellFormed() && k.SameObjects()
    ensures k.Model() == Steps.Admit(old(k.Model()))
  {
    hide Kernel.WellFormed, Kernel.Model, Steps.Admit, MadeReady;
    CounterFacts(k);
    var from := NextSource(k);
    AdmitSteps(k.Model(), from);
    k.TakeSlotAndToken();
    TakeToReady(k, from);
  }

  // ------------------------------------------------------------------ short term

  /** One round of a CPU: the chosen process runs. */
  method Dispatch(k: Kernel, x: Process)
    requires k.WellFormed() && k.Live(x)
    modifies k`queues, k`slots, k.live.Values
    ensures k.WellFormed() && k.SameObjects()
    ensures k.Model() == Steps.Dispatch(old(k.Model()), x.pid)
  {
    hide Kernel.WellFormed, Kernel.Model, Steps.Shift, Steps.Evaluate;
    Move(k, x, Ready, Exec);
    EvaluateSuspension(k);
  }

  // -------------------------------------------------------------------- requests

  method SemInit(k: Kernel, n: Name, v: int)
    requires k.WellFormed()
    modifies k`byName, k`semaphores
    ensures k.WellFormed() && k.live == old(k.live) && fresh(k.byName.Values - old(k.byName.Values))
    ensures k.Model() == Steps.SemInit(old(k.Model()), n, v)
  {
    SemaphoreFacts(k, n);
    hide Kernel.WellFormed, Kernel.Model;
    var i := FindSemaphore(k, n);
    if i == -1 {
      k.CreateSemaphore(n, v);
    }
  }

  lemma UniqueNames(k: Kernel)
    requires k.WellFormed() && Good(k.Model())
    ensures NoDup(Names(k.semaphores))
  {
    hide Placed, Linked, IoQueued, Counted, Positive, TokensMatch, SlotsMatch, PidsBelow, NoDup;
  }

  lemma NobodyWaits(k: Kernel, m: Semaphore)
    requires k.WellFormed() && k.Known(m)
    ensures m.name in k.Model().sems && (k.Model().sems[m.name].queue == [] <==> m.queue == [])
  {
    k.WaiterFacts(m);
  }

  lemma DestroySteps(s: State, n: Name)
    ensures n in s.sems && s.sems[n].queue == [] ==>
      Steps.SemDestroy(s, n) == s.(sems := s.sems - {n}, names := Remove(s.names, n))
    ensures n !in s.sems || s.sems[n].queue != [] ==> Steps.SemDestroy(s, n) == s
  {
  }

  /** SEM_DESTROY: refused while somebody waits. */
  method SemDestroy(k: Kernel, n: Name)
    requires k.WellFormed() && Good(k.Model())
    modifies k`byName, k`semaphores
    ensures k.WellFormed() && k.live == old(k.live) && (k.byName == old(k.byName) || k.byName == old(k.byName) - {n})
    ensures k.Model() == Steps.SemDestroy(old(k.Model()), n)
  {
    hide Kernel.WellFormed, Kernel.Model, Remove, NoDup, Good, Names, Steps.SemDestroy;
    UniqueNames(k);
    DestroySteps(k.Model(), n);
    var i := FindSemaphore(k, n);
    if i != -1 {
      NobodyWaits(k, k.semaphores[i]);
      if k.semaphores[i].queue == [] {
        k.DropSemaphore(i);
      }
    }
  }

  lemma CallIoSteps(s: State, p: Pid, d: Device)
    requires d in s.io
    ensures var a := PutStatus(PutQueue(s, Exec, Remove(s.Q(Exec), p)), p, Blocked);
      var b := PutQueue(a, Blocked, a.Q(Blocked) + [p]);
      && d in b.io
      && Steps.Evaluate(PutIo(b, d, b.io[d] + [p])) == Steps.CallIo(s, p, d)
  {
    hide Steps.Evaluate;
  }

  /** __encolar_pcb_a_dispositivo_io: an unknown device is only logged. */
  method CallIo(k: Kernel, x: Process, d: Device)
    requires k.WellFormed() && k.Live(x)
    modifies k`queues, k`slots, k`io, k.live.Values
    ensures k.WellFormed() && k.SameObjects()
    ensures k.Model() == Steps.CallIo(old(k.Model()), x.pid, d)
  {
    k.IoFacts(d);
    if d in k.io {
      CallIoSteps(k.Model(), x.pid, d);
      hide Kernel.WellFormed, Kernel.Model, PutQueue, PutStatus, PutIo, Steps.Evaluate, Steps.CallIo;
      k.Dequeue(Exec, x);
      k.Transition(x, Blocked);
      k.Enqueue(Blocked, x);
      k.PushIo(d, x);
      EvaluateSuspension(k);
    }
  }

  lemma IoDoneSteps(s: State, d: Device)
    requires d in s.io && s.io[d] != []
    ensures Shifted(PutIo(s, d, s.io[d][1..]), s.io[d][0]) == Steps.IoDone(s, d)
  {
  }

  /** The thread of a device takes the first process of its queue; it had none in service. */
  method StartBurst(k: Kernel, d: Device)
    requires k.WellFormed() && d in k.Model().io && k.Model().io[d] != [] && d !in k.serving
    modifies k`io, k`serving
    ensures k.WellFormed() && k.SameObjects() && d in k.serving && k.io.Keys == old(k.io.Keys)
    ensures k.Model() == old(k.Model())
  {
    k.IoFacts(d);
    hide Kernel.WellFormed, Kernel.Model;
    k.StartService(d);
  }

  /** The burst of the process in service ends and it is woken, according to its status by now. */
  method IoDone(k: Kernel, d: Device)
    requires k.WellFormed() && d in k.io && d in k.serving
    modifies k`queues, k`tokens, k`serving, k.live.Values
    ensures k.WellFormed() && k.SameObjects() && d !in k.serving
    ensures d in old(k.Model()).io && old(k.Model()).io[d] != []
    ensures k.Model() == Steps.IoDone(old(k.Model()), d)
  {
    hide Kernel.WellFormed, Kernel.Model, PutIo, Steps.IoDone, Shifted;
    ghost var s := k.Model();
    var x := k.EndService(d);
    IoDoneSteps(s, d);
    WakeUp(k, x);
  }

  // -------------------------------------------------------------------- the exit

  /** p is in no queue of any kind. */
  ghost predicate Nowhere(s: State, p: Pid) {
    && (forall st :: p !in s.Q(st))
    && (forall d :: d in s.io ==> p !in s.io[d])
    && (forall n :: n in s.sems ==> p !in s.sems[n].queue)
  }

  lemma PidListed(q: seq<Process>, x: Process)
    requires x in q
    ensures x.pid in Pids(q)
  {
    var i :| 0 <= i < |q| && q[i] == x;
    assert Pids(q)[i] == x.pid;
  }

  /** A process in no queue of the abstract state is referred to by no list of the system. */
  lemma NowhereUnqueued(k: Kernel, x: Process)
    requires k.WellFormed() && Nowhere(k.Model(), x.pid)
    ensures k.Unqueued(x)
  {
    forall st | st in k.queues ensures x !in k.queues[st] {
      k.QueueFacts(st);
      if x in k.queues[st] { PidListed(k.queues[st], x); }
    }
    forall d | d in k.io ensures x !in k.Line(d) {
      k.IoFacts(d);
      if x in k.Line(d) { PidListed(k.Line(d), x); }
    }
    forall n | n in k.byName ensures x !in k.byName[n].queue {
      k.WaiterFacts(k.byName[n]);
      if x in k.byName[n].queue { PidListed(k.byName[n].queue, x); }
    }
  }

  /** Once off the exit queue, a finished process is nowhere. */
  lemma FinishedNowhere(s: State)
    requires Good(s) && s.Q(Exit) != []
    ensures Nowhere(PutQueue(s, Exit, s.Q(Exit)[1..]), s.Q(Exit)[0])
    ensures s.Q(Exit)[0] in s.pcbs
  {
    hide Listed, Positive, Counted, TokensMatch, SlotsMatch, PidsBelow, SuspensionCase;
    var p := s.Q(Exit)[0];
    var t := PutQueue(s, Exit, s.Q(Exit)[1..]);
    assert p in s.Q(Exit);
    assert s.pcbs[p].status == Exit;
    assert p !in s.Q(Exit)[1..];
    forall st ensures p !in t.Q(st) {
      if st != Exit { assert t.Q(st) == s.Q(st); }
    }
    assert !OnDevice(s.io, p);
    assert !Waiting(s, p);
    forall n | n in t.sems ensures p !in t.sems[n].queue { assert !WaitsFor(s, p, n); }
  }

  lemma FreeExitSteps(s: State)
    requires s.Q(Exit) != []
    ensures var a := PutQueue(s, Exit, s.Q(Exit)[1..]); var b := a.(pcbs := a.pcbs - {s.Q(Exit)[0]});
      b.(slots := b.slots + 1) == Steps.FreeExit(s)
  {
  }

  /** __liberar_carpinchos_en_exit: the process is freed and nothing refers to it any more. */
  method FreeExit(k: Kernel)
    requires k.WellFormed() && Good(k.Model()) && k.Model().Q(Exit) != []
    modifies k`queues, k`slots, k`live
    ensures k.WellFormed() && k.Model() == Steps.FreeExit(old(k.Model()))
    ensures k.live == old(k.live) - {old(k.Model()).Q(Exit)[0]}
    ensures k.byName == old(k.byName) && k.semaphores == old(k.semaphores)
  {
    FinishedNowhere(k.Model());
    FreeExitSteps(k.Model());
    hide Kernel.WellFormed, Kernel.Model, PutQueue, Steps.FreeExit, Good, Nowhere, Kernel.Unqueued;
    var x := TakeFirst(k, Exit);
    NowhereUnqueued(k, x);
    k.DestroyProcess(x);
    k.AddSlot();
  }

  method Close(k: Kernel, x: Process)
    requires k.WellFormed() && k.Live(x)
    modifies k`queues, x`status
    ensures k.WellFormed() && k.SameObjects()
    ensures k.Model() == Steps.Close(old(k.Model()), x.pid)
  {
    Move(k, x, Exec, Exit);
  }
}

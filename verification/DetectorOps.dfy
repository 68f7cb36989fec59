/** Detection and recovery on the objects, against the functions of Recovery and Detection. */
module DetectorOps {
  import opened Lists
  import opened KernelState
  import Steps
  import opened DeadlockGraph
  import opened Recovery
  import opened Detection
  import opened KernelObjects
  import opened KernelOps
  import opened Scheduler
  import opened DetectorLoops

  // ------------------------------------------------------------ the two lists

  lemma LiveDepicted(k: Kernel, q: seq<Process>)
    requires k.WellFormed() && k.AllLive(q)
    ensures Depicts(GraphOf(k.Model()), q)
  {
    hide Kernel.WellFormed, Kernel.Model;
    forall i | 0 <= i < |q| ensures DepictsOne(GraphOf(k.Model()), q[i]) {
      k.ProcessFacts(q[i]);
    }
  }

  /** list_filter by pcb_espera_algun_semaforo. */
  method Sleepers(k: Kernel, q: seq<Process>) returns (r: seq<Process>)
    requires k.WellFormed() && k.AllLive(q)
    ensures k.AllLive(r) && var s := k.Model(); Pids(r) == Filter(Pids(q), (p: Pid) => Waiting(s, p))
  {
    hide Kernel.WellFormed, Kernel.Model;
    ghost var s := k.Model();
    ghost var waits := (p: Pid) => Waiting(s, p);
    r := [];
    var i := 0;
    while i < |q|
      invariant 0 <= i <= |q| && k.AllLive(r) && Pids(r) == Filter(Pids(q)[..i], waits)
    {
      k.ProcessFacts(q[i]);
      FilterStep(Pids(q), waits, i);
      if q[i].waitsOn != null {
        assert Pids(r + [q[i]]) == Pids(r) + [q[i].pid];
        r := r + [q[i]];
      }
      i := i + 1;
    }
    assert Pids(q)[..i] == Pids(q);
  }

  lemma FilterStep<T>(s: seq<T>, keep: T -> bool, i: nat)
    requires i < |s|
    ensures Filter(s[..0], keep) == []
    ensures Filter(s[..i + 1], keep) == Filter(s[..i], keep) + if keep(s[i]) then [s[i]] else []
  {
    assert s[..i + 1] == s[..i] + [s[i]];
    FilterAppend(s[..i], [s[i]], keep);
  }

  /** The processes that wait on a semaphore, blocked ones first, and all the semaphores. */
  method DetectorLists(k: Kernel) returns (pcbs: seq<Process>, sems: seq<Semaphore>)
    requires k.WellFormed()
    ensures k.AllLive(pcbs)
    ensures Pids(pcbs) == DeadlockPcbs(k.Model()) && Names(sems) == k.Model().names
  {
    hide Kernel.WellFormed, Kernel.Model;
    k.QueueFacts(Blocked);
    k.QueueFacts(SusBlocked);
    NamesKnown(k);
    var a := Sleepers(k, k.Queue(Blocked));
    var b := Sleepers(k, k.Queue(SusBlocked));
    pcbs, sems := a + b, k.semaphores;
    assert Pids(a + b) == Pids(a) + Pids(b);
  }

  // --------------------------------------------------------------- detaching

  /** __deadlock_eliminar_pcb_de_lista: removal by PID, and whether it was there. */
  method UnlinkPid(q: seq<Process>, p: Pid) returns (r: seq<Process>, found: bool)
    ensures Pids(r) == Remove(Pids(q), p) && (found <==> p in Pids(q))
    ensures forall x :: x in r ==> x in q
  {
    var i := 0;
    while i < |q|
      invariant 0 <= i <= |q| && p !in Pids(q)[..i]
    {
      if q[i].pid == p {
        RemoveAtIndex(Pids(q), p, i);
        r, found := q[..i] + q[i + 1..], true;
        assert Pids(r) == Pids(q)[..i] + Pids(q)[i + 1..];
        assert p == Pids(q)[i];
        return;
      }
      i := i + 1;
    }
    assert Pids(q)[..i] == Pids(q);
    RemoveAbsent(Pids(q), p);
    r, found := q, false;
  }

  lemma StillLive(k: Kernel, q: seq<Process>, r: seq<Process>)
    requires k.AllLive(q) && forall x :: x in r ==> x in q
    ensures k.AllLive(r)
  {
    forall i | 0 <= i < |r| ensures k.Live(r[i]) { assert r[i] in q; }
  }

  /** Off the scheduling queue: the slot of a blocked victim is freed, a suspended one had none. */
  ghost function OffQueue(s: State, v: Pid): State {
    if v in s.Q(Blocked) then
      var t := PutQueue(s, Blocked, Remove(s.Q(Blocked), v));
      t.(slots := t.slots + 1)
    else PutQueue(s, SusBlocked, Remove(s.Q(SusBlocked), v))
  }

  method LeaveQueue(k: Kernel, p: Pid)
    requires k.WellFormed()
    modifies k`queues, k`slots
    ensures k.WellFormed() && k.SameObjects()
    ensures k.Model() == OffQueue(old(k.Model()), p)
  {
    hide Kernel.WellFormed, Kernel.Model, PutQueue;
    k.QueueFacts(Blocked);
    k.QueueFacts(SusBlocked);
    var q, found := UnlinkPid(k.Queue(Blocked), p);
    if found {
      StillLive(k, k.Queue(Blocked), q);
      k.SetQueue(Blocked, q);
      k.AddSlot();
    } else {
      q, found := UnlinkPid(k.Queue(SusBlocked), p);
      StillLive(k, k.Queue(SusBlocked), q);
      k.SetQueue(SusBlocked, q);
    }
  }

  /** Off the waiting queue of n, whose value is put right. */
  ghost function OffSemaphore(s: State, v: Pid, n: Name): State
    requires n in s.sems
  {
    var t := PutSem(s, n, s.sems[n].(queue := Remove(s.sems[n].queue, v)));
    PutSem(t, n, t.sems[n].(value := t.sems[n].value + 1))
  }

  method LeaveSemaphore(k: Kernel, m: Semaphore, p: Pid)
    requires k.WellFormed() && k.Known(m)
    modifies m`queue, m`value
    ensures k.WellFormed() && k.SameObjects() && m.name in old(k.Model()).sems
    ensures k.Model() == OffSemaphore(old(k.Model()), p, m.name)
  {
    hide Kernel.WellFormed, Kernel.Model, PutSem;
    k.WaiterFacts(m);
    var q, found := UnlinkPid(m.queue, p);
    StillLive(k, m.queue, q);
    k.SetWaiters(m, q);
    k.AddInstances(m, 1);
  }

  /** v waits on a semaphore of the system. */
  ghost predicate WaitsKnown(s: State, v: Pid) { Waiting(s, v) && s.pcbs[v].waitsOn.value in s.sems }

  lemma DetachSteps(s: State, v: Pid)
    requires WaitsKnown(s, v)
    ensures OffQueue(s, v).sems == s.sems
    ensures OffSemaphore(OffQueue(s, v), v, s.pcbs[v].waitsOn.value) == Detach(s, v)
  {
    var n := s.pcbs[v].waitsOn.value;
    assert s.sems[n := s.sems[n].(queue := Remove(s.sems[n].queue, v))]
        [n := s.sems[n].(value := s.sems[n].value + 1, queue := Remove(s.sems[n].queue, v))]
        == s.sems[n := s.sems[n].(value := s.sems[n].value + 1, queue := Remove(s.sems[n].queue, v))];
  }

  /** The once-only block of __deadlock_recuperarse_del_deadlock. */
  method DetachVictim(k: Kernel, x: Process)
    requires k.WellFormed() && k.Live(x) && WaitsKnown(k.Model(), x.pid)
    modifies k`queues, k`slots, k.byName.Values
    ensures k.WellFormed() && k.SameObjects()
    ensures k.Model() == Detach(old(k.Model()), x.pid)
  {
    hide Kernel.WellFormed, Kernel.Model, OffQueue, OffSemaphore, Detach;
    k.ProcessFacts(x);
    DetachSteps(k.Model(), x.pid);
    LeaveQueue(k, x.pid);
    var i := FindSemaphore(k, x.waitsOn.name);
    LeaveSemaphore(k, k.semaphores[i], x.pid);
  }

  // ----------------------------------------------------------------- releasing

  /** __deadlock_liberar_instancias_que_retiene */
  method ReleaseInstances(k: Kernel, m: Semaphore, x: Process)
    requires k.WellFormed() && k.Live(x) && k.Known(m) && m.name in x.held
    modifies k`queues, k`tokens, k.live.Values, m`value, m`queue
    ensures k.WellFormed() && k.SameObjects()
    ensures x.pid in old(k.Model()).pcbs && m.name in old(k.Model()).sems
    ensures k.Model() == PostTimes(old(k.Model()), x.pid, m.name, Count(old(k.Model()), x.pid, m.name))
  {
    hide Kernel.WellFormed, Kernel.Model, Steps.Post;
    k.ProcessFacts(x);
    k.WaiterFacts(m);
    ghost var s := k.Model();
    var left := x.held[m.name];
    while left > 0
      invariant k.WellFormed() && k.SameObjects() && left <= old(x.held)[m.name]
      invariant x.pid in k.Model().pcbs && m.name in k.Model().sems
      invariant PostTimes(k.Model(), x.pid, m.name, Max0(left)) == PostTimes(s, x.pid, m.name, Count(s, x.pid, m.name))
    {
      var woken := SemPost(k, m, x);
      left := left - 1;
    }
  }

  lemma NamesKnown(k: Kernel)
    requires k.WellFormed()
    ensures forall n :: n in k.Model().names ==> n in k.Model().sems
    ensures k.Model().names == Names(k.semaphores)
  {
    forall n | n in k.Model().names ensures n in k.Model().sems { SemaphoreFacts(k, n); }
  }

  /** What the victim holds of the semaphore at position i is released, after the removal block
      if that has not run yet. */
  method ReleaseOne(k: Kernel, x: Process, i: nat, removed: bool) returns (removedNow: bool)
    requires k.WellFormed() && k.Live(x) && i < |k.semaphores| && (removed || WaitsKnown(k.Model(), x.pid))
    requires x.pid in k.Model().pcbs && (forall n :: n in k.Model().names ==> n in k.Model().sems)
    requires k.Model().names == Names(k.semaphores)
    modifies k`queues, k`slots, k`tokens, k.live.Values, k.byName.Values
    ensures k.WellFormed() && k.SameObjects() && (!removedNow ==> !removed && k.Model() == old(k.Model()))
    ensures x.pid in k.Model().pcbs && (forall n :: n in k.Model().names ==> n in k.Model().sems)
    ensures k.Model().names == Names(k.semaphores)
    ensures RecoverFrom(k.Model(), x.pid, i + 1, removedNow) == RecoverFrom(old(k.Model()), x.pid, i, removed)
  {
    hide Kernel.WellFormed, Kernel.Model, Detach, PostTimes, WaitsKnown, Names;
    k.ProcessFacts(x);
    var m := k.semaphores[i];
    SemaphoreFacts(k, m.name);
    NameAt(k.semaphores, i);
    removedNow := removed;
    if m.name in x.held {
      if !removed {
        DetachVictim(k, x);
        removedNow := true;
      }
      ReleaseInstances(k, m, x);
    }
    NamesKnown(k);
  }

  /** The loop of __deadlock_recuperarse_del_deadlock over the system's semaphores. */
  method ReleaseVictim(k: Kernel, x: Process)
    requires k.WellFormed() && k.Live(x) && WaitsKnown(k.Model(), x.pid)
    requires forall n :: n in k.Model().names ==> n in k.Model().sems
    modifies k`queues, k`slots, k`tokens, k.live.Values, k.byName.Values
    ensures k.WellFormed() && k.SameObjects()
    ensures k.Model() == RecoverFrom(old(k.Model()), x.pid, 0, false)
  {
    hide Kernel.WellFormed, Kernel.Model, Detach, PostTimes, WaitsKnown, Names;
    k.ProcessFacts(x);
    NamesKnown(k);
    ghost var s := k.Model();
    var removed := false;
    var i := 0;
    while i < |k.semaphores|
      invariant 0 <= i <= |k.semaphores| && k.WellFormed() && k.SameObjects()
      invariant !removed ==> k.Model() == s
      invariant x.pid in k.Model().pcbs && k.Model().names == Names(k.semaphores)
      invariant forall n :: n in k.Model().names ==> n in k.Model().sems
      invariant RecoverFrom(k.Model(), x.pid, i, removed) == RecoverFrom(s, x.pid, 0, false)
    {
      removed := ReleaseOne(k, x, i, removed);
      i := i + 1;
    }
  }

  lemma NameAt(q: seq<Semaphore>, i: nat)
    requires i < |q|
    ensures Names(q)[i] == q[i].name
  {
  }

  // ---------------------------------------------------------------- the victim

  lemma GoneNowhere(s: State, v: Pid)
    requires Inv(s, {v})
    ensures Nowhere(s, v)
  {
    hide Listed, Positive, Counted, TokensMatch, SlotsMatch, PidsBelow, NoDup;
    assert !OnDevice(s.io, v);
  }

  lemma VictimReady(s: State)
    requires Good(s) && DeadlockFound(Residual(s))
    ensures WaitsKnown(s, Victim(s)) && (forall n :: n in s.names ==> n in s.sems)
    ensures Nowhere(RecoverFrom(s, Victim(s), 0, false), Victim(s))
    ensures Recover(s) == Destroy(RecoverFrom(s, Victim(s), 0, false), Victim(s))
  {
    hide Inv, Residual, RecoverFrom, SuspensionCase, Nowhere;
    RecoverInv(s);
    var j := VictimWaits(s);
    WaitsInside(s, Victim(s));
    GoneNowhere(RecoverFrom(s, Victim(s), 0, false), Victim(s));
  }

  lemma WaitsInside(s: State, v: Pid)
    requires Inv(s, {}) && Waiting(s, v)
    ensures WaitsKnown(s, v)
  {
    SleeperFacts(s, v);
  }

  /** __deadlock_recuperarse_del_deadlock: when the victim is freed no list refers to it. */
  method RecoverVictim(k: Kernel, x: Process)
    requires k.WellFormed() && k.Live(x) && Good(k.Model()) && DeadlockFound(Residual(k.Model()))
    requires x.pid == Victim(k.Model())
    modifies k`queues, k`slots, k`tokens, k`live, k.live.Values, k.byName.Values
    ensures k.WellFormed() && k.live == old(k.live) - {x.pid} && k.byName == old(k.byName)
    ensures k.Model() == Recover(old(k.Model()))
  {
    VictimReady(k.Model());
    hide Kernel.WellFormed, Kernel.Model, RecoverFrom, Residual, Good, Nowhere, Kernel.Unqueued, Recover, WaitsKnown;
    ReleaseVictim(k, x);
    NowhereUnqueued(k, x);
    k.DestroyProcess(x);
  }

  // ------------------------------------------------------------------ the call

  lemma DetectUnfolds(s: State)
    requires Good(s)
    ensures DeadlockFound(Residual(s)) ==>
      Good(Recover(s)) && Detect(s) == Detect(Recover(s))
      && |Recover(s).Q(Blocked)| + |Recover(s).Q(SusBlocked)| < |s.Q(Blocked)| + |s.Q(SusBlocked)|
    ensures !DeadlockFound(Residual(s)) ==> Detect(s) == s
    ensures DeadlockPcbs(s) == [] || s.names == [] ==> !DeadlockFound(Residual(s))
  {
    hide Inv, SuspensionCase, Recover, DeadlockPcbs;
    if DeadlockFound(Residual(s)) { RecoverInv(s); }
  }

  /** A round of detection: the residual is reduced from the lists; a victim is killed if it
      is not empty. */
  method DetectorRound(k: Kernel, pcbs: seq<Process>, sems: seq<Semaphore>) returns (killed: bool)
    requires k.WellFormed() && Good(k.Model()) && k.AllLive(pcbs)
    requires Pids(pcbs) == DeadlockPcbs(k.Model()) && Names(sems) == k.Model().names
    modifies k`queues, k`slots, k`tokens, k`live, k.live.Values, k.byName.Values
    ensures k.WellFormed() && k.live.Values <= old(k.live.Values) && k.byName == old(k.byName)
    ensures killed <==> DeadlockFound(Residual(old(k.Model())))
    ensures k.Model() == if killed then Recover(old(k.Model())) else old(k.Model())
  {
    hide Kernel.WellFormed, Kernel.Model, DeadlockPcbs, Reduce, Good, Recover;
    LiveDepicted(k, pcbs);
    var pcbsLeft, semsLeft := ReduceLists(pcbs, sems, GraphOf(k.Model()));
    StillLive(k, pcbs, pcbsLeft);
    killed := pcbsLeft != [] && semsLeft != [];
    if killed {
      var x := HighestPid(pcbsLeft);
      assert k.Live(x) by { StillLive(k, pcbs, [x]); assert k.Live([x][0]); }
      RecoverVictim(k, x);
    }
  }

  /** detectar_y_recuperarse_del_deadlock */
  method DetectAndRecover(k: Kernel)
    requires k.WellFormed() && Good(k.Model())
    modifies k`queues, k`slots, k`tokens, k`live, k.live.Values, k.byName.Values
    ensures k.WellFormed() && k.Model() == Detect(old(k.Model()))
    ensures k.live.Values <= old(k.live.Values) && k.byName == old(k.byName)
  {
    hide Kernel.WellFormed, Kernel.Model, DeadlockPcbs, Residual, Good, Detect, Recover;
    var pcbs, sems := DetectorLists(k);
    DetectUnfolds(k.Model());
    if pcbs != [] {
      var deadlock := true;
      while deadlock
        invariant k.WellFormed() && Good(k.Model()) && Detect(k.Model()) == Detect(old(k.Model()))
        invariant k.live.Values <= old(k.live.Values) && k.byName == old(k.byName)
        invariant deadlock ==> k.AllLive(pcbs) && Pids(pcbs) == DeadlockPcbs(k.Model()) && Names(sems) == k.Model().names
        invariant !deadlock ==> !DeadlockFound(Residual(k.Model()))
        decreases |k.Model().Q(Blocked)| + |k.Model().Q(SusBlocked)|, deadlock
      {
        DetectUnfolds(k.Model());
        deadlock := DetectorRound(k, pcbs, sems);
        if deadlock {
          pcbs, sems := DetectorLists(k);
          deadlock := pcbs != [] && sems != [];
          DetectUnfolds(k.Model());
        }
      }
      DetectUnfolds(k.Model());
    }
  }
}

/** The scheduler's operations as the source performs them, step by step on the objects. */
module KernelOps {
  import opened Wrappers
  import opened Lists
  import opened KernelState
  import Steps
  import opened KernelObjects

  lemma SuspendSteps(s: State, p: Pid)
    requires SuspensionCase(s) && p == s.Q(Blocked)[|s.Q(Blocked)| - 1]
    ensures var a := PutStatus(PutQueue(s, Blocked, s.Q(Blocked)[..|s.Q(Blocked)| - 1]), p, SusBlocked);
      var b := PutQueue(a, SusBlocked, a.Q(SusBlocked) + [p]);
      b.(slots := b.slots + 1) == Steps.Evaluate(s)
  {
  }

  lemma PopLast(k: Kernel, q: seq<Process>)
    requires q != [] && k.AllLive(q)
    ensures k.AllLive(q[..|q| - 1]) && k.Live(q[|q| - 1]) && Pids(q[..|q| - 1]) == Pids(q)[..|q| - 1]
    ensures Pids(q)[|q| - 1] == q[|q| - 1].pid
  {
  }

  /** The last blocked process is suspended and its slot freed. */
  method Suspend(k: Kernel)
    requires k.WellFormed() && SuspensionCase(k.Model())
    modifies k`queues, k`slots, k.live.Values
    ensures k.WellFormed() && k.SameObjects()
    ensures k.Model() == Steps.Evaluate(old(k.Model()))
  {
    k.QueueFacts(Blocked);
    var q := k.Queue(Blocked);
    var x := q[|q| - 1];
    PopLast(k, q);
    SuspendSteps(k.Model(), x.pid);
    hide Kernel.WellFormed, Kernel.Model, PutQueue, PutStatus, Steps.Evaluate, Kernel.AllLive, Pids;
    k.SetQueue(Blocked, q[..|q| - 1]);
    k.Transition(x, SusBlocked);
    k.Enqueue(SusBlocked, x);
    k.AddSlot();
  }

  /** __evaluar_suspension, with the medium-term planner's answer. */
  method EvaluateSuspension(k: Kernel)
    requires k.WellFormed()
    modifies k`queues, k`slots, k.live.Values
    ensures k.WellFormed() && k.SameObjects()
    ensures k.Model() == Steps.Evaluate(old(k.Model()))
  {
    k.QueueFacts(Ready);
    k.QueueFacts(New);
    k.QueueFacts(Blocked);
    assert k.slots == k.Model().slots;
    hide Kernel.WellFormed, Kernel.Model;
    if k.Queue(Ready) == [] && k.Queue(New) != [] && k.Queue(Blocked) != [] && k.slots == 0 {
      Suspend(k);
    }
  }

  // ------------------------------------------------------------------ transitions

  lemma ShiftSteps(s: State, p: Pid, from: Status, to: Status)
    ensures var a := PutStatus(PutQueue(s, from, Remove(s.Q(from), p)), p, to);
      PutQueue(a, to, a.Q(to) + [p]) == Steps.Shift(s, p, from, to)
  {
  }

  /** The common shape of a hand-off: dequeue, set the status, enqueue. */
  method Move(k: Kernel, x: Process, from: Status, to: Status)
    requires k.WellFormed() && k.Live(x)
    modifies k`queues, x`status
    ensures k.WellFormed() && k.SameObjects()
    ensures k.Model() == Steps.Shift(old(k.Model()), x.pid, from, to)
  {
    ShiftSteps(k.Model(), x.pid, from, to);
    hide Kernel.WellFormed, Kernel.Model, PutQueue, PutStatus, Steps.Shift;
    k.Dequeue(from, x);
    k.Transition(x, to);
    k.Enqueue(to, x);
  }

  // ------------------------------------------------------------------- SEM_WAIT

  /** Sleep, once the value has been lowered. */
  ghost function Fall(s: State, p: Pid, n: Name): State
    requires p in s.pcbs && n in s.sems
  {
    var b := PutStatus(PutQueue(s, Exec, Remove(s.Q(Exec), p)), p, Blocked);
    var c := PutPcb(b, p, b.pcbs[p].(waitsOn := Some(n)));
    var d := PutSem(c, n, c.sems[n].(queue := c.sems[n].queue + [p]));
    PutQueue(d, Blocked, d.Q(Blocked) + [p])
  }

  lemma FallIsSleep(s: State, p: Pid, n: Name, m: Sem)
    requires p in s.pcbs && n in s.sems
    ensures Fall(PutSem(s, n, m), p, n) == Steps.Sleep(s, p, n, m)
  {
    assert s.sems[n := m][n := m.(queue := m.queue + [p])] == s.sems[n := m.(queue := m.queue + [p])];
  }

  /** The blocking half of kernel_sem_wait. */
  method Block(k: Kernel, m: Semaphore, x: Process)
    requires k.WellFormed() && k.Live(x) && k.Known(m)
    modifies k`queues, x`status, x`waitsOn, m`queue
    ensures k.WellFormed() && k.SameObjects()
    ensures x.pid in old(k.Model()).pcbs && m.name in old(k.Model()).sems
    ensures k.Model() == Fall(old(k.Model()), x.pid, m.name)
  {
    k.ProcessFacts(x);
    k.WaiterFacts(m);
    hide Kernel.WellFormed, Kernel.Model;
    k.Dequeue(Exec, x);
    k.Transition(x, Blocked);
    k.SetWait(x, m);
    k.PushWaiter(m, x);
    k.Enqueue(Blocked, x);
  }

  lemma WaitBlocks(s: State, p: Pid, n: Name)
    requires p in s.pcbs && n in s.sems && s.sems[n].value - 1 < 0
    ensures var a := PutSem(s, n, s.sems[n].(value := s.sems[n].value - 1));
      n in a.sems && Steps.Evaluate(Fall(a, p, n)) == Steps.Wait(s, p, n)
  {
    hide Fall, Steps.Sleep, Steps.Evaluate;
    FallIsSleep(s, p, n, s.sems[n].(value := s.sems[n].value - 1));
  }

  /** kernel_sem_wait: tells whether the process blocked. */
  method SemWait(k: Kernel, m: Semaphore, x: Process) returns (blocks: bool)
    requires k.WellFormed() && k.Live(x) && k.Known(m)
    modifies k`queues, k`slots, k.live.Values, m`value, m`queue
    ensures k.WellFormed() && k.SameObjects()
    ensures x.pid in old(k.Model()).pcbs && m.name in old(k.Model()).sems
    ensures k.Model() == Steps.Wait(old(k.Model()), x.pid, m.name)
    ensures blocks <==> old(m.value) - 1 < 0
  {
    hide Kernel.WellFormed, Kernel.Model, PutPcb, PutSem, Steps.Evaluate, Steps.Retain, Steps.Wait, Fall, Pids;
    k.ProcessFacts(x);
    k.WaiterFacts(m);
    ghost var s := k.Model();
    k.AddInstances(m, -1);
    blocks := m.IsBlocking();
    if blocks {
      Block(k, m, x);
      WaitBlocks(s, x.pid, m.name);
      EvaluateSuspension(k);
    } else {
      k.Retain(x, m.name);
      WaitGrants(s, x.pid, m.name);
    }
  }

  lemma WaitGrants(s: State, p: Pid, n: Name)
    requires p in s.pcbs && n in s.sems && s.sems[n].value - 1 >= 0
    ensures var a := PutSem(s, n, s.sems[n].(value := s.sems[n].value - 1));
      PutPcb(a, p, Steps.Retain(a.pcbs[p], n)) == Steps.Wait(s, p, n)
  {
  }

  // ------------------------------------------------------------------- SEM_POST

  lemma GiveBackSteps(s: State, p: Pid, n: Name)
    requires p in s.pcbs && n in s.sems
    ensures var a := PutSem(s, n, s.sems[n].(value := s.sems[n].value + 1));
      PutPcb(a, p, Steps.Release(a.pcbs[p], n)) == Steps.GiveBack(s, p, n)
  {
  }

  ghost function Popped(s: State, n: Name): State
    requires n in s.sems && s.sems[n].queue != []
  {
    PutSem(s, n, s.sems[n].(queue := s.sems[n].queue[1..]))
  }

  ghost function Shifted(s: State, h: Pid): State {
    if Steps.HasStatus(s, h, SusBlocked) then
      var u := Steps.Shift(s, h, SusBlocked, SusReady);
      u.(tokens := u.tokens + 1)
    else if Steps.HasStatus(s, h, Blocked) then Steps.Shift(s, h, Blocked, Ready)
    else s
  }

  lemma ShiftedIsWake(s: State, n: Name)
    requires n in s.sems && s.sems[n].queue != [] && s.sems[n].queue[0] in s.pcbs
    ensures var h := s.sems[n].queue[0]; var u := Shifted(Popped(s, n), h);
      h in u.pcbs && u.(pcbs := Steps.Granted(u.pcbs, h, n)) == Steps.Wake(s, n)
  {
    hide Steps.Granted;
  }

  lemma GrantSteps(u: State, h: Pid, n: Name)
    requires h in u.pcbs
    ensures var w := PutPcb(u, h, u.pcbs[h].(waitsOn := None));
      PutPcb(w, h, Steps.Retain(w.pcbs[h], n)) == u.(pcbs := Steps.Granted(u.pcbs, h, n))
  {
    hide Steps.Retain;
    var b := u.pcbs[h].(waitsOn := None);
    assert u.pcbs[h := b][h := Steps.Retain(b, n)] == u.pcbs[h := Steps.Retain(b, n)];
  }

  lemma WakeSteps(s: State, n: Name)
    requires n in s.sems && s.sems[n].queue != [] && s.sems[n].queue[0] in s.pcbs
    ensures var h := s.sems[n].queue[0]; var u := Shifted(Popped(s, n), h);
      && h in u.pcbs
      && var w := PutPcb(u, h, u.pcbs[h].(waitsOn := None));
      PutPcb(w, h, Steps.Retain(w.pcbs[h], n)) == Steps.Wake(s, n)
  {
    hide Shifted, Popped, PutPcb, Steps.Retain, Steps.Wake, Steps.Granted;
    ShiftedIsWake(s, n);
    GrantSteps(Shifted(Popped(s, n), s.sems[n].queue[0]), s.sems[n].queue[0], n);
  }

  /** __pasar_de_susblocked_a_susready and __pasar_de_blocked_a_ready, by status. */
  method WakeUp(k: Kernel, x: Process)
    requires k.WellFormed() && k.Live(x)
    modifies k`queues, k`tokens, x`status
    ensures k.WellFormed() && k.SameObjects()
    ensures k.Model() == Shifted(old(k.Model()), x.pid)
  {
    k.ProcessFacts(x);
    hide Kernel.WellFormed, Kernel.Model, Steps.Shift;
    if x.status == SusBlocked {
      Move(k, x, SusBlocked, SusReady);
      k.AddToken();
    } else if x.status == Blocked {
      Move(k, x, Blocked, Ready);
    }
  }

  /** The waking half of kernel_sem_post. */
  method WakeFirst(k: Kernel, m: Semaphore) returns (woken: Process?)
    requires k.WellFormed() && k.Known(m)
    modifies k`queues, k`tokens, k.live.Values, m`queue
    ensures k.WellFormed() && k.SameObjects() && m.name in old(k.Model()).sems
    ensures woken == null <==> old(k.Model()).sems[m.name].queue == []
    ensures woken == null ==> k.Model() == old(k.Model())
    ensures woken != null ==> woken == old(m.queue)[0] && k.Model() == Steps.Wake(old(k.Model()), m.name)
  {
    k.WaiterFacts(m);
    ghost var s := k.Model();
    if m.queue != [] { k.ProcessFacts(m.queue[0]); }
    hide Kernel.WellFormed, Kernel.Model, PutPcb, PutSem, Steps.Retain, Steps.Wake, Shifted;
    woken := k.PopWaiter(m);
    if woken != null {
      WakeSteps(s, m.name);
      WakeUp(k, woken);
      k.SetWait(woken, null);
      k.Retain(woken, m.name);
    }
  }

  /** The first half of kernel_sem_post: tells whether anybody may be waiting. */
  method PostInstance(k: Kernel, m: Semaphore, x: Process) returns (some: bool)
    requires k.WellFormed() && k.Live(x) && k.Known(m)
    modifies m`value, x`held
    ensures k.WellFormed() && k.SameObjects()
    ensures x.pid in old(k.Model()).pcbs && m.name in old(k.Model()).sems
    ensures k.Model() == Steps.GiveBack(old(k.Model()), x.pid, m.name)
    ensures some <==> k.Model().sems[m.name].value <= 0
    ensures k.Model().sems[m.name].queue == Pids(m.queue)
  {
    hide Kernel.WellFormed, Kernel.Model, PutPcb, PutSem, Steps.GiveBack, Steps.Release, Pids;
    k.ProcessFacts(x);
    k.WaiterFacts(m);
    GiveBackSteps(k.Model(), x.pid, m.name);
    k.AddInstances(m, 1);
    some := m.MayHaveBlocked();
    k.Release(x, m.name);
    k.WaiterFacts(m);
  }

  /** Under a non-negative initial value, somebody waits exactly when the value is negative. */
  lemma NegativeMeansWaiters(k: Kernel, m: Semaphore)
    requires k.WellFormed() && k.Known(m)
    ensures m.name in k.Model().sems && k.Model().sems[m.name] == m.View()
    ensures Good(k.Model()) && m.initial >= 0 ==> (m.queue != [] <==> m.value < 0)
  {
    hide Kernel.WellFormed, Kernel.Model, Placed, Linked, IoQueued, Listed, Positive, TokensMatch, SlotsMatch, PidsBelow;
    k.WaiterFacts(m);
    if Good(k.Model()) { assert SemLaw(k.Model().sems[m.name]); }
  }

  /** kernel_sem_post: returns the process it woke, or null. */
  method SemPost(k: Kernel, m: Semaphore, x: Process) returns (woken: Process?)
    requires k.WellFormed() && k.Live(x) && k.Known(m)
    modifies k`queues, k`tokens, k.live.Values, m`value, m`queue
    ensures k.WellFormed() && k.SameObjects()
    ensures x.pid in old(k.Model()).pcbs && m.name in old(k.Model()).sems
    ensures k.Model() == Steps.Post(old(k.Model()), x.pid, m.name)
    ensures woken != null <==> old(k.Model()).sems[m.name].value + 1 <= 0 && old(m.queue) != []
    ensures woken != null ==> woken == old(m.queue)[0]
    ensures Good(old(k.Model())) && m.initial >= 0 ==> (woken != null <==> old(m.value) < 0)
  {
    hide Kernel.WellFormed, Kernel.Model, Steps.Release, Steps.Wake, Pids, Good;
    NegativeMeansWaiters(k, m);
    var some := PostInstance(k, m, x);
    woken := null;
    if some {
      woken := WakeFirst(k, m);
    }
  }
}

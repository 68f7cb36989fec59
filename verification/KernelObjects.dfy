/** The kernel's records as objects: processes, semaphores and the scheduler's globals. The
    abstract state of a kernel is a value; each elementary update is tied to that value. */
module KernelObjects {
  import opened Wrappers
  import opened Lists
  import opened KernelState
  import Steps

  function Pids(q: seq<Process>): (r: seq<Pid>)
    ensures |r| == |q|
  {
    seq(|q|, i requires 0 <= i < |q| => q[i].pid)
  }

  function Names(q: seq<Semaphore>): (r: seq<Name>)
    ensures |r| == |q|
  {
    seq(|q|, i requires 0 <= i < |q| => q[i].name)
  }

  /** __get_pcb_index: the first position of x, or -1. */
  method IndexOf(q: seq<Process>, x: Process) returns (i: int)
    ensures if x in q then 0 <= i < |q| && q[i] == x && x !in q[..i] else i == -1
  {
    i := 0;
    while i < |q|
      invariant 0 <= i <= |q| && x !in q[..i]
    {
      if q[i] == x { return; }
      i := i + 1;
    }
    assert q[..i] == q;
    i := -1;
  }

  /** Takes x out of a list, if it is there. */
  method Unlink(q: seq<Process>, x: Process) returns (r: seq<Process>)
    ensures r == Remove(q, x)
  {
    var i := IndexOf(q, x);
    if i != -1 {
      RemoveAtIndex(q, x, i);
      r := q[..i] + q[i + 1..];
    } else {
      RemoveAbsent(q, x);
      r := q;
    }
  }

  /** A list without its position i, by its head and its tail. */
  lemma CutTail<T>(q: seq<T>, i: nat)
    requires 0 < i < |q|
    ensures q[..i] + q[i + 1..] == [q[0]] + (q[1..][..i - 1] + q[1..][i..])
    ensures q[0] in q[..i] && forall y :: y in q[1..][..i - 1] ==> y in q[..i]
  {
    var r := q[1..];
    assert q[0] == q[..i][0];
    forall j | 0 <= j < i - 1 ensures r[j] in q[..i] { assert q[..i][j + 1] == r[j]; }
    assert r[i..] == q[i + 1..];
    assert q[..i] == [q[0]] + r[..i - 1];
  }

  lemma {:induction false} RemoveAtIndex<T>(q: seq<T>, x: T, i: nat)
    requires i < |q| && q[i] == x && x !in q[..i]
    ensures q[..i] + q[i + 1..] == Remove(q, x)
  {
    if i > 0 {
      CutTail(q, i);
      RemoveAtIndex(q[1..], x, i - 1);
    }
  }

  lemma {:induction false} RemoveAbsent<T>(q: seq<T>, x: T)
    requires x !in q
    ensures Remove(q, x) == q
  {
    if q != [] {
      RemoveAbsent(q[1..], x);
      assert q == [q[0]] + q[1..];
    }
  }

  /** Unlinking by identity and by PID agree when equal PIDs mean the same object. */
  lemma {:induction false} PidsRemove(q: seq<Process>, x: Process)
    requires forall y :: y in q && y.pid == x.pid ==> y == x
    ensures Pids(Remove(q, x)) == Remove(Pids(q), x.pid)
  {
    if q != [] {
      assert q[0] in q;
      assert Pids(q)[1..] == Pids(q[1..]);
      PidsRemove(q[1..], x);
      if q[0] != x {
        assert Pids(Remove(q, x)) == [q[0].pid] + Pids(Remove(q[1..], x));
      }
    }
  }

  // Elementary updates of the abstract state.

  function PutQueue(s: State, st: Status, q: seq<Pid>): State { s.(qs := s.qs[st := q]) }

  function PutStatus(s: State, p: Pid, st: Status): State { s.(pcbs := Steps.SetStatus(s.pcbs, p, st)) }

  function PutPcb(s: State, p: Pid, b: Pcb): State { s.(pcbs := s.pcbs[p := b]) }

  function PutSem(s: State, n: Name, m: Sem): State { s.(sems := s.sems[n := m]) }

  function PutIo(s: State, d: Device, q: seq<Pid>): State { s.(io := s.io[d := q]) }

  function WaitOf(m: Semaphore?): Option<Name> { if m == null then None else Some(m.name) }

  /** t_recurso_sem */
  class Semaphore {
    const name: Name
    const initial: int
    var value: int
    var queue: seq<Process>

    ghost function View(): Sem
      reads this
    {
      Sem(initial, value, Pids(queue))
    }

    constructor (name: Name, value: int)
      ensures View() == Sem(value, value, []) && this.name == name && queue == []
    {
      this.name, this.initial, this.value, this.queue := name, value, value, [];
    }

    predicate IsBlocking()
      reads this
    {
      value < 0
    }

    predicate MayHaveBlocked()
      reads this
    {
      value <= 0
    }
  }

  /** t_pcb with its t_deadlock */
  class Process {
    const pid: Pid
    var status: Status
    var waitsOn: Semaphore?
    var held: map<Name, int>

    ghost function View(): Pcb
      reads this
    {
      Pcb(status, WaitOf(waitsOn), held)
    }

    constructor (pid: Pid)
      ensures View() == Pcb(New, None, map[]) && this.pid == pid && waitsOn == null
    {
      this.pid, status, waitsOn, held := pid, New, null, map[];
    }

    /** retener_una_instancia_del_semaforo */
    method RetainOne(n: Name)
      modifies this`held
      ensures View() == Steps.Retain(old(View()), n)
    {
      if n in held {
        held := held[n := held[n] + 1];
      } else {
        held := held[n := 1];
      }
    }

    /** liberar_una_instancia_del_semaforo */
    method ReleaseOne(n: Name)
      modifies this`held
      ensures View() == Steps.Release(old(View()), n)
    {
      if n in held {
        var left := held[n] - 1;
        held := held[n := left];
        if left == 0 {
          held := held - {n};
        }
      }
      assert n in old(held) && old(held)[n] - 1 == 0 ==> held == old(held) - {n};
    }
  }

  /** The scheduler's globals. live and byName name the objects that exist; queues holds the
      seven scheduling queues, semaphores the system's list in creation order, io the queue of
      each device and serving the process whose burst a device is running. */
  class Kernel {
    var queues: map<Status, seq<Process>>
    var semaphores: seq<Semaphore>
    var io: map<Device, seq<Process>>
    var serving: map<Device, Process>
    var slots: nat
    var tokens: nat
    var nextPid: nat
    const degree: nat
    ghost var live: map<Pid, Process>
    ghost var byName: map<Name, Semaphore>

    function Queue(st: Status): seq<Process>
      reads this
    {
      if st in queues then queues[st] else []
    }

    /** Whoever a device has yet to finish with: the process in service, then its queue. */
    function Line(d: Device): seq<Process>
      requires d in io
      reads this`io, this`serving
    {
      (if d in serving then [serving[d]] else []) + io[d]
    }

    ghost predicate Live(x: Process)
      reads this`live
    {
      x.pid in live && live[x.pid] == x
    }

    ghost predicate AllLive(q: seq<Process>)
      reads this`live
    {
      forall i :: 0 <= i < |q| ==> Live(q[i])
    }

    ghost predicate Known(m: Semaphore)
      reads this`byName
    {
      m.name in byName && byName[m.name] == m
    }

    // The parts of well-formedness: no dangling reference anywhere.

    ghost predicate Tables()
      reads this`live, this`byName, this`semaphores
    {
      && (forall p :: p in live ==> live[p].pid == p)
      && (forall n :: n in byName ==> byName[n].name == n)
      && (forall i :: 0 <= i < |semaphores| ==> Known(semaphores[i]))
      && (forall n :: n in byName ==> n in Names(semaphores))
    }

    ghost predicate QueuesLive()
      reads this`live, this`queues
    {
      forall st :: st in queues ==> AllLive(queues[st])
    }

    ghost predicate IoLive()
      reads this`live, this`io, this`serving
    {
      forall d :: d in io ==> AllLive(Line(d))
    }

    ghost predicate WaitersLive()
      reads this`live, this`byName, byName.Values
    {
      forall n :: n in byName ==> AllLive(byName[n].queue)
    }

    ghost predicate WellFormed()
      reads this, live.Values, byName.Values
    {
      Tables() && QueuesLive() && IoLive() && WaitersLive()
    }

    // The parts of the abstract state.

    ghost function PcbMap(): map<Pid, Pcb>
      reads this`live, live.Values
    {
      map p | p in live :: live[p].View()
    }

    ghost function QueueMap(): map<Status, seq<Pid>>
      reads this`queues
    {
      map st | st in queues :: Pids(queues[st])
    }

    ghost function SemMap(): map<Name, Sem>
      reads this`byName, byName.Values
    {
      map n | n in byName :: byName[n].View()
    }

    ghost function IoMap(): map<Device, seq<Pid>>
      reads this`io, this`serving
    {
      map d | d in io :: Pids(Line(d))
    }

    ghost function Model(): State
      reads this, live.Values, byName.Values
    {
      State(PcbMap(), QueueMap(), Names(semaphores), SemMap(), IoMap(), slots, tokens, nextPid, degree)
    }

    /** The objects that exist stay the same objects. */
    twostate predicate SameObjects()
      reads this
    {
      live == old(live) && byName == old(byName) && semaphores == old(semaphores)
    }

    constructor (degree: nat, devices: set<Device>)
      ensures WellFormed() && Model() == Initial(degree, devices)
      ensures fresh(live.Values) && fresh(byName.Values)
    {
      queues, semaphores, io, serving := map[], [], map d | d in devices :: [], map[];
      slots, tokens, nextPid := degree, 0, 1;
      this.degree := degree;
      live, byName := map[], map[];
    }

    // ------------------------------------------------------ elementary updates

    method Transition(x: Process, st: Status)
      requires WellFormed() && Live(x)
      modifies x`status
      ensures WellFormed() && SameObjects()
      ensures Model() == PutStatus(old(Model()), x.pid, st)
    {
      hide QueuesLive, IoLive, WaitersLive, QueueMap, SemMap, IoMap, AllLive;
      x.status := st;
      assert PcbMap() == Steps.SetStatus(old(PcbMap()), x.pid, st);
    }

    /** The scheduling queue st becomes q. */
    method SetQueue(st: Status, q: seq<Process>)
      requires WellFormed() && AllLive(q)
      modifies this`queues
      ensures WellFormed() && SameObjects() && Queue(st) == q
      ensures forall o :: o != st ==> Queue(o) == old(Queue(o))
      ensures Model() == PutQueue(old(Model()), st, Pids(q))
    {
      hide IoLive, WaitersLive, PcbMap, SemMap, IoMap, Tables, AllLive, Pids;
      queues := queues[st := q];
      assert QueueMap() == old(QueueMap())[st := Pids(q)];
    }

    lemma QueueFacts(st: Status)
      requires WellFormed()
      ensures AllLive(Queue(st)) && Model().Q(st) == Pids(Queue(st))
    {
      hide IoLive, WaitersLive, PcbMap, SemMap, IoMap, Tables;
    }

    /** __enqueue_pcb */
    method Enqueue(st: Status, x: Process)
      requires WellFormed() && Live(x)
      modifies this`queues
      ensures WellFormed() && SameObjects()
      ensures Model() == PutQueue(old(Model()), st, old(Model()).Q(st) + [x.pid])
    {
      QueueFacts(st);
      hide WellFormed, Model;
      assert Pids(Queue(st) + [x]) == Pids(Queue(st)) + [x.pid];
      SetQueue(st, Queue(st) + [x]);
    }

    /** __dequeue_pcb: an absent process is only logged. */
    method Dequeue(st: Status, x: Process)
      requires WellFormed() && Live(x)
      modifies this`queues
      ensures WellFormed() && SameObjects()
      ensures Model() == PutQueue(old(Model()), st, Remove(old(Model()).Q(st), x.pid))
    {
      QueueFacts(st);
      hide WellFormed, Model;
      var q := Unlink(Queue(st), x);
      UnlinkFacts(Queue(st), x);
      SetQueue(st, q);
    }

    lemma UnlinkFacts(q: seq<Process>, x: Process)
      requires AllLive(q) && Live(x)
      ensures AllLive(Remove(q, x)) && Pids(Remove(q, x)) == Remove(Pids(q), x.pid)
    {
      assert forall y :: y in q ==> Live(y);
      PidsRemove(q, x);
      RemoveKeeps(q, x);
      var r := Remove(q, x);
      forall i | 0 <= i < |r| ensures Live(r[i]) {
        assert r[i] in q;
      }
    }

    method SetWait(x: Process, m: Semaphore?)
      requires WellFormed() && Live(x)
      modifies x`waitsOn
      ensures WellFormed() && SameObjects() && x.pid in old(Model()).pcbs
      ensures Model() == PutPcb(old(Model()), x.pid, old(Model()).pcbs[x.pid].(waitsOn := WaitOf(m)))
    {
      hide QueuesLive, IoLive, WaitersLive, QueueMap, SemMap, IoMap, AllLive;
      assert forall p :: p in live && p != x.pid ==> live[p] != x;
      hide Tables;
      x.waitsOn := m;
      assert PcbMap() == old(PcbMap())[x.pid := old(PcbMap())[x.pid].(waitsOn := WaitOf(m))];
    }

    method Retain(x: Process, n: Name)
      requires WellFormed() && Live(x)
      modifies x`held
      ensures WellFormed() && SameObjects() && x.pid in old(Model()).pcbs
      ensures Model() == PutPcb(old(Model()), x.pid, Steps.Retain(old(Model()).pcbs[x.pid], n))
    {
      hide QueuesLive, IoLive, WaitersLive, QueueMap, SemMap, IoMap, AllLive, Steps.Retain;
      x.RetainOne(n);
      assert PcbMap() == old(PcbMap())[x.pid := Steps.Retain(old(PcbMap())[x.pid], n)];
    }

    method Release(x: Process, n: Name)
      requires WellFormed() && Live(x)
      modifies x`held
      ensures WellFormed() && SameObjects() && x.pid in old(Model()).pcbs
      ensures Model() == PutPcb(old(Model()), x.pid, Steps.Release(old(Model()).pcbs[x.pid], n))
    {
      hide QueuesLive, IoLive, WaitersLive, QueueMap, SemMap, IoMap, AllLive, Steps.Release;
      x.ReleaseOne(n);
      assert PcbMap() == old(PcbMap())[x.pid := Steps.Release(old(PcbMap())[x.pid], n)];
    }

    /** recurso_sem_inc_cant_instancias (d = 1) and recurso_sem_dec_cant_instancias (d = -1). */
    method AddInstances(m: Semaphore, d: int)
      requires WellFormed() && Known(m)
      modifies m`value
      ensures WellFormed() && SameObjects() && m.name in old(Model()).sems
      ensures m.value == old(m.value) + d
      ensures Model() == PutSem(old(Model()), m.name,
                old(Model()).sems[m.name].(value := old(Model()).sems[m.name].value + d))
    {
      hide QueuesLive, IoLive, QueueMap, PcbMap, IoMap, AllLive;
      m.value := m.value + d;
      assert SemMap() == old(SemMap())[m.name := old(SemMap())[m.name].(value := old(SemMap())[m.name].value + d)];
    }

    /** The waiting queue of m becomes q. */
    method SetWaiters(m: Semaphore, q: seq<Process>)
      requires WellFormed() && Known(m) && AllLive(q)
      modifies m`queue
      ensures WellFormed() && SameObjects() && m.name in old(Model()).sems && m.queue == q
      ensures Model() == PutSem(old(Model()), m.name, old(Model()).sems[m.name].(queue := Pids(q)))
    {
      hide QueuesLive, IoLive, QueueMap, PcbMap, IoMap, AllLive, Pids;
      m.queue := q;
      assert SemMap() == old(SemMap())[m.name := old(SemMap())[m.name].(queue := Pids(q))];
    }

    lemma WaiterFacts(m: Semaphore)
      requires WellFormed() && Known(m)
      ensures AllLive(m.queue) && m.name in Model().sems && Model().sems[m.name] == m.View()
    {
      hide QueuesLive, IoLive, QueueMap, PcbMap, IoMap, AllLive;
    }

    lemma ProcessFacts(x: Process)
      requires WellFormed() && Live(x)
      ensures x.pid in Model().pcbs && Model().pcbs[x.pid] == x.View()
    {
      hide QueuesLive, IoLive, WaitersLive, QueueMap, SemMap, IoMap, AllLive;
    }

    /** __encolar_pcb_al_semaforo */
    method PushWaiter(m: Semaphore, x: Process)
      requires WellFormed() && Known(m) && Live(x)
      modifies m`queue
      ensures WellFormed() && SameObjects() && m.name in old(Model()).sems
      ensures Model() == PutSem(old(Model()), m.name,
                old(Model()).sems[m.name].(queue := old(Model()).sems[m.name].queue + [x.pid]))
    {
      WaiterFacts(m);
      hide WellFormed, Model;
      assert Pids(m.queue + [x]) == Pids(m.queue) + [x.pid];
      SetWaiters(m, m.queue + [x]);
    }

    /** __pop_primer_pcb_de_cola_semaforo: null when nobody waits. */
    method PopWaiter(m: Semaphore) returns (x: Process?)
      requires WellFormed() && Known(m)
      modifies m`queue
      ensures WellFormed() && SameObjects() && m.name in old(Model()).sems
      ensures x == null <==> old(Model()).sems[m.name].queue == []
      ensures x == null ==> Model() == old(Model())
      ensures x != null ==> Live(x) && x == old(m.queue)[0] && x.pid == old(Model()).sems[m.name].queue[0]
      ensures x != null ==> Model() == PutSem(old(Model()), m.name,
                old(Model()).sems[m.name].(queue := old(Model()).sems[m.name].queue[1..]))
    {
      WaiterFacts(m);
      hide WellFormed, Model;
      x := null;
      if m.queue != [] {
        x := m.queue[0];
        assert Pids(m.queue[1..]) == Pids(m.queue)[1..];
        SetWaiters(m, m.queue[1..]);
      }
    }

    lemma OneMore(q: seq<Process>, x: Process)
      requires Live(x)
      ensures Pids(q + [x]) == Pids(q) + [x.pid] && (AllLive(q) ==> AllLive(q + [x]))
    {
    }

    lemma OneLess(q: seq<Process>)
      requires q != []
      ensures Pids(q)[0] == q[0].pid && Pids(q[1..]) == Pids(q)[1..]
      ensures AllLive(q) ==> AllLive(q[1..]) && Live(q[0])
    {
    }

    /** The process x joins the queue of the device d. */
    method PushIo(d: Device, x: Process)
      requires WellFormed() && Live(x) && d in io
      modifies this`io
      ensures WellFormed() && SameObjects() && d in old(Model()).io
      ensures Model() == PutIo(old(Model()), d, old(Model()).io[d] + [x.pid])
    {
      hide QueuesLive, WaitersLive, PcbMap, SemMap, QueueMap, Tables, AllLive, Pids;
      OneMore(Line(d), x);
      Associates(if d in serving then [serving[d]] else [], io[d], [x]);
      io := io[d := io[d] + [x]];
      assert Line(d) == old(Line(d)) + [x];
      assert forall e :: e in io && e != d ==> Line(e) == old(Line(e));
      hide Line;
      assert IoMap() == old(IoMap())[d := Pids(Line(d))] by { hide IoLive; }
      hide IoMap;
      assert IoLive();
    }

    /** queue_pop by the thread of a device: its burst begins. Who has yet to be finished with
        stays the same. */
    method StartService(d: Device)
      requires WellFormed() && d in io && d !in serving && io[d] != []
      modifies this`io, this`serving
      ensures WellFormed() && SameObjects() && d in serving && io.Keys == old(io.Keys)
      ensures Model() == old(Model())
    {
      hide QueuesLive, WaitersLive, PcbMap, SemMap, QueueMap, Tables, AllLive, Pids;
      io, serving := io[d := io[d][1..]], serving[d := io[d][0]];
      assert forall e :: e in io ==> Line(e) == old(Line(e)) by { assert Line(d) == old(Line(d)); }
      hide Line;
      assert IoMap() == old(IoMap()) by { hide IoLive; }
      hide IoMap;
      assert IoLive();
    }

    /** The burst ends. */
    method EndService(d: Device) returns (x: Process)
      requires WellFormed() && d in io && d in serving
      modifies this`serving
      ensures WellFormed() && SameObjects() && d !in serving && Live(x)
      ensures d in old(Model()).io && old(Model()).io[d] != [] && x.pid == old(Model()).io[d][0]
      ensures Model() == PutIo(old(Model()), d, old(Model()).io[d][1..])
    {
      hide QueuesLive, WaitersLive, PcbMap, SemMap, QueueMap, Tables, AllLive, Pids;
      x := serving[d];
      assert Line(d)[0] == x;
      OneLess(Line(d));
      serving := serving - {d};
      assert Line(d) == old(Line(d))[1..];
      assert forall e :: e in io && e != d ==> Line(e) == old(Line(e));
      hide Line;
      assert IoMap() == old(IoMap())[d := Pids(Line(d))] by { hide IoLive; }
      hide IoMap;
      assert IoLive();
    }

    lemma IoFacts(d: Device)
      requires WellFormed()
      ensures d in io <==> d in Model().io
      ensures d in io ==> AllLive(Line(d)) && Model().io[d] == Pids(Line(d))
    {
      hide QueuesLive, WaitersLive, PcbMap, SemMap, QueueMap, Tables, AllLive, Pids;
    }

    method AddSlot()
      requires WellFormed()
      modifies this`slots
      ensures WellFormed() && SameObjects()
      ensures Model() == old(Model()).(slots := old(Model()).slots + 1)
    {
      hide Tables, QueuesLive, IoLive, WaitersLive, QueueMap, SemMap, IoMap, PcbMap;
      slots := slots + 1;
    }

    method AddToken()
      requires WellFormed()
      modifies this`tokens
      ensures WellFormed() && SameObjects()
      ensures Model() == old(Model()).(tokens := old(Model()).tokens + 1)
    {
      hide Tables, QueuesLive, IoLive, WaitersLive, QueueMap, SemMap, IoMap, PcbMap;
      tokens := tokens + 1;
    }

    method TakeSlotAndToken()
      requires WellFormed() && slots > 0 && tokens > 0
      modifies this`slots, this`tokens
      ensures WellFormed() && SameObjects()
      ensures old(Model()).slots > 0 && old(Model()).tokens > 0
      ensures Model() == old(Model()).(tokens := old(Model()).tokens - 1, slots := old(Model()).slots - 1)
    {
      hide Tables, QueuesLive, IoLive, WaitersLive, QueueMap, SemMap, IoMap, PcbMap;
      slots, tokens := slots - 1, tokens - 1;
    }

    // --------------------------------------------------- objects come and go

    /** More live processes leave the live ones live. */
    twostate lemma StaysLive(q: seq<Process>)
      requires old(AllLive(q)) && forall p :: p in old(live) ==> p in live && live[p] == old(live)[p]
      ensures AllLive(q)
    {
    }

    ghost method AddLive(x: Process)
      requires WellFormed() && x.pid !in live
      modifies this`live
      ensures live == old(live)[x.pid := x] && WellFormed()
      ensures Model() == old(Model()).(pcbs := old(Model()).pcbs[x.pid := x.View()])
    {
      hide QueueMap, SemMap, IoMap, Line, AllLive, Names;
      live := live[x.pid := x];
      assert PcbMap() == old(PcbMap())[x.pid := x.View()] by { hide QueuesLive, IoLive, WaitersLive; }
      hide PcbMap;
      forall st | st in queues ensures AllLive(queues[st]) { StaysLive(queues[st]); }
      forall d | d in io ensures AllLive(Line(d)) { StaysLive(Line(d)); }
      forall n | n in byName ensures AllLive(byName[n].queue) { StaysLive(byName[n].queue); }
    }

    /** pcb_create with the next PID, which is then advanced. */
    method CreateProcess() returns (x: Process)
      requires WellFormed() && nextPid !in live
      modifies this`live, this`nextPid
      ensures fresh(x) && x.pid == old(nextPid) && live == old(live)[x.pid := x] && Live(x)
      ensures byName == old(byName) && semaphores == old(semaphores) && WellFormed()
      ensures Model() == old(Model()).(pcbs := old(Model()).pcbs[x.pid := Pcb(New, None, map[])],
                                       nextPid := old(Model()).nextPid + 1)
    {
      x := new Process(nextPid);
      hide Tables, QueuesLive, IoLive, WaitersLive, QueueMap, SemMap, IoMap, PcbMap;
      AddLive(x);
      nextPid := nextPid + 1;
    }

    /** No queue of the system holds the process. */
    ghost predicate Unqueued(x: Process)
      reads this, live.Values, byName.Values
    {
      && (forall st :: st in queues ==> x !in queues[st])
      && (forall d :: d in io ==> x !in Line(d))
      && (forall n :: n in byName ==> x !in byName[n].queue)
    }

    /** pcb_algoritmo_destroy: the process is freed, so nothing may refer to it. */
    ghost method DestroyProcess(x: Process)
      requires WellFormed() && Live(x) && Unqueued(x)
      modifies this`live
      ensures live == old(live) - {x.pid} && byName == old(byName) && semaphores == old(semaphores)
      ensures WellFormed()
      ensures Model() == old(Model()).(pcbs := old(Model()).pcbs - {x.pid})
    {
      hide QueueMap, SemMap, IoMap, Line, Names;
      live := live - {x.pid};
      assert PcbMap() == old(PcbMap()) - {x.pid} by { hide QueuesLive, IoLive, WaitersLive; }
      hide PcbMap;
      assert QueuesLive() by { hide IoLive, WaitersLive, Tables; }
      assert IoLive() by { hide QueuesLive, WaitersLive, Tables; }
      assert WaitersLive() by { hide QueuesLive, IoLive, Tables; }
    }

    method AddSemaphore(m: Semaphore)
      requires WellFormed() && m.name !in byName && m.queue == []
      modifies this`byName, this`semaphores
      ensures live == old(live) && WellFormed()
      ensures byName == old(byName)[m.name := m] && semaphores == old(semaphores) + [m]
      ensures Model() == old(Model()).(sems := old(Model()).sems[m.name := m.View()],
                                       names := old(Model()).names + [m.name])
    {
      hide QueuesLive, IoLive, QueueMap, PcbMap, IoMap, AllLive;
      semaphores := semaphores + [m];
      byName := byName[m.name := m];
      assert Names(semaphores) == old(Names(semaphores)) + [m.name];
      hide Names;
      assert Tables() by { hide SemMap, WaitersLive; }
      hide Tables;
      assert SemMap() == old(SemMap())[m.name := m.View()] by { hide WaitersLive; }
      forall k | k in byName ensures AllLive(byName[k].queue) { if k == m.name { NobodyLive(m.queue); } }
    }

    lemma NobodyLive(q: seq<Process>)
      requires q == []
      ensures AllLive(q)
    {
    }

    /** recurso_sem_create, added to the system's list. */
    method CreateSemaphore(n: Name, v: int)
      requires WellFormed() && n !in byName
      modifies this`byName, this`semaphores
      ensures live == old(live) && WellFormed() && n in byName && fresh(byName[n])
      ensures byName == old(byName)[n := byName[n]]
      ensures Model() == old(Model()).(sems := old(Model()).sems[n := Sem(v, v, [])], names := old(Model()).names + [n])
    {
      var m := new Semaphore(n, v);
      hide Tables, QueuesLive, IoLive, WaitersLive, QueueMap, SemMap, IoMap, PcbMap, Names;
      AddSemaphore(m);
    }

    /** The system's list becomes rest, which lacks the semaphore called n and no other. */
    ghost predicate Lacks(rest: seq<Semaphore>, n: Name)
      reads this`semaphores
    {
      && (forall i :: 0 <= i < |rest| ==> rest[i] in semaphores && rest[i].name != n)
      && (forall k :: k in Names(semaphores) && k != n ==> k in Names(rest))
    }

    method ForgetSemaphore(rest: seq<Semaphore>, n: Name)
      requires WellFormed() && Lacks(rest, n)
      modifies this`byName, this`semaphores
      ensures live == old(live) && WellFormed() && byName == old(byName) - {n}
      ensures Model() == old(Model()).(sems := old(Model()).sems - {n}, names := Names(rest))
    {
      hide QueuesLive, IoLive, QueueMap, PcbMap, IoMap, AllLive, Names;
      semaphores := rest;
      byName := byName - {n};
      assert Tables() by { hide SemMap, WaitersLive; }
      hide Tables;
      assert SemMap() == old(SemMap()) - {n} by { hide WaitersLive; }
      assert WaitersLive() by { hide SemMap; }
    }

    /** Takes the semaphore at position i off the system's list. */
    method DropSemaphore(i: nat)
      requires WellFormed() && i < |semaphores| && NoDup(Names(semaphores))
      modifies this`byName, this`semaphores
      ensures live == old(live) && WellFormed() && byName == old(byName) - {old(semaphores[i].name)}
      ensures Model() == old(Model()).(sems := old(Model()).sems - {old(semaphores[i].name)},
                                       names := Remove(old(Model()).names, old(semaphores[i].name)))
    {
      var rest := semaphores[..i] + semaphores[i + 1..];
      NamesWithout(semaphores, i, rest);
      hide WellFormed, PcbMap, QueueMap, SemMap, IoMap, NoDup, Names, Remove;
      ForgetSemaphore(rest, semaphores[i].name);
    }
  }

  /** Dropping position i of a list of distinct names removes its name, and only that. */
  lemma NamesWithout(q: seq<Semaphore>, i: nat, rest: seq<Semaphore>)
    requires i < |q| && NoDup(Names(q)) && rest == q[..i] + q[i + 1..]
    ensures Names(rest) == Remove(Names(q), q[i].name)
    ensures forall j :: 0 <= j < |rest| ==> rest[j] in q && rest[j].name != q[i].name
    ensures forall n :: n in Names(q) && n != q[i].name ==> n in Names(rest)
  {
    var s := Names(q);
    assert s[i] == q[i].name;
    RemoveAtIndex(s, s[i], i);
    assert Names(rest) == s[..i] + s[i + 1..];
    RemoveKeeps(s, s[i]);
    forall j | 0 <= j < |rest| ensures rest[j] in q && rest[j].name != q[i].name {
      var k := if j < i then j else j + 1;
      assert q[k] == rest[j] && s[k] == q[k].name;
    }
  }
}

/** The kernel's state as a value: PCBs, the seven scheduling queues, the system
    semaphores, the I/O queues and the two counting tokens of the planners. */
module KernelState {
  import opened Wrappers
  import opened Lists

  type Pid = nat
  type Name = string    // canonical semaphore name: the lookup before creation keeps it unique
  type Device = string

  datatype Status = New | Ready | Exec | Blocked | SusBlocked | SusReady | Exit

  /** held maps a semaphore name to the instances of it that the process retains. */
  datatype Pcb = Pcb(status: Status, waitsOn: Option<Name>, held: map<Name, int>)

  datatype Sem = Sem(initial: int, value: int, queue: seq<Pid>)

  /** qs holds the seven scheduling queues, names is the system's semaphore list, in creation order; slots is what is
      left of the multiprogramming degree; tokens counts processes to admit. */
  datatype State = State(pcbs: map<Pid, Pcb>, qs: map<Status, seq<Pid>>, names: seq<Name>, sems: map<Name, Sem>,
                         io: map<Device, seq<Pid>>, slots: nat, tokens: nat, nextPid: nat, degree: nat) {
    /** The scheduling queue of a status. */
    function Q(st: Status): seq<Pid> { if st in qs then qs[st] else [] }
  }

  predicate Waiting(s: State, p: Pid) { p in s.pcbs && s.pcbs[p].waitsOn.Some? }

  predicate WaitsFor(s: State, p: Pid, n: Name) { p in s.pcbs && s.pcbs[p].waitsOn == Some(n) }

  predicate Retains(s: State, p: Pid, n: Name) { p in s.pcbs && n in s.pcbs[p].held }

  predicate Asleep(st: Status) { st == Blocked || st == SusBlocked }

  ghost function Initial(degree: nat, devices: set<Device>): State {
    State(map[], map[], [], map[], map d | d in devices :: [], degree, 0, 1, degree)
  }

  // ---------------------------------------------------------------- invariant
  // gone holds the processes taken off their queues and not yet destroyed: none
  // between steps, the victim while the recovery releases what it retained.

  /** A process is in the queue its status names, once, and in no other. */
  ghost predicate Placed(s: State, gone: set<Pid>) {
    && (forall st :: NoDup(s.Q(st)))
    && (forall st, p :: p in s.Q(st) <==> p in s.pcbs && p !in gone && s.pcbs[p].status == st)
  }

  ghost predicate Listed(s: State) {
    NoDup(s.names) && forall n :: n in s.names <==> n in s.sems
  }

  /** A process is in a semaphore's queue, once, exactly when it waits on that semaphore. */
  ghost predicate Linked(s: State, gone: set<Pid>) {
    && (forall n :: n in s.sems ==> NoDup(s.sems[n].queue))
    && (forall n, p :: n in s.sems ==> (p in s.sems[n].queue <==> WaitsFor(s, p, n) && p !in gone))
    && (forall p :: Waiting(s, p) ==> s.pcbs[p].waitsOn.value in s.sems)
    && (forall p :: Waiting(s, p) && p !in gone ==> Asleep(s.pcbs[p].status))
  }

  predicate OnDevice(io: map<Device, seq<Pid>>, p: Pid) { exists d :: d in io && p in io[d] }

  ghost predicate DeviceQueues(io: map<Device, seq<Pid>>) {
    && (forall d :: d in io ==> NoDup(io[d]))
    && (forall d, e, p :: d in io && e in io && p in io[d] && p in io[e] ==> d == e)
  }

  /** Whoever sleeps without waiting on a semaphore is in exactly one device queue, once. */
  ghost predicate IoQueued(s: State, gone: set<Pid>) {
    && DeviceQueues(s.io)
    && forall p :: OnDevice(s.io, p) <==>
         p in s.pcbs && p !in gone && Asleep(s.pcbs[p].status) && !Waiting(s, p)
  }

  ghost predicate Positive(s: State) {
    forall p, n :: Retains(s, p, n) ==> s.pcbs[p].held[n] > 0
  }

  function Max0(x: int): nat { if x > 0 then x else 0 }

  /** The queue of a semaphore that began non-negative is as long as its value is negative. */
  ghost predicate SemLaw(m: Sem) {
    |m.queue| <= Max0(-m.value) && (m.initial >= 0 ==> |m.queue| == Max0(-m.value))
  }

  ghost predicate Counted(s: State) { forall n :: n in s.sems ==> SemLaw(s.sems[n]) }

  ghost predicate TokensMatch(s: State) { s.tokens == |s.Q(New)| + |s.Q(SusReady)| }

  ghost predicate SlotsMatch(s: State) {
    s.slots + |s.Q(Ready)| + |s.Q(Exec)| + |s.Q(Blocked)| + |s.Q(Exit)| == s.degree
  }

  ghost predicate PidsBelow(s: State) { forall p :: p in s.pcbs ==> p < s.nextPid }

  /** The case in which the medium-term planner must suspend somebody. */
  predicate SuspensionCase(s: State) {
    s.Q(Ready) == [] && s.Q(New) != [] && s.Q(Blocked) != [] && s.slots == 0
  }

  ghost predicate Inv(s: State, gone: set<Pid>) {
    && Placed(s, gone) && Listed(s) && Linked(s, gone) && IoQueued(s, gone) && Positive(s)
    && Counted(s) && TokensMatch(s) && SlotsMatch(s) && PidsBelow(s)
  }

  /** What holds in every reachable state between steps. */
  ghost predicate Good(s: State) { Inv(s, {}) && !SuspensionCase(s) }
}

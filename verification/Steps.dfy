/** What each kernel operation does to the state. */
module Steps {
  import opened Wrappers
  import opened Lists
  import opened KernelState

  /** A status transition. The queues only hold live processes (see Placed), so p is in m. */
  function SetStatus(m: map<Pid, Pcb>, p: Pid, st: Status): map<Pid, Pcb> {
    if p in m then m[p := m[p].(status := st)] else m
  }

  /** Takes p off the queue from, sets its status and appends it to the queue to. */
  function Shift(s: State, p: Pid, from: Status, to: Status): State {
    var out := s.(qs := s.qs[from := Remove(s.Q(from), p)]);
    out.(pcbs := SetStatus(s.pcbs, p, to), qs := out.qs[to := out.Q(to) + [p]])
  }

  /** The medium-term planner: suspends the last blocked process when it must. */
  function Evaluate(s: State): State {
    if SuspensionCase(s) then
      var q := s.Q(Blocked);
      var p := q[|q| - 1];
      s.(pcbs := SetStatus(s.pcbs, p, SusBlocked),
         qs := s.qs[Blocked := q[..|q| - 1]][SusBlocked := s.Q(SusBlocked) + [p]], slots := s.slots + 1)
    else s
  }

  function Retain(b: Pcb, n: Name): Pcb {
    b.(held := b.held[n := if n in b.held then b.held[n] + 1 else 1])
  }

  function Release(b: Pcb, n: Name): Pcb {
    if n !in b.held then b
    else if b.held[n] - 1 == 0 then b.(held := b.held - {n})
    else b.(held := b.held[n := b.held[n] - 1])
  }

  /** SEM_WAIT by the running process p. */
  function Wait(s: State, p: Pid, n: Name): State
    requires p in s.pcbs && n in s.sems
  {
    var m := s.sems[n].(value := s.sems[n].value - 1);
    if m.value < 0 then
      Evaluate(Sleep(s, p, n, m))
    else s.(sems := s.sems[n := m], pcbs := s.pcbs[p := Retain(s.pcbs[p], n)])
  }

  /** p leaves EXEC for BLOCKED and joins the queue of the semaphore n, whose new record is m. */
  function Sleep(s: State, p: Pid, n: Name, m: Sem): State
    requires p in s.pcbs
  {
    var t := Shift(s, p, Exec, Blocked);
    t.(pcbs := t.pcbs[p := t.pcbs[p].(waitsOn := Some(n))],
       sems := s.sems[n := m.(queue := m.queue + [p])])
  }

  predicate HasStatus(s: State, p: Pid, st: Status) { p in s.pcbs && s.pcbs[p].status == st }

  /** p stops waiting and retains an instance of n. */
  function Granted(m: map<Pid, Pcb>, p: Pid, n: Name): map<Pid, Pcb> {
    if p in m then m[p := Retain(m[p].(waitsOn := None), n)] else m
  }

  /** The process at the head of n's queue is woken and retains an instance. */
  function Wake(s: State, n: Name): State
    requires n in s.sems && s.sems[n].queue != []
  {
    var m := s.sems[n];
    var h := m.queue[0];
    var t := s.(sems := s.sems[n := m.(queue := m.queue[1..])]);
    var u := if HasStatus(s, h, SusBlocked) then Shift(t, h, SusBlocked, SusReady).(tokens := t.tokens + 1)
             else if HasStatus(s, h, Blocked) then Shift(t, h, Blocked, Ready)
             else t;
    u.(pcbs := Granted(u.pcbs, h, n))
  }

  /** The value goes up and the poster gives back an instance, if it retained one. */
  function GiveBack(s: State, p: Pid, n: Name): State
    requires p in s.pcbs && n in s.sems
  {
    s.(sems := s.sems[n := s.sems[n].(value := s.sems[n].value + 1)],
       pcbs := s.pcbs[p := Release(s.pcbs[p], n)])
  }

  /** SEM_POST by p. */
  function Post(s: State, p: Pid, n: Name): (r: State)
    requires p in s.pcbs && n in s.sems
    ensures r.pcbs.Keys == s.pcbs.Keys && r.sems.Keys == s.sems.Keys && r.names == s.names
  {
    var t := GiveBack(s, p, n);
    if t.sems[n].value <= 0 && t.sems[n].queue != [] then Wake(t, n) else t
  }

  // ------------------------------------------------------------ the other steps

  /** MATE_INIT: a new process enters NEW. */
  function Arrive(s: State): State
  {
    var t := s.(pcbs := s.pcbs[s.nextPid := Pcb(New, None, map[])],
                qs := s.qs[New := s.Q(New) + [s.nextPid]], nextPid := s.nextPid + 1);
    var u := Evaluate(t);
    u.(tokens := u.tokens + 1)
  }

  /** The long-term planner has taken a token and a slot. */
  function Admit(s: State): State
    requires s.tokens > 0 && s.slots > 0
    requires s.Q(SusReady) != [] || s.Q(New) != []
  {
    var t := s.(tokens := s.tokens - 1, slots := s.slots - 1);
    if s.Q(SusReady) != [] then Shift(t, s.Q(SusReady)[0], SusReady, Ready)
    else Shift(t, s.Q(New)[0], New, Ready)
  }

  /** The short-term planner runs the process it chose among the ready ones. */
  function Dispatch(s: State, p: Pid): State
  {
    Evaluate(Shift(s, p, Ready, Exec))
  }

  function SemInit(s: State, n: Name, v: int): State {
    if n in s.sems then s
    else s.(sems := s.sems[n := Sem(v, v, [])], names := s.names + [n])
  }

  /** Refused when somebody waits; instances that are retained are not looked at. */
  function SemDestroy(s: State, n: Name): State {
    if n in s.sems && s.sems[n].queue == [] then
      s.(sems := s.sems - {n}, names := Remove(s.names, n))
    else s
  }

  /** CALL_IO: an unknown device leaves the process where it is. */
  function CallIo(s: State, p: Pid, d: Device): State {
    if d in s.io then
      var t := Shift(s, p, Exec, Blocked);
      Evaluate(t.(io := t.io[d := t.io[d] + [p]]))
    else s
  }

  /** A device finishes with the first process of its queue. */
  function IoDone(s: State, d: Device): State
    requires d in s.io && s.io[d] != []
  {
    var h := s.io[d][0];
    var t := s.(io := s.io[d := s.io[d][1..]]);
    if HasStatus(s, h, SusBlocked) then Shift(t, h, SusBlocked, SusReady).(tokens := t.tokens + 1)
    else if HasStatus(s, h, Blocked) then Shift(t, h, Blocked, Ready)
    else t
  }

  function Close(s: State, p: Pid): State
  {
    Shift(s, p, Exec, Exit)
  }

  /** The first finished process is destroyed and its slot freed. */
  function FreeExit(s: State): State
    requires s.Q(Exit) != []
  {
    s.(qs := s.qs[Exit := s.Q(Exit)[1..]], pcbs := s.pcbs - {s.Q(Exit)[0]}, slots := s.slots + 1)
  }
}

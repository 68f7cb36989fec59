/** Small reachable states, for the examples: processes running, waiting and retaining. */
module Scenes {
  import opened Wrappers
  import opened Lists
  import opened KernelState
  import opened Steps
  import opened Runs

  /** s ends some run of a system without devices. */
  ghost predicate Reachable(s: State, degree: nat) {
    exists ss: seq<State>, es: seq<Event> :: Run(ss, es) && ss[0] == Initial(degree, {}) && ss[|es|] == s
  }

  lemma ReachInitial(degree: nat)
    ensures Reachable(Initial(degree, {}), degree)
  {
    assert Run([Initial(degree, {})], []);
  }

  lemma ReachGood(s: State, degree: nat)
    requires Reachable(s, degree)
    ensures Good(s)
  {
    hide Step, Good;
    var ss: seq<State>, es: seq<Event> :| Run(ss, es) && ss[0] == Initial(degree, {}) && ss[|es|] == s;
    RunGood(ss, es, degree, {}, |es|);
  }

  lemma ReachStep(s: State, e: Event, t: State, degree: nat)
    requires Reachable(s, degree) && Good(s) && Enabled(s, e) && t == Apply(s, e)
    ensures Reachable(t, degree) && Good(t)
  {
    hide Good, Apply, Enabled;
    GoodStep(s, e);
    assert Step(s, e, t);
    hide Step;
    var ss: seq<State>, es: seq<Event> :| Run(ss, es) && ss[0] == Initial(degree, {}) && ss[|es|] == s;
    var ts, fs := ss + [t], es + [e];
    forall i | 0 <= i < |fs| ensures Step(ts[i], fs[i], ts[i + 1]) {
      if i < |es| { assert Step(ss[i], es[i], ss[i + 1]); }
    }
    assert Run(ts, fs);
  }

  // -------------------------------------------------------------- processes running

  function Upto(k: nat): seq<Pid> { if k == 0 then [] else Upto(k - 1) + [k] }

  function Idlers(k: nat): map<Pid, Pcb> { if k == 0 then map[] else Idlers(k - 1)[k := Pcb(Exec, None, map[])] }

  /** k processes run and retain nothing. */
  ghost function Running(k: nat, degree: nat): State
    requires k <= degree
  {
    if k == 0 then Initial(degree, {})
    else State(Idlers(k), map[New := [], Ready := [], Exec := Upto(k)], [], map[], map[], degree - k, 0, k + 1, degree)
  }

  /** After an arrival and after an admission, before the next of them. */
  ghost function Arriving(k: nat, degree: nat): State
    requires k < degree
  {
    State(Idlers(k)[k + 1 := Pcb(New, None, map[])],
          (if k == 0 then map[] else map[Ready := [], Exec := Upto(k)])[New := [k + 1]],
          [], map[], map[], degree - k, 1, k + 2, degree)
  }

  ghost function Admitted(k: nat, degree: nat): State
    requires k < degree
  {
    State(Idlers(k)[k + 1 := Pcb(Ready, None, map[])],
          (if k == 0 then map[] else map[Exec := Upto(k)])[New := []][Ready := [k + 1]],
          [], map[], map[], degree - k - 1, 0, k + 2, degree)
  }

  lemma ArrivingIs(k: nat, degree: nat)
    requires k < degree
    ensures Arrive(Running(k, degree)) == Arriving(k, degree)
  {
    var s := Running(k, degree);
    assert s.Q(New) + [k + 1] == [k + 1];
    assert s.qs[New := [k + 1]] == Arriving(k, degree).qs;
    assert s.pcbs == Idlers(k) && s.nextPid == k + 1;
    assert !SuspensionCase(Arriving(k, degree).(tokens := 0));
  }

  lemma AdmittedIs(k: nat, degree: nat)
    requires k < degree
    ensures var s := Arriving(k, degree);
      s.tokens > 0 && s.slots > 0 && s.Q(New) != [] && Admit(s) == Admitted(k, degree)
  {
    var s := Arriving(k, degree);
    var t := Admitted(k, degree);
    assert s.Q(SusReady) == [] && s.Q(New) == [k + 1] && s.Q(Ready) == [];
    assert Remove([k + 1], k + 1) == [] && [] + [k + 1] == [k + 1];
    assert s.qs[New := []][Ready := [k + 1]] == t.qs;
    assert SetStatus(s.pcbs, k + 1, Ready) == t.pcbs;
  }

  lemma RunningIs(k: nat, degree: nat)
    requires k < degree
    ensures Dispatch(Admitted(k, degree), k + 1) == Running(k + 1, degree)
  {
    assert Remove([k + 1], k + 1) == [];
  }

  lemma {:induction false} ReachRunning(k: nat, degree: nat)
    requires k <= degree
    ensures Reachable(Running(k, degree), degree) && Good(Running(k, degree))
  {
    hide Good, Reachable, Arrive, Admit, Dispatch;
    if k == 0 {
      ReachInitial(degree);
      GoodInitial(degree, {});
    } else {
      ReachRunning(k - 1, degree);
      ArrivingIs(k - 1, degree);
      ReachStep(Running(k - 1, degree), Arrival, Arriving(k - 1, degree), degree);
      AdmittedIs(k - 1, degree);
      ReachStep(Arriving(k - 1, degree), Admission, Admitted(k - 1, degree), degree);
      RunningIs(k - 1, degree);
      ReachStep(Admitted(k - 1, degree), Chosen(k), Running(k, degree), degree);
    }
  }

  // ------------------------------------------------------------ waiting and retaining

  /** What differs between the states below. */
  datatype Cast = Cast(pcbs: map<Pid, Pcb>, exec: seq<Pid>, blocked: seq<Pid>, names: seq<Name>, sems: map<Name, Sem>)

  function Queues(exec: seq<Pid>, blocked: seq<Pid>): map<Status, seq<Pid>> {
    var q := map[New := [], Ready := [], Exec := exec];
    if blocked == [] then q else q[Blocked := blocked]
  }

  /** k processes in memory, out of degree. */
  ghost function Stage(c: Cast, k: nat, degree: nat): State
    requires k <= degree
  {
    State(c.pcbs, Queues(c.exec, c.blocked), c.names, c.sems, map[], degree - k, 0, k + 1, degree)
  }

  /** The processes 1 to k run, and there are no semaphores yet. */
  function Opening(k: nat): Cast { Cast(Idlers(k), Upto(k), [], [], map[]) }

  function AddSem(c: Cast, n: Name, v: int): Cast {
    c.(names := c.names + [n], sems := c.sems[n := Sem(v, v, [])])
  }

  /** p waits for n and gets an instance. */
  function Take(c: Cast, p: Pid, n: Name): Cast
    requires p in c.pcbs && n in c.sems
  {
    c.(pcbs := c.pcbs[p := Retain(c.pcbs[p], n)], sems := c.sems[n := c.sems[n].(value := c.sems[n].value - 1)])
  }

  /** p waits for n and blocks. */
  function Stop(c: Cast, p: Pid, n: Name): Cast
    requires p in c.pcbs && n in c.sems
  {
    c.(pcbs := c.pcbs[p := Pcb(Blocked, Some(n), c.pcbs[p].held)],
       exec := Remove(c.exec, p), blocked := c.blocked + [p],
       sems := c.sems[n := c.sems[n].(value := c.sems[n].value - 1, queue := c.sems[n].queue + [p])])
  }

  ghost predicate Played(c: Cast, k: nat, degree: nat) {
    k <= degree && Reachable(Stage(c, k, degree), degree) && Good(Stage(c, k, degree))
  }

  lemma PlayOpening(k: nat, degree: nat)
    requires 0 < k <= degree
    ensures Played(Opening(k), k, degree)
  {
    hide Good, Reachable;
    ReachRunning(k, degree);
  }

  lemma PlayAddSem(c: Cast, k: nat, degree: nat, p: Pid, n: Name, v: int)
    requires Played(c, k, degree) && p in c.exec && n !in c.sems
    ensures Played(AddSem(c, n, v), k, degree)
  {
    hide Good, Reachable;
    ReachStep(Stage(c, k, degree), InitCall(p, n, v), Stage(AddSem(c, n, v), k, degree), degree);
  }

  lemma ReachWait(s: State, p: Pid, n: Name, t: State, degree: nat)
    requires Reachable(s, degree) && Good(s) && p in s.Q(Exec) && p in s.pcbs && n in s.sems && t == Wait(s, p, n)
    ensures Reachable(t, degree) && Good(t)
  {
    hide Good, Reachable, Wait;
    ReachStep(s, WaitCall(p, n), t, degree);
  }

  lemma TakeIs(c: Cast, k: nat, degree: nat, p: Pid, n: Name)
    requires k <= degree && p in c.pcbs && n in c.sems && c.sems[n].value > 0
    ensures Wait(Stage(c, k, degree), p, n) == Stage(Take(c, p, n), k, degree)
  {
  }

  lemma PlayTake(c: Cast, k: nat, degree: nat, p: Pid, n: Name)
    requires Played(c, k, degree) && p in c.exec && p in c.pcbs && n in c.sems && c.sems[n].value > 0
    ensures Played(Take(c, p, n), k, degree)
  {
    hide Good, Reachable, Wait, Take;
    TakeIs(c, k, degree, p, n);
    ReachWait(Stage(c, k, degree), p, n, Stage(Take(c, p, n), k, degree), degree);
  }

  lemma StopIs(c: Cast, k: nat, degree: nat, p: Pid, n: Name)
    requires k <= degree && p in c.pcbs && n in c.sems && c.sems[n].value <= 0
    ensures Wait(Stage(c, k, degree), p, n) == Stage(Stop(c, p, n), k, degree)
  {
    var s, t := Stage(c, k, degree), Stage(Stop(c, p, n), k, degree);
    var m := s.sems[n].(value := s.sems[n].value - 1);
    assert s.qs[Exec := Remove(s.Q(Exec), p)][Blocked := s.Q(Blocked) + [p]] == t.qs;
    assert c.pcbs[p := c.pcbs[p].(status := Blocked)][p := Pcb(Blocked, Some(n), c.pcbs[p].held)] == t.pcbs;
    assert Sleep(s, p, n, m) == t;
    assert !SuspensionCase(t);
  }

  lemma PlayStop(c: Cast, k: nat, degree: nat, p: Pid, n: Name)
    requires Played(c, k, degree) && p in c.exec && p in c.pcbs && n in c.sems && c.sems[n].value <= 0
    ensures Played(Stop(c, p, n), k, degree)
  {
    hide Good, Reachable, Wait, Stop;
    StopIs(c, k, degree, p, n);
    ReachWait(Stage(c, k, degree), p, n, Stage(Stop(c, p, n), k, degree), degree);
  }
}

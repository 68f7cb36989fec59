/** What each message of a running process does, whatever event it is turned into. */
module Requests {
  import opened Wrappers
  import opened Lists
  import opened KernelState
  import opened Steps
  import opened StepInvariants
  import opened SchedulerInvariants
  import opened Runs
  import opened Service

  /** What is retained after one instance of n more, and after one fewer. */
  function OneMore(held: map<Name, int>, n: Name): map<Name, int> {
    held[n := if n in held then held[n] + 1 else 1]
  }

  function OneFewer(held: map<Name, int>, n: Name): map<Name, int> {
    if n !in held then held else if held[n] == 1 then held - {n} else held[n := held[n] - 1]
  }

  /** Where a process goes that blocks: it is suspended at once when nobody is ready, somebody is new
      and no slot is free. */
  ghost function BlocksInto(s: State): Status {
    if s.Q(Ready) == [] && s.Q(New) != [] && s.slots == 0 then SusBlocked else Blocked
  }

  /** Nothing but processes, semaphores and queues, and the slot of one who is suspended at once. */
  ghost predicate OnlyBlocks(s: State, t: State) {
    && t.slots == (if BlocksInto(s) == SusBlocked then s.slots + 1 else s.slots)
    && t.tokens == s.tokens && t.names == s.names && t.nextPid == s.nextPid && t.degree == s.degree
  }

  /** SEM_INIT: a new name gets a semaphore with the value asked for, which nobody waits on, and
      nothing else changes; a known name changes nothing at all. */
  lemma InitSemDoes(s: State, p: Pid, n: Name, v: int)
    requires Good(s) && p in s.Q(Exec)
    ensures var t := Served(s, p, InitSem(n, v));
      if n in s.sems then t == s
      else && t.sems == s.sems[n := Sem(v, v, [])] && t.names == s.names + [n]
           && t.pcbs == s.pcbs && t == s.(sems := t.sems, names := t.names)
  {
    hide Good;
  }

  /** SEM_WAIT: an unknown name changes nothing; a positive value goes down by one and the process
      retains an instance and runs on; otherwise the value goes down by one, and the process
      goes to sleep at the end of the queue of that semaphore, with what it retains. */
  lemma WaitSemDoes(s: State, p: Pid, n: Name)
    requires Good(s) && p in s.Q(Exec)
    ensures p in s.pcbs
    ensures var t := Served(s, p, WaitSem(n)); var b := s.pcbs[p];
      if n !in s.sems then t == s
      else
        var m := s.sems[n];
        if m.value > 0 then
          && t.sems == s.sems[n := Sem(m.initial, m.value - 1, m.queue)]
          && t.pcbs == s.pcbs[p := Pcb(Exec, None, OneMore(b.held, n))]
          && t == s.(sems := t.sems, pcbs := t.pcbs)
        else
          && t.sems == s.sems[n := Sem(m.initial, m.value - 1, m.queue + [p])]
          && t.pcbs == s.pcbs[p := Pcb(BlocksInto(s), Some(n), b.held)]
          && t.io == s.io && OnlyBlocks(s, t)
  {
    hide Inv;
    QueuedLive(s, p, Exec);
    if n in s.sems && s.sems[n].value <= 0 {
      var m := s.sems[n].(value := s.sems[n].value - 1);
      SleepShape(s, p, n, m);
      SleepQueues(s, p, n, m);
      hide Sleep;
      SleepEvaluates(s, Sleep(s, p, n, m), p);
    }
  }

  lemma SleepQueues(s: State, p: Pid, n: Name, m: Sem)
    requires p in s.pcbs
    ensures var t := Sleep(s, p, n, m);
      t.Q(Blocked) == s.Q(Blocked) + [p] && t.Q(Ready) == s.Q(Ready) && t.Q(New) == s.Q(New)
  {
    ShiftQueues(s, p, Exec, Blocked);
    hide Shift;
    assert forall st :: Sleep(s, p, n, m).Q(st) == Shift(s, p, Exec, Blocked).Q(st);
  }

  /** Suspension evaluated when p has just blocked. */
  lemma SleepEvaluates(s: State, m: State, p: Pid)
    requires p in m.pcbs && m.pcbs[p].status == Blocked
    requires m.Q(Blocked) == s.Q(Blocked) + [p] && m.Q(Ready) == s.Q(Ready) && m.Q(New) == s.Q(New) && m.slots == s.slots
    ensures var t := Evaluate(m);
      && t.pcbs == m.pcbs[p := m.pcbs[p].(status := BlocksInto(s))]
      && t.slots == (if BlocksInto(s) == SusBlocked then s.slots + 1 else s.slots)
      && t == m.(pcbs := t.pcbs, qs := t.qs, slots := t.slots)
  {
    assert SuspensionCase(m) <==> BlocksInto(s) == SusBlocked;
    assert m.Q(Blocked)[|m.Q(Blocked)| - 1] == p;
    if !SuspensionCase(m) { assert m.pcbs[p := m.pcbs[p].(status := Blocked)] == m.pcbs; }
  }

  /** SEM_POST: an unknown name changes nothing; otherwise the value goes up by one, the process
      retains one instance less, if it retained any, and whoever is first in the queue leaves it,
      retains an instance and can run: after its admission, if it was suspended. */
  lemma PostSemDoes(s: State, p: Pid, n: Name)
    requires Good(s) && p in s.Q(Exec)
    ensures p in s.pcbs
    ensures n !in s.sems ==> Served(s, p, PostSem(n)) == s
    ensures n in s.sems && s.sems[n].queue == [] ==>
      var t := Served(s, p, PostSem(n)); var m := s.sems[n];
      && t.sems == s.sems[n := Sem(m.initial, m.value + 1, [])]
      && t.pcbs == s.pcbs[p := Pcb(Exec, None, OneFewer(s.pcbs[p].held, n))]
      && t == s.(sems := t.sems, pcbs := t.pcbs)
    ensures n in s.sems && s.sems[n].queue != [] ==>
      var t := Served(s, p, PostSem(n)); var m := s.sems[n]; var h := m.queue[0];
      && h in s.pcbs && h != p && (s.pcbs[h].status == Blocked || s.pcbs[h].status == SusBlocked)
      && t.sems == s.sems[n := Sem(m.initial, m.value + 1, m.queue[1..])]
      && t.pcbs == s.pcbs[p := Pcb(Exec, None, OneFewer(s.pcbs[p].held, n))]
                         [h := Pcb(if s.pcbs[h].status == Blocked then Ready else SusReady, None, OneMore(s.pcbs[h].held, n))]
      && t.tokens == (if s.pcbs[h].status == Blocked then s.tokens else s.tokens + 1)
      && t == s.(sems := t.sems, pcbs := t.pcbs, qs := t.qs, tokens := t.tokens)
  {
    hide Inv;
    QueuedLive(s, p, Exec);
    if n in s.sems && s.sems[n].queue == [] {
      PostAlone(s, p, n);
    } else if n in s.sems {
      PostShape(s, p, n, {});
      hide Post;
    }
  }

  /** SEM_DESTROY: a semaphore that nobody waits on disappears, and nothing else changes;
      otherwise nothing does. */
  lemma DestroySemDoes(s: State, p: Pid, n: Name)
    requires Good(s) && p in s.Q(Exec)
    ensures var t := Served(s, p, DestroySem(n));
      if n in s.sems && s.sems[n].queue == [] then
        && t.sems == s.sems - {n} && t.names == Filter(s.names, (k: Name) => k != n)
        && t.pcbs == s.pcbs && t == s.(sems := t.sems, names := t.names)
      else t == s
  {
    hide Inv;
    assert NoDup(s.names) by { ListedOnce(s); }
    hide Good, Filter, Remove, NoDup;
    RemoveFilters(s.names, n);
  }

  lemma ListedOnce(s: State)
    requires Inv(s, {})
    ensures NoDup(s.names)
  {
    hide Placed, Linked, IoQueued, Positive, Counted, TokensMatch, SlotsMatch, PidsBelow, NoDup;
  }

  lemma {:induction false} RemoveFilters(q: seq<Name>, n: Name)
    requires NoDup(q)
    ensures Remove(q, n) == Filter(q, (k: Name) => k != n)
  {
    if q != [] {
      RemoveFilters(q[1..], n);
      FilterSame(q[1..], (k: Name) => k != n, (k: Name) => k != n);
      if q[0] == n {
        assert Remove(q, n) == q[1..] && n !in q[1..];
        KeepsAll(q[1..], n);
      }
    }
  }

  lemma {:induction false} KeepsAll(q: seq<Name>, n: Name)
    requires n !in q
    ensures Filter(q, (k: Name) => k != n) == q
  {
    if q != [] {
      assert q == [q[0]] + q[1..];
      KeepsAll(q[1..], n);
    }
  }

  /** CALL_IO: an unknown device changes nothing; otherwise the process goes to sleep at the end of
      the line of that device, waiting on no semaphore, with what it retains. */
  lemma UseDeviceDoes(s: State, p: Pid, d: Device)
    requires Good(s) && p in s.Q(Exec)
    ensures p in s.pcbs
    ensures var t := Served(s, p, UseDevice(d));
      if d !in s.io then t == s
      else && t.io == s.io[d := s.io[d] + [p]]
           && t.pcbs == s.pcbs[p := Pcb(BlocksInto(s), None, s.pcbs[p].held)]
           && t.sems == s.sems && OnlyBlocks(s, t)
  {
    hide Inv;
    QueuedLive(s, p, Exec);
    if d in s.io {
      var m := IoQueue(s, p, d);
      ShiftQueues(s, p, Exec, Blocked);
      ShiftFields(s, p, Exec, Blocked);
      hide Shift;
      assert forall st :: m.Q(st) == Shift(s, p, Exec, Blocked).Q(st);
      SleepEvaluates(s, m, p);
      assert Served(s, p, UseDevice(d)) == Evaluate(m);
      hide Evaluate, IoQueue, Served;
    }
  }

  /** MATE_CLOSE: the process finishes, at the end of EXIT, with what it still retains. */
  lemma MateCloseDoes(s: State, p: Pid)
    requires Good(s) && p in s.Q(Exec)
    ensures p in s.pcbs
    ensures var t := Served(s, p, MateClose);
      && t.pcbs == s.pcbs[p := Pcb(Exit, None, s.pcbs[p].held)] && t.Q(Exit) == s.Q(Exit) + [p]
      && t == s.(pcbs := t.pcbs, qs := t.qs)
  {
    hide Inv;
    QueuedLive(s, p, Exec);
    ShiftQueues(s, p, Exec, Exit);
  }

  /** Memory requests and unknown operation codes change nothing. */
  lemma OthersDoNothing(s: State, p: Pid, r: Request)
    requires Good(s) && p in s.Q(Exec) && (r == Memory || r == Unknown)
    ensures Served(s, p, r) == s
  {
  }
}

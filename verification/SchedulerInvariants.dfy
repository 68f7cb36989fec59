/** The remaining steps keep the invariant, and every suspension that is due is made. */
module SchedulerInvariants {
  import opened Wrappers
  import opened Lists
  import opened KernelState
  import opened Steps
  import opened StepInvariants

  /** Placement, links and holdings: the part of the invariant without arithmetic. */
  ghost predicate Shape(s: State, gone: set<Pid>) {
    Placed(s, gone) && Linked(s, gone) && IoQueued(s, gone) && Positive(s) && PidsBelow(s)
  }

  // ------------------------------------------------ moves between waking states

  lemma AwakeShift(s: State, p: Pid, from: Status, to: Status)
    requires Shape(s, {}) && p in s.Q(from) && from != to && !Asleep(from) && !Asleep(to)
    ensures Shape(Shift(s, p, from, to), {})
  {
    hide Linked, IoQueued, Positive, PidsBelow;
    assert p in s.pcbs && s.pcbs[p].status == from;
    ShiftPlaced(s, p, from, to, {});
    hide Placed;
    var t := Shift(s, p, from, to);
    SameLinks(s, t, {});
    SameHeld(s, t);
  }

  lemma SameShape(s: State, t: State, gone: set<Pid>)
    requires Shape(s, gone) && t.pcbs == s.pcbs && t.qs == s.qs && t.io == s.io && t.nextPid == s.nextPid
    requires t.sems.Keys == s.sems.Keys && forall n :: n in s.sems ==> t.sems[n].queue == s.sems[n].queue
    ensures Shape(t, gone)
  {
    hide Placed, Linked, IoQueued, Positive, PidsBelow;
    SamePlaced(s, t, gone);
    SameLinks(s, t, gone);
    SameHeld(s, t);
  }

  /** No slot is lost: closing moves the process from EXEC to EXIT. */
  lemma CloseInv(s: State, p: Pid)
    requires Good(s) && p in s.Q(Exec)
    ensures Good(Close(s, p))
  {
    hide Linked, IoQueued, Positive, PidsBelow, Listed, Counted;
    assert p in s.pcbs && s.pcbs[p].status == Exec;
    ShiftLengths(s, p, Exec, Exit, {});
    AwakeShift(s, p, Exec, Exit);
    hide Placed;
    SameCounted(s, Close(s, p));
  }

  lemma SameCounted(s: State, t: State)
    requires Listed(s) && Counted(s) && t.sems == s.sems && t.names == s.names
    ensures Listed(t) && Counted(t)
  {
  }

  /** The planner has an admission to make: the token it took names a process. */
  lemma AdmitReady(s: State)
    requires Good(s) && s.tokens > 0
    ensures s.Q(SusReady) != [] || s.Q(New) != []
  {
    hide Placed, Linked, IoQueued;
  }

  lemma AdmitInv(s: State)
    requires Good(s) && s.tokens > 0 && s.slots > 0
    ensures s.Q(SusReady) != [] || s.Q(New) != []
    ensures Good(Admit(s))
  {
    hide Placed, Linked, IoQueued, Positive, PidsBelow, Listed, Counted;
    AdmitReady(s);
    var from := if s.Q(SusReady) != [] then SusReady else New;
    AdmitShape(s, from);
    SameCounted(s, Admit(s));
  }

  /** Admit is a shift, one token and one slot. */
  lemma AdmitIs(s: State, from: Status)
    requires s.tokens > 0 && s.slots > 0 && s.Q(from) != []
    requires from == if s.Q(SusReady) != [] then SusReady else New
    ensures var u := Shift(s, s.Q(from)[0], from, Ready); Admit(s) == u.(tokens := s.tokens - 1, slots := s.slots - 1)
    ensures var u := Shift(s, s.Q(from)[0], from, Ready);
      u.tokens == s.tokens && u.slots == s.slots && u.degree == s.degree
  {
  }

  lemma HeadStatus(s: State, from: Status)
    requires Placed(s, {}) && s.Q(from) != []
    ensures var p := s.Q(from)[0]; p in s.Q(from) && p in s.pcbs && s.pcbs[p].status == from
  {
    hide NoDup;
    assert s.Q(from)[0] in s.Q(from);
  }

  lemma AdmitShape(s: State, from: Status)
    requires Good(s) && s.tokens > 0 && s.slots > 0 && s.Q(from) != []
    requires from == if s.Q(SusReady) != [] then SusReady else New
    ensures var t := Admit(s);
      Shape(t, {}) && TokensMatch(t) && SlotsMatch(t) && t.Q(Ready) != []
  {
    hide Placed, Linked, IoQueued, Positive, PidsBelow, Listed, Counted, Shift, Admit, SuspensionCase;
    var p := s.Q(from)[0];
    HeadStatus(s, from);
    AdmitIs(s, from);
    ShiftLengths(s, p, from, Ready, {});
    AwakeShift(s, p, from, Ready);
    var u := Shift(s, p, from, Ready);
    SameShape(u, Admit(s), {});
    assert forall st :: Admit(s).Q(st) == u.Q(st);
  }

  /** Running a process may leave READY empty, so suspension is evaluated. */
  lemma DispatchInv(s: State, p: Pid)
    requires Good(s) && p in s.Q(Ready)
    ensures Good(Dispatch(s, p))
  {
    hide Linked, IoQueued, Positive, PidsBelow, Listed, Counted, SuspensionCase, Evaluate;
    assert p in s.pcbs && s.pcbs[p].status == Ready;
    ShiftLengths(s, p, Ready, Exec, {});
    AwakeShift(s, p, Ready, Exec);
    hide Placed, Shift;
    var t := Shift(s, p, Ready, Exec);
    assert t.slots == s.slots && t.degree == s.degree && t.sems == s.sems && t.names == s.names && t.tokens == s.tokens by {
      ShiftFields(s, p, Ready, Exec);
    }
    SameCounted(s, t);
    EvaluateInv(t, {});
  }

  lemma ShiftFields(s: State, p: Pid, from: Status, to: Status)
    ensures var t := Shift(s, p, from, to);
      && t.slots == s.slots && t.degree == s.degree && t.sems == s.sems && t.names == s.names
      && t.tokens == s.tokens && t.io == s.io && t.nextPid == s.nextPid && t.pcbs == SetStatus(s.pcbs, p, to)
  {
  }

  // ------------------------------------------------------------------- SEM_WAIT

  /** Sleep, field by field. */
  lemma SleepShape(s: State, p: Pid, n: Name, m: Sem)
    requires p in s.pcbs
    ensures var t := Sleep(s, p, n, m);
      && t.pcbs == s.pcbs[p := Pcb(Blocked, Some(n), s.pcbs[p].held)]
      && t.sems == s.sems[n := m.(queue := m.queue + [p])]
      && t.qs == Shift(s, p, Exec, Blocked).qs
      && t.tokens == s.tokens && t.names == s.names && t.io == s.io && t.slots == s.slots
      && t.nextPid == s.nextPid && t.degree == s.degree
  {
  }

  lemma SleepPlaced(s: State, p: Pid, n: Name, m: Sem)
    requires Placed(s, {}) && p in s.Q(Exec)
    ensures p in s.pcbs && s.pcbs[p].status == Exec
    ensures Placed(Sleep(s, p, n, m), {})
    ensures var t := Sleep(s, p, n, m);
      && |t.Q(Exec)| == |s.Q(Exec)| - 1 && t.Q(Blocked) == s.Q(Blocked) + [p]
      && forall st :: st != Exec && st != Blocked ==> t.Q(st) == s.Q(st)
  {
    assert p in s.pcbs && s.pcbs[p].status == Exec;
    ShiftPlaced(s, p, Exec, Blocked, {});
    ShiftLengths(s, p, Exec, Blocked, {});
    SleepShape(s, p, n, m);
    hide Placed, Sleep;
    var u := Shift(s, p, Exec, Blocked);
    SamePlaced(u, Sleep(s, p, n, m), {});
    hide Shift;
    assert forall st :: Sleep(s, p, n, m).Q(st) == u.Q(st);
  }

  lemma SleepLinked(s: State, p: Pid, n: Name, m: Sem)
    requires Linked(s, {}) && p in s.pcbs && s.pcbs[p].status == Exec
    requires n in s.sems && m == s.sems[n].(value := m.value)
    ensures Linked(Sleep(s, p, n, m), {})
  {
    SleepShape(s, p, n, m);
    hide Sleep;
    var t := Sleep(s, p, n, m);
    assert !Waiting(s, p);
    assert p !in s.sems[n].queue by { assert p in s.sems[n].queue ==> WaitsFor(s, p, n); }
    forall k, x | k in t.sems ensures x in t.sems[k].queue <==> WaitsFor(t, x, k) {
      assert x in s.sems[k].queue <==> WaitsFor(s, x, k);
    }
    forall x | Waiting(t, x) ensures t.pcbs[x].waitsOn.value in t.sems && Asleep(t.pcbs[x].status) {
      assert x != p ==> Waiting(s, x);
    }
  }

  lemma SleepRest(s: State, p: Pid, n: Name, m: Sem)
    requires IoQueued(s, {}) && Positive(s) && PidsBelow(s) && p in s.pcbs && s.pcbs[p].status == Exec
    ensures var t := Sleep(s, p, n, m); IoQueued(t, {}) && Positive(t) && PidsBelow(t)
  {
    SleepShape(s, p, n, m);
    hide Sleep, IoQueued;
    IoFrame(s, Sleep(s, p, n, m), p, {}, {});
    hide Positive, PidsBelow;
    SameHeld(s, Sleep(s, p, n, m));
  }

  lemma SleepInv(s: State, p: Pid, n: Name)
    requires Good(s) && p in s.Q(Exec) && n in s.sems && s.sems[n].value - 1 < 0
    ensures var t := Sleep(s, p, n, s.sems[n].(value := s.sems[n].value - 1));
      InvButTokens(t, {}) && TokensMatch(t)
  {
    hide Placed, Linked, IoQueued, Positive, PidsBelow;
    var m := s.sems[n].(value := s.sems[n].value - 1);
    SleepPlaced(s, p, n, m);
    SleepLinked(s, p, n, m);
    SleepRest(s, p, n, m);
    SleepShape(s, p, n, m);
    hide Sleep;
    assert SemLaw(s.sems[n]);
  }

  lemma GrantInv(s: State, p: Pid, n: Name)
    requires Good(s) && p in s.pcbs && n in s.sems && s.sems[n].value - 1 >= 0
    ensures Good(Wait(s, p, n))
  {
    hide Placed, Linked, IoQueued, Listed, Positive, PidsBelow, Counted, TokensMatch, SlotsMatch, Evaluate;
    var t := Wait(s, p, n);
    SamePlaced(s, t, {});
    SameLinks(s, t, {});
    GrantHeld(s, t, p, n);
    GrantCounts(s, t, n);
    SameListed(s, t);
  }

  lemma GrantHeld(s: State, t: State, p: Pid, n: Name)
    requires Positive(s) && PidsBelow(s) && p in s.pcbs && t.pcbs == s.pcbs[p := Retain(s.pcbs[p], n)]
    requires t.nextPid == s.nextPid
    ensures Positive(t) && PidsBelow(t)
  {
    assert forall k :: k in s.pcbs[p].held ==> Retains(s, p, k);
    ReleasePositive(s.pcbs[p], n);
    hide Positive;
    HeldFrame(s, t, p);
  }

  lemma GrantCounts(s: State, t: State, n: Name)
    requires Counted(s) && TokensMatch(s) && SlotsMatch(s) && !SuspensionCase(s) && n in s.sems
    requires t.sems == s.sems[n := s.sems[n].(value := s.sems[n].value - 1)] && s.sems[n].value - 1 >= 0
    requires t.qs == s.qs && t.tokens == s.tokens && t.slots == s.slots && t.degree == s.degree
    ensures Counted(t) && TokensMatch(t) && SlotsMatch(t) && !SuspensionCase(t)
  {
    assert SemLaw(s.sems[n]);
    assert forall st :: t.Q(st) == s.Q(st);
  }

  lemma SameListed(s: State, t: State)
    requires Listed(s) && t.names == s.names && t.sems.Keys == s.sems.Keys
    ensures Listed(t)
  {
  }

  /** A wait keeps the invariant; when it blocks, the suspension it may cause is made. */
  lemma WaitInv(s: State, p: Pid, n: Name)
    requires Good(s) && p in s.Q(Exec) && n in s.sems
    ensures p in s.pcbs && Good(Wait(s, p, n))
  {
    assert p in s.pcbs && s.pcbs[p].status == Exec;
    hide Placed, Linked, IoQueued, Positive, PidsBelow, Listed, Counted, Sleep, Evaluate, SuspensionCase;
    if s.sems[n].value - 1 < 0 {
      var m := s.sems[n].(value := s.sems[n].value - 1);
      SleepInv(s, p, n);
      EvaluateInv(Sleep(s, p, n, m), {});
    } else {
      GrantInv(s, p, n);
    }
  }

  // ------------------------------------------------------------------------ I/O

  lemma DevicePushed(io: map<Device, seq<Pid>>, d: Device, p: Pid)
    requires DeviceQueues(io) && d in io && !OnDevice(io, p)
    ensures DeviceQueues(io[d := io[d] + [p]])
    ensures forall x :: OnDevice(io[d := io[d] + [p]], x) <==> OnDevice(io, x) || x == p
  {
    var jo := io[d := io[d] + [p]];
    assert p !in io[d];
    assert d in jo && p in jo[d];
    forall x ensures OnDevice(jo, x) <==> OnDevice(io, x) || x == p {
      if OnDevice(io, x) {
        var e :| e in io && x in io[e];
        assert e in jo && x in jo[e];
      }
    }
  }

  lemma DevicePopped(io: map<Device, seq<Pid>>, d: Device)
    requires DeviceQueues(io) && d in io && io[d] != []
    ensures DeviceQueues(io[d := io[d][1..]])
    ensures OnDevice(io, io[d][0])
    ensures forall x :: OnDevice(io[d := io[d][1..]], x) <==> OnDevice(io, x) && x != io[d][0]
  {
    var h := io[d][0];
    var jo := io[d := io[d][1..]];
    assert io[d] == [h] + io[d][1..];
    assert d in io && h in io[d];
    assert forall e, x :: e in jo && x in jo[e] ==> x in io[e] && x != h;
    forall x ensures OnDevice(jo, x) <==> OnDevice(io, x) && x != h {
      if OnDevice(io, x) && x != h {
        var e :| e in io && x in io[e];
        assert e in jo && x in jo[e];
      }
    }
  }

  ghost function IoQueue(s: State, p: Pid, d: Device): State
    requires d in s.io
  {
    Shift(s, p, Exec, Blocked).(io := s.io[d := s.io[d] + [p]])
  }

  lemma IoQueueIo(s: State, p: Pid, d: Device)
    requires IoQueued(s, {}) && p in s.pcbs && s.pcbs[p].status == Exec && !Waiting(s, p) && d in s.io
    ensures IoQueued(IoQueue(s, p, d), {})
  {
    var t := IoQueue(s, p, d);
    assert t.pcbs == SetStatus(s.pcbs, p, Blocked) && t.io == s.io[d := s.io[d] + [p]];
    hide OnDevice, DeviceQueues, IoQueue;
    DevicePushed(s.io, d, p);
    forall x ensures OnDevice(t.io, x) <==> x in t.pcbs && Asleep(t.pcbs[x].status) && !Waiting(t, x) {
      assert OnDevice(s.io, x) <==> x in s.pcbs && Asleep(s.pcbs[x].status) && !Waiting(s, x);
    }
  }

  lemma IoQueueShape(s: State, p: Pid, d: Device)
    requires Good(s) && p in s.Q(Exec) && d in s.io
    ensures Shape(IoQueue(s, p, d), {})
  {
    hide IoQueued, Positive, PidsBelow, Counted, Listed;
    assert p in s.pcbs && s.pcbs[p].status == Exec && !Waiting(s, p);
    ShiftPlaced(s, p, Exec, Blocked, {});
    hide Placed, Linked;
    var u := Shift(s, p, Exec, Blocked);
    var t := IoQueue(s, p, d);
    SamePlaced(u, t, {});
    LinkedFrame(s, t, p, {});
    IoQueueIo(s, p, d);
    SameHeld(s, t);
  }

  lemma CallIoInv(s: State, p: Pid, d: Device)
    requires Good(s) && p in s.Q(Exec)
    ensures p in s.pcbs && Good(CallIo(s, p, d))
  {
    assert p in s.pcbs && s.pcbs[p].status == Exec;
    hide Placed, Linked, IoQueued, Positive, PidsBelow, Listed, Counted, Evaluate, SuspensionCase;
    if d in s.io {
      var t := IoQueue(s, p, d);
      IoQueueShape(s, p, d);
      ShiftLengths(s, p, Exec, Blocked, {});
      ShiftFields(s, p, Exec, Blocked);
      hide Shift;
      assert forall st :: t.Q(st) == Shift(s, p, Exec, Blocked).Q(st);
      SameCounted(s, t);
      EvaluateInv(t, {});
    }
  }

  lemma IoDoneIo(s: State, d: Device)
    requires IoQueued(s, {}) && d in s.io && s.io[d] != []
    ensures s.io[d][0] in s.pcbs && Asleep(s.pcbs[s.io[d][0]].status) && !Waiting(s, s.io[d][0])
    ensures IoQueued(IoDone(s, d), {})
  {
    var t := IoDone(s, d);
    var h := s.io[d][0];
    DevicePopped(s.io, d);
    assert h in s.pcbs && Asleep(s.pcbs[h].status) && !Waiting(s, h);
    assert t.pcbs == SetStatus(s.pcbs, h, WokenStatus(s.pcbs[h].status)) && t.io == s.io[d := s.io[d][1..]];
    hide OnDevice, DeviceQueues, IoDone;
    forall x ensures OnDevice(t.io, x) <==> x in t.pcbs && Asleep(t.pcbs[x].status) && !Waiting(t, x) {
      assert OnDevice(s.io, x) <==> x in s.pcbs && Asleep(s.pcbs[x].status) && !Waiting(s, x);
    }
  }

  /** IoDone, field by field. */
  lemma IoDoneFields(s: State, d: Device)
    requires d in s.io && s.io[d] != [] && s.io[d][0] in s.pcbs && Asleep(s.pcbs[s.io[d][0]].status)
    ensures var h := s.io[d][0]; var st := s.pcbs[h].status; var t := IoDone(s, d);
      && t.pcbs == SetStatus(s.pcbs, h, WokenStatus(st))
      && t.qs == Shift(s, h, st, WokenStatus(st)).qs
      && t.tokens == (if st == Blocked then s.tokens else s.tokens + 1)
      && t.sems == s.sems && t.names == s.names && t.slots == s.slots && t.nextPid == s.nextPid && t.degree == s.degree
  {
  }

  /** A device wakes a sleeper: READY, or SUSP/READY with a token when it was suspended. */
  lemma IoDoneInv(s: State, d: Device)
    requires Good(s) && d in s.io && s.io[d] != []
    ensures Good(IoDone(s, d))
  {
    hide Linked, IoQueued, Positive, PidsBelow, Listed, Counted, SuspensionCase, SlotsMatch, TokensMatch, IoDone;
    IoDoneIo(s, d);
    IoDoneFields(s, d);
    var t := IoDone(s, d);
    var h := s.io[d][0];
    var st := s.pcbs[h].status;
    assert h in s.Q(st);
    hide Placed;
    ShiftPlaced(s, h, st, WokenStatus(st), {});
    SamePlaced(Shift(s, h, st, WokenStatus(st)), t, {});
    LinkedFrame(s, t, h, {});
    SameHeld(s, t);
    SameCounted(s, t);
    WakeSlots(s, t, h, {});
  }

  // ------------------------------------------------------ arrival and departure

  lemma ArrivalShape(s: State, t: State)
    requires Shape(s, {})
    requires t.pcbs == s.pcbs[s.nextPid := Pcb(New, None, map[])] && t.qs == s.qs[New := s.Q(New) + [s.nextPid]]
    requires t.nextPid == s.nextPid + 1 && t.sems == s.sems && t.io == s.io
    ensures Shape(t, {})
  {
    var p := s.nextPid;
    assert p !in s.pcbs;
    assert p !in s.Q(New);
    assert forall st :: st != New ==> t.Q(st) == s.Q(st);
    assert Placed(t, {}) by {
      hide Linked, IoQueued, Positive, PidsBelow;
      forall st ensures NoDup(t.Q(st)) { assert NoDup(s.Q(st)); }
      forall st, x ensures x in t.Q(st) <==> x in t.pcbs && t.pcbs[x].status == st {
        assert x in s.Q(st) <==> x in s.pcbs && s.pcbs[x].status == st;
      }
    }
    hide Placed, Linked, IoQueued;
    LinkedFrame(s, t, p, {});
    IoFrame(s, t, p, {}, {});
    HeldFrame(s, t, p);
  }

  /** NEW gains a process, so suspension is evaluated before its token is posted. */
  lemma ArriveInv(s: State)
    requires Good(s)
    ensures Good(Arrive(s))
  {
    hide Placed, Linked, IoQueued, Positive, PidsBelow, Listed, Counted, Evaluate, SuspensionCase;
    var t := s.(pcbs := s.pcbs[s.nextPid := Pcb(New, None, map[])],
                qs := s.qs[New := s.Q(New) + [s.nextPid]], nextPid := s.nextPid + 1);
    ArrivalShape(s, t);
    assert t.Q(New) == s.Q(New) + [s.nextPid] && forall st :: st != New ==> t.Q(st) == s.Q(st);
    SameCounted(s, t);
    EvaluateInv(t, {});
    SameShape(Evaluate(t), Arrive(s), {});
    SameCounted(Evaluate(t), Arrive(s));
    SameCase(Evaluate(t), Arrive(s));
  }

  lemma SameCase(s: State, t: State)
    requires t.qs == s.qs && t.slots == s.slots && t.degree == s.degree
    ensures SuspensionCase(t) == SuspensionCase(s) && SlotsMatch(t) == SlotsMatch(s)
    ensures forall st :: t.Q(st) == s.Q(st)
  {
  }

  lemma TailFacts(q: seq<Pid>)
    requires NoDup(q) && q != []
    ensures NoDup(q[1..]) && q[0] in q && q[0] !in q[1..]
    ensures forall x :: x != q[0] ==> (x in q[1..] <==> x in q)
  {
    assert q == [q[0]] + q[1..];
  }

  lemma FreeMember(s: State, t: State, h: Pid, st: Status, x: Pid)
    requires forall st, p :: p in s.Q(st) <==> p in s.pcbs && s.pcbs[p].status == st
    requires h in s.Q(Exit) && t.pcbs == s.pcbs - {h} && h !in t.Q(Exit)
    requires forall x :: x != h ==> (x in t.Q(Exit) <==> x in s.Q(Exit))
    requires forall st :: st != Exit ==> t.Q(st) == s.Q(st)
    ensures x in t.Q(st) <==> x in t.pcbs && t.pcbs[x].status == st
  {
    assert x in s.Q(st) <==> x in s.pcbs && s.pcbs[x].status == st;
    assert h in s.pcbs && s.pcbs[h].status == Exit;
  }

  lemma FreePlaced(s: State)
    requires Placed(s, {}) && s.Q(Exit) != []
    ensures Placed(FreeExit(s), {})
    ensures s.Q(Exit)[0] in s.pcbs && s.pcbs[s.Q(Exit)[0]].status == Exit
  {
    var h := s.Q(Exit)[0];
    var t := FreeExit(s);
    hide NoDup;
    TailFacts(s.Q(Exit));
    assert t.Q(Exit) == s.Q(Exit)[1..];
    assert forall st :: st != Exit ==> t.Q(st) == s.Q(st);
    assert t.pcbs == s.pcbs - {h};
    hide FreeExit;
    forall st ensures NoDup(t.Q(st)) { assert NoDup(s.Q(st)); }
    forall st, x ensures x in t.Q(st) <==> x in t.pcbs && t.pcbs[x].status == st {
      FreeMember(s, t, h, st, x);
    }
  }

  /** A finished process is destroyed: it is in no queue of the system and its slot is free. */
  lemma FreeExitInv(s: State)
    requires Good(s) && s.Q(Exit) != []
    ensures Good(FreeExit(s))
  {
    hide IoQueued, Positive, PidsBelow, Listed, Counted, Placed;
    var h := s.Q(Exit)[0];
    var t := FreeExit(s);
    FreePlaced(s);
    assert !Waiting(s, h);
    hide Linked;
    LinkedFrame(s, t, h, {});
    IoFrame(s, t, h, {}, {});
    HeldFrame(s, t, h);
    SameCounted(s, t);
    assert forall st :: st != Exit ==> t.Q(st) == s.Q(st);
  }

  // --------------------------------------------------- SEM_INIT and SEM_DESTROY

  /** A semaphore without waiters may come and go. */
  lemma SemsChange(s: State, t: State, n: Name)
    requires Linked(s, {}) && IoQueued(s, {}) && t.pcbs == s.pcbs && t.io == s.io
    requires forall k :: k != n ==> (k in t.sems <==> k in s.sems)
    requires forall k :: k != n && k in s.sems ==> t.sems[k] == s.sems[k]
    requires n in s.sems ==> s.sems[n].queue == []
    requires n in t.sems ==> t.sems[n].queue == []
    ensures Linked(t, {}) && IoQueued(t, {})
  {
    assert forall p, k :: WaitsFor(t, p, k) <==> WaitsFor(s, p, k);
    assert forall p :: Waiting(t, p) <==> Waiting(s, p);
    forall p ensures !WaitsFor(s, p, n) {
      if n in s.sems {
        assert p in s.sems[n].queue <==> WaitsFor(s, p, n);
      } else {
        assert WaitsFor(s, p, n) ==> Waiting(s, p);
      }
    }
    assert IoQueued(t, {}) by {
      hide OnDevice, DeviceQueues;
      assert forall p :: OnDevice(t.io, p) <==> OnDevice(s.io, p);
    }
  }

  /** SEM_INIT: the lookup before creation keeps names unique. */
  lemma SemInitInv(s: State, n: Name, v: int)
    requires Good(s)
    ensures Good(SemInit(s, n, v))
  {
    hide Placed, IoQueued, Positive, PidsBelow, Linked;
    if n !in s.sems {
      var t := SemInit(s, n, v);
      SamePlaced(s, t, {});
      SameHeld(s, t);
      SemsChange(s, t, n);
      SameCase(s, t);
    }
  }

  lemma ListedWithout(s: State, t: State, n: Name)
    requires Listed(s) && Counted(s) && t.names == Remove(s.names, n) && t.sems == s.sems - {n}
    ensures Listed(t) && Counted(t)
  {
    RemoveKeeps(s.names, n);
    RemoveNoDup(s.names, n);
  }

  /** SEM_DESTROY never takes a semaphore from a process that waits on it. */
  lemma SemDestroyInv(s: State, n: Name)
    requires Good(s)
    ensures Good(SemDestroy(s, n))
  {
    hide Placed, IoQueued, Positive, PidsBelow, Linked, Listed, Counted;
    if n in s.sems && s.sems[n].queue == [] {
      var t := SemDestroy(s, n);
      SamePlaced(s, t, {});
      SameHeld(s, t);
      ListedWithout(s, t, n);
      SemsChange(s, t, n);
      SameCase(s, t);
    }
  }
}

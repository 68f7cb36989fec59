/** The order of the queues: nobody overtakes anybody in any of them by staying, and NEW,
    SUSP/READY, EXIT and the lines of the devices are first come, first served. */
module QueueOrder {
  import opened Wrappers
  import opened Lists
  import opened KernelState
  import opened Steps
  import opened StepInvariants
  import opened SchedulerInvariants
  import opened DeadlockGraph
  import opened Recovery
  import opened Detection
  import opened Runs
  import opened RecoveryQueues
  import opened Fifo
  import opened Transitions

  // ---------------------------------------------------------------- before and after

  function In(q: seq<Pid>): Pid -> bool { (p: Pid) => p in q }

  function Outside(q: seq<Pid>): Pid -> bool { (p: Pid) => p !in q }

  /** Those of q that are in r, those of q that are not, and those of r that are not in q. */
  function Stayed(q: seq<Pid>, r: seq<Pid>): seq<Pid> { Filter(q, In(r)) }

  function Left(q: seq<Pid>, r: seq<Pid>): seq<Pid> { Filter(q, Outside(r)) }

  function Came(q: seq<Pid>, r: seq<Pid>): seq<Pid> { Filter(r, Outside(q)) }

  /** Newcomers stand behind those who stay, and these keep their order. */
  ghost predicate InOrder(q: seq<Pid>, r: seq<Pid>) { r == Stayed(q, r) + Came(q, r) }

  /** Besides, those who leave were in front of those who stay. */
  ghost predicate FromFront(q: seq<Pid>, r: seq<Pid>) { q + Came(q, r) == Left(q, r) + r }

  lemma {:induction false} FilterNone(q: seq<Pid>, keep: Pid -> bool)
    requires forall x :: x in q ==> !keep(x)
    ensures Filter(q, keep) == []
  {
    if q != [] {
      assert q[0] in q;
      FilterNone(q[1..], keep);
    }
  }

  lemma Grew(q: seq<Pid>, r: seq<Pid>)
    requires q <= r && NoDup(r)
    ensures InOrder(q, r) && FromFront(q, r)
  {
    hide Filter, NoDup;
    var d := r[|q|..];
    assert r == q + d;
    AppendNoDup(q, d);
    FilterAppend(q, d, Outside(q));
    FilterNone(q, Outside(q));
    FilterAll(d, Outside(q));
    FilterAll(q, In(r));
    FilterNone(q, Outside(r));
  }

  lemma Lost(q: seq<Pid>, r: seq<Pid>)
    requires r == Stayed(q, r)
    ensures InOrder(q, r)
  {
    hide Filter;
    FilterMembers(q, In(r));
    FilterNone(r, Outside(q));
  }

  lemma HeadLost(q: seq<Pid>)
    requires q != [] && NoDup(q)
    ensures q[1..] == Stayed(q, q[1..]) && FromFront(q, q[1..])
  {
    hide Filter, NoDup;
    var r := q[1..];
    assert q == [q[0]] + r;
    AppendNoDup([q[0]], r);
    assert q[0] in [q[0]];
    FilterAll(r, In(r));
    FilterNone(r, Outside(q));
    FilterNone(r, Outside(r));
    FilterUnfold(q, In(r));
    FilterUnfold(q, Outside(r));
  }

  lemma OneLost(q: seq<Pid>, x: Pid)
    requires NoDup(q)
    ensures Remove(q, x) == Stayed(q, Remove(q, x))
  {
    hide Remove, Filter, NoDup;
    RemoveIsWithout(q, x);
    FilterMembers(q, NotIn({x}));
    FilterSame(q, NotIn({x}), In(Remove(q, x)));
  }

  // ------------------------------------------------------------------- the detector

  /** Sleeping queues only lose and READY and SUSP/READY only gain; the rest stay. */
  ghost predicate Onward(s: State, t: State) {
    && (forall st :: Asleep(st) ==> t.Q(st) == Stayed(s.Q(st), t.Q(st)))
    && (forall st :: !Asleep(st) ==> s.Q(st) <= t.Q(st))
    && t.Q(New) == s.Q(New) && t.Q(Exec) == s.Q(Exec) && t.Q(Exit) == s.Q(Exit)
    && t.io == s.io && t.nextPid == s.nextPid
  }

  lemma OnwardSame(s: State, t: State)
    requires t.qs == s.qs && t.io == s.io && t.nextPid == s.nextPid
    ensures Onward(s, t)
  {
    forall st ensures t.Q(st) == s.Q(st) && t.Q(st) == Stayed(s.Q(st), t.Q(st)) {
      FilterAll(s.Q(st), In(s.Q(st)));
    }
  }

  lemma StayedTrans(a: seq<Pid>, b: seq<Pid>, c: seq<Pid>)
    requires b == Stayed(a, b) && c == Stayed(b, c)
    ensures c == Stayed(a, c)
  {
    hide Filter;
    FilterMembers(b, In(c));
    FilterTwice(a, In(b), In(c), In(c));
  }

  lemma OnwardTrans(s: State, t: State, u: State)
    requires Onward(s, t) && Onward(t, u)
    ensures Onward(s, u)
  {
    hide Stayed;
    forall st | Asleep(st) ensures u.Q(st) == Stayed(s.Q(st), u.Q(st)) {
      StayedTrans(s.Q(st), t.Q(st), u.Q(st));
    }
  }

  lemma OnwardWoken(s: State, u: State, h: Pid, st: Status, to: Status)
    requires forall x :: NoDup(s.Q(x))
    requires Asleep(st) && (to == Ready || to == SusReady)
    requires u.Q(st) == Remove(s.Q(st), h) && u.Q(to) == s.Q(to) + [h]
    requires forall x :: x != st && x != to ==> u.Q(x) == s.Q(x)
    requires u.io == s.io && u.nextPid == s.nextPid
    ensures Onward(s, u)
  {
    hide Stayed, NoDup;
    OneLost(s.Q(st), h);
    forall x | Asleep(x) ensures u.Q(x) == Stayed(s.Q(x), u.Q(x)) {
      if x != st { AllStayed(s.Q(x)); }
    }
  }

  lemma AllStayed(q: seq<Pid>)
    ensures q == Stayed(q, q)
  {
    FilterAll(q, In(q));
  }

  lemma EachOnce(s: State, gone: set<Pid>)
    requires Inv(s, gone)
    ensures forall st :: NoDup(s.Q(st))
  {
  }

  lemma PostOnward(s: State, v: Pid, n: Name, gone: set<Pid>)
    requires Inv(s, gone) && v in s.pcbs && n in s.sems
    ensures Onward(s, Post(s, v, n))
  {
    hide Inv, NoDup, Onward;
    EachOnce(s, gone);
    if s.sems[n].queue != [] {
      PostShape(s, v, n, gone);
      var h := s.sems[n].queue[0];
      var st := s.pcbs[h].status;
      ShiftQueues(s, h, st, WokenStatus(st));
      hide Post, GiveBack, Shift;
      assert forall x :: Post(s, v, n).Q(x) == Shift(s, h, st, WokenStatus(st)).Q(x);
      OnwardWoken(s, Post(s, v, n), h, st, WokenStatus(st));
    } else {
      PostAlone(s, v, n);
      OnwardSame(s, Post(s, v, n));
    }
  }

  lemma {:induction false} PostTimesOnward(s: State, v: Pid, n: Name, k: nat)
    requires Inv(s, {v}) && v in s.pcbs && n in s.sems && k == Count(s, v, n)
    ensures Onward(s, PostTimes(s, v, n, k))
    decreases k
  {
    hide Inv, Post, Freed, SuspensionCase, Onward;
    if k > 0 {
      CountPositive(s, v, n, {v});
      HolderPost(s, v, n);
      hide Count;
      PostOnward(s, v, n, {v});
      PostTimesOnward(Post(s, v, n), v, n, k - 1);
      OnwardTrans(s, Post(s, v, n), PostTimes(s, v, n, k));
    } else {
      OnwardSame(s, s);
    }
  }

  lemma {:induction false} RecoverOnward(s: State, v: Pid, i: nat)
    requires Inv(s, {v}) && v in s.pcbs && i <= |s.names| && forall k :: k in s.names ==> k in s.sems
    ensures Onward(s, RecoverFrom(s, v, i, true))
    decreases |s.names| - i
  {
    hide Inv, PostTimes, Onward;
    if i < |s.names| {
      var k := s.names[i];
      if Retains(s, v, k) {
        PostTimesFreed(s, v, k, Count(s, v, k));
        PostTimesOnward(s, v, k, Count(s, v, k));
        var t := PostTimes(s, v, k, Count(s, v, k));
        RecoverOnward(t, v, i + 1);
        OnwardTrans(s, t, RecoverFrom(t, v, i + 1, true));
      } else {
        RecoverOnward(s, v, i + 1);
      }
    } else {
      OnwardSame(s, s);
    }
  }

  lemma DetachOnward(s: State, v: Pid)
    requires Inv(s, {}) && Waiting(s, v)
    ensures Onward(s, Detach(s, v))
  {
    hide Inv, NoDup, Stayed, Remove;
    EachOnce(s, {});
    SleeperFacts(s, v);
    DetachShape(s, v);
    hide Detach;
    var st := s.pcbs[v].status;
    OneLost(s.Q(st), v);
    forall x | Asleep(x) ensures Detach(s, v).Q(x) == Stayed(s.Q(x), Detach(s, v).Q(x)) {
      if x != st { AllStayed(s.Q(x)); }
    }
  }

  lemma {:induction false} DetectOnward(s: State)
    requires Good(s)
    ensures Onward(s, Detect(s))
    decreases |s.Q(Blocked)| + |s.Q(SusBlocked)|
  {
    hide Inv, SuspensionCase, Residual, Detach, Onward, RecoverFrom;
    if DeadlockFound(Residual(s)) {
      var v := Victim(s);
      RecoverInv(s);
      VictimLives(s);
      var j := VictimWaits(s);
      DetachedFirst(s, v, 0, j);
      DetachInv(s, v);
      DetachOnward(s, v);
      RecoverOnward(Detach(s, v), v, 0);
      var t := RecoverFrom(Detach(s, v), v, 0, true);
      OnwardTrans(s, Detach(s, v), t);
      OnwardSame(t, Recover(s));
      OnwardTrans(s, t, Recover(s));
      DetectOnward(Recover(s));
      OnwardTrans(s, Recover(s), Detect(s));
    } else {
      OnwardSame(s, s);
    }
  }

  // ------------------------------------------------------------------ the other steps

  /** What a step may do to a queue: add behind, or take out. */
  ghost predicate Kept(q: seq<Pid>, r: seq<Pid>) { q <= r || r == Stayed(q, r) }

  /** Add behind, or take the head. */
  ghost predicate Advanced(q: seq<Pid>, r: seq<Pid>) { q <= r || (q != [] && r == q[1..]) }

  predicate InLine(st: Status) { st == New || st == SusReady || st == Exit }

  /** A queue of kind st after a step. */
  ghost predicate Orderly(st: Status, q: seq<Pid>, r: seq<Pid>) { Kept(q, r) && (InLine(st) ==> Advanced(q, r)) }

  lemma SameOrderly(s: State, t: State, st: Status)
    requires t.Q(st) == s.Q(st)
    ensures Orderly(st, s.Q(st), t.Q(st))
  {
  }

  lemma RemoveOrderly(q: seq<Pid>, p: Pid, st: Status)
    requires NoDup(q) && (InLine(st) ==> q != [] && p == q[0])
    ensures Orderly(st, q, Remove(q, p))
  {
    OneLost(q, p);
    hide Stayed, NoDup;
  }

  lemma ShiftOrderly(s: State, t: State, p: Pid, from: Status, to: Status, st: Status)
    requires NoDup(s.Q(st)) && from != to && t.qs == Shift(s, p, from, to).qs
    requires InLine(from) ==> s.Q(from) != [] && p == s.Q(from)[0]
    ensures Orderly(st, s.Q(st), t.Q(st))
  {
    hide Orderly, NoDup;
    ShiftQueues(s, p, from, to);
    hide Shift;
    assert t.Q(st) == Shift(s, p, from, to).Q(st);
    if st == from {
      RemoveOrderly(s.Q(from), p, from);
    } else if st == to {
      AppendOrderly(s.Q(to), p, to);
    } else {
      SameOrderly(s, t, st);
    }
  }

  lemma AppendOrderly(q: seq<Pid>, p: Pid, st: Status)
    ensures Orderly(st, q, q + [p])
  {
  }

  lemma EvaluatedQueue(m: State, st: Status)
    ensures Evaluate(m).Q(st) == (
              if SuspensionCase(m) && st == Blocked then m.Q(Blocked)[..|m.Q(Blocked)| - 1]
              else if SuspensionCase(m) && st == SusBlocked then m.Q(SusBlocked) + [m.Q(Blocked)[|m.Q(Blocked)| - 1]]
              else m.Q(st))
    ensures SuspensionCase(m) ==> m.Q(Blocked) != []
  {
  }

  lemma MidQueue(s: State, e: Event, st: Status)
    requires Good(s) && Enabled(s, e) && Evaluates(s, e)
    ensures Orderly(st, s.Q(st), Mid(s, e).Q(st))
    ensures st == SusBlocked ==> Mid(s, e).Q(st) == s.Q(st)
    ensures st == Blocked ==> Mid(s, e).Q(st) == s.Q(st) || exists p :: Mid(s, e).Q(st) == s.Q(st) + [p]
  {
    hide Inv, SuspensionCase, NoDup, Orderly;
    assert NoDup(s.Q(st)) by { EachOnce(s, {}); }
    match e
    case Arrival => if st == New { AppendOrderly(s.Q(New), s.nextPid, New); } else { SameOrderly(s, Mid(s, e), st); }
    case Chosen(p) => ShiftOrderly(s, Mid(s, e), p, Ready, Exec, st);
    case WaitCall(p, n) => QueuedLive(s, p, Exec); ShiftOrderly(s, Mid(s, e), p, Exec, Blocked, st);
    case IoCall(p, d) => ShiftOrderly(s, Mid(s, e), p, Exec, Blocked, st);
  }

  lemma EvaluatingOrderly(s: State, e: Event, t: State, st: Status)
    requires Step(s, e, t) && Evaluates(s, e)
    ensures Orderly(st, s.Q(st), t.Q(st))
  {
    hide Inv, SuspensionCase, NoDup, Orderly, Evaluate, Mid;
    var m := Mid(s, e);
    MidThenEvaluate(s, e, t);
    assert t.Q(st) == Evaluate(m).Q(st);
    MidQueue(s, e, st);
    EvaluatedQueue(m, st);
    if SuspensionCase(m) && st == Blocked {
      if m.Q(Blocked) == s.Q(Blocked) {
        EachOnce(s, {});
        RemoveLast(s.Q(Blocked));
        RemoveOrderly(s.Q(Blocked), s.Q(Blocked)[|s.Q(Blocked)| - 1], Blocked);
      } else {
        SameOrderly(s, t, st);
      }
    } else if SuspensionCase(m) && st == SusBlocked {
      AppendOrderly(s.Q(SusBlocked), m.Q(Blocked)[|m.Q(Blocked)| - 1], SusBlocked);
    }
  }

  lemma OnwardOrderly(s: State, t: State, st: Status)
    requires Onward(s, t)
    ensures Orderly(st, s.Q(st), t.Q(st))
  {
    hide Stayed;
  }

  lemma PlainOrderly(s: State, e: Event, t: State, st: Status)
    requires Step(s, e, t) && !Evaluates(s, e)
    ensures Orderly(st, s.Q(st), t.Q(st))
  {
    hide Inv, SuspensionCase, NoDup, Orderly, Onward;
    assert NoDup(s.Q(st)) by { EachOnce(s, {}); }
    match e
    case Admission => AdmitReady(s); AdmitOrderly(s, st);
    case InitCall(q, n, v) => SameOrderly(s, t, st);
    case WaitCall(q, n) => SameOrderly(s, t, st);
    case PostCall(q, n) =>
      QueuedLive(s, q, Exec);
      hide Post;
      if n in s.sems { PostOnward(s, q, n, {}); OnwardOrderly(s, t, st); } else { SameOrderly(s, t, st); }
    case DestroyCall(q, n) => SameOrderly(s, t, st);
    case IoCall(q, d) => SameOrderly(s, t, st);
    case IoEnd(d) => IoDoneOrderly(s, d, st);
    case CloseCall(q) => ShiftOrderly(s, t, q, Exec, Exit, st);
    case Departure => HeadOrderly(s, t, st);
    case DetectorRun => DetectOnward(s); OnwardOrderly(s, t, st);
  }

  lemma AdmitOrderly(s: State, st: Status)
    requires NoDup(s.Q(st)) && s.tokens > 0 && s.slots > 0 && (s.Q(SusReady) != [] || s.Q(New) != [])
    ensures Orderly(st, s.Q(st), Admit(s).Q(st))
  {
    hide NoDup, Orderly;
    var from := if s.Q(SusReady) != [] then SusReady else New;
    ShiftOrderly(s, Admit(s), s.Q(from)[0], from, Ready, st);
  }

  lemma IoDoneOrderly(s: State, d: Device, st: Status)
    requires NoDup(s.Q(st)) && d in s.io && s.io[d] != []
    ensures Orderly(st, s.Q(st), IoDone(s, d).Q(st))
  {
    hide NoDup, Orderly;
    var h := s.io[d][0];
    if HasStatus(s, h, SusBlocked) {
      ShiftOrderly(s, IoDone(s, d), h, SusBlocked, SusReady, st);
    } else if HasStatus(s, h, Blocked) {
      ShiftOrderly(s, IoDone(s, d), h, Blocked, Ready, st);
    } else {
      SameOrderly(s, IoDone(s, d), st);
    }
  }

  lemma HeadOrderly(s: State, t: State, st: Status)
    requires NoDup(s.Q(st)) && s.Q(Exit) != [] && t.qs == s.qs[Exit := s.Q(Exit)[1..]]
    ensures Orderly(st, s.Q(st), t.Q(st))
  {
    if st == Exit { HeadLost(s.Q(Exit)); }
  }

  lemma OrderlyInOrder(st: Status, q: seq<Pid>, r: seq<Pid>)
    requires Orderly(st, q, r) && NoDup(q) && NoDup(r)
    ensures InOrder(q, r) && (InLine(st) ==> FromFront(q, r))
  {
    hide NoDup, Stayed, InOrder, FromFront;
    if q <= r {
      Grew(q, r);
    } else {
      Lost(q, r);
      if InLine(st) { HeadLost(q); }
    }
  }

  /** In every scheduling queue, over every step, those who stay keep their order and newcomers
      go behind them; from NEW, SUSP/READY and EXIT those in front leave first. */
  lemma StepOrder(s: State, e: Event, t: State, st: Status)
    requires Step(s, e, t)
    ensures InOrder(s.Q(st), t.Q(st)) && (InLine(st) ==> FromFront(s.Q(st), t.Q(st)))
  {
    hide Inv, SuspensionCase, NoDup, InOrder, FromFront, Orderly, Evaluates;
    if Evaluates(s, e) {
      EvaluatingOrderly(s, e, t, st);
    } else {
      PlainOrderly(s, e, t, st);
    }
    assert NoDup(s.Q(st)) by { EachOnce(s, {}); }
    assert NoDup(t.Q(st)) by { GoodStep(s, e); EachOnce(t, {}); }
    OrderlyInOrder(st, s.Q(st), t.Q(st));
  }

  // -------------------------------------------------------------------------- runs

  /** Those who leave the queue of st during a run, in order, and those who come. */
  ghost function LeftLog(ss: seq<State>, st: Status): seq<Pid> {
    if |ss| <= 1 then [] else Left(ss[0].Q(st), ss[1].Q(st)) + LeftLog(ss[1..], st)
  }

  ghost function CameLog(ss: seq<State>, st: Status): seq<Pid> {
    if |ss| <= 1 then [] else Came(ss[0].Q(st), ss[1].Q(st)) + CameLog(ss[1..], st)
  }

  /** First come, first served, over whole runs. */
  lemma {:induction false} LineRun(ss: seq<State>, es: seq<Event>, st: Status)
    requires Run(ss, es) && InLine(st)
    ensures ss[0].Q(st) + CameLog(ss, st) == LeftLog(ss, st) + ss[|es|].Q(st)
    decreases |es|
  {
    hide Step, Good, Left, Came;
    if es != [] {
      FirstStep(ss, es);
      StepOrder(ss[0], es[0], ss[1], st);
      LineRun(ss[1..], es[1..], st);
      var q, r := ss[0].Q(st), ss[1].Q(st);
      var c, l := Came(q, r), Left(q, r);
      var cs, ls, z := CameLog(ss[1..], st), LeftLog(ss[1..], st), ss[|es|].Q(st);
      assert q + (c + cs) == (q + c) + cs == (l + r) + cs == l + (r + cs) == l + (ls + z) == (l + ls) + z;
    }
  }

  /** The process identifiers from a to b - 1. */
  function Pids(a: nat, b: nat): seq<Pid>
    decreases b
  {
    if a >= b then [] else Pids(a, b - 1) + [b - 1]
  }

  lemma {:induction false} PidsJoin(a: nat, b: nat, c: nat)
    requires a <= b <= c
    ensures Pids(a, b) + Pids(b, c) == Pids(a, c)
    decreases c
  {
    if b < c {
      PidsJoin(a, b, c - 1);
      assert Pids(a, b) + (Pids(b, c - 1) + [c - 1]) == (Pids(a, b) + Pids(b, c - 1)) + [c - 1];
    }
  }

  lemma {:induction false} PidsAt(a: nat, b: nat)
    requires a <= b
    ensures |Pids(a, b)| == b - a && forall i :: 0 <= i < b - a ==> Pids(a, b)[i] == a + i
    decreases b
  {
    if a < b { PidsAt(a, b - 1); }
  }

  /** A step gives out identifiers only to those who come to NEW, one after the other. */
  lemma StepNew(s: State, e: Event, t: State)
    requires Step(s, e, t)
    ensures s.nextPid <= t.nextPid && Came(s.Q(New), t.Q(New)) == Pids(s.nextPid, t.nextPid)
    ensures t.nextPid == if e == Arrival then s.nextPid + 1 else s.nextPid
  {
    hide Inv, SuspensionCase, Came, NoDup;
    StepNextPid(s, e, t);
    if e == Arrival {
      ArrivalCame(s);
    } else {
      NoneCame(s, e, t);
    }
  }

  lemma StepNextPid(s: State, e: Event, t: State)
    requires Step(s, e, t)
    ensures t.nextPid == if e == Arrival then s.nextPid + 1 else s.nextPid
  {
    hide Inv, SuspensionCase, NoDup;
    match e
    case PostCall(p, n) =>
      QueuedLive(s, p, Exec);
      hide Post;
      if n in s.sems { PostOnward(s, p, n, {}); }
    case DetectorRun => DetectOnward(s);
    case _ =>
  }

  lemma ArrivalCame(s: State)
    requires Good(s)
    ensures Came(s.Q(New), Arrive(s).Q(New)) == [s.nextPid]
    ensures Pids(s.nextPid, s.nextPid + 1) == [s.nextPid]
  {
    hide Inv, SuspensionCase, Evaluate, Filter, NoDup;
    var q, p := s.Q(New), s.nextPid;
    var m := s.(pcbs := s.pcbs[p := Pcb(New, None, map[])], qs := s.qs[New := q + [p]], nextPid := p + 1);
    EvaluatedQueue(m, New);
    assert Arrive(s).Q(New) == q + [p];
    assert p !in q by { NextUnqueued(s); }
    FilterAppend(q, [p], Outside(q));
    FilterNone(q, Outside(q));
    FilterAll([p], Outside(q));
    PidsAt(p, p + 1);
  }

  lemma NextUnqueued(s: State)
    requires Inv(s, {})
    ensures s.nextPid !in s.Q(New)
  {
    if s.nextPid in s.Q(New) { QueuedLive(s, s.nextPid, New); }
    hide Linked, IoQueued, Listed, Positive, Counted, TokensMatch, SlotsMatch, NoDup;
  }

  lemma NoneCame(s: State, e: Event, t: State)
    requires Step(s, e, t) && e != Arrival
    ensures Came(s.Q(New), t.Q(New)) == []
  {
    hide Inv, SuspensionCase, NoDup, Filter, Moved;
    forall p | p in t.Q(New) ensures p in s.Q(New) {
      if e == DetectorRun {
        DetectorStep(s, e, t);
        DetectOnward(s);
      } else {
        GoodStep(s, e);
        QueuedLive(t, p, New);
        EveryMove(s, e, t, p);
        OnlyArrivalsNew(s, e, p);
        StatusQueued(s, p);
      }
    }
    FilterNone(t.Q(New), Outside(s.Q(New)));
  }

  lemma StatusQueued(s: State, p: Pid)
    requires Inv(s, {}) && p in s.pcbs
    ensures p in s.Q(s.pcbs[p].status)
  {
    hide Linked, IoQueued, Listed, Positive, Counted, TokensMatch, SlotsMatch, PidsBelow, NoDup;
  }

  lemma OnlyArrivalsNew(s: State, e: Event, p: Pid)
    requires Enabled(s, e) && e != Arrival && Moved(s, e, p) == Some(New)
    ensures Where(s, p) == Some(New)
  {
  }

  lemma {:induction false} CameNew(ss: seq<State>, es: seq<Event>)
    requires Run(ss, es)
    ensures ss[0].nextPid <= ss[|es|].nextPid && CameLog(ss, New) == Pids(ss[0].nextPid, ss[|es|].nextPid)
    decreases |es|
  {
    hide Step, Good, Came;
    if es != [] {
      FirstStep(ss, es);
      StepNew(ss[0], es[0], ss[1]);
      CameNew(ss[1..], es[1..]);
      PidsJoin(ss[0].nextPid, ss[1].nextPid, ss[|es|].nextPid);
    }
  }

  /** In every run from the start, those who have left NEW, in the order in which they left it, and
      then NEW itself are 1, 2, 3, and so on, in the order of arrival. */
  lemma NewRun(ss: seq<State>, es: seq<Event>, degree: nat, devices: set<Device>)
    requires Run(ss, es) && ss[0] == Initial(degree, devices)
    ensures LeftLog(ss, New) + ss[|es|].Q(New) == Pids(1, ss[|es|].nextPid)
  {
    hide Step, LeftLog, CameLog;
    LineRun(ss, es, New);
    CameNew(ss, es);
    assert ss[0].Q(New) == [];
    assert [] + CameLog(ss, New) == CameLog(ss, New);
  }

  lemma RunPrefix(ss: seq<State>, es: seq<Event>, i: nat)
    requires Run(ss, es) && i < |ss|
    ensures Run(ss[..i + 1], es[..i])
  {
    hide Step;
    forall j | 0 <= j < i ensures Step(ss[..i + 1][j], es[..i][j], ss[..i + 1][j + 1]) {
      assert Step(ss[j], es[j], ss[j + 1]);
    }
  }

  /** NEW is in ascending order of process identifiers in every state of every run. */
  lemma NewAscending(ss: seq<State>, es: seq<Event>, degree: nat, devices: set<Device>, i: nat)
    requires Run(ss, es) && ss[0] == Initial(degree, devices) && i < |ss|
    ensures forall j, k :: 0 <= j < k < |ss[i].Q(New)| ==> ss[i].Q(New)[j] < ss[i].Q(New)[k]
    ensures forall p :: p in ss[i].Q(New) ==> p < ss[i].nextPid
  {
    hide Run, LeftLog;
    RunPrefix(ss, es, i);
    RunLength(ss, es);
    NewRun(ss[..i + 1], es[..i], degree, devices);
    var l, q, n := LeftLog(ss[..i + 1], New), ss[i].Q(New), ss[i].nextPid;
    CameNew(ss[..i + 1], es[..i]);
    PidsAt(1, n);
    assert forall j :: 0 <= j < |q| ==> q[j] == (l + q)[|l| + j];
  }

  lemma RunLength(ss: seq<State>, es: seq<Event>)
    requires Run(ss, es)
    ensures |ss| == |es| + 1
  {
  }

  /** An admission in a run takes the head of SUSP/READY or, if that is empty, the new process with
      the least identifier. */
  lemma AdmitsLeast(ss: seq<State>, es: seq<Event>, degree: nat, devices: set<Device>, i: nat)
    requires Run(ss, es) && ss[0] == Initial(degree, devices) && i < |es| && es[i] == Admission
    ensures var s, t := ss[i], ss[i + 1];
      if s.Q(SusReady) != [] then Where(t, s.Q(SusReady)[0]) == Some(Ready) && t.Q(New) == s.Q(New)
      else s.Q(New) != [] && Where(t, s.Q(New)[0]) == Some(Ready) && t.Q(New) == s.Q(New)[1..] &&
           forall p :: p in s.Q(New) ==> s.Q(New)[0] <= p
  {
    hide Inv, SuspensionCase;
    var s, t := ss[i], ss[i + 1];
    assert Step(s, es[i], ss[i + 1]);
    NewAscending(ss, es, degree, devices, i);
    AdmitReady(s);
    EveryMove(s, Admission, t, if s.Q(SusReady) != [] then s.Q(SusReady)[0] else s.Q(New)[0]);
  }

  // ----------------------------------------------------------------------- devices

  ghost function LineAfter(q: seq<Pid>, e: Event, d: Device): seq<Pid>
    requires e == IoEnd(d) ==> q != []
  {
    if e.IoCall? && e.d == d then q + [e.p] else if e == IoEnd(d) then q[1..] else q
  }

  lemma SameLine(m: State)
    ensures Evaluate(m).io == m.io
  {
  }

  /** The line of a device after a step. */
  lemma DeviceLine(s: State, e: Event, t: State, d: Device)
    requires Step(s, e, t)
    ensures t.io.Keys == s.io.Keys
    ensures d in s.io ==> t.io[d] == LineAfter(s.io[d], e, d)
  {
    hide Inv, SuspensionCase, Placed, NoDup, Evaluate;
    match e
    case IoCall(p, k) => if k in s.io { SameLine(IoQueue(s, p, k)); }
    case IoEnd(k) =>
    case _ => OtherLines(s, e, t);
  }

  lemma OtherLines(s: State, e: Event, t: State)
    requires Step(s, e, t) && !e.IoCall? && !e.IoEnd?
    ensures t.io == s.io
  {
    hide Inv, SuspensionCase, Placed, NoDup, Evaluate;
    match e
    case Arrival => SameLine(Mid(s, e));
    case Admission => AdmitReady(s);
    case Chosen(p) => SameLine(Mid(s, e));
    case WaitCall(p, n) => QueuedLive(s, p, Exec); if Stops(s, n) { SameLine(Mid(s, e)); }
    case PostCall(p, n) =>
      QueuedLive(s, p, Exec);
      hide Post;
      if n in s.sems { PostOnward(s, p, n, {}); }
    case DetectorRun => DetectOnward(s);
    case _ =>
  }

  /** Those who ask for d during a run, in order, and those whose bursts end. */
  ghost function AskedLog(es: seq<Event>, d: Device): seq<Pid> {
    if es == [] then [] else Asked(es[0], d) + AskedLog(es[1..], d)
  }

  ghost function Asked(e: Event, d: Device): seq<Pid> { if e.IoCall? && e.d == d then [e.p] else [] }

  ghost function Done(s: State, e: Event, d: Device): seq<Pid> {
    if e == IoEnd(d) && d in s.io && s.io[d] != [] then [s.io[d][0]] else []
  }

  ghost function DoneLog(ss: seq<State>, es: seq<Event>, d: Device): seq<Pid>
    requires |ss| == |es| + 1
  {
    if es == [] then []
    else Done(ss[0], es[0], d) + DoneLog(ss[1..], es[1..], d)
  }

  /** A device serves whoever asks for it in order, over whole runs. */
  lemma {:induction false} DeviceRun(ss: seq<State>, es: seq<Event>, d: Device)
    requires Run(ss, es) && d in ss[0].io
    ensures d in ss[|es|].io && ss[0].io[d] + AskedLog(es, d) == DoneLog(ss, es, d) + ss[|es|].io[d]
    decreases |es|
  {
    hide Good, Apply;
    if es != [] {
      FirstStep(ss, es);
      DeviceLine(ss[0], es[0], ss[1], d);
      DeviceRun(ss[1..], es[1..], d);
      var q, r, z := ss[0].io[d], ss[1].io[d], ss[|es|].io[d];
      var a, w := Asked(es[0], d), Done(ss[0], es[0], d);
      var b, l := AskedLog(es[1..], d), DoneLog(ss[1..], es[1..], d);
      assert q + a == w + r;
      hide *;
      assert q + (a + b) == (q + a) + b == (w + r) + b == w + (r + b) == w + (l + z) == (w + l) + z;
    }
  }

  lemma {:induction false} SameDevices(ss: seq<State>, es: seq<Event>)
    requires Run(ss, es)
    ensures ss[|es|].io.Keys == ss[0].io.Keys
    decreases |es|
  {
    hide Good, Apply;
    if es != [] {
      FirstStep(ss, es);
      DeviceLine(ss[0], es[0], ss[1], "");
      SameDevices(ss[1..], es[1..]);
    }
  }

  /** From the start of the system: its devices are always the configured ones, and those who have
      asked for one are those it has served, in that order, and then its line. */
  lemma DevicesServeInOrder(ss: seq<State>, es: seq<Event>, degree: nat, devices: set<Device>, d: Device)
    requires Run(ss, es) && ss[0] == Initial(degree, devices)
    ensures ss[|es|].io.Keys == devices
    ensures d in devices ==> AskedLog(es, d) == DoneLog(ss, es, d) + ss[|es|].io[d]
  {
    hide Step, AskedLog, DoneLog;
    SameDevices(ss, es);
    if d in devices {
      DeviceRun(ss, es, d);
      assert [] + AskedLog(es, d) == AskedLog(es, d);
    }
  }
}

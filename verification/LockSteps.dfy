/** SEM_WAIT and SEM_POST on one semaphore at the granularity of their locks: calls of different
    processes interleave between one critical section and the next. */
module LockSteps {
  import opened Lists
  import opened KernelState

  /** How far a process has come in its call. */
  datatype Phase =
    | Idle
    | WillSleep                  // lowered the value below zero, not yet in the queue
    | Asleep
    | WillRetain                 // lowered the value, the instance not yet recorded
    | WillRelease(some: bool)    // raised the value; some: it was then not positive
    | WillPop                    // gave its own instance back, about to look at the queue
    | WillGrant(h: Pid)          // took h off the queue, its instance not yet recorded

  datatype Local = Local(phase: Phase, held: nat)

  /** posts counts the posts by processes that retained nothing, misses the pops that found the
      queue empty. */
  datatype Cell = Cell(value: int, queue: seq<Pid>, procs: map<Pid, Local>, posts: nat, misses: nat) {
    predicate In(p: Pid, ph: Phase) { p in procs && procs[p].phase == ph }

    function To(p: Pid, ph: Phase): Cell
      requires p in procs
    {
      this.(procs := procs[p := procs[p].(phase := ph)])
    }

    function Awake(p: Pid): (r: Cell)
      ensures r.procs.Keys == procs.Keys
    {
      if p in procs then To(p, Idle) else this
    }

    function Add(p: Pid): Cell
      requires p in procs
    {
      this.(procs := procs[p := procs[p].(held := procs[p].held + 1)])
    }

    function Drop(p: Pid): Cell
      requires p in procs && procs[p].held > 0
    {
      this.(procs := procs[p := procs[p].(held := procs[p].held - 1)])
    }
  }

  datatype Move =
    | WaitLock(p: Pid) | Sleep(p: Pid) | Retain(p: Pid)
    | PostLock(p: Pid) | Release(p: Pid) | Pop(p: Pid) | Grant(p: Pid)

  predicate CanMove(s: Cell, m: Move) {
    m.p in s.procs &&
    match m
    case WaitLock(p) => s.procs[p].phase == Idle
    case Sleep(p) => s.procs[p].phase == WillSleep
    case Retain(p) => s.procs[p].phase == WillRetain
    case PostLock(p) => s.procs[p].phase == Idle
    case Release(p) => s.procs[p].phase.WillRelease?
    case Pop(p) => s.procs[p].phase == WillPop
    case Grant(p) => s.procs[p].phase.WillGrant? && s.procs[p].phase.h in s.procs
  }

  /** One critical section. */
  function Do(s: Cell, m: Move): Cell
    requires CanMove(s, m)
  {
    match m
    case WaitLock(p) =>
      s.(value := s.value - 1).To(p, if s.value - 1 < 0 then WillSleep else WillRetain)
    case Sleep(p) => s.(queue := s.queue + [p]).To(p, Asleep)
    case Retain(p) => s.Add(p).To(p, Idle)
    case PostLock(p) => s.(value := s.value + 1).To(p, WillRelease(s.value + 1 <= 0))
    case Release(p) =>
      var next := if s.procs[p].phase.some then WillPop else Idle;
      if s.procs[p].held > 0 then s.Drop(p).To(p, next) else s.(posts := s.posts + 1).To(p, next)
    case Pop(p) =>
      if s.queue == [] then s.(misses := s.misses + 1).To(p, Idle)
      else s.(queue := s.queue[1..]).Awake(s.queue[0]).To(p, WillGrant(s.queue[0]))
    case Grant(p) => s.Add(s.procs[p].phase.h).To(p, Idle)
  }

  ghost function Start(v: int, pids: set<Pid>): Cell {
    Cell(v, [], map p | p in pids :: Local(Idle, 0), 0, 0)
  }

  ghost predicate Interleaving(ss: seq<Cell>, ms: seq<Move>) {
    |ss| == |ms| + 1 && forall i :: 0 <= i < |ms| ==> CanMove(ss[i], ms[i]) && ss[i + 1] == Do(ss[i], ms[i])
  }

  // ------------------------------------------------------------------------ sums

  ghost function Sum(m: map<Pid, Local>, f: Local -> int): int
    decreases |m|
  {
    if m.Keys == {} then 0
    else
      var p :| p in m.Keys;
      assert (m - {p}).Keys == m.Keys - {p};
      f(m[p]) + Sum(m - {p}, f)
  }

  lemma {:induction false} SumSplit(m: map<Pid, Local>, f: Local -> int, p: Pid)
    requires p in m
    ensures Sum(m, f) == f(m[p]) + Sum(m - {p}, f)
    decreases |m|
  {
    var q :| q in m.Keys && Sum(m, f) == f(m[q]) + Sum(m - {q}, f);
    if q != p {
      var a, b := m - {q}, m - {p};
      assert a.Keys == m.Keys - {q};
      assert b.Keys == m.Keys - {p};
      assert a - {p} == b - {q};
      SumSplit(a, f, p);
      SumSplit(b, f, q);
    }
  }

  lemma SumUpdate(m: map<Pid, Local>, f: Local -> int, p: Pid, x: Local)
    requires p in m
    ensures Sum(m[p := x], f) == Sum(m, f) - f(m[p]) + f(x)
  {
    SumSplit(m, f, p);
    SumSplit(m[p := x], f, p);
    assert m[p := x] - {p} == m - {p};
  }

  lemma {:induction false} SumAtMost(m: map<Pid, Local>, f: Local -> int)
    requires forall p :: p in m ==> f(m[p]) <= 0
    ensures Sum(m, f) <= 0
    decreases |m|
  {
    if m.Keys != {} {
      var p :| p in m.Keys;
      assert (m - {p}).Keys == m.Keys - {p};
      SumSplit(m, f, p);
      SumAtMost(m - {p}, f);
    }
  }

  lemma {:induction false} SumZero(m: map<Pid, Local>, f: Local -> int)
    requires forall p :: p in m ==> f(m[p]) == 0
    ensures Sum(m, f) == 0
    decreases |m|
  {
    if m.Keys != {} {
      var p :| p in m.Keys;
      assert (m - {p}).Keys == m.Keys - {p};
      SumSplit(m, f, p);
      SumZero(m - {p}, f);
    }
  }

  // ------------------------------------------------------------------ who sleeps

  /** Those in the queue are those who sleep, once each; whoever is to be granted exists. */
  ghost predicate Sleepers(s: Cell) {
    && NoDup(s.queue)
    && (forall p :: p in s.queue <==> s.In(p, Asleep))
    && (forall p :: p in s.procs && s.procs[p].phase.WillGrant? ==> s.procs[p].phase.h in s.procs)
  }

  lemma SleepersKept(s: Cell, m: Move)
    requires Sleepers(s) && CanMove(s, m)
    ensures Sleepers(Do(s, m)) && Do(s, m).procs.Keys == s.procs.Keys
  {
    match m {
      case Sleep(p) =>
        assert p !in s.queue;
        assert NoDup(s.queue + [p]);
      case Pop(p) => if s.queue != [] { PopKept(s, p); }
      case _ => hide NoDup;
    }
  }

  lemma PopKept(s: Cell, p: Pid)
    requires Sleepers(s) && CanMove(s, Pop(p)) && s.queue != []
    ensures Sleepers(Do(s, Pop(p))) && Do(s, Pop(p)).procs.Keys == s.procs.Keys
  {
    var t := Do(s, Pop(p));
    var h := s.queue[0];
    assert h in s.queue && s.queue == [h] + s.queue[1..];
    assert h !in t.queue && NoDup(t.queue);
    assert s.In(h, Asleep) && p !in s.queue;
    hide NoDup;
    forall q ensures q in t.queue <==> t.In(q, Asleep) { assert q in s.queue <==> s.In(q, Asleep); }
  }

  // ------------------------------------------------------------------- the two laws

  /** What a call in flight has taken from the value and not yet put elsewhere. */
  function Pending(x: Local): int {
    x.held as int + match x.phase
      case WillSleep => 1
      case WillRetain => 1
      case WillRelease(some) => -1
      case WillGrant(h) => 1
      case _ => 0
  }

  /** Value, waiters, retained instances and calls in flight. */
  ghost function Instances(s: Cell): int { s.value + |s.queue| + Sum(s.procs, Pending) }

  /** What a call in flight will add to the queue or take from it. */
  function Coming(x: Local): int {
    match x.phase
    case WillSleep => 1
    case WillRelease(some) => if some then -1 else 0
    case WillPop => -1
    case _ => 0
  }

  ghost predicate QueueLaw(s: Cell) { |s.queue| + Sum(s.procs, Coming) == Max0(-s.value) + s.misses }

  lemma TwoUpdates(m: map<Pid, Local>, f: Local -> int, h: Pid, x: Local, p: Pid, y: Local)
    requires h in m && p in m && h != p
    ensures Sum(m[h := x][p := y], f) == Sum(m, f) - f(m[h]) + f(x) - f(m[p]) + f(y)
  {
    SumUpdate(m, f, h, x);
    SumUpdate(m[h := x], f, p, y);
  }

  lemma GrantConserves(s: Cell, p: Pid)
    requires CanMove(s, Grant(p))
    ensures Instances(Do(s, Grant(p))) == Instances(s)
    ensures QueueLaw(s) ==> QueueLaw(Do(s, Grant(p)))
  {
    var h := s.procs[p].phase.h;
    if h != p {
      var x, y := s.procs[h].(held := s.procs[h].held + 1), s.procs[p].(phase := Idle);
      TwoUpdates(s.procs, Pending, h, x, p, y);
      TwoUpdates(s.procs, Coming, h, x, p, y);
    } else {
      var y := Local(Idle, s.procs[p].held + 1);
      assert Do(s, Grant(p)).procs == s.procs[p := y];
      SumUpdate(s.procs, Pending, p, y);
      SumUpdate(s.procs, Coming, p, y);
    }
  }

  lemma PopConserves(s: Cell, p: Pid)
    requires Sleepers(s) && CanMove(s, Pop(p)) && s.queue != []
    ensures Instances(Do(s, Pop(p))) == Instances(s)
    ensures QueueLaw(s) ==> QueueLaw(Do(s, Pop(p)))
  {
    var h := s.queue[0];
    assert h in s.queue && s.In(h, Asleep);
    var x, y := s.procs[h].(phase := Idle), s.procs[p].(phase := WillGrant(h));
    TwoUpdates(s.procs, Pending, h, x, p, y);
    TwoUpdates(s.procs, Coming, h, x, p, y);
  }

  /** Each critical section keeps both laws; only a release by a non-holder makes an instance. */
  lemma MoveConserves(s: Cell, m: Move)
    requires Sleepers(s) && CanMove(s, m)
    ensures Instances(Do(s, m)) - Do(s, m).posts == Instances(s) - s.posts
    ensures QueueLaw(s) ==> QueueLaw(Do(s, m))
  {
    hide Sleepers;
    var t := Do(s, m);
    if m.Grant? {
      GrantConserves(s, m.p);
    } else if m.Pop? && s.queue != [] {
      PopConserves(s, m.p);
    } else {
      assert t.procs == s.procs[m.p := t.procs[m.p]];
      SumUpdate(s.procs, Pending, m.p, t.procs[m.p]);
      SumUpdate(s.procs, Coming, m.p, t.procs[m.p]);
    }
  }

  lemma StartLaws(v: int, pids: set<Pid>)
    ensures var s := Start(v, pids); Sleepers(s) && Instances(s) == v && (v >= 0 ==> QueueLaw(s))
  {
    SumZero(Start(v, pids).procs, Pending);
    SumZero(Start(v, pids).procs, Coming);
  }

  /** Over every interleaving of calls, instances are conserved and the queue law holds up to the
      calls in flight and the pops that came too early. */
  lemma {:induction false} InterleavingLaws(ss: seq<Cell>, ms: seq<Move>, v: int, pids: set<Pid>, i: nat)
    requires Interleaving(ss, ms) && ss[0] == Start(v, pids) && i < |ss|
    ensures Sleepers(ss[i]) && Instances(ss[i]) == v + ss[i].posts
    ensures v >= 0 ==> QueueLaw(ss[i])
    decreases i
  {
    hide Sleepers, Instances, QueueLaw, Do;
    if i == 0 {
      StartLaws(v, pids);
    } else {
      InterleavingLaws(ss, ms, v, pids, i - 1);
      assert CanMove(ss[i - 1], ms[i - 1]) && ss[i - 1 + 1] == Do(ss[i - 1], ms[i - 1]);
      SleepersKept(ss[i - 1], ms[i - 1]);
      MoveConserves(ss[i - 1], ms[i - 1]);
      PostsStart(ss[i - 1], ms[i - 1]);
    }
  }

  lemma PostsStart(s: Cell, m: Move)
    requires CanMove(s, m)
    ensures Do(s, m).posts >= s.posts && Do(s, m).misses >= s.misses
  {
  }

  // ------------------------------------------------------------------ between calls

  /** No call is in flight: whoever is not idle sleeps. */
  ghost predicate Quiet(s: Cell) { forall p :: p in s.procs ==> s.procs[p].phase == Idle || s.procs[p].phase == Asleep }

  function Held(x: Local): int { x.held }

  lemma {:induction false} SumSame(m: map<Pid, Local>, f: Local -> int, g: Local -> int)
    requires forall p :: p in m ==> f(m[p]) == g(m[p])
    ensures Sum(m, f) == Sum(m, g)
    decreases |m|
  {
    if m.Keys != {} {
      var p :| p in m.Keys;
      assert (m - {p}).Keys == m.Keys - {p};
      SumSplit(m, f, p);
      SumSplit(m, g, p);
      SumSame(m - {p}, f, g);
    }
  }

  /** Between calls the conservation law of the atomic model holds outright; its queue law holds
      exactly when no post popped before a waiter it was meant for had joined the queue. */
  lemma QuietLaws(ss: seq<Cell>, ms: seq<Move>, v: int, pids: set<Pid>, i: nat)
    requires Interleaving(ss, ms) && ss[0] == Start(v, pids) && i < |ss| && Quiet(ss[i]) && v >= 0
    ensures ss[i].value + |ss[i].queue| + Sum(ss[i].procs, Held) == v + ss[i].posts
    ensures |ss[i].queue| == Max0(-ss[i].value) <==> ss[i].misses == 0
  {
    hide Sleepers, Interleaving;
    InterleavingLaws(ss, ms, v, pids, i);
    SumSame(ss[i].procs, Pending, Held);
    SumZero(ss[i].procs, Coming);
  }

  /** The first early pop happens while some waiter has lowered the value and not yet joined the
      queue: calls that do not interleave never miss. */
  lemma MissNeedsRace(s: Cell, p: Pid)
    requires QueueLaw(s) && s.misses == 0 && CanMove(s, Pop(p)) && s.queue == []
    ensures exists q :: s.In(q, WillSleep)
  {
    if forall q :: q in s.procs ==> Coming(s.procs[q]) <= 0 {
      SumSplit(s.procs, Coming, p);
      SumAtMost(s.procs - {p}, Coming);
      assert false;
    } else {
      var q :| q in s.procs && Coming(s.procs[q]) > 0;
      assert s.In(q, WillSleep);
    }
  }

  /** Such a race, from a semaphore initialised to 0: process 1 lowers the value, process 2's
      whole post runs and finds nobody, process 1 goes to sleep although an instance was posted. */
  lemma LostWakeUp() returns (ss: seq<Cell>, ms: seq<Move>)
    ensures Interleaving(ss, ms) && ss[0] == Start(0, {1, 2}) && |ms| == 5
    ensures var s := ss[|ms|]; Quiet(s) && s.value == 0 && s.queue == [1] && s.misses == 1
  {
    ms := [WaitLock(1), PostLock(2), Release(2), Pop(2), Sleep(1)];
    var a := Start(0, {1, 2});
    var b := Do(a, WaitLock(1));
    var c := Do(b, PostLock(2));
    var d := Do(c, Release(2));
    var e := Do(d, Pop(2));
    var f := Do(e, Sleep(1));
    ss := [a, b, c, d, e, f];
  }

  // ------------------------------------------------------------- order and owners

  /** Those who go to sleep, in order. */
  function SleptLog(ms: seq<Move>): seq<Pid> {
    if ms == [] then [] else SleptLog(ms[..|ms| - 1]) + if ms[|ms| - 1].Sleep? then [ms[|ms| - 1].p] else []
  }

  /** The process that a pop has taken, read off the call that will grant it an instance. */
  ghost function Taken(m: Move, t: Cell): seq<Pid> {
    if m.Pop? && m.p in t.procs && t.procs[m.p].phase.WillGrant? then [t.procs[m.p].phase.h] else []
  }

  ghost function TakenLog(ss: seq<Cell>, ms: seq<Move>): seq<Pid>
    requires |ss| == |ms| + 1
  {
    if ms == [] then []
    else TakenLog(ss[..|ms|], ms[..|ms| - 1]) + Taken(ms[|ms| - 1], ss[|ms|])
  }

  lemma MoveQueue(s: Cell, m: Move)
    requires CanMove(s, m)
    ensures s.queue + (if m.Sleep? then [m.p] else []) == Taken(m, Do(s, m)) + Do(s, m).queue
  {
  }

  /** Over every interleaving, processes are taken off the queue in the order in which they joined
      it: those who went to sleep are those taken and then the queue. */
  lemma {:induction false} FifoInterleaving(ss: seq<Cell>, ms: seq<Move>, v: int, pids: set<Pid>)
    requires Interleaving(ss, ms) && ss[0] == Start(v, pids)
    ensures SleptLog(ms) == TakenLog(ss, ms) + ss[|ms|].queue
    decreases |ms|
  {
    hide Do, CanMove, Taken;
    if ms != [] {
      var k := |ms| - 1;
      assert CanMove(ss[k], ms[k]) && ss[k + 1] == Do(ss[k], ms[k]);
      FifoInterleaving(ss[..k + 1], ms[..k], v, pids);
      MoveQueue(ss[k], ms[k]);
      Regrouped(TakenLog(ss[..k + 1], ms[..k]), ss[k].queue, if ms[k].Sleep? then [ms[k].p] else [],
                Taken(ms[k], ss[k + 1]), ss[k + 1].queue);
    }
  }

  lemma Regrouped(w: seq<Pid>, q: seq<Pid>, j: seq<Pid>, x: seq<Pid>, r: seq<Pid>)
    requires q + j == x + r
    ensures (w + q) + j == (w + x) + r
  {
    assert (w + q) + j == w + (q + j);
    assert w + (x + r) == (w + x) + r;
  }

  /** SEM_WAIT whole, its critical sections one after the other: as in the atomic model. */
  lemma WaitWhole(s: Cell, p: Pid)
    requires s.In(p, Idle)
    ensures var t := Do(s, WaitLock(p)); var h := s.procs[p].held;
      if s.value > 0 then
        CanMove(t, Retain(p)) && Do(t, Retain(p)) == s.(value := s.value - 1, procs := s.procs[p := Local(Idle, h + 1)])
      else
        CanMove(t, Sleep(p)) &&
        Do(t, Sleep(p)) == s.(value := s.value - 1, queue := s.queue + [p], procs := s.procs[p := Local(Asleep, h)])
  {
  }

  /** SEM_POST whole, by a process that retains an instance, on a semaphore with a waiter: the poster
      has one less, and the head of the queue is awake and has one more. */
  lemma PostWhole(s: Cell, p: Pid)
    requires Sleepers(s) && s.In(p, Idle) && s.procs[p].held > 0 && s.value < 0 && s.queue != []
    ensures var h := s.queue[0]; var u := ThreeSections(s, p);
      && h in s.procs && h != p && CanMove(u, Grant(p))
      && Do(u, Grant(p)) == s.(value := s.value + 1, queue := s.queue[1..],
                              procs := s.procs[p := Local(Idle, s.procs[p].held - 1)]
                                              [h := Local(Idle, s.procs[h].held + 1)])
  {
    var h := s.queue[0];
    assert h in s.queue;
    assert s.In(h, Asleep);
    BeforeGrant(s, p);
    hide ThreeSections, NoDup;
    GrantLast(ThreeSections(s, p), p, h);
  }

  function ThreeSections(s: Cell, p: Pid): Cell
    requires s.In(p, Idle) && s.value < 0
  {
    var t := Do(s, PostLock(p));
    Do(Do(t, Release(p)), Pop(p))
  }

  lemma BeforeGrant(s: Cell, p: Pid)
    requires s.In(p, Idle) && s.procs[p].held > 0 && s.value < 0 && s.queue != [] && s.In(s.queue[0], Asleep)
    ensures var h := s.queue[0];
      ThreeSections(s, p) == s.(value := s.value + 1, queue := s.queue[1..],
                               procs := s.procs[h := Local(Idle, s.procs[h].held)]
                                               [p := Local(WillGrant(h), s.procs[p].held - 1)])
  {
  }

  lemma GrantLast(u: Cell, p: Pid, h: Pid)
    requires h != p && u.In(p, WillGrant(h)) && u.In(h, Idle)
    ensures CanMove(u, Grant(p))
    ensures Do(u, Grant(p)).procs == u.procs[p := Local(Idle, u.procs[p].held)][h := Local(Idle, u.procs[h].held + 1)]
    ensures Do(u, Grant(p)) == u.(procs := Do(u, Grant(p)).procs)
  {
  }

  /** A SEM_POST that finds no negative value ends with its release, with one instance less for a
      poster that retained one. */
  lemma PostFree(s: Cell, p: Pid)
    requires s.In(p, Idle) && s.value >= 0
    ensures var t := Do(s, PostLock(p)); var h := s.procs[p].held;
      && CanMove(t, Release(p))
      && Do(t, Release(p)) == s.(value := s.value + 1, procs := s.procs[p := Local(Idle, if h > 0 then h - 1 else 0)],
                                 posts := if h > 0 then s.posts else s.posts + 1)
  {
  }
}

/** Semaphores are FIFO over whole runs: processes are woken in the order in which they blocked,
    the killed ones left out, whether or not they were suspended meanwhile. */
module Fifo {
  import opened Wrappers
  import opened Lists
  import opened KernelState
  import opened Steps
  import opened SchedulerInvariants
  import opened Detection
  import opened Runs
  import opened RunTheorems
  import opened Discipline
  import opened RecoveryQueues

  // ------------------------------------------------------------- whom a step wakes

  /** The processes that a step takes off n's queue by waking them, in order. */
  ghost function Woken(s: State, e: Event, n: Name): seq<Pid>
    requires Good(s)
  {
    match e
    case PostCall(p, k) => PostWoken(s, k, n)
    case DetectorRun => DetectWoken(s, n)
    case _ => []
  }

  /** The process that a step adds to n's queue. */
  ghost function Joined(s: State, e: Event, n: Name): seq<Pid> {
    if e.WaitCall? && e.n == n && Blocks(s, e, e.p) then [e.p] else []
  }

  ghost function KilledIn(s: State, e: Event): set<Pid>
    requires Good(s)
  {
    if e == DetectorRun then Victims(s) else {}
  }

  // -------------------------------------------------------------------- a step

  lemma SameSems(s: State, t: State, n: Name)
    requires t.sems == s.sems
    ensures QueueOf(t, n) == QueueOf(s, n)
  {
  }

  lemma WaitQueue(s: State, p: Pid, k: Name, n: Name)
    requires p in s.pcbs && k in s.sems
    ensures QueueOf(Wait(s, p, k), n) == QueueOf(s, n) + if k == n && s.sems[k].value <= 0 then [p] else []
  {
    EvaluateSems(Sleep(s, p, k, s.sems[k].(value := s.sems[k].value - 1)));
    hide Evaluate;
  }

  /** The queue of n after a step other than the detector's. */
  lemma PlainStepQueue(s: State, e: Event, t: State, n: Name)
    requires Step(s, e, t) && e != DetectorRun
    ensures QueueOf(s, n) + Joined(s, e, n) == Woken(s, e, n) + QueueOf(t, n)
  {
    hide Inv, SuspensionCase, QueueOf, PostWoken;
    match e
    case Arrival => EvaluateSems(s.(pcbs := s.pcbs[s.nextPid := Pcb(New, None, map[])],
                                    qs := s.qs[New := s.Q(New) + [s.nextPid]], nextPid := s.nextPid + 1));
                    hide Evaluate; SameSems(s, t, n);
    case Admission => SameSems(s, t, n);
    case Chosen(p) => EvaluateSems(Shift(s, p, Ready, Exec)); hide Evaluate; SameSems(s, t, n);
    case InitCall(p, k, v) => InitQueue(s, k, v, n);
    case WaitCall(p, k) => QueuedLive(s, p, Exec); hide Wait; if k in s.sems { WaitQueue(s, p, k, n); }
    case PostCall(p, k) => QueuedLive(s, p, Exec); hide Post; PostCallQueue(s, p, k, n);
    case DestroyCall(p, k) => DestroyQueue(s, k, n);
    case IoCall(p, d) => if d in s.io { EvaluateSems(IoQueue(s, p, d)); hide Evaluate; } SameSems(s, t, n);
    case IoEnd(d) => SameSems(s, t, n);
    case CloseCall(p) => SameSems(s, t, n);
    case Departure => SameSems(s, t, n);
  }

  lemma InitQueue(s: State, k: Name, v: int, n: Name)
    ensures QueueOf(SemInit(s, k, v), n) == QueueOf(s, n)
  {
  }

  lemma DestroyQueue(s: State, k: Name, n: Name)
    ensures QueueOf(SemDestroy(s, k), n) == QueueOf(s, n)
  {
  }

  lemma PostCallQueue(s: State, p: Pid, k: Name, n: Name)
    requires Inv(s, {}) && p in s.pcbs
    ensures k in s.sems ==> QueueOf(s, n) == PostWoken(s, k, n) + QueueOf(Post(s, p, k), n)
    ensures k !in s.sems ==> PostWoken(s, k, n) == []
  {
    hide Inv, Post, QueueOf;
    if k in s.sems { PostQueue(s, p, k, n, {}); }
  }

  /** Any step on any queue: the victims are left out and a blocking process joins at the end;
      those woken are the first of what results, and the rest stays in order. */
  lemma StepQueue(s: State, e: Event, t: State, n: Name)
    requires Step(s, e, t)
    ensures Without(QueueOf(s, n), KilledIn(s, e)) + Joined(s, e, n) == Woken(s, e, n) + QueueOf(t, n)
  {
    hide Good, Apply, QueueOf, DetectWoken, Victims, Blocks;
    if e == DetectorRun {
      DetectorApplies(s, e, t);
      DetectQueue(s, n);
    } else {
      PlainStepQueue(s, e, t, n);
      NoneOf(QueueOf(s, n), {});
    }
  }

  // --------------------------------------------------------------------- a run

  /** x, in n's queue at the start of the run, is not killed before it is woken. */
  ghost predicate Survives(ss: seq<State>, es: seq<Event>, n: Name, x: Pid)
    requires Run(ss, es)
  {
    es == [] || (
      FirstStep(ss, es);
      x !in KilledIn(ss[0], es[0]) && (x in Woken(ss[0], es[0], n) || Survives(ss[1..], es[1..], n, x)))
  }

  lemma FirstStep(ss: seq<State>, es: seq<Event>)
    requires Run(ss, es) && es != []
    ensures Step(ss[0], es[0], ss[1]) && Run(ss[1..], es[1..]) && Good(ss[0])
  {
    hide Step;
    assert Step(ss[0], es[0], ss[0 + 1]);
    forall j | 0 <= j < |es| - 1 ensures Step(ss[1..][j], es[1..][j], ss[1..][j + 1]) {
      assert Step(ss[j + 1], es[j + 1], ss[j + 1 + 1]);
    }
    StepGood(ss[0], es[0], ss[1]);
  }

  lemma StepGood(s: State, e: Event, t: State)
    requires Step(s, e, t)
    ensures Good(s)
  {
  }

  ghost function Surviving(ss: seq<State>, es: seq<Event>, n: Name): Pid -> bool
    requires Run(ss, es)
  {
    (x: Pid) => Survives(ss, es, n, x)
  }

  ghost function Survivors(q: seq<Pid>, ss: seq<State>, es: seq<Event>, n: Name): seq<Pid>
    requires Run(ss, es)
  {
    Filter(q, Surviving(ss, es, n))
  }

  /** Those who block on n during the run, in that order, without the ones killed while waiting. */
  ghost function BlockedLog(ss: seq<State>, es: seq<Event>, n: Name): seq<Pid>
    requires Run(ss, es)
  {
    if es == [] then []
    else
      FirstStep(ss, es);
      Survivors(Joined(ss[0], es[0], n), ss[1..], es[1..], n) + BlockedLog(ss[1..], es[1..], n)
  }

  /** Those woken on n during the run, in that order. */
  ghost function WokenLog(ss: seq<State>, es: seq<Event>, n: Name): seq<Pid>
    requires Run(ss, es)
  {
    if es == [] then []
    else
      FirstStep(ss, es);
      Woken(ss[0], es[0], n) + WokenLog(ss[1..], es[1..], n)
  }

  /** A step wakes nobody that it adds or leaves in the queue. */
  lemma WokenApart(s: State, e: Event, t: State, n: Name)
    requires Step(s, e, t)
    ensures forall x :: x in Woken(s, e, n) ==> x !in Joined(s, e, n) && x !in QueueOf(t, n)
  {
    StepGood(s, e, t);
    hide Good, Apply, QueueOf, DetectWoken, Victims, Blocks, Filter, NoDup, Woken, PostWoken;
    StepQueue(s, e, t, n);
    if Joined(s, e, n) == [] {
      WaitersOnce(s, n);
      FilterNoDup(QueueOf(s, n), NotIn(KilledIn(s, e)));
      AppendNoDup(Woken(s, e, n), QueueOf(t, n));
    } else {
      WaitWakesNobody(s, e, n);
    }
  }

  lemma WaitWakesNobody(s: State, e: Event, n: Name)
    requires Good(s) && e.WaitCall?
    ensures Woken(s, e, n) == []
  {
  }

  lemma WaitersOnce(s: State, n: Name)
    requires Good(s)
    ensures NoDup(QueueOf(s, n))
  {
    hide Inv, SuspensionCase, NoDup;
    QueueFacts(s, n);
  }

  /** How survival at the start of a run follows from its first step. */
  lemma SurvivalStep(ss: seq<State>, es: seq<Event>, n: Name)
    requires Run(ss, es) && es != [] && |ss| == |es| + 1
    requires Run(ss[1..], es[1..]) && Step(ss[0], es[0], ss[1]) && Good(ss[0])
    ensures var q := QueueOf(ss[0], n); var w := Woken(ss[0], es[0], n); var j := Joined(ss[0], es[0], n);
      Survivors(q, ss, es, n) + Survivors(j, ss[1..], es[1..], n)
      == w + Survivors(QueueOf(ss[1], n), ss[1..], es[1..], n)
  {
    hide Step, Good, Run, Woken, Joined, KilledIn, QueueOf;
    var q, w, j := QueueOf(ss[0], n), Woken(ss[0], es[0], n), Joined(ss[0], es[0], n);
    var k, r := KilledIn(ss[0], es[0]), QueueOf(ss[1], n);
    var later := Surviving(ss[1..], es[1..], n);
    var g := (x: Pid) => x in w || later(x);
    WokenApart(ss[0], es[0], ss[1], n);
    StepQueue(ss[0], es[0], ss[1], n);
    SurvivesUnfold(ss, es, n);
    FilterTwice(q, NotIn(k), g, Surviving(ss, es, n));
    FilterSame(j, later, g);
    FilterAppend(Without(q, k), j, g);
    FilterAppend(w, r, g);
    FilterAll(w, g);
    FilterSame(r, later, g);
  }

  lemma SurvivesUnfold(ss: seq<State>, es: seq<Event>, n: Name)
    requires Run(ss, es) && es != [] && Run(ss[1..], es[1..]) && Good(ss[0])
    ensures forall x :: Surviving(ss, es, n)(x) <==>
      x !in KilledIn(ss[0], es[0]) && (x in Woken(ss[0], es[0], n) || Surviving(ss[1..], es[1..], n)(x))
  {
    hide Run, Good, Woken, KilledIn;
  }

  /** FIFO over a whole run: the queue at the start and those who blocked during the run, in
      that order and without the ones killed while they waited, are those woken during the
      run, in that order, and then the queue at the end. */
  lemma {:induction false} FifoRun(ss: seq<State>, es: seq<Event>, n: Name)
    requires Run(ss, es)
    ensures Survivors(QueueOf(ss[0], n), ss, es, n) + BlockedLog(ss, es, n)
         == WokenLog(ss, es, n) + QueueOf(ss[|es|], n)
    decreases |es|
  {
    hide Step, Good, Woken, Joined, QueueOf, Survives, Survivors;
    if es == [] {
      EveryoneSurvives(QueueOf(ss[0], n), ss, n);
    } else {
      FirstStep(ss, es);
      SurvivalStep(ss, es, n);
      FifoRun(ss[1..], es[1..], n);
      var q, j := Survivors(QueueOf(ss[0], n), ss, es, n), Survivors(Joined(ss[0], es[0], n), ss[1..], es[1..], n);
      var w, r := Woken(ss[0], es[0], n), Survivors(QueueOf(ss[1], n), ss[1..], es[1..], n);
      var b, l := BlockedLog(ss[1..], es[1..], n), WokenLog(ss[1..], es[1..], n);
      assert q + (j + b) == (q + j) + b == (w + r) + b == w + (r + b);
      assert w + (l + QueueOf(ss[|es|], n)) == (w + l) + QueueOf(ss[|es|], n);
    }
  }

  lemma EveryoneSurvives(q: seq<Pid>, ss: seq<State>, n: Name)
    requires Run(ss, [])
    ensures Survivors(q, ss, [], n) == q
  {
    FilterAll(q, Surviving(ss, [], n));
  }
}

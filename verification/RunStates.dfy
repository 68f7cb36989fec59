/** What holds in every state of every run, process by process and semaphore by semaphore. */
module RunStates {
  import opened Wrappers
  import opened Lists
  import opened KernelState
  import opened Runs

  /** How often x stands in q. */
  function Times<T(==)>(q: seq<T>, x: T): nat {
    if q == [] then 0 else (if q[0] == x then 1 else 0) + Times(q[1..], x)
  }

  lemma {:induction false} TimesOnce<T>(q: seq<T>, x: T)
    requires NoDup(q)
    ensures Times(q, x) == if x in q then 1 else 0
  {
    if q != [] {
      assert q == [q[0]] + q[1..];
      TimesOnce(q[1..], x);
    }
  }

  /** A process stands once in the scheduling queue of its status and in no other; who is not
      in the system stands in none. */
  lemma RunPlaces(ss: seq<State>, es: seq<Event>, degree: nat, devices: set<Device>, i: nat, p: Pid, st: Status)
    requires Run(ss, es) && ss[0] == Initial(degree, devices) && i < |ss|
    ensures Times(ss[i].Q(st), p) == if p in ss[i].pcbs && ss[i].pcbs[p].status == st then 1 else 0
    ensures p in ss[i].pcbs ==> p < ss[i].nextPid
  {
    RunGood(ss, es, degree, devices, i);
    hide Run, NoDup, Linked, IoQueued, Listed, Positive, Counted, TokensMatch, SlotsMatch;
    assert NoDup(ss[i].Q(st));
    TimesOnce(ss[i].Q(st), p);
  }

  /** A process stands once in the queue of the semaphore it waits on and in no other; waiting is
      sleeping, and on a semaphore of the system. */
  lemma RunWaiters(ss: seq<State>, es: seq<Event>, degree: nat, devices: set<Device>, i: nat, p: Pid, n: Name)
    requires Run(ss, es) && ss[0] == Initial(degree, devices) && i < |ss|
    ensures n in ss[i].sems ==>
      Times(ss[i].sems[n].queue, p) == if p in ss[i].pcbs && ss[i].pcbs[p].waitsOn == Some(n) then 1 else 0
    ensures p in ss[i].pcbs && ss[i].pcbs[p].waitsOn == Some(n) ==>
      n in ss[i].sems && (ss[i].pcbs[p].status == Blocked || ss[i].pcbs[p].status == SusBlocked)
  {
    RunGood(ss, es, degree, devices, i);
    hide Run, NoDup, Placed, IoQueued, Listed, Positive, Counted, TokensMatch, SlotsMatch, PidsBelow;
    assert WaitsFor(ss[i], p, n) ==> Waiting(ss[i], p);
    if n in ss[i].sems {
      assert NoDup(ss[i].sems[n].queue);
      TimesOnce(ss[i].sems[n].queue, p);
    }
  }

  /** A process that sleeps without waiting on a semaphore stands once in the line of one device, and
      in no other; any other process stands in none. */
  lemma RunDevices(ss: seq<State>, es: seq<Event>, degree: nat, devices: set<Device>, i: nat, p: Pid)
    requires Run(ss, es) && ss[0] == Initial(degree, devices) && i < |ss|
    ensures (exists d :: d in ss[i].io && Times(ss[i].io[d], p) == 1 &&
                         forall e :: e in ss[i].io && e != d ==> Times(ss[i].io[e], p) == 0) <==>
            (p in ss[i].pcbs && ss[i].pcbs[p].waitsOn == None &&
             (ss[i].pcbs[p].status == Blocked || ss[i].pcbs[p].status == SusBlocked))
    ensures (forall d :: d in ss[i].io ==> Times(ss[i].io[d], p) == 0) <==>
            !(p in ss[i].pcbs && ss[i].pcbs[p].waitsOn == None &&
              (ss[i].pcbs[p].status == Blocked || ss[i].pcbs[p].status == SusBlocked))
  {
    RunGood(ss, es, degree, devices, i);
    hide Run, NoDup, Placed, Linked, Listed, Positive, Counted, TokensMatch, SlotsMatch, PidsBelow;
    var s := ss[i];
    forall d | d in s.io ensures Times(s.io[d], p) == if p in s.io[d] then 1 else 0 { TimesOnce(s.io[d], p); }
    hide Times;
    if OnDevice(s.io, p) {
      var d :| d in s.io && p in s.io[d];
      assert Times(s.io[d], p) == 1;
    }
  }

  /** A listed semaphore is listed once; its queue is never longer than its value is negative, and as
      long when it was created with no negative value; what a process retains is positive. */
  lemma RunSemaphores(ss: seq<State>, es: seq<Event>, degree: nat, devices: set<Device>, i: nat, n: Name)
    requires Run(ss, es) && ss[0] == Initial(degree, devices) && i < |ss|
    ensures Times(ss[i].names, n) == if n in ss[i].sems then 1 else 0
    ensures n in ss[i].sems ==> var m := ss[i].sems[n];
      && (m.queue != [] ==> m.value <= -|m.queue|)
      && (m.initial >= 0 ==> |m.queue| == if m.value < 0 then -m.value else 0)
    ensures forall p :: p in ss[i].pcbs && n in ss[i].pcbs[p].held ==> ss[i].pcbs[p].held[n] > 0
  {
    RunGood(ss, es, degree, devices, i);
    hide Run, NoDup, Placed, Linked, IoQueued, TokensMatch, SlotsMatch, PidsBelow;
    TimesOnce(ss[i].names, n);
    if n in ss[i].sems { assert SemLaw(ss[i].sems[n]); }
    forall p | p in ss[i].pcbs && n in ss[i].pcbs[p].held ensures ss[i].pcbs[p].held[n] > 0 {
      assert Retains(ss[i], p, n);
    }
  }
}

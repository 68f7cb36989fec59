/** Conservation of instances over whole runs that destroy no retained semaphore. */
module InstanceLaw {
  import opened KernelState
  import opened Conservation
  import opened Runs
  import opened RunTheorems
  import opened Discipline

  ghost predicate CarefulRun(ss: seq<State>, es: seq<Event>) {
    Run(ss, es) && forall i :: 0 <= i < |es| ==> Careful(ss[i], es[i])
  }

  /** Posts on n by processes that retain no instance of it. */
  ghost function ForeignPosts(ss: seq<State>, es: seq<Event>, n: Name): nat
    requires |ss| == |es| + 1
  {
    if es == [] then 0
    else (if es[0].PostCall? && es[0].n == n && !Retains(ss[0], es[0].p, n) then 1 else 0)
         + ForeignPosts(ss[1..], es[1..], n)
  }

  /** Instances of n that processes still retained when they left the system. */
  ghost function LostInstances(ss: seq<State>, es: seq<Event>, n: Name): int
    requires |ss| == |es| + 1
  {
    if es == [] then 0
    else (if es[0] == Departure && ss[0].Q(Exit) != [] && ss[0].Q(Exit)[0] in ss[0].pcbs
          then HeldBy(ss[0].pcbs[ss[0].Q(Exit)[0]], n) else 0)
         + LostInstances(ss[1..], es[1..], n)
  }

  lemma {:induction false} DeltaSplit(ss: seq<State>, es: seq<Event>, n: Name)
    requires |ss| == |es| + 1
    ensures DeltaSum(ss, es, n) == ForeignPosts(ss, es, n) - LostInstances(ss, es, n)
    decreases |es|
  {
    if es != [] { DeltaSplit(ss[1..], es[1..], n); }
  }

  lemma RunSuffix(ss: seq<State>, es: seq<Event>, a: nat)
    requires Run(ss, es) && a <= |es|
    ensures Run(ss[a..], es[a..])
  {
    hide Step;
    forall j | 0 <= j < |es| - a ensures Step(ss[a..][j], es[a..][j], ss[a..][j + 1]) {
      assert Step(ss[a + j], es[a + j], ss[a + j + 1]);
    }
  }

  /** In a careful run from the start only semaphores of the system are retained. */
  lemma {:induction false} CarefulNoStale(ss: seq<State>, es: seq<Event>, degree: nat, devices: set<Device>, i: nat)
    requires CarefulRun(ss, es) && ss[0] == Initial(degree, devices) && i < |ss|
    ensures NoStale(ss[i])
    decreases i
  {
    hide Step, Careful;
    if i > 0 {
      CarefulNoStale(ss, es, degree, devices, i - 1);
      assert Step(ss[i - 1], es[i - 1], ss[i - 1 + 1]) && Careful(ss[i - 1], es[i - 1]);
      forall p, n | Retains(ss[i], p, n) ensures n in ss[i].sems {
        HeldStaysListed(ss[i - 1], es[i - 1], ss[i], p, n);
      }
    }
  }

  /** A step that brings n into the system opens its books with the initial value. */
  lemma Opening(s: State, e: Event, t: State, n: Name)
    requires Step(s, e, t) && NoStale(s) && n !in s.sems && n in t.sems
    ensures e.InitCall? && e.n == n && Books(t, n) == e.v
  {
    StepSems(s, e, t, n);
    hide Step;
    InitOpensBooks(s, n, e.v);
  }

  /** Since n was last created: its value, its waiters, what is retained and what was lost add
      up to its initial value and the posts by non-holders. */
  lemma InstancesConserved(ss: seq<State>, es: seq<Event>, degree: nat, devices: set<Device>, a: nat, n: Name)
    requires CarefulRun(ss, es) && ss[0] == Initial(degree, devices)
    requires a < |es| && n !in ss[a].sems && forall j :: a < j < |ss| ==> n in ss[j].sems
    ensures es[a].InitCall? && es[a].n == n
    ensures Books(ss[|es|], n) + LostInstances(ss[a + 1..], es[a + 1..], n)
         == es[a].v + ForeignPosts(ss[a + 1..], es[a + 1..], n)
  {
    hide Step, Books, Careful;
    CarefulNoStale(ss, es, degree, devices, a);
    assert Step(ss[a], es[a], ss[a + 1]);
    Opening(ss[a], es[a], ss[a + 1], n);
    RunSuffix(ss, es, a + 1);
    var ts, fs := ss[a + 1..], es[a + 1..];
    assert forall i :: 0 <= i < |ts| ==> ts[i] == ss[a + 1 + i];
    RunConserves(ts, fs, n);
    DeltaSplit(ts, fs, n);
  }
}

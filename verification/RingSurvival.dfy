/** Which circular waits a recovery ends, with no assumption on how semaphores are used. */
module RingSurvival {
  import opened Lists
  import opened KernelState
  import opened Steps
  import opened DeadlockGraph
  import opened Recovery
  import opened Detection
  import opened DetectionTheorems
  import opened RecoveryQueues

  function FirstOf(q: seq<Pid>, k: nat): seq<Pid> { q[..if k < |q| then k else |q|] }

  lemma FirstAndMore(q: seq<Pid>, k: nat)
    requires q != [] && k > 0
    ensures [q[0]] + FirstOf(q[1..], k - 1) == FirstOf(q, k)
  {
    var m := if k < |q| then k else |q|;
    assert q[..m] == [q[0]] + q[1..][..m - 1];
  }

  // ------------------------------------------------------------ how many are woken

  lemma PostOther(s: State, v: Pid, k: Name, n: Name)
    requires Inv(s, {v}) && v in s.pcbs && k in s.sems
    ensures k != n ==> QueueOf(Post(s, v, k), n) == QueueOf(s, n)
    ensures PostWoken(s, k, n) == if k == n && QueueOf(s, n) != [] then [QueueOf(s, n)[0]] else []
    ensures k == n ==> QueueOf(Post(s, v, k), n) == if QueueOf(s, n) == [] then [] else QueueOf(s, n)[1..]
  {
    hide Inv, Post;
    PostQueue(s, v, k, n, {v});
  }

  /** Posting n as often as v retains it wakes as many, if there are as many, from the front. */
  lemma {:induction false} TimesWakesFirst(s: State, v: Pid, k: Name, c: nat, n: Name)
    requires Inv(s, {v}) && v in s.pcbs && k in s.sems && c == Count(s, v, k)
    ensures TimesWoken(s, v, k, c, n) == if k == n then FirstOf(QueueOf(s, n), c) else []
    decreases c
  {
    hide Inv, Post, Freed, SuspensionCase, QueueOf, PostWoken;
    if c > 0 {
      CountPositive(s, v, k, {v});
      HolderPost(s, v, k);
      hide Count;
      PostOther(s, v, k, n);
      TimesWakesFirst(Post(s, v, k), v, k, c - 1, n);
      if k == n && QueueOf(s, n) != [] {
        FirstAndMore(QueueOf(s, n), c);
      }
    }
  }

  lemma OtherCount(s: State, t: State, v: Pid, k: Name, n: Name)
    requires v in s.pcbs && v in t.pcbs && t.pcbs[v].held == s.pcbs[v].held - {k} && n != k
    ensures Count(t, v, n) == Count(s, v, n)
  {
  }

  lemma CountNone(s: State, v: Pid, n: Name)
    requires !Retains(s, v, n)
    ensures Count(s, v, n) == 0
  {
  }

  /** The releases of n happen once, at its place in the list. */
  lemma {:induction false} ReleaseWakesFirst(s: State, v: Pid, i: nat, n: Name)
    requires Inv(s, {v}) && v in s.pcbs && i <= |s.names| && (forall k :: k in s.names ==> k in s.sems)
    requires NoDup(s.names)
    ensures ReleaseWoken(s, v, i, n) == if n in s.names[i..] then FirstOf(QueueOf(s, n), Count(s, v, n)) else []
    decreases |s.names| - i
  {
    hide Inv, PostTimes, QueueOf, TimesWoken, Count, Freed, SuspensionCase;
    if i < |s.names| {
      var k := s.names[i];
      assert s.names[i..] == [k] + s.names[i + 1..];
      assert k !in s.names[i + 1..];
      if Retains(s, v, k) {
        var t := PostTimes(s, v, k, Count(s, v, k));
        PostTimesFreed(s, v, k, Count(s, v, k));
        SameNames(s, t, v);
        TimesWakesFirst(s, v, k, Count(s, v, k), n);
        TimesQueue(s, v, k, Count(s, v, k), n);
        ReleaseWakesFirst(t, v, i + 1, n);
        if n != k { OtherCount(s, t, v, k, n); }
      } else {
        CountNone(s, v, k);
        ReleaseWakesFirst(s, v, i + 1, n);
      }
    }
  }

  lemma SameNames(s: State, t: State, v: Pid)
    requires Freed(s, t, v)
    ensures t.names == s.names && v in t.pcbs
  {
  }

  // ------------------------------------------------------------- whom a recovery wakes

  /** The waiters on n that the recovery wakes: as many as the victim retains instances, the
      victim itself not counted, from the front of the queue. */
  ghost function GivenTo(s: State, v: Pid, n: Name): seq<Pid> {
    FirstOf(Without(QueueOf(s, n), {v}), Count(s, v, n))
  }

  lemma ListedNames(s: State)
    requires Inv(s, {})
    ensures NoDup(s.names) && forall n :: n in s.names <==> n in s.sems
  {
    hide Placed, Linked, IoQueued, Positive, Counted, TokensMatch, SlotsMatch, PidsBelow, NoDup;
  }

  /** A recovery wakes exactly those, in that order, and leaves the rest of the queue as it is. */
  lemma RecoverWakes(s: State, n: Name)
    requires Good(s) && DeadlockFound(Residual(s))
    ensures Without(QueueOf(s, n), {Victim(s)}) == GivenTo(s, Victim(s), n) + QueueOf(Recover(s), n)
  {
    hide Inv, Residual, Detach, SuspensionCase, RecoverFrom, Without, NoDup, FirstOf, Count, QueueOf;
    var v := Victim(s);
    VictimLives(s);
    ListedNames(s);
    var j := VictimWaits(s);
    RecoverQueue(s, n);
    DetachInv(s, v);
    DetachQueue(s, v, n);
    var d := Detach(s, v);
    ReleaseWakesFirst(d, v, 0, n);
    assert d.names[0..] == d.names;
    SameCount(s, d, v, n);
    if n !in s.names { NoSuchQueue(s, v, n); }
  }

  lemma SameCount(s: State, d: State, v: Pid, n: Name)
    requires d.pcbs == s.pcbs
    ensures Count(d, v, n) == Count(s, v, n)
  {
  }

  lemma NoSuchQueue(s: State, v: Pid, n: Name)
    requires n !in s.sems
    ensures GivenTo(s, v, n) == []
  {
  }

  // ---------------------------------------------------------------- which rings end

  /** The recovery neither kills nor wakes a process of c. */
  ghost predicate Spared(s: State, v: Pid, c: seq<Pid>) {
    forall p :: p in c ==> p != v && Waiting(s, p) && p !in GivenTo(s, v, s.pcbs[p].waitsOn.value)
  }

  lemma RingWaits(s: State, c: seq<Pid>)
    requires CircularWait(s, c)
    ensures forall p :: p in c ==> Waiting(s, p)
  {
    forall p | p in c ensures Waiting(s, p) {
      var q, r := Neighbours(GraphOf(s), c, p);
    }
  }

  /** A waiter that is neither killed nor woken is as it was. */
  lemma SparedSame(s: State, p: Pid)
    requires Good(s) && DeadlockFound(Residual(s)) && Waiting(s, p) && p != Victim(s)
    requires p !in GivenTo(s, Victim(s), s.pcbs[p].waitsOn.value)
    ensures SamePcb(Recover(s), s, p)
  {
    hide Inv, Residual, Recover, SuspensionCase, NoDup, Filter, GivenTo, SameInitials;
    var n := s.pcbs[p].waitsOn.value;
    RecoverInv(s);
    WaitsListed(s, p);
    QueueFacts(s, n);
    QueueFacts(Recover(s), n);
    RecoverWakes(s, n);
    FilterMembers(QueueOf(s, n), NotIn({Victim(s)}));
    assert p in Without(QueueOf(s, n), {Victim(s)});
    assert p in QueueOf(Recover(s), n);
  }

  /** A waiter that is killed or woken is no waiter afterwards. */
  lemma WokenIsAwake(s: State, p: Pid)
    requires Good(s) && DeadlockFound(Residual(s)) && Waiting(s, p) && Waiting(Recover(s), p)
    ensures p != Victim(s) && p !in GivenTo(s, Victim(s), s.pcbs[p].waitsOn.value)
  {
    hide Inv, Residual, Recover, SuspensionCase, GivenTo, SameInitials, Without;
    var n := s.pcbs[p].waitsOn.value;
    RecoverInv(s);
    RecoverWakes(s, n);
    if p in GivenTo(s, Victim(s), n) {
      WokenAwake(s, n, GivenTo(s, Victim(s), n), p);
      assert false;
    }
  }

  /** A recovery leaves a circular wait if and only if the victim is not on it and none of its
      processes is among the first waiters that the victim's instances go to. */
  lemma RingSurvives(s: State, c: seq<Pid>)
    requires Good(s) && DeadlockFound(Residual(s)) && CircularWait(s, c)
    ensures CircularWait(Recover(s), c) <==> Spared(s, Victim(s), c)
  {
    hide Good, Residual, Recover, CircularWait, GivenTo;
    RingWaits(s, c);
    if Spared(s, Victim(s), c) {
      forall p | p in c ensures SamePcb(Recover(s), s, p) { SparedSame(s, p); }
      SameEdges(Recover(s), s, c);
    }
    if CircularWait(Recover(s), c) {
      RingWaits(Recover(s), c);
      forall p | p in c ensures p != Victim(s) && p !in GivenTo(s, Victim(s), s.pcbs[p].waitsOn.value) {
        WokenIsAwake(s, p);
      }
    }
  }
}

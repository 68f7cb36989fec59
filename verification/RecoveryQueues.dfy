/** What posts, recoveries and whole detection calls do to the queue of a semaphore. */
module RecoveryQueues {
  import opened Lists
  import opened KernelState
  import opened Steps
  import opened StepInvariants
  import opened DeadlockGraph
  import opened Recovery
  import opened Detection
  import opened DetectionTheorems

  // ------------------------------------------------------------- whom posts wake

  /** A post on k wakes the head of k's queue. */
  ghost function PostWoken(s: State, k: Name, n: Name): seq<Pid> {
    if k == n && n in s.sems && s.sems[n].queue != [] then [s.sems[n].queue[0]] else []
  }

  ghost function TimesWoken(s: State, v: Pid, k: Name, c: nat, n: Name): seq<Pid>
    requires v in s.pcbs && k in s.sems
    decreases c
  {
    if c == 0 then [] else PostWoken(s, k, n) + TimesWoken(Post(s, v, k), v, k, c - 1, n)
  }

  /** The processes that the recovery wakes on n from position i of the system's list on. */
  ghost function ReleaseWoken(s: State, v: Pid, i: nat, n: Name): seq<Pid>
    requires v in s.pcbs && i <= |s.names| && forall k :: k in s.names ==> k in s.sems
    decreases |s.names| - i
  {
    if i == |s.names| then []
    else
      var k := s.names[i];
      if Retains(s, v, k) then
        TimesWoken(s, v, k, Count(s, v, k), n)
        + ReleaseWoken(PostTimes(s, v, k, Count(s, v, k)), v, i + 1, n)
      else ReleaseWoken(s, v, i + 1, n)
  }

  ghost function DetectWoken(s: State, n: Name): seq<Pid>
    requires Good(s)
    decreases |s.Q(Blocked)| + |s.Q(SusBlocked)|
  {
    if DeadlockFound(Residual(s)) then
      RecoverInv(s);
      VictimLives(s);
      ReleaseWoken(Detach(s, Victim(s)), Victim(s), 0, n) + DetectWoken(Recover(s), n)
    else []
  }

  ghost function QueueOf(s: State, n: Name): seq<Pid> { if n in s.sems then s.sems[n].queue else [] }

  function NotIn(gone: set<Pid>): Pid -> bool { (p: Pid) => p !in gone }

  function Without(q: seq<Pid>, gone: set<Pid>): seq<Pid> { Filter(q, NotIn(gone)) }

  // ------------------------------------------------------------------ posts

  lemma PostQueue(s: State, v: Pid, k: Name, n: Name, gone: set<Pid>)
    requires Inv(s, gone) && v in s.pcbs && k in s.sems
    ensures QueueOf(s, n) == PostWoken(s, k, n) + QueueOf(Post(s, v, k), n)
  {
    hide Inv;
    if s.sems[k].queue != [] {
      hide Post;
      PostShape(s, v, k, gone);
    }
  }

  lemma {:induction false} TimesQueue(s: State, v: Pid, k: Name, c: nat, n: Name)
    requires Inv(s, {v}) && v in s.pcbs && k in s.sems && c == Count(s, v, k)
    ensures QueueOf(s, n) == TimesWoken(s, v, k, c, n) + QueueOf(PostTimes(s, v, k, c), n)
    decreases c
  {
    hide Inv, Post, Freed, SuspensionCase, QueueOf, PostWoken;
    if c > 0 {
      CountPositive(s, v, k, {v});
      HolderPost(s, v, k);
      hide Count;
      PostQueue(s, v, k, n, {v});
      TimesQueue(Post(s, v, k), v, k, c - 1, n);
    }
  }

  lemma {:induction false} ReleaseQueue(s: State, v: Pid, i: nat, n: Name)
    requires Inv(s, {v}) && v in s.pcbs && i <= |s.names| && forall k :: k in s.names ==> k in s.sems
    ensures QueueOf(s, n) == ReleaseWoken(s, v, i, n) + QueueOf(RecoverFrom(s, v, i, true), n)
    decreases |s.names| - i
  {
    hide Inv, PostTimes, QueueOf, TimesWoken;
    if i < |s.names| {
      var k := s.names[i];
      if Retains(s, v, k) {
        PostTimesFreed(s, v, k, Count(s, v, k));
        TimesQueue(s, v, k, Count(s, v, k), n);
        ReleaseQueue(PostTimes(s, v, k, Count(s, v, k)), v, i + 1, n);
      } else {
        ReleaseQueue(s, v, i + 1, n);
      }
    }
  }

  // --------------------------------------------------------------- recovery

  lemma {:induction false} RemoveIsWithout(q: seq<Pid>, v: Pid)
    requires NoDup(q)
    ensures Remove(q, v) == Without(q, {v})
  {
    if q != [] {
      RemoveIsWithout(q[1..], v);
      if q[0] == v {
        assert v !in q[1..];
        FilterAll(q[1..], NotIn({v}));
      }
    }
  }

  lemma {:induction false} FilterAll<T>(q: seq<T>, keep: T -> bool)
    requires forall x :: x in q ==> keep(x)
    ensures Filter(q, keep) == q
  {
    if q != [] {
      FilterAll(q[1..], keep);
      assert q[0] in q && q == [q[0]] + q[1..];
    }
  }

  lemma QueueFacts(s: State, n: Name)
    requires Inv(s, {})
    ensures NoDup(QueueOf(s, n)) && forall p :: p in QueueOf(s, n) <==> n in s.sems && WaitsFor(s, p, n)
  {
    hide Placed, IoQueued, Listed, Positive, Counted, TokensMatch, SlotsMatch, PidsBelow, NoDup;
    if n !in s.sems { assert NoDup(QueueOf(s, n)) by { EmptyNoDup(); } }
  }

  lemma EmptyNoDup()
    ensures NoDup<Pid>([])
  {
  }

  lemma DetachQueue(s: State, v: Pid, n: Name)
    requires Inv(s, {}) && Waiting(s, v)
    ensures QueueOf(Detach(s, v), n) == Without(QueueOf(s, n), {v})
  {
    hide Inv, NoDup, Remove, Filter;
    SleeperFacts(s, v);
    DetachShape(s, v);
    QueueFacts(s, n);
    hide Detach;
    RemoveIsWithout(QueueOf(s, n), v);
    if n != s.pcbs[v].waitsOn.value {
      assert v !in QueueOf(s, n);
      FilterAll(QueueOf(s, n), NotIn({v}));
    }
  }

  /** One recovery on one queue: the victim is left out, a prefix of the rest is woken. */
  lemma RecoverQueue(s: State, n: Name)
    requires Good(s) && DeadlockFound(Residual(s)) && Victim(s) in s.pcbs
    requires forall k :: k in s.names ==> k in s.sems
    ensures Without(QueueOf(s, n), {Victim(s)})
         == ReleaseWoken(Detach(s, Victim(s)), Victim(s), 0, n) + QueueOf(Recover(s), n)
  {
    hide Inv, Residual, Detach, SuspensionCase, RecoverFrom, ReleaseWoken, Without;
    var v := Victim(s);
    var j := VictimWaits(s);
    DetachedFirst(s, v, 0, j);
    DetachInv(s, v);
    DetachQueue(s, v, n);
    ReleaseQueue(Detach(s, v), v, 0, n);
  }

  lemma {:induction false} WithoutAppend(a: seq<Pid>, b: seq<Pid>, x: set<Pid>)
    ensures Without(a + b, x) == Without(a, x) + Without(b, x)
  {
    FilterAppend(a, b, NotIn(x));
  }

  lemma WithoutUnion(q: seq<Pid>, x: set<Pid>, y: set<Pid>)
    ensures Without(Without(q, x), y) == Without(q, x + y)
  {
    FilterTwice(q, NotIn(x), NotIn(y), NotIn(x + y));
  }

  lemma AppendNoDup(a: seq<Pid>, b: seq<Pid>)
    requires NoDup(a + b)
    ensures forall x :: x in a ==> x !in b
  {
    forall i, j | 0 <= i < |a| && 0 <= j < |b| ensures a[i] != b[j] {
      assert (a + b)[i] != (a + b)[|a| + j];
    }
  }

  /** Whoever a recovery wakes waits for nothing afterwards. */
  lemma WokenAwake(s: State, n: Name, w: seq<Pid>, p: Pid)
    requires Good(s) && DeadlockFound(Residual(s)) && Victim(s) in s.pcbs
    requires Without(QueueOf(s, n), {Victim(s)}) == w + QueueOf(Recover(s), n) && p in w
    ensures !Waiting(Recover(s), p)
  {
    hide Inv, Residual, Recover, SuspensionCase, NoDup, Filter;
    RecoverInv(s);
    QueueFacts(s, n);
    QueueFacts(Recover(s), n);
    FilterNoDup(QueueOf(s, n), NotIn({Victim(s)}));
    FilterMembers(QueueOf(s, n), NotIn({Victim(s)}));
    AppendNoDup(w, QueueOf(Recover(s), n));
    assert p in w + QueueOf(Recover(s), n);
  }

  /** A detection call on one queue: the victims are left out, a prefix of the rest is woken
      in order, and what remains keeps its order. */
  lemma {:induction false} DetectQueue(s: State, n: Name)
    requires Good(s)
    ensures Without(QueueOf(s, n), Victims(s)) == DetectWoken(s, n) + QueueOf(Detect(s), n)
    decreases |s.Q(Blocked)| + |s.Q(SusBlocked)|
  {
    hide Inv, SuspensionCase, Residual, Recover, Detach, ReleaseWoken, QueueOf, Without;
    if DeadlockFound(Residual(s)) {
      var v, t := Victim(s), Recover(s);
      RecoverInv(s);
      VictimLives(s);
      RecoverQueue(s, n);
      var w := ReleaseWoken(Detach(s, v), v, 0, n);
      DetectQueue(t, n);
      DetectEndsDeadlock(t);
      forall p | p in w ensures p !in Victims(t) { WokenAwake(s, n, w, p); }
      assert Without(w, Victims(t)) == w by { NoneOf(w, Victims(t)); }
      WithoutAppend(w, QueueOf(t, n), Victims(t));
      WithoutUnion(QueueOf(s, n), {v}, Victims(t));
    } else {
      NoneOf(QueueOf(s, n), {});
    }
  }

  lemma NoneOf(q: seq<Pid>, gone: set<Pid>)
    requires forall p :: p in q ==> p !in gone
    ensures Without(q, gone) == q
  {
    FilterAll(q, NotIn(gone));
  }
}

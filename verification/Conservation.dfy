/** Instances of a semaphore: those free, owed to waiters and retained add up. */
module Conservation {
  import opened Wrappers
  import opened KernelState
  import opened Steps
  import opened StepInvariants
  import opened DeadlockGraph
  import opened Recovery
  import opened Detection

  function HeldBy(b: Pcb, n: Name): int { if n in b.held then b.held[n] else 0 }

  /** Instances of n retained by the processes of m. */
  ghost function HeldTotal(m: map<Pid, Pcb>, n: Name): int
    decreases |m|
  {
    if m.Keys == {} then 0
    else
      var p :| p in m.Keys;
      assert (m - {p}).Keys == m.Keys - {p};
      HeldBy(m[p], n) + HeldTotal(m - {p}, n)
  }

  /** What the semaphore's value, its waiters and its holders account for. */
  ghost function Books(s: State, n: Name): int
    requires n in s.sems
  {
    s.sems[n].value + |s.sems[n].queue| + HeldTotal(s.pcbs, n)
  }

  // ------------------------------------------------------------------ the sum

  /** Any process may be counted first. */
  lemma {:induction false} HeldSplit(m: map<Pid, Pcb>, p: Pid, n: Name)
    requires p in m
    ensures HeldTotal(m, n) == HeldBy(m[p], n) + HeldTotal(m - {p}, n)
    decreases |m|
  {
    var q :| q in m.Keys && HeldTotal(m, n) == HeldBy(m[q], n) + HeldTotal(m - {q}, n);
    if q != p {
      var a, b := m - {q}, m - {p};
      assert a.Keys == m.Keys - {q};
      assert a - {p} == b - {q};
      assert |a| < |m| && |b| < |m| by { assert b.Keys == m.Keys - {p}; }
      HeldSplit(a, p, n);
      HeldSplit(b, q, n);
    }
  }

  lemma HeldUpdate(m: map<Pid, Pcb>, p: Pid, b: Pcb, n: Name)
    ensures HeldTotal(m[p := b], n) ==
            HeldTotal(m, n) + HeldBy(b, n) - (if p in m then HeldBy(m[p], n) else 0)
  {
    var u := m[p := b];
    HeldSplit(u, p, n);
    if p in m {
      HeldSplit(m, p, n);
      assert u - {p} == m - {p};
    } else {
      assert u - {p} == m;
    }
  }

  lemma HeldRemove(m: map<Pid, Pcb>, p: Pid, n: Name)
    requires p in m
    ensures HeldTotal(m - {p}, n) == HeldTotal(m, n) - HeldBy(m[p], n)
  {
    HeldSplit(m, p, n);
  }

  lemma {:induction false} HeldNonNegative(m: map<Pid, Pcb>, n: Name)
    requires forall p :: p in m ==> HeldBy(m[p], n) >= 0
    ensures HeldTotal(m, n) >= 0
    decreases |m|
  {
    if m.Keys != {} {
      var p :| p in m.Keys;
      assert (m - {p}).Keys == m.Keys - {p};
      HeldSplit(m, p, n);
      HeldNonNegative(m - {p}, n);
    }
  }

  lemma SetStatusHeld(m: map<Pid, Pcb>, p: Pid, st: Status, n: Name)
    ensures HeldTotal(SetStatus(m, p, st), n) == HeldTotal(m, n)
  {
    if p in m { HeldUpdate(m, p, m[p].(status := st), n); }
  }

  // ------------------------------------------------------------------ the steps

  /** A post by a holder moves an instance, by anybody else makes one. */
  lemma PostBooks(s: State, p: Pid, n: Name, k: Name, gone: set<Pid>)
    requires Inv(s, gone) && p in s.pcbs && n in s.sems && k in s.sems
    ensures Books(Post(s, p, n), k) == Books(s, k) + if k == n && !Retains(s, p, n) then 1 else 0
  {
    hide Inv, Post, Release, Retain, Shift;
    var t := GiveBack(s, p, n);
    HeldUpdate(s.pcbs, p, Release(s.pcbs[p], n), k);
    HeldReleased(s.pcbs[p], n, k);
    if s.sems[n].queue != [] {
      PostShape(s, p, n, gone);
      var h := s.sems[n].queue[0];
      var b := Pcb(WokenStatus(s.pcbs[h].status), None, t.pcbs[h].held);
      HeldUpdate(t.pcbs, h, Retain(b, n), k);
      HeldRetained(b, n, k);
    } else {
      PostAlone(s, p, n);
    }
  }

  lemma HeldReleased(b: Pcb, n: Name, k: Name)
    ensures HeldBy(Release(b, n), k) == HeldBy(b, k) - if k == n && n in b.held then 1 else 0
  {
  }

  lemma HeldRetained(b: Pcb, n: Name, k: Name)
    ensures HeldBy(Retain(b, n), k) == HeldBy(b, k) + if k == n then 1 else 0
  {
  }

  lemma {:induction false} PostTimesBooks(s: State, v: Pid, n: Name, c: nat, k: Name)
    requires Inv(s, {v}) && v in s.pcbs && n in s.sems && c == Count(s, v, n) && k in s.sems
    ensures Books(PostTimes(s, v, n, c), k) == Books(s, k)
    decreases c
  {
    hide Inv, Post, Release, Books, Freed, SuspensionCase;
    CountPositive(s, v, n, {v});
    if c > 0 {
      HolderPost(s, v, n);
      hide Count;
      PostBooks(s, v, n, k, {v});
      PostTimesBooks(Post(s, v, n), v, n, c - 1, k);
    }
  }

  lemma {:induction false} ReleasesBooks(s: State, v: Pid, i: nat, k: Name)
    requires Inv(s, {v}) && v in s.pcbs && i <= |s.names| && (forall n :: n in s.names ==> n in s.sems) && k in s.sems
    ensures k in RecoverFrom(s, v, i, true).sems
    ensures Books(RecoverFrom(s, v, i, true), k) == Books(s, k)
    decreases |s.names| - i
  {
    hide Inv, PostTimes, Books;
    if i < |s.names| {
      var n := s.names[i];
      if Retains(s, v, n) {
        PostTimesFreed(s, v, n, Count(s, v, n));
        PostTimesBooks(s, v, n, Count(s, v, n), k);
        ReleasesBooks(PostTimes(s, v, n, Count(s, v, n)), v, i + 1, k);
      } else {
        ReleasesBooks(s, v, i + 1, k);
      }
    }
  }

  lemma DetachBooks(s: State, v: Pid, k: Name)
    requires Inv(s, {}) && Waiting(s, v) && k in s.sems
    ensures Books(Detach(s, v), k) == Books(s, k)
  {
    SleeperFacts(s, v);
    DetachShape(s, v);
    hide Inv, Detach;
  }

  lemma DestroyBooks(s: State, v: Pid, k: Name)
    requires v in s.pcbs && k in s.sems && !Retains(s, v, k)
    ensures Books(Destroy(s, v), k) == Books(s, k)
  {
    HeldRemove(s.pcbs, v, k);
  }

  /** Recovery neither loses nor makes an instance of a system semaphore. */
  lemma RecoverBooks(s: State, k: Name)
    requires Good(s) && DeadlockFound(Residual(s)) && k in s.sems
    ensures k in Recover(s).sems && Books(Recover(s), k) == Books(s, k)
  {
    hide Inv, Residual, Detach, RecoverFrom, SuspensionCase, Books;
    var v := Victim(s);
    RecoverInv(s);
    var j := VictimWaits(s);
    DetachedFirst(s, v, 0, j);
    DetachInv(s, v);
    DetachBooks(s, v, k);
    ReleasesBooks(Detach(s, v), v, 0, k);
    DestroyBooks(RecoverFrom(s, v, 0, false), v, k);
  }

  lemma {:induction false} DetectBooks(s: State, k: Name)
    requires Good(s) && k in s.sems
    ensures k in Detect(s).sems && Books(Detect(s), k) == Books(s, k)
    decreases |s.Q(Blocked)| + |s.Q(SusBlocked)|
  {
    hide Inv, SuspensionCase, Residual, Recover, Books;
    if DeadlockFound(Residual(s)) {
      RecoverInv(s);
      RecoverBooks(s, k);
      DetectBooks(Recover(s), k);
    }
  }

  lemma EvaluateBooks(s: State, k: Name)
    requires k in s.sems
    ensures k in Evaluate(s).sems && Books(Evaluate(s), k) == Books(s, k)
  {
    if SuspensionCase(s) {
      SetStatusHeld(s.pcbs, s.Q(Blocked)[|s.Q(Blocked)| - 1], SusBlocked, k);
    }
  }

  /** A wait takes a free instance or joins the queue. */
  lemma WaitBooks(s: State, p: Pid, n: Name, k: Name)
    requires p in s.pcbs && n in s.sems && k in s.sems
    ensures k in Wait(s, p, n).sems && Books(Wait(s, p, n), k) == Books(s, k)
  {
    var m := s.sems[n].(value := s.sems[n].value - 1);
    if m.value < 0 {
      var t := Sleep(s, p, n, m);
      HeldUpdate(s.pcbs, p, Pcb(Blocked, Some(n), s.pcbs[p].held), k);
      assert t.pcbs == s.pcbs[p := Pcb(Blocked, Some(n), s.pcbs[p].held)];
      EvaluateBooks(t, k);
    } else {
      HeldUpdate(s.pcbs, p, Retain(s.pcbs[p], n), k);
    }
  }

  // ----------------------------------------------------- at most one instance

  lemma HeldPair(m: map<Pid, Pcb>, n: Name, p: Pid, q: Pid)
    requires p in m && q in m && p != q
    requires forall x :: x in m ==> HeldBy(m[x], n) >= 0
    ensures HeldTotal(m, n) >= HeldBy(m[p], n) + HeldBy(m[q], n)
  {
    HeldSplit(m, p, n);
    HeldSplit(m - {p}, q, n);
    HeldNonNegative(m - {p} - {q}, n);
  }

  lemma HeldOne(m: map<Pid, Pcb>, n: Name, p: Pid)
    requires p in m
    requires forall x :: x in m ==> HeldBy(m[x], n) >= 0
    ensures HeldTotal(m, n) >= HeldBy(m[p], n)
  {
    HeldSplit(m, p, n);
    HeldNonNegative(m - {p}, n);
  }

  lemma PositiveHeld(s: State, n: Name)
    requires Positive(s)
    ensures forall p :: p in s.pcbs ==> HeldBy(s.pcbs[p], n) >= 0
    ensures forall p :: Retains(s, p, n) ==> HeldBy(s.pcbs[p], n) >= 1
  {
    assert forall p :: Retains(s, p, n) <==> p in s.pcbs && n in s.pcbs[p].held;
  }

  /** Books of at most one, over a semaphore that began non-negative, leave one holder at most. */
  lemma OneHolderOnly(s: State, n: Name, p: Pid, q: Pid)
    requires Inv(s, {}) && n in s.sems && s.sems[n].initial >= 0 && Books(s, n) <= 1
    requires Retains(s, p, n) && Retains(s, q, n)
    ensures p == q && s.pcbs[p].held[n] == 1
  {
    hide Placed, Linked, IoQueued, Listed, TokensMatch, SlotsMatch, PidsBelow;
    assert SemLaw(s.sems[n]);
    PositiveHeld(s, n);
    hide Positive, Counted;
    HeldOne(s.pcbs, n, p);
    if p != q { HeldPair(s.pcbs, n, p, q); }
  }
}

/** What a detection call achieves, in terms of circular waits. */
module DetectionTheorems {
  import opened Lists
  import opened KernelState
  import opened DeadlockGraph
  import opened Recovery
  import opened Detection

  // --------------------------------------------------- waits that come and go

  ghost predicate SamePcb(s: State, t: State, p: Pid) {
    && p in s.pcbs && p in t.pcbs
    && s.pcbs[p].waitsOn == t.pcbs[p].waitsOn && s.pcbs[p].held.Keys == t.pcbs[p].held.Keys
  }

  /** Every process that waits in t waited for the same in s and retained the same. */
  ghost predicate OnlyWakes(s: State, t: State) {
    forall p :: Waiting(t, p) ==> SamePcb(s, t, p)
  }

  /** A step that lets nobody begin to wait creates no circular wait. */
  lemma NoNewCircular(s: State, t: State, c: seq<Pid>)
    requires OnlyWakes(s, t) && CircularWait(t, c)
    ensures CircularWait(s, c)
  {
    assert forall p :: p in c ==> Waiting(t, p) by {
      forall p | p in c ensures Waiting(t, p) {
        var q, r := Neighbours(GraphOf(t), c, p);
      }
    }
    SameEdges(s, t, c);
  }

  lemma SameEdges(s: State, t: State, c: seq<Pid>)
    requires CircularWait(t, c)
    requires forall p :: p in c ==> SamePcb(s, t, p)
    ensures CircularWait(s, c)
  {
    forall i | 0 <= i < |c| - 1 ensures Edge(GraphOf(s), c[i], c[i + 1]) {
      assert c[i] in c && c[i + 1] in c && Edge(GraphOf(t), c[i], c[i + 1]);
    }
    assert c[0] in c && c[|c| - 1] in c;
  }

  /** No recovery creates a circular wait. */
  lemma RecoveryCreatesNone(s: State, c: seq<Pid>)
    requires Good(s) && DeadlockFound(Residual(s)) && CircularWait(Recover(s), c)
    ensures CircularWait(s, c)
  {
    hide Good, Residual, CircularWait, Recover;
    RecoverInv(s);
    NoNewCircular(s, Recover(s), c);
  }

  /** A detection call ends in a good state without circular waits; it kills somebody exactly
      when there was one, and otherwise changes nothing. */
  lemma {:induction false} DetectEndsDeadlock(s: State)
    requires Good(s)
    ensures Good(Detect(s))
    ensures !exists c :: CircularWait(Detect(s), c)
    ensures Victims(s) != {} <==> exists c :: CircularWait(s, c)
    ensures Victims(s) == {} ==> Detect(s) == s
    ensures Detect(s).pcbs.Keys == s.pcbs.Keys - Victims(s) && Victims(s) <= s.pcbs.Keys
    ensures forall p :: p in Victims(s) ==> Waiting(s, p)
    ensures OnlyWakes(s, Detect(s)) && SameInitials(s, Detect(s))
    decreases |s.Q(Blocked)| + |s.Q(SusBlocked)|
  {
    hide Inv, SuspensionCase, Residual, CircularWait, Recover;
    FoundIffCircular(s);
    if DeadlockFound(Residual(s)) {
      RecoverInv(s);
      var t := Recover(s);
      DetectEndsDeadlock(t);
      assert OnlyWakes(s, t);
      assert Victim(s) !in t.pcbs;
    }
  }

  /** Whatever is retained after a detection call was retained before by the same process, or
      is an instance of a system semaphore. */
  lemma {:induction false} DetectHoldings(s: State, p: Pid, n: Name)
    requires Good(s) && Retains(Detect(s), p, n)
    ensures Retains(s, p, n) || n in s.sems
    decreases |s.Q(Blocked)| + |s.Q(SusBlocked)|
  {
    hide Inv, SuspensionCase, Residual, Recover;
    if DeadlockFound(Residual(s)) {
      RecoverInv(s);
      var t := Recover(s);
      DetectHoldings(t, p, n);
      if Retains(t, p, n) && !Retains(s, p, n) {
        assert WokenBy(s, t, Victim(s), p);
        WaitsListed(s, p);
      }
    }
  }

  lemma WaitsListed(s: State, p: Pid)
    requires Inv(s, {}) && Waiting(s, p)
    ensures s.pcbs[p].waitsOn.value in s.sems && Asleep(s.pcbs[p].status)
  {
    hide Placed, IoQueued, Listed, Positive, Counted, TokensMatch, SlotsMatch, PidsBelow, NoDup;
  }
}

/** Every operation keeps the invariant; gone is as in Inv. */
module StepInvariants {
  import opened Wrappers
  import opened Lists
  import opened KernelState
  import opened Steps

  // ------------------------------------------------------------------ queues

  lemma ShiftQueues(s: State, p: Pid, from: Status, to: Status)
    requires from != to
    ensures var t := Shift(s, p, from, to);
      && t.Q(from) == Remove(s.Q(from), p) && t.Q(to) == s.Q(to) + [p]
      && forall st :: st != from && st != to ==> t.Q(st) == s.Q(st)
  {
  }

  lemma MoveNoDup(s: State, t: State, p: Pid, from: Status, to: Status)
    requires forall st :: NoDup(s.Q(st))
    requires p !in s.Q(to) && NoDup(t.Q(from)) && t.Q(to) == s.Q(to) + [p]
    requires forall st :: st != from && st != to ==> t.Q(st) == s.Q(st)
    ensures forall st :: NoDup(t.Q(st))
  {
    forall st ensures NoDup(t.Q(st)) {
      assert NoDup(s.Q(st));
    }
  }

  lemma MoveMember(s: State, t: State, p: Pid, from: Status, to: Status, gone: set<Pid>, st: Status, x: Pid)
    requires forall st, p :: p in s.Q(st) <==> p in s.pcbs && p !in gone && s.pcbs[p].status == st
    requires p in s.Q(from) && from != to
    requires t.pcbs == SetStatus(s.pcbs, p, to)
    requires p !in t.Q(from) && forall y :: y != p ==> (y in t.Q(from) <==> y in s.Q(from))
    requires t.Q(to) == s.Q(to) + [p]
    requires forall st :: st != from && st != to ==> t.Q(st) == s.Q(st)
    ensures x in t.Q(st) <==> x in t.pcbs && x !in gone && t.pcbs[x].status == st
  {
    assert x in s.Q(st) <==> x in s.pcbs && x !in gone && s.pcbs[x].status == st;
  }

  lemma ShiftPlaced(s: State, p: Pid, from: Status, to: Status, gone: set<Pid>)
    requires Placed(s, gone) && p in s.Q(from) && from != to
    ensures Placed(Shift(s, p, from, to), gone)
  {
    var t := Shift(s, p, from, to);
    ShiftQueues(s, p, from, to);
    RemoveNoDup(s.Q(from), p);
    MoveNoDup(s, t, p, from, to);
    forall st, x ensures x in t.Q(st) <==> x in t.pcbs && x !in gone && t.pcbs[x].status == st {
      RemoveKeeps(s.Q(from), p);
      MoveMember(s, t, p, from, to, gone, st, x);
    }
  }

  /** Fields other than the queues and the PCBs do not matter to Placed. */
  lemma SamePlaced(s: State, t: State, gone: set<Pid>)
    requires Placed(s, gone) && t.qs == s.qs
    requires t.pcbs.Keys == s.pcbs.Keys
    requires forall p :: p in s.pcbs ==> t.pcbs[p].status == s.pcbs[p].status
    ensures Placed(t, gone)
  {
    forall st ensures t.Q(st) == s.Q(st) && NoDup(t.Q(st)) {
      assert NoDup(s.Q(st));
    }
    forall st, x ensures x in t.Q(st) <==> x in t.pcbs && x !in gone && t.pcbs[x].status == st {
      assert x in s.Q(st) <==> x in s.pcbs && x !in gone && s.pcbs[x].status == st;
    }
  }

  // -------------------------------------------------------------- suspension

  /** Changes of status that keep everybody's sleep keep the two kinds of waiting queues. */
  lemma SameLinks(s: State, t: State, gone: set<Pid>)
    requires Linked(s, gone) && IoQueued(s, gone)
    requires t.io == s.io && t.pcbs.Keys == s.pcbs.Keys && t.sems.Keys == s.sems.Keys
    requires forall n :: n in s.sems ==> t.sems[n].queue == s.sems[n].queue
    requires forall p :: p in s.pcbs ==>
      t.pcbs[p].waitsOn == s.pcbs[p].waitsOn && (Asleep(t.pcbs[p].status) <==> Asleep(s.pcbs[p].status))
    ensures Linked(t, gone) && IoQueued(t, gone)
  {
    hide OnDevice, DeviceQueues;
    assert forall p :: Waiting(t, p) <==> Waiting(s, p);
    assert forall n, p :: WaitsFor(t, p, n) <==> WaitsFor(s, p, n);
  }

  lemma SameHeld(s: State, t: State)
    requires Positive(s) && PidsBelow(s) && t.nextPid == s.nextPid
    requires t.pcbs.Keys == s.pcbs.Keys
    requires forall p :: p in s.pcbs ==> t.pcbs[p].held == s.pcbs[p].held
    ensures Positive(t) && PidsBelow(t)
  {
    assert forall p, n :: Retains(t, p, n) ==> Retains(s, p, n);
  }

  /** In a queue without repetitions, popping the last process is dequeuing it. */
  lemma {:induction false} RemoveLast(q: seq<Pid>)
    requires NoDup(q) && q != []
    ensures Remove(q, q[|q| - 1]) == q[..|q| - 1]
  {
    if |q| > 1 {
      RemoveLast(q[1..]);
      assert q[..|q| - 1] == [q[0]] + q[1..][..|q| - 2];
    }
  }

  lemma SuspendShape(s: State, p: Pid)
    requires SuspensionCase(s) && NoDup(s.Q(Blocked)) && p == s.Q(Blocked)[|s.Q(Blocked)| - 1]
    ensures Evaluate(s) == Shift(s, p, Blocked, SusBlocked).(slots := s.slots + 1)
  {
    RemoveLast(s.Q(Blocked));
  }

  lemma SuspendPlaced(s: State, gone: set<Pid>)
    requires Placed(s, gone) && SuspensionCase(s)
    ensures var p := s.Q(Blocked)[|s.Q(Blocked)| - 1];
      && p in s.pcbs && s.pcbs[p].status == Blocked
      && Placed(Evaluate(s), gone)
      && Evaluate(s).Q(Blocked) == Remove(s.Q(Blocked), p)
      && Evaluate(s).Q(SusBlocked) == s.Q(SusBlocked) + [p]
      && forall st :: st != Blocked && st != SusBlocked ==> Evaluate(s).Q(st) == s.Q(st)
  {
    var p := s.Q(Blocked)[|s.Q(Blocked)| - 1];
    assert p in s.Q(Blocked);
    SuspendShape(s, p);
    hide Evaluate;
    ShiftPlaced(s, p, Blocked, SusBlocked, gone);
    ShiftQueues(s, p, Blocked, SusBlocked);
    var t := Shift(s, p, Blocked, SusBlocked);
    SamePlaced(t, Evaluate(s), gone);
    assert forall st :: Evaluate(s).Q(st) == t.Q(st);
  }

  lemma SuspendLinks(s: State, gone: set<Pid>)
    requires Placed(s, gone) && Linked(s, gone) && IoQueued(s, gone) && SuspensionCase(s)
    ensures Linked(Evaluate(s), gone) && IoQueued(Evaluate(s), gone)
  {
    hide Linked, IoQueued;
    SuspendPlaced(s, gone);
    hide Placed;
    SameLinks(s, Evaluate(s), gone);
  }

  lemma SuspendHeld(s: State, gone: set<Pid>)
    requires Placed(s, gone) && Positive(s) && PidsBelow(s) && SuspensionCase(s)
    ensures Positive(Evaluate(s)) && PidsBelow(Evaluate(s))
  {
    hide Positive, PidsBelow;
    SuspendPlaced(s, gone);
    hide Placed;
    SameHeld(s, Evaluate(s));
  }

  lemma SuspendCounts(s: State, gone: set<Pid>)
    requires Placed(s, gone) && Listed(s) && Counted(s) && SlotsMatch(s) && SuspensionCase(s)
    ensures Listed(Evaluate(s)) && Counted(Evaluate(s)) && SlotsMatch(Evaluate(s)) && Evaluate(s).slots == 1
    ensures Evaluate(s).tokens == s.tokens
    ensures Evaluate(s).Q(New) == s.Q(New) && Evaluate(s).Q(SusReady) == s.Q(SusReady)
  {
    hide Placed;
    SuspendPlaced(s, gone);
  }

  /** The invariant without the admission tokens, which a step may still have to post. */
  ghost predicate InvButTokens(s: State, gone: set<Pid>) {
    && Placed(s, gone) && Listed(s) && Linked(s, gone) && IoQueued(s, gone) && Positive(s)
    && Counted(s) && SlotsMatch(s) && PidsBelow(s)
  }

  /** Suspension keeps the invariant, and afterwards no suspension is due. */
  lemma EvaluateInv(s: State, gone: set<Pid>)
    requires InvButTokens(s, gone)
    ensures InvButTokens(Evaluate(s), gone) && !SuspensionCase(Evaluate(s))
    ensures Evaluate(s).tokens == s.tokens
    ensures Evaluate(s).Q(New) == s.Q(New) && Evaluate(s).Q(SusReady) == s.Q(SusReady)
  {
    hide Placed, Linked, IoQueued, Positive, PidsBelow, Listed, Counted, SlotsMatch;
    if SuspensionCase(s) {
      SuspendPlaced(s, gone);
      SuspendLinks(s, gone);
      SuspendHeld(s, gone);
      SuspendCounts(s, gone);
    }
  }

  // -------------------------------------------------------------- waking

  function WokenStatus(st: Status): Status { if st == Blocked then Ready else SusReady }

  /** Wake, field by field. */
  lemma WakeShape(s: State, n: Name)
    requires n in s.sems && s.sems[n].queue != [] && s.sems[n].queue[0] in s.pcbs
    requires Asleep(s.pcbs[s.sems[n].queue[0]].status)
    ensures var m := s.sems[n]; var h := m.queue[0]; var st := s.pcbs[h].status; var t := Wake(s, n);
      var to := WokenStatus(st);
      && t.pcbs == s.pcbs[h := Retain(Pcb(to, None, s.pcbs[h].held), n)]
      && t.sems == s.sems[n := m.(queue := m.queue[1..])]
      && t.qs == Shift(s, h, st, to).qs
      && t.tokens == (if st == Blocked then s.tokens else s.tokens + 1)
      && t.names == s.names && t.io == s.io && t.slots == s.slots && t.nextPid == s.nextPid && t.degree == s.degree
  {
  }

  lemma WakePlaced(s: State, n: Name, gone: set<Pid>)
    requires Placed(s, gone)
    requires n in s.sems && s.sems[n].queue != [] && s.sems[n].queue[0] in s.pcbs && s.sems[n].queue[0] !in gone
    requires Asleep(s.pcbs[s.sems[n].queue[0]].status)
    ensures Placed(Wake(s, n), gone)
  {
    var h := s.sems[n].queue[0];
    var st := s.pcbs[h].status;
    var to := WokenStatus(st);
    assert h in s.Q(st);
    hide Placed;
    WakeShape(s, n);
    hide Wake;
    ShiftPlaced(s, h, st, to, gone);
    SamePlaced(Shift(s, h, st, to), Wake(s, n), gone);
  }

  lemma WakeLinked(s: State, n: Name, gone: set<Pid>)
    requires Linked(s, gone)
    requires n in s.sems && s.sems[n].queue != []
    ensures s.sems[n].queue[0] in s.pcbs && s.sems[n].queue[0] !in gone
    ensures Asleep(s.pcbs[s.sems[n].queue[0]].status)
    ensures Linked(Wake(s, n), gone)
  {
    hide Wake, Shift;
    var q := s.sems[n].queue;
    var h := q[0];
    assert h in q;
    assert WaitsFor(s, h, n) && Waiting(s, h);
    WakeShape(s, n);
    var t := Wake(s, n);
    assert q == [h] + q[1..];
    forall k, p | k in t.sems ensures p in t.sems[k].queue <==> WaitsFor(t, p, k) && p !in gone {
      assert p in s.sems[k].queue <==> WaitsFor(s, p, k) && p !in gone;
      if k == n { assert p in q <==> p == h || p in q[1..]; }
    }
    forall p | Waiting(t, p) ensures t.pcbs[p].waitsOn.value in t.sems {
      assert Waiting(s, p);
    }
  }

  /** Only the process h changes, and it is in no device queue before or after. */
  lemma IoFrame(s: State, t: State, h: Pid, gone: set<Pid>, gone': set<Pid>)
    requires IoQueued(s, gone) && t.io == s.io
    requires forall p :: p != h ==> (p in t.pcbs <==> p in s.pcbs)
    requires forall p :: p != h && p in s.pcbs && p in t.pcbs ==>
      t.pcbs[p].waitsOn == s.pcbs[p].waitsOn && (Asleep(t.pcbs[p].status) <==> Asleep(s.pcbs[p].status))
    requires forall p :: p != h ==> (p in gone <==> p in gone')
    requires h in s.pcbs && Asleep(s.pcbs[h].status) ==> Waiting(s, h)
    requires h in t.pcbs && h !in gone' && Asleep(t.pcbs[h].status) ==> Waiting(t, h)
    ensures IoQueued(t, gone')
  {
    hide OnDevice, DeviceQueues;
    forall p ensures OnDevice(t.io, p) <==> p in t.pcbs && p !in gone' && Asleep(t.pcbs[p].status) && !Waiting(t, p) {
      assert OnDevice(s.io, p) <==> p in s.pcbs && p !in gone && Asleep(s.pcbs[p].status) && !Waiting(s, p);
    }
  }

  lemma WakeIo(s: State, n: Name, gone: set<Pid>)
    requires IoQueued(s, gone)
    requires n in s.sems && s.sems[n].queue != [] && s.sems[n].queue[0] in s.pcbs
    requires Waiting(s, s.sems[n].queue[0])
    requires Asleep(s.pcbs[s.sems[n].queue[0]].status)
    ensures IoQueued(Wake(s, n), gone)
  {
    WakeShape(s, n);
    hide Wake, IoQueued;
    IoFrame(s, Wake(s, n), s.sems[n].queue[0], gone, gone);
  }

  /** Only the process h changes, and it waits on no semaphore before or after. */
  lemma LinkedFrame(s: State, t: State, h: Pid, gone: set<Pid>)
    requires Linked(s, gone) && t.sems == s.sems
    requires forall p :: p != h ==> (p in t.pcbs <==> p in s.pcbs)
    requires forall p :: p != h && p in s.pcbs && p in t.pcbs ==>
      t.pcbs[p].waitsOn == s.pcbs[p].waitsOn && (Asleep(t.pcbs[p].status) <==> Asleep(s.pcbs[p].status))
    requires !Waiting(s, h) && !Waiting(t, h)
    ensures Linked(t, gone)
  {
    assert forall p :: Waiting(t, p) <==> Waiting(s, p);
    assert forall n, p :: WaitsFor(t, p, n) <==> WaitsFor(s, p, n);
  }

  lemma HeldFrame(s: State, t: State, h: Pid)
    requires Positive(s) && PidsBelow(s) && s.nextPid <= t.nextPid
    requires forall p :: p != h && p in t.pcbs ==> p in s.pcbs && t.pcbs[p].held == s.pcbs[p].held
    requires h in t.pcbs ==> h < t.nextPid && forall n :: n in t.pcbs[h].held ==> t.pcbs[h].held[n] > 0
    ensures Positive(t) && PidsBelow(t)
  {
    assert forall p, n :: p != h && Retains(t, p, n) ==> Retains(s, p, n);
  }

  // ------------------------------------------------------------------- SEM_POST

  lemma GiveBackKeeps(s: State, p: Pid, n: Name, gone: set<Pid>)
    requires Placed(s, gone) && Linked(s, gone) && IoQueued(s, gone) && p in s.pcbs && n in s.sems
    ensures var t := GiveBack(s, p, n); Placed(t, gone) && Linked(t, gone) && IoQueued(t, gone)
  {
    hide Placed, IoQueued, Linked;
    var t := GiveBack(s, p, n);
    SamePlaced(s, t, gone);
    SameLinks(s, t, gone);
  }

  lemma ReleasePositive(b: Pcb, n: Name)
    requires forall k :: k in b.held ==> b.held[k] > 0
    ensures forall k :: k in Release(b, n).held ==> Release(b, n).held[k] > 0
    ensures forall k :: k in Retain(b, n).held ==> Retain(b, n).held[k] > 0
  {
  }

  /** The case in which a post wakes somebody: the value was negative and somebody waits. */
  lemma PostWakes(s: State, p: Pid, n: Name, gone: set<Pid>)
    requires Inv(s, gone) && p in s.pcbs && n in s.sems && s.sems[n].queue != []
    ensures Post(s, p, n) == Wake(GiveBack(s, p, n), n)
    ensures var t := GiveBack(s, p, n); var h := t.sems[n].queue[0];
      h in t.pcbs && h !in gone && Waiting(t, h) && Asleep(t.pcbs[h].status) && h == s.sems[n].queue[0]
  {
    hide Placed, IoQueued, Listed, Positive, PidsBelow;
    var h := s.sems[n].queue[0];
    assert h in s.sems[n].queue;
    assert WaitsFor(s, h, n) && Waiting(s, h);
    assert SemLaw(s.sems[n]);
  }

  lemma PostPlaced(s: State, p: Pid, n: Name, gone: set<Pid>)
    requires Inv(s, gone) && p in s.pcbs && n in s.sems
    ensures var t := Post(s, p, n); Placed(t, gone) && Linked(t, gone) && IoQueued(t, gone)
  {
    hide Placed, IoQueued, Listed, Positive, PidsBelow, Linked, Counted, SlotsMatch, TokensMatch, SemLaw;
    GiveBackKeeps(s, p, n, gone);
    if s.sems[n].queue != [] {
      PostWakes(s, p, n, gone);
      var t := GiveBack(s, p, n);
      hide GiveBack, Post;
      WakePlaced(t, n, gone);
      WakeLinked(t, n, gone);
      WakeIo(t, n, gone);
    }
  }

  /** A post that finds nobody. */
  lemma PostAlone(s: State, p: Pid, n: Name)
    requires p in s.pcbs && n in s.sems && s.sems[n].queue == []
    ensures Post(s, p, n) == GiveBack(s, p, n)
  {
  }

  /** What a post that wakes somebody leaves, field by field. */
  lemma PostShape(s: State, p: Pid, n: Name, gone: set<Pid>)
    requires Inv(s, gone) && p in s.pcbs && n in s.sems && s.sems[n].queue != []
    ensures var h := s.sems[n].queue[0]; var u := Post(s, p, n); var t := GiveBack(s, p, n);
      && h in s.pcbs && h !in gone && Waiting(s, h) && Asleep(s.pcbs[h].status)
      && var st := s.pcbs[h].status; var to := WokenStatus(st);
      && h in t.pcbs
      && u.pcbs == t.pcbs[h := Retain(Pcb(to, None, t.pcbs[h].held), n)]
      && u.sems == s.sems[n := s.sems[n].(value := s.sems[n].value + 1, queue := s.sems[n].queue[1..])]
      && u.qs == Shift(s, h, st, to).qs
      && u.tokens == (if st == Blocked then s.tokens else s.tokens + 1)
      && u.names == s.names && u.io == s.io && u.slots == s.slots && u.nextPid == s.nextPid && u.degree == s.degree
  {
    hide Placed, IoQueued, Listed, Positive, PidsBelow, Linked, Counted, SlotsMatch, TokensMatch, SemLaw;
    PostWakes(s, p, n, gone);
    WakeShape(GiveBack(s, p, n), n);
    hide Wake, Post;
  }

  lemma PostHeld(s: State, p: Pid, n: Name, gone: set<Pid>)
    requires Inv(s, gone) && p in s.pcbs && n in s.sems
    ensures Positive(Post(s, p, n)) && PidsBelow(Post(s, p, n))
  {
    hide Placed, IoQueued, Linked, Listed, Counted, TokensMatch, SlotsMatch, Post, Shift;
    assert forall k :: k in s.pcbs[p].held ==> Retains(s, p, k);
    ReleasePositive(s.pcbs[p], n);
    var t := GiveBack(s, p, n);
    HeldFrame(s, t, p);
    if s.sems[n].queue != [] {
      PostShape(s, p, n, gone);
      var h := s.sems[n].queue[0];
      assert forall k :: k in t.pcbs[h].held ==> Retains(t, h, k);
      ReleasePositive(t.pcbs[h].(waitsOn := None), n);
      hide Post, GiveBack, Positive;
      HeldFrame(t, Post(s, p, n), h);
    } else {
      PostAlone(s, p, n);
    }
  }

  lemma PostSems(s: State, p: Pid, n: Name, gone: set<Pid>)
    requires Inv(s, gone) && p in s.pcbs && n in s.sems
    ensures Listed(Post(s, p, n)) && Counted(Post(s, p, n))
  {
    hide IoQueued, Linked, Positive, PidsBelow, Placed, TokensMatch, SlotsMatch;
    assert SemLaw(s.sems[n]);
    if s.sems[n].queue != [] {
      PostShape(s, p, n, gone);
      hide Post;
    }
  }

  /** Moving a process between queues, by length. */
  lemma ShiftLengths(s: State, p: Pid, from: Status, to: Status, gone: set<Pid>)
    requires Placed(s, gone) && p in s.pcbs && p !in gone && s.pcbs[p].status == from && from != to
    ensures var t := Shift(s, p, from, to);
      && |t.Q(from)| == |s.Q(from)| - 1 && t.Q(to) == s.Q(to) + [p]
      && forall st :: st != from && st != to ==> t.Q(st) == s.Q(st)
  {
    assert p in s.Q(from);
    hide Placed;
  }

  /** Waking a sleeper keeps slots and tokens in step and makes no suspension due. */
  lemma WakeSlots(s: State, u: State, h: Pid, gone: set<Pid>)
    requires Placed(s, gone) && TokensMatch(s) && SlotsMatch(s)
    requires h in s.pcbs && h !in gone && Asleep(s.pcbs[h].status)
    requires u.qs == Shift(s, h, s.pcbs[h].status, WokenStatus(s.pcbs[h].status)).qs
    requires u.tokens == if s.pcbs[h].status == Blocked then s.tokens else s.tokens + 1
    requires u.slots == s.slots && u.degree == s.degree
    ensures TokensMatch(u) && SlotsMatch(u)
    ensures SuspensionCase(u) ==> SuspensionCase(s)
  {
    hide Placed;
    var st := s.pcbs[h].status;
    var t := Shift(s, h, st, WokenStatus(st));
    ShiftLengths(s, h, st, WokenStatus(st), gone);
    hide Shift;
    assert forall x :: u.Q(x) == t.Q(x);
  }

  lemma PostSlots(s: State, p: Pid, n: Name, gone: set<Pid>)
    requires Inv(s, gone) && p in s.pcbs && n in s.sems
    ensures var t := Post(s, p, n); TokensMatch(t) && SlotsMatch(t)
    ensures SuspensionCase(Post(s, p, n)) ==> SuspensionCase(s)
  {
    hide IoQueued, Linked, Positive, PidsBelow, Listed, Counted, Placed;
    if s.sems[n].queue != [] {
      hide TokensMatch, SlotsMatch, SuspensionCase;
      PostShape(s, p, n, gone);
      hide Post, GiveBack, Shift;
      WakeSlots(s, Post(s, p, n), s.sems[n].queue[0], gone);
    } else {
      assert forall x :: Post(s, p, n).Q(x) == s.Q(x);
    }
  }

  /** A post, by anybody, keeps the invariant and makes no suspension due. */
  lemma PostInv(s: State, p: Pid, n: Name, gone: set<Pid>)
    requires Inv(s, gone) && p in s.pcbs && n in s.sems
    ensures Inv(Post(s, p, n), gone)
    ensures SuspensionCase(Post(s, p, n)) ==> SuspensionCase(s)
  {
    hide Placed, Linked, IoQueued, Listed, Positive, Counted, TokensMatch, SlotsMatch, PidsBelow, Post;
    PostPlaced(s, p, n, gone);
    PostHeld(s, p, n, gone);
    PostSems(s, p, n, gone);
    PostSlots(s, p, n, gone);
  }
}

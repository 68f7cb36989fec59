/** Arrivals at the granularity of their locks: every connection has a thread of its own, which reads
    the next process identifier, advances it, and puts the new process in NEW, each under a lock of
    its own. */
module ArrivalSteps {
  import opened KernelState

  type Thread = nat

  /** What a thread has done so far. */
  datatype Phase =
    | Connected
    | Numbered(pid: Pid)    // read the counter, not yet advanced it
    | Counted(pid: Pid)     // advanced the counter, not yet in NEW
    | Queued(pid: Pid)

  datatype Hall = Hall(next: Pid, queue: seq<Pid>, threads: map<Thread, Phase>)

  datatype Move = Read(t: Thread) | Advance(t: Thread) | Enter(t: Thread)

  predicate CanMove(s: Hall, m: Move) {
    m.t in s.threads &&
    match m
    case Read(t) => s.threads[t].Connected?
    case Advance(t) => s.threads[t].Numbered?
    case Enter(t) => s.threads[t].Counted?
  }

  function Do(s: Hall, m: Move): Hall
    requires CanMove(s, m)
  {
    match m
    case Read(t) => s.(threads := s.threads[t := Numbered(s.next)])
    case Advance(t) => s.(next := s.next + 1, threads := s.threads[t := Counted(s.threads[t].pid)])
    case Enter(t) => s.(queue := s.queue + [s.threads[t].pid], threads := s.threads[t := Queued(s.threads[t].pid)])
  }

  ghost function Start(ts: set<Thread>): Hall { Hall(1, [], map t | t in ts :: Connected) }

  ghost predicate Interleaving(ss: seq<Hall>, ms: seq<Move>) {
    |ss| == |ms| + 1 && forall i :: 0 <= i < |ms| ==> CanMove(ss[i], ms[i]) && ss[i + 1] == Do(ss[i], ms[i])
  }

  // ------------------------------------------------------------ the same number twice

  predicate HasPid(s: Hall, t: Thread) { t in s.threads && !s.threads[t].Connected? }

  /** No two processes have the same identifier. */
  ghost predicate Distinct(s: Hall) {
    forall t, u :: HasPid(s, t) && HasPid(s, u) && t != u ==> s.threads[t].pid != s.threads[u].pid
  }

  /** t has read the counter and not yet advanced it. */
  predicate Between(s: Hall, t: Thread) { t in s.threads && s.threads[t].Numbered? }

  /** The move reads the counter while some thread has it read and not yet advanced. */
  ghost predicate Races(s: Hall, m: Move) { m.Read? && exists t :: Between(s, t) }

  /** At most one thread has read and not advanced, and it has the next number; all the others that
      have a number have a smaller one. */
  ghost predicate InTurn(s: Hall) {
    && (forall t, u :: Between(s, t) && Between(s, u) ==> t == u)
    && (forall t :: HasPid(s, t) ==> if Between(s, t) then s.threads[t].pid == s.next else s.threads[t].pid < s.next)
  }

  lemma MoveInTurn(s: Hall, m: Move)
    requires InTurn(s) && Distinct(s) && CanMove(s, m)
    ensures Distinct(Do(s, m)) <==> !Races(s, m)
    ensures !Races(s, m) ==> InTurn(Do(s, m))
  {
    var t := Do(s, m);
    assert forall u :: u != m.t ==> (HasPid(t, u) <==> HasPid(s, u)) && (Between(t, u) <==> Between(s, u));
    if Races(s, m) {
      var u :| Between(s, u);
      assert HasPid(t, u) && HasPid(t, m.t) && t.threads[u].pid == t.threads[m.t].pid;
    }
  }

  /** A number given twice stays given twice. */
  lemma StaysGiven(s: Hall, m: Move)
    requires !Distinct(s) && CanMove(s, m)
    ensures !Distinct(Do(s, m))
  {
    var t, u :| HasPid(s, t) && HasPid(s, u) && t != u && s.threads[t].pid == s.threads[u].pid;
    assert HasPid(Do(s, m), t) && HasPid(Do(s, m), u);
  }

  /** Over every interleaving, processes have different identifiers if and only if no thread ever read
      the counter while another had it read and not yet advanced. */
  lemma {:induction false} DistinctExactly(ss: seq<Hall>, ms: seq<Move>, ts: set<Thread>)
    requires Interleaving(ss, ms) && ss[0] == Start(ts)
    ensures Distinct(ss[|ms|]) <==> forall i :: 0 <= i < |ms| ==> !Races(ss[i], ms[i])
    ensures Distinct(ss[|ms|]) ==> InTurn(ss[|ms|])
    decreases |ms|
  {
    hide Distinct, Races, InTurn, Do, CanMove;
    if ms == [] {
      StartInTurn(ts);
    } else {
      var k := |ms| - 1;
      assert CanMove(ss[k], ms[k]) && ss[k + 1] == Do(ss[k], ms[k]);
      DistinctExactly(ss[..k + 1], ms[..k], ts);
      if Distinct(ss[k]) {
        MoveInTurn(ss[k], ms[k]);
        assert forall i :: 0 <= i < k ==> !Races(ss[..k + 1][i], ms[..k][i]);
      } else {
        StaysGiven(ss[k], ms[k]);
        var i :| 0 <= i < k && Races(ss[..k + 1][i], ms[..k][i]);
        assert Races(ss[i], ms[i]);
      }
    }
  }

  lemma StartInTurn(ts: set<Thread>)
    ensures Distinct(Start(ts)) && InTurn(Start(ts))
  {
  }

  /** Two connections: both processes are number 1, and NEW holds it twice. */
  lemma SameNumberTwice() returns (ss: seq<Hall>, ms: seq<Move>)
    ensures Interleaving(ss, ms) && ss[0] == Start({1, 2}) && |ms| == 6 && ss[6].queue == [1, 1] && ss[6].next == 3
  {
    ms := [Read(1), Read(2), Advance(1), Advance(2), Enter(1), Enter(2)];
    var a := Start({1, 2});
    var b := Do(a, ms[0]);
    var c := Do(b, ms[1]);
    var d := Do(c, ms[2]);
    var e := Do(d, ms[3]);
    var f := Do(e, ms[4]);
    ss := [a, b, c, d, e, f, Do(f, ms[5])];
  }

  /** With different numbers NEW may still be out of order: the second overtakes the first between
      its advancing the counter and its entering NEW. */
  lemma OutOfOrder() returns (ss: seq<Hall>, ms: seq<Move>)
    ensures Interleaving(ss, ms) && ss[0] == Start({1, 2}) && |ms| == 6 && Distinct(ss[6]) && ss[6].queue == [2, 1]
  {
    ms := [Read(1), Advance(1), Read(2), Advance(2), Enter(2), Enter(1)];
    var a := Start({1, 2});
    var b := Do(a, ms[0]);
    var c := Do(b, ms[1]);
    var d := Do(c, ms[2]);
    var e := Do(d, ms[3]);
    var f := Do(e, ms[4]);
    ss := [a, b, c, d, e, f, Do(f, ms[5])];
  }

  /** An arrival whole: the next number goes to the end of NEW, as in the atomic model. */
  lemma ArrivalWhole(s: Hall, t: Thread)
    requires CanMove(s, Read(t))
    ensures CanMove(Do(s, Read(t)), Advance(t))
    ensures CanMove(Do(Do(s, Read(t)), Advance(t)), Enter(t))
    ensures Do(Do(Do(s, Read(t)), Advance(t)), Enter(t))
         == Hall(s.next + 1, s.queue + [s.next], s.threads[t := Queued(s.next)])
  {
  }
}

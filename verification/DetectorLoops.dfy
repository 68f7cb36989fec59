/** The detector's loops over lists of objects: null rows removed in place, the reduction, the
    choice of the victim. They change no process and no semaphore. */
module DetectorLoops {
  import opened Wrappers
  import opened Lists
  import opened KernelState
  import opened KernelObjects
  import opened DeadlockGraph
  import opened Recovery

  /** t_dimention_type: which list is walked inside, the other being the one reduced. */
  datatype Dimension = PcbList | SemList

  /** g shows what the listed processes wait on and retain. */
  ghost predicate Depicts(g: Graph, pcbs: seq<Process>)
    reads pcbs
  {
    forall i :: 0 <= i < |pcbs| ==> DepictsOne(g, pcbs[i])
  }

  ghost predicate DepictsOne(g: Graph, x: Process)
    reads x
  {
    && (forall n :: Asks(g, x.pid, n) <==> WaitOf(x.waitsOn) == Some(n))
    && (forall n :: Has(g, x.pid, n) <==> n in x.held)
  }

  // ---------------------------------------------------------------- one row

  ghost function RowPid(first: Dimension, pcbs: seq<Process>, i: nat, j: nat): Pid
    requires (if first == PcbList then j else i) < |pcbs|
  {
    pcbs[if first == PcbList then j else i].pid
  }

  ghost function RowName(first: Dimension, sems: seq<Semaphore>, i: nat, j: nat): Name
    requires (if first == PcbList then i else j) < |sems|
  {
    sems[if first == PcbList then i else j].name
  }

  ghost predicate WaitCell(g: Graph, first: Dimension, pcbs: seq<Process>, sems: seq<Semaphore>, i: nat, j: nat) {
    && (if first == PcbList then j < |pcbs| && i < |sems| else i < |pcbs| && j < |sems|)
    && Asks(g, RowPid(first, pcbs, i, j), RowName(first, sems, i, j))
  }

  ghost predicate HoldCell(g: Graph, first: Dimension, pcbs: seq<Process>, sems: seq<Semaphore>, i: nat, j: nat) {
    && (if first == PcbList then j < |pcbs| && i < |sems| else i < |pcbs| && j < |sems|)
    && Has(g, RowPid(first, pcbs, i, j), RowName(first, sems, i, j))
  }

  ghost predicate RowOk(g: Graph, first: Dimension, pcbs: seq<Process>, sems: seq<Semaphore>, i: nat)
    requires i < if first == PcbList then |sems| else |pcbs|
  {
    if first == PcbList then SemOk(g, Elems(Pids(pcbs)), sems[i].name)
    else PcbOk(g, Elems(Names(sems)), pcbs[i].pid)
  }

  /** A row is supported exactly when it has a cell of each matrix. */
  lemma RowCells(g: Graph, first: Dimension, pcbs: seq<Process>, sems: seq<Semaphore>, i: nat)
    requires i < if first == PcbList then |sems| else |pcbs|
    ensures RowOk(g, first, pcbs, sems, i) <==>
            && (exists j: nat :: WaitCell(g, first, pcbs, sems, i, j))
            && (exists j: nat :: HoldCell(g, first, pcbs, sems, i, j))
  {
    if first == PcbList {
      var n := sems[i].name;
      forall p | p in Elems(Pids(pcbs)) && Asks(g, p, n) ensures exists j: nat :: WaitCell(g, first, pcbs, sems, i, j) {
        var j :| 0 <= j < |pcbs| && Pids(pcbs)[j] == p;
        assert WaitCell(g, first, pcbs, sems, i, j);
      }
      forall p | p in Elems(Pids(pcbs)) && Has(g, p, n) ensures exists j: nat :: HoldCell(g, first, pcbs, sems, i, j) {
        var j :| 0 <= j < |pcbs| && Pids(pcbs)[j] == p;
        assert HoldCell(g, first, pcbs, sems, i, j);
      }
      assert forall j :: 0 <= j < |pcbs| ==> pcbs[j].pid == Pids(pcbs)[j];
    } else {
      var p := pcbs[i].pid;
      forall n | n in Elems(Names(sems)) && Asks(g, p, n) ensures exists j: nat :: WaitCell(g, first, pcbs, sems, i, j) {
        var j :| 0 <= j < |sems| && Names(sems)[j] == n;
        assert WaitCell(g, first, pcbs, sems, i, j);
      }
      forall n | n in Elems(Names(sems)) && Has(g, p, n) ensures exists j: nat :: HoldCell(g, first, pcbs, sems, i, j) {
        var j :| 0 <= j < |sems| && Names(sems)[j] == n;
        assert HoldCell(g, first, pcbs, sems, i, j);
      }
      assert forall j :: 0 <= j < |sems| ==> sems[j].name == Names(sems)[j];
    }
  }

  /** What the code compares in cell j of row i. */
  lemma CellTests(g: Graph, first: Dimension, pcbs: seq<Process>, sems: seq<Semaphore>, i: nat, j: nat)
    requires Depicts(g, pcbs)
    requires if first == PcbList then i < |sems| && j < |pcbs| else i < |pcbs| && j < |sems|
    ensures var m := if first == PcbList then sems[i] else sems[j];
      var x := if first == PcbList then pcbs[j] else pcbs[i];
      && (WaitCell(g, first, pcbs, sems, i, j) <==> x.waitsOn != null && x.waitsOn.name == m.name)
      && (HoldCell(g, first, pcbs, sems, i, j) <==> m.name in x.held)
  {
    assert DepictsOne(g, if first == PcbList then pcbs[j] else pcbs[i]);
  }

  /** Some cell before j of the row is a wait. */
  ghost predicate WaitSeen(g: Graph, first: Dimension, pcbs: seq<Process>, sems: seq<Semaphore>, i: nat, j: nat) {
    exists c: nat :: c < j && WaitCell(g, first, pcbs, sems, i, c)
  }

  ghost predicate HoldSeen(g: Graph, first: Dimension, pcbs: seq<Process>, sems: seq<Semaphore>, i: nat, j: nat) {
    exists c: nat :: c < j && HoldCell(g, first, pcbs, sems, i, c)
  }

  lemma SeenNext(g: Graph, first: Dimension, pcbs: seq<Process>, sems: seq<Semaphore>, i: nat, j: nat)
    ensures WaitSeen(g, first, pcbs, sems, i, j + 1) <==>
            WaitSeen(g, first, pcbs, sems, i, j) || WaitCell(g, first, pcbs, sems, i, j)
    ensures HoldSeen(g, first, pcbs, sems, i, j + 1) <==>
            HoldSeen(g, first, pcbs, sems, i, j) || HoldCell(g, first, pcbs, sems, i, j)
  {
    hide WaitCell, HoldCell;
  }

  /** The inner loop of __deadlock_eliminar_celdas_nulas_consecutivas: the two flags are
      sticky, and the walk stops as soon as both are up. */
  method HasCells(first: Dimension, pcbs: seq<Process>, sems: seq<Semaphore>, i: nat, ghost g: Graph)
    returns (found: bool)
    requires Depicts(g, pcbs) && i < if first == PcbList then |sems| else |pcbs|
    ensures found <==> RowOk(g, first, pcbs, sems, i)
  {
    RowCells(g, first, pcbs, sems, i);
    hide RowOk, WaitSeen, HoldSeen, WaitCell, HoldCell;
    var wait, retention := false, false;
    found := false;
    var j := 0;
    var size := if first == PcbList then |pcbs| else |sems|;
    SeenNone(g, first, pcbs, sems, i);
    while j < size
      invariant 0 <= j <= size && !found && !(wait && retention)
      invariant wait <==> WaitSeen(g, first, pcbs, sems, i, j)
      invariant retention <==> HoldSeen(g, first, pcbs, sems, i, j)
    {
      var m := if first == PcbList then sems[i] else sems[j];
      var x := if first == PcbList then pcbs[j] else pcbs[i];
      CellTests(g, first, pcbs, sems, i, j);
      SeenNext(g, first, pcbs, sems, i, j);
      if !wait {
        wait := x.waitsOn != null && x.waitsOn.name == m.name;
      }
      if !retention {
        retention := m.name in x.held;
      }
      if wait && retention {
        found := true;
        SeenSome(g, first, pcbs, sems, i, j + 1);
        break;
      }
      j := j + 1;
    }
    if !found { SeenSome(g, first, pcbs, sems, i, j); SeenAll(g, first, pcbs, sems, i, j); }
  }

  lemma SeenNone(g: Graph, first: Dimension, pcbs: seq<Process>, sems: seq<Semaphore>, i: nat)
    ensures !WaitSeen(g, first, pcbs, sems, i, 0) && !HoldSeen(g, first, pcbs, sems, i, 0)
  {
  }

  lemma SeenSome(g: Graph, first: Dimension, pcbs: seq<Process>, sems: seq<Semaphore>, i: nat, j: nat)
    ensures WaitSeen(g, first, pcbs, sems, i, j) ==> exists c: nat :: WaitCell(g, first, pcbs, sems, i, c)
    ensures HoldSeen(g, first, pcbs, sems, i, j) ==> exists c: nat :: HoldCell(g, first, pcbs, sems, i, c)
  {
    hide WaitCell, HoldCell;
  }

  lemma SeenAll(g: Graph, first: Dimension, pcbs: seq<Process>, sems: seq<Semaphore>, i: nat, j: nat)
    requires j == if first == PcbList then |pcbs| else |sems|
    ensures (exists c: nat :: WaitCell(g, first, pcbs, sems, i, c)) ==> WaitSeen(g, first, pcbs, sems, i, j)
    ensures (exists c: nat :: HoldCell(g, first, pcbs, sems, i, c)) ==> HoldSeen(g, first, pcbs, sems, i, j)
  {
    hide Asks, Has;
  }

  // ------------------------------------------------------- removal in place

  lemma CutOut<T>(a: seq<T>, x: T, b: seq<T>)
    ensures var s := (a + [x]) + b; s[|a|] == x && s[..|a|] == a && s[|a| + 1..] == b
  {
  }

  /** Keep or drop the element at position i, when the first d have been seen and i kept. */
  lemma FilterOneMore<T>(s: seq<T>, keep: T -> bool, d: nat, left: seq<T>, i: nat)
    requires d < |s| && i == |Filter(s[..d], keep)| && left == Filter(s[..d], keep) + s[d..]
    ensures i < |left| && left[i] == s[d]
    ensures if keep(s[d]) then i + 1 == |Filter(s[..d + 1], keep)| && left == Filter(s[..d + 1], keep) + s[d + 1..]
            else i == |Filter(s[..d + 1], keep)| && left[..i] + left[i + 1..] == Filter(s[..d + 1], keep) + s[d + 1..]
  {
    var f := Filter(s[..d], keep);
    assert Filter([s[d]], keep) == if keep(s[d]) then [s[d]] else [];
    hide Filter;
    SplitAt(s, d);
    FilterAppend(s[..d], [s[d]], keep);
    Associates(f, [s[d]], s[d + 1..]);
    CutOut(f, s[d], s[d + 1..]);
  }

  ghost function SemKeeper(g: Graph, pcbs: seq<Process>): Semaphore -> bool {
    (m: Semaphore) => SemOk(g, Elems(Pids(pcbs)), m.name)
  }

  ghost function PcbKeeper(g: Graph, sems: seq<Semaphore>): Process -> bool {
    (x: Process) => PcbOk(g, Elems(Names(sems)), x.pid)
  }

  lemma RowDependsOnEntry(g: Graph, pcbs: seq<Process>, sems: seq<Semaphore>, i: nat)
    ensures i < |sems| ==> RowOk(g, PcbList, pcbs, sems, i) == SemKeeper(g, pcbs)(sems[i])
    ensures i < |pcbs| ==> RowOk(g, SemList, pcbs, sems, i) == PcbKeeper(g, sems)(pcbs[i])
  {
  }

  lemma DepictsFewer(g: Graph, pcbs: seq<Process>, left: seq<Process>, d: nat, keep: Process -> bool)
    requires Depicts(g, pcbs) && d <= |pcbs| && left == Filter(pcbs[..d], keep) + pcbs[d..]
    ensures Depicts(g, left)
  {
    hide DepictsOne;
    FilterMembers(pcbs[..d], keep);
    var kept := Filter(pcbs[..d], keep);
    forall i | 0 <= i < |left| ensures DepictsOne(g, left[i]) {
      if i < |kept| {
        assert left[i] == kept[i] && kept[i] in kept && kept[i] in pcbs[..d];
      } else {
        assert left[i] == pcbs[d + (i - |kept|)];
      }
    }
  }

  /** __deadlock_eliminar_celdas_nulas_consecutivas: removing in place filters the reduced list,
      in order, by support in the other, which stays as it is. */
  method StrikeRows(first: Dimension, pcbs: seq<Process>, sems: seq<Semaphore>, ghost g: Graph)
    returns (pcbsLeft: seq<Process>, semsLeft: seq<Semaphore>, struck: bool)
    requires Depicts(g, pcbs)
    ensures pcbsLeft == if first == PcbList then pcbs else Filter(pcbs, PcbKeeper(g, sems))
    ensures semsLeft == if first == PcbList then Filter(sems, SemKeeper(g, pcbs)) else sems
    ensures struck <==> |pcbsLeft| < |pcbs| || |semsLeft| < |sems|
  {
    hide RowOk, Depicts, SemKeeper, PcbKeeper;
    pcbsLeft, semsLeft := pcbs, sems;
    var i := 0;
    ghost var d := 0;
    while i < if first == PcbList then |semsLeft| else |pcbsLeft|
      invariant first == PcbList ==> pcbsLeft == pcbs && d <= |sems| && i == |Filter(sems[..d], SemKeeper(g, pcbs))|
      invariant first == PcbList ==> semsLeft == Filter(sems[..d], SemKeeper(g, pcbs)) + sems[d..]
      invariant first == SemList ==> semsLeft == sems && d <= |pcbs| && i == |Filter(pcbs[..d], PcbKeeper(g, sems))|
      invariant first == SemList ==> pcbsLeft == Filter(pcbs[..d], PcbKeeper(g, sems)) + pcbs[d..]
      decreases (if first == PcbList then |sems| else |pcbs|) - d
    {
      if first == PcbList {
        FilterOneMore(sems, SemKeeper(g, pcbs), d, semsLeft, i);
      } else {
        FilterOneMore(pcbs, PcbKeeper(g, sems), d, pcbsLeft, i);
        DepictsFewer(g, pcbs, pcbsLeft, d, PcbKeeper(g, sems));
      }
      RowDependsOnEntry(g, pcbsLeft, semsLeft, i);
      var found := HasCells(first, pcbsLeft, semsLeft, i, g);
      if !found {
        if first == PcbList {
          semsLeft := semsLeft[..i] + semsLeft[i + 1..];
        } else {
          pcbsLeft := pcbsLeft[..i] + pcbsLeft[i + 1..];
        }
        i := i - 1;
      }
      i := i + 1;
      d := d + 1;
    }
    assert first == PcbList ==> sems[..d] == sems;
    assert first == SemList ==> pcbs[..d] == pcbs;
    struck := |pcbsLeft| < |pcbs| || |semsLeft| < |sems|;
  }

  // ---------------------------------------------------------------- reduction

  lemma {:induction false} FilterPids(xs: seq<Process>, keep: Process -> bool, keepPid: Pid -> bool)
    requires forall x: Process :: x in xs ==> keep(x) == keepPid(x.pid)
    ensures Pids(Filter(xs, keep)) == Filter(Pids(xs), keepPid)
  {
    if xs != [] {
      FilterPids(xs[1..], keep, keepPid);
      assert xs[0] in xs && Pids(xs)[1..] == Pids(xs[1..]);
      assert Pids([xs[0]] + Filter(xs[1..], keep)) == [xs[0].pid] + Pids(Filter(xs[1..], keep));
    }
  }

  lemma {:induction false} FilterNames(ms: seq<Semaphore>, keep: Semaphore -> bool, keepName: Name -> bool)
    requires forall m: Semaphore :: m in ms ==> keep(m) == keepName(m.name)
    ensures Names(Filter(ms, keep)) == Filter(Names(ms), keepName)
  {
    if ms != [] {
      FilterNames(ms[1..], keep, keepName);
      assert ms[0] in ms && Names(ms)[1..] == Names(ms[1..]);
      assert Names([ms[0]] + Filter(ms[1..], keep)) == [ms[0].name] + Names(Filter(ms[1..], keep));
    }
  }

  /** Striking rows of objects strikes their names and PIDs. */
  lemma StruckNames(g: Graph, pcbs: seq<Process>, sems: seq<Semaphore>)
    ensures Names(Filter(sems, SemKeeper(g, pcbs))) == StrikeSems(g, Pids(pcbs), Names(sems))
    ensures Pids(Filter(pcbs, PcbKeeper(g, sems))) == StrikePcbs(g, Pids(pcbs), Names(sems))
  {
    hide SemOk, PcbOk;
    FilterNames(sems, SemKeeper(g, pcbs), n => SemOk(g, Elems(Pids(pcbs)), n));
    FilterPids(pcbs, PcbKeeper(g, sems), (p: Pid) => PcbOk(g, Elems(Names(sems)), p));
  }

  lemma FilterStays(pcbs: seq<Process>, keep: Process -> bool)
    ensures forall x :: x in Filter(pcbs, keep) ==> x in pcbs
  {
    FilterMembers(pcbs, keep);
  }

  /** One pass of the reduction: semaphores first, then processes. */
  method ReducePass(pcbs: seq<Process>, sems: seq<Semaphore>, ghost g: Graph)
    returns (pcbsLeft: seq<Process>, semsLeft: seq<Semaphore>, columns: bool, rows: bool)
    requires Depicts(g, pcbs)
    ensures Names(semsLeft) == StrikeSems(g, Pids(pcbs), Names(sems))
    ensures Pids(pcbsLeft) == StrikePcbs(g, Pids(pcbs), Names(semsLeft))
    ensures |semsLeft| <= |sems| && (columns <==> |semsLeft| < |sems|)
    ensures |pcbsLeft| <= |pcbs| && (rows <==> |pcbsLeft| < |pcbs|)
    ensures forall x :: x in pcbsLeft ==> x in pcbs
    ensures Depicts(g, pcbsLeft)
  {
    hide SemKeeper, PcbKeeper, DepictsOne, StrikeSems, StrikePcbs;
    StruckNames(g, pcbs, sems);
    pcbsLeft, semsLeft, columns := StrikeRows(PcbList, pcbs, sems, g);
    StruckNames(g, pcbs, semsLeft);
    FilterStays(pcbs, PcbKeeper(g, semsLeft));
    pcbsLeft, semsLeft, rows := StrikeRows(SemList, pcbs, semsLeft, g);
    forall i | 0 <= i < |pcbsLeft| ensures DepictsOne(g, pcbsLeft[i]) { assert pcbsLeft[i] in pcbs; }
  }

  /** __deadlock_reducir_matrices_de_deteccion: passes go on until one strikes nothing. */
  method ReduceLists(pcbs: seq<Process>, sems: seq<Semaphore>, ghost g: Graph)
    returns (pcbsLeft: seq<Process>, semsLeft: seq<Semaphore>)
    requires Depicts(g, pcbs)
    ensures (Pids(pcbsLeft), Names(semsLeft)) == Reduce(g, Pids(pcbs), Names(sems))
    ensures forall x :: x in pcbsLeft ==> x in pcbs
  {
    hide Depicts, StrikeSems, StrikePcbs;
    pcbsLeft, semsLeft := pcbs, sems;
    if pcbs != [] && sems != [] {
      var columns, rows := true, true;
      while columns || rows
        invariant Depicts(g, pcbsLeft) && forall x :: x in pcbsLeft ==> x in pcbs
        invariant ReduceLoop(g, Pids(pcbs), Names(sems)) ==
                  if columns || rows then ReduceLoop(g, Pids(pcbsLeft), Names(semsLeft))
                  else (Pids(pcbsLeft), Names(semsLeft))
        decreases |pcbsLeft| + |semsLeft|, columns || rows
      {
        pcbsLeft, semsLeft, columns, rows := ReducePass(pcbsLeft, semsLeft, g);
      }
    }
  }

  /** list_get_maximum by pcb_maximum_pid. */
  method HighestPid(pcbs: seq<Process>) returns (x: Process)
    requires pcbs != []
    ensures x in pcbs && x.pid == MaxPid(Pids(pcbs))
  {
    x := pcbs[0];
    var i := 1;
    assert Pids(pcbs)[..1] == [pcbs[0].pid];
    while i < |pcbs|
      invariant 1 <= i <= |pcbs| && x in pcbs && x.pid == MaxPid(Pids(pcbs)[..i])
    {
      assert Pids(pcbs)[..i + 1][..i] == Pids(pcbs)[..i];
      x := if x.pid > pcbs[i].pid then x else pcbs[i];
      i := i + 1;
    }
    assert Pids(pcbs)[..i] == Pids(pcbs);
  }
}

/** Sequence helpers: what the kernel's linked lists do, as functions. */
module Lists {

  ghost predicate NoDup<T>(s: seq<T>) {
    forall i, j :: 0 <= i < j < |s| ==> s[i] != s[j]
  }

  /** Deletes the first occurrence of x, as finding an index and removing it does. */
  function Remove<T(==)>(s: seq<T>, x: T): (r: seq<T>)
    ensures |r| == if x in s then |s| - 1 else |s|
  {
    if s == [] then []
    else if s[0] == x then s[1..]
    else [s[0]] + Remove(s[1..], x)
  }

  lemma {:induction false} RemoveKeeps<T>(s: seq<T>, x: T)
    ensures forall y :: y != x ==> (y in Remove(s, x) <==> y in s)
    ensures forall y :: y in Remove(s, x) ==> y in s
  {
    if s != [] {
      RemoveKeeps(s[1..], x);
      assert s == [s[0]] + s[1..];
    }
  }

  lemma {:induction false} RemoveNoDup<T>(s: seq<T>, x: T)
    requires NoDup(s)
    ensures NoDup(Remove(s, x)) && x !in Remove(s, x)
  {
    if s != [] {
      RemoveNoDup(s[1..], x);
      RemoveKeeps(s[1..], x);
      if s[0] != x {
        assert s[0] !in Remove(s[1..], x);
      }
    }
  }

  /** Keeps the elements that satisfy keep, in order. */
  function Filter<T>(s: seq<T>, keep: T -> bool): (r: seq<T>)
    ensures |r| <= |s|
  {
    if s == [] then []
    else if keep(s[0]) then [s[0]] + Filter(s[1..], keep)
    else Filter(s[1..], keep)
  }

  lemma {:induction false} FilterMembers<T>(s: seq<T>, keep: T -> bool)
    ensures forall x :: x in Filter(s, keep) <==> x in s && keep(x)
  {
    if s != [] {
      FilterMembers(s[1..], keep);
      assert s == [s[0]] + s[1..];
    }
  }

  lemma {:induction false} FilterNoDup<T>(s: seq<T>, keep: T -> bool)
    requires NoDup(s)
    ensures NoDup(Filter(s, keep))
  {
    if s != [] {
      FilterNoDup(s[1..], keep);
      FilterMembers(s[1..], keep);
    }
  }

  /** A filter that deletes nothing returns the list unchanged. */
  lemma {:induction false} FilterFull<T>(s: seq<T>, keep: T -> bool)
    requires |Filter(s, keep)| == |s|
    ensures Filter(s, keep) == s
    ensures forall x :: x in s ==> keep(x)
  {
    if s != [] {
      FilterFull(s[1..], keep);
      assert s == [s[0]] + s[1..];
    }
  }

  lemma AppendParts<T>(s: seq<T>, t: seq<T>)
    requires s != []
    ensures (s + t)[0] == s[0] && (s + t)[1..] == s[1..] + t
  {
  }

  lemma Associates<T>(a: seq<T>, b: seq<T>, c: seq<T>)
    ensures a + (b + c) == (a + b) + c
  {
  }

  /** A list around its position d. */
  lemma SplitAt<T>(s: seq<T>, d: nat)
    requires d < |s|
    ensures s[d..] == [s[d]] + s[d + 1..] && s[..d + 1] == s[..d] + [s[d]]
  {
  }

  lemma FilterUnfold<T>(s: seq<T>, keep: T -> bool)
    requires s != []
    ensures Filter(s, keep) == if keep(s[0]) then [s[0]] + Filter(s[1..], keep) else Filter(s[1..], keep)
  {
  }

  lemma {:induction false} FilterAppend<T>(s: seq<T>, t: seq<T>, keep: T -> bool)
    ensures Filter(s + t, keep) == Filter(s, keep) + Filter(t, keep)
  {
    if s == [] {
      assert s + t == t;
    } else {
      FilterAppend(s[1..], t, keep);
      hide Filter;
      AppendParts(s, t);
      FilterUnfold(s, keep);
      FilterUnfold(s + t, keep);
      Associates([s[0]], Filter(s[1..], keep), Filter(t, keep));
    }
  }

  lemma {:induction false} FilterTwice<T>(s: seq<T>, f: T -> bool, g: T -> bool, h: T -> bool)
    requires forall x :: x in s ==> (h(x) <==> f(x) && g(x))
    ensures Filter(Filter(s, f), g) == Filter(s, h)
  {
    if s != [] {
      FilterTwice(s[1..], f, g, h);
      assert s[0] in s;
    }
  }

  lemma {:induction false} FilterSame<T>(s: seq<T>, f: T -> bool, g: T -> bool)
    requires forall x :: x in s ==> f(x) == g(x)
    ensures Filter(s, f) == Filter(s, g)
  {
    if s != [] {
      FilterSame(s[1..], f, g);
      assert s[0] in s;
    }
  }

  ghost function Elems<T>(s: seq<T>): set<T> { set x | x in s }

  /** A list without repetitions is as long as its set of elements is large. */
  lemma {:induction false} NoDupLength<T>(s: seq<T>)
    requires NoDup(s)
    ensures |Elems(s)| == |s|
  {
    if s != [] {
      NoDupLength(s[1..]);
      assert Elems(s) == {s[0]} + Elems(s[1..]);
    } else {
      assert Elems(s) == {};
    }
  }

  /** A subset is no larger than the set that holds it. */
  lemma {:induction false} SubsetSize<T>(a: set<T>, b: set<T>)
    requires a <= b
    ensures |a| <= |b|
    ensures |a| == |b| ==> a == b
  {
    assert b == a + (b - a);
    assert |b| == |a| + |b - a|;
  }

  /** Pigeonhole: a list longer than the set it draws from repeats an element. */
  lemma {:induction false} Pigeonhole<T>(s: seq<T>, a: set<T>) returns (i: nat, j: nat)
    requires forall x :: x in s ==> x in a
    requires |s| > |a|
    ensures i < j < |s| && s[i] == s[j]
  {
    if NoDup(s) {
      NoDupLength(s);
      SubsetSize(Elems(s), a);
      assert false;
    } else {
      i, j :| 0 <= i < j < |s| && s[i] == s[j];
    }
  }

  /** A finite map with as many values as keys is injective. */
  lemma {:induction false} EqualSizesInject<K, V>(m: map<K, V>)
    ensures |m.Values| <= |m.Keys|
    ensures |m.Values| == |m.Keys| ==>
      forall x, y :: x in m && y in m && m[x] == m[y] ==> x == y
    decreases |m|
  {
    if m.Keys != {} {
      var k :| k in m.Keys;
      var rest := m - {k};
      assert rest.Keys == m.Keys - {k};
      EqualSizesInject(rest);
      assert m.Values == rest.Values + {m[k]} by {
        forall v | v in m.Values ensures v in rest.Values + {m[k]} {
          var x :| x in m && m[x] == v;
          if x != k { assert x in rest && rest[x] == v; }
        }
      }
      if |m.Values| == |m.Keys| {
        assert m[k] !in rest.Values;
        assert forall x :: x in rest ==> m[x] == rest[x] && rest[x] in rest.Values;
        assert forall x, y :: x in rest && y in rest && rest[x] == rest[y] ==> x == y;
        assert forall x :: x in m && x != k ==> x in rest;
      }
    } else {
      assert m.Values == {};
    }
  }

  /** An injective map has as many values as keys. */
  lemma {:induction false} InjectiveSize<K, V>(m: map<K, V>)
    requires forall x, y :: x in m && y in m && m[x] == m[y] ==> x == y
    ensures |m.Values| == |m.Keys|
    decreases |m|
  {
    if m.Keys != {} {
      var k :| k in m.Keys;
      var rest := m - {k};
      assert rest.Keys == m.Keys - {k};
      InjectiveSize(rest);
      assert m.Values == rest.Values + {m[k]} by {
        forall v | v in m.Values ensures v in rest.Values + {m[k]} {
          var x :| x in m && m[x] == v;
          if x != k { assert x in rest && rest[x] == v; }
        }
      }
      assert m[k] !in rest.Values;
    } else {
      assert m.Values == {};
    }
  }
}

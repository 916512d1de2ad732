/**
 Python's ordering of `str` values, and the sorted, duplicate-free key lists that
 pandas keeps as the index of a `groupby` result or of an index union.
 */
module Ordering {

  /** Python's `a < b` on strings: code point by code point, a proper prefix first. */
  predicate Below(a: string, b: string)
    decreases |a|
  {
    if |a| == 0 then |b| > 0
    else |b| > 0 && (a[0] < b[0] || (a[0] == b[0] && Below(a[1..], b[1..])))
  }

  lemma {:induction false} BelowIrreflexive(a: string)
    ensures !Below(a, a)
    decreases |a|
  {
    if |a| > 0 {
      BelowIrreflexive(a[1..]);
    }
  }

  lemma {:induction false} BelowTransitive(a: string, b: string, c: string)
    requires Below(a, b) && Below(b, c)
    ensures Below(a, c)
    decreases |a|
  {
    if |a| > 0 && a[0] == b[0] && b[0] == c[0] {
      BelowTransitive(a[1..], b[1..], c[1..]);
    }
  }

  lemma {:induction false} BelowTotal(a: string, b: string)
    ensures a == b || Below(a, b) || Below(b, a)
    decreases |a|
  {
    if |a| > 0 && |b| > 0 && a[0] == b[0] {
      BelowTotal(a[1..], b[1..]);
      assert a == [a[0]] + a[1..] && b == [b[0]] + b[1..];
    }
  }

  function Elems(s: seq<string>): set<string>
  {
    set x | x in s
  }

  predicate StrictlySorted(s: seq<string>)
  {
    forall i, j :: 0 <= i < j < |s| ==> Below(s[i], s[j])
  }

  predicate Distinct(s: seq<string>)
  {
    forall i, j :: 0 <= i < j < |s| ==> s[i] != s[j]
  }

  lemma SortedIsDistinct(s: seq<string>)
    requires StrictlySorted(s)
    ensures Distinct(s)
  {
    forall i, j | 0 <= i < j < |s|
      ensures s[i] != s[j]
    {
      BelowIrreflexive(s[i]);
    }
  }

  /** Putting `h` in front of a sorted list that holds only larger strings keeps it sorted. */
  lemma ConsSorted(h: string, t: seq<string>)
    requires StrictlySorted(t)
    requires forall y :: y in t ==> Below(h, y)
    ensures StrictlySorted([h] + t)
  {
    var s := [h] + t;
    forall i, j | 0 <= i < j < |s|
      ensures Below(s[i], s[j])
    {
      assert s[j] == t[j - 1];
      if i > 0 {
        assert s[i] == t[i - 1];
      }
    }
  }

  /** `s` with `x` added at its place in the order, unless it is already there. */
  function Insert(s: seq<string>, x: string): (r: seq<string>)
    requires StrictlySorted(s)
    ensures StrictlySorted(r)
    ensures Elems(r) == Elems(s) + {x}
    decreases |s|
  {
    if |s| == 0 then [x]
    else if x == s[0] then s
    else if Below(x, s[0]) then
      InsertFrontSorted(s, x);
      [x] + s
    else
      var t := Insert(s[1..], x);
      InsertRestSorted(s, x, t);
      [s[0]] + t
  }

  lemma InsertFrontSorted(s: seq<string>, x: string)
    requires StrictlySorted(s) && |s| > 0 && Below(x, s[0])
    ensures StrictlySorted([x] + s)
    ensures Elems([x] + s) == Elems(s) + {x}
  {
    forall y | y in s
      ensures Below(x, y)
    {
      if y != s[0] {
        BelowTransitive(x, s[0], y);
      }
    }
    ConsSorted(x, s);
  }

  lemma InsertRestSorted(s: seq<string>, x: string, t: seq<string>)
    requires StrictlySorted(s) && |s| > 0 && x != s[0] && !Below(x, s[0])
    requires StrictlySorted(t) && Elems(t) == Elems(s[1..]) + {x}
    ensures StrictlySorted([s[0]] + t)
    ensures Elems([s[0]] + t) == Elems(s) + {x}
  {
    BelowTotal(x, s[0]);
    forall y | y in t
      ensures Below(s[0], y)
    {
      assert y in Elems(t);
    }
    ConsSorted(s[0], t);
    ElemsCons(s[0], t);
    ElemsCons(s[0], s[1..]);
    assert s == [s[0]] + s[1..];
  }

  lemma HeadInElems(s: seq<string>)
    requires |s| > 0
    ensures s[0] in Elems(s)
  {
  }

  lemma ElemsCons(h: string, t: seq<string>)
    ensures Elems([h] + t) == {h} + Elems(t)
  {
    assert forall y :: y in [h] + t <==> y == h || y in t;
  }

  /** Every string of `xs` inserted into the sorted list `s`, in turn. */
  function InsertAll(s: seq<string>, xs: seq<string>): (r: seq<string>)
    requires StrictlySorted(s)
    ensures StrictlySorted(r)
    ensures Elems(r) == Elems(s) + Elems(xs)
    decreases |xs|
  {
    if |xs| == 0 then s
    else
      assert xs == [xs[0]] + xs[1..];
      InsertAll(Insert(s, xs[0]), xs[1..])
  }

  /**
   The sorted union of two key lists, as pandas builds it when two indexes
   that differ are aligned.
   */
  function SortedUnion(a: seq<string>, b: seq<string>): (r: seq<string>)
    ensures StrictlySorted(r)
    ensures Elems(r) == Elems(a) + Elems(b)
  {
    InsertAll(InsertAll([], a), b)
  }

  /** A strictly sorted list is fixed by the set of its elements. */
  lemma {:induction false} SortedUnique(a: seq<string>, b: seq<string>)
    requires StrictlySorted(a) && StrictlySorted(b)
    requires Elems(a) == Elems(b)
    ensures a == b
    decreases |a|
  {
    if |a| == 0 {
      if |b| > 0 {
        HeadInElems(b);
      }
    } else {
      assert a[0] in Elems(b);
      assert |b| > 0;
      assert b[0] in Elems(a);
      if a[0] != b[0] {
        var i :| 0 <= i < |a| && a[i] == b[0];
        var j :| 0 <= j < |b| && b[j] == a[0];
        assert Below(a[0], b[0]);
        assert Below(b[0], a[0]);
        BelowTransitive(a[0], b[0], a[0]);
        BelowIrreflexive(a[0]);
      }
      SortedIsDistinct(a);
      SortedIsDistinct(b);
      RestElems(a);
      RestElems(b);
      SortedUnique(a[1..], b[1..]);
      assert a == [a[0]] + a[1..] && b == [b[0]] + b[1..];
    }
  }

  lemma RestElems(s: seq<string>)
    requires Distinct(s) && |s| > 0
    ensures Elems(s[1..]) == Elems(s) - {s[0]}
  {
    assert s == [s[0]] + s[1..];
    forall y | y in s[1..]
      ensures y != s[0]
    {
      var k :| 0 <= k < |s[1..]| && s[1..][k] == y;
      assert s[k + 1] == y;
    }
  }
}

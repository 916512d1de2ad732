/**
 The aggregation the three scripts share: pandas' `df.groupby(key)[amount].sum()`.
 A record is reduced to the pair of columns the call reads (a `Row`); the result
 is a `Series` whose index holds every key that occurs, once, in sorted order,
 and whose value for a key is the sum of the amounts of the rows with that key.
 Amounts are exact reals: floating-point rounding is not modelled.
 */
module GroupBy {
  import opened Ordering

  /** One record reduced to its group key and its amount. */
  datatype Row = Row(key: string, amount: real)

  /** A labelled column of numbers: `index` in display order, `data` by label. */
  datatype Series = Series(index: seq<string>, data: map<string, real>)
  {
    predicate Valid()
    {
      Distinct(index) && Elems(index) == data.Keys
    }

    /** The values in index order. */
    function Values(): (vs: seq<real>)
      requires Valid()
      ensures |vs| == |index|
      ensures forall i :: 0 <= i < |index| ==> vs[i] == data[index[i]]
    {
      seq(|index|, i requires 0 <= i < |index| => data[index[i]])
    }
  }

  /** `sum()` of a column: the sum of all its numbers. */
  function Sum(xs: seq<real>): real
    decreases |xs|
  {
    if |xs| == 0 then 0.0 else xs[0] + Sum(xs[1..])
  }

  /** The sum of the amounts of every row. */
  function Total(rows: seq<Row>): real
    decreases |rows|
  {
    if |rows| == 0 then 0.0 else rows[0].amount + Total(rows[1..])
  }

  /** The sum of the amounts of the rows whose key is `k`. */
  function SumFor(rows: seq<Row>, k: string): real
    decreases |rows|
  {
    if |rows| == 0 then 0.0
    else (if rows[0].key == k then rows[0].amount else 0.0) + SumFor(rows[1..], k)
  }

  /** The keys of the rows, in row order, repeats included. */
  function Keys(rows: seq<Row>): (ks: seq<string>)
    ensures |ks| == |rows|
    ensures forall i :: 0 <= i < |rows| ==> ks[i] == rows[i].key
    decreases |rows|
  {
    if |rows| == 0 then [] else [rows[0].key] + Keys(rows[1..])
  }

  /** The keys that occur in the rows. */
  function KeySet(rows: seq<Row>): set<string>
  {
    Elems(Keys(rows))
  }

  lemma KeySetCons(rows: seq<Row>)
    requires |rows| > 0
    ensures KeySet(rows) == {rows[0].key} + KeySet(rows[1..])
  {
    assert Keys(rows) == [rows[0].key] + Keys(rows[1..]);
    ElemsCons(rows[0].key, Keys(rows[1..]));
  }

  /** A key that occurs in no row sums to zero. */
  lemma {:induction false} SumForAbsent(rows: seq<Row>, k: string)
    requires k !in KeySet(rows)
    ensures SumFor(rows, k) == 0.0
    decreases |rows|
  {
    if |rows| > 0 {
      KeySetCons(rows);
      SumForAbsent(rows[1..], k);
    }
  }

  /**
   The row-by-row accumulation behind `sum()` on a grouping: each row adds its
   amount to the running sum of its key, opening the key at zero the first time.
   */
  function Accumulate(m: map<string, real>, rows: seq<Row>): (r: map<string, real>)
    ensures r.Keys == m.Keys + KeySet(rows)
    ensures forall k :: k in r ==> r[k] == (if k in m then m[k] else 0.0) + SumFor(rows, k)
    decreases |rows|
  {
    if |rows| == 0 then m
    else
      var row := rows[0];
      KeySetCons(rows);
      Accumulate(m[row.key := (if row.key in m then m[row.key] else 0.0) + row.amount], rows[1..])
  }

  /** The grouped sums by key. */
  function GroupSum(rows: seq<Row>): (m: map<string, real>)
    ensures m.Keys == KeySet(rows)
    ensures forall k :: k in m ==> m[k] == SumFor(rows, k)
  {
    Accumulate(map[], rows)
  }

  /** The index of a grouping: each key that occurs, once, in ascending order. */
  function Index(rows: seq<Row>): (ks: seq<string>)
    ensures StrictlySorted(ks)
    ensures Elems(ks) == KeySet(rows)
  {
    InsertAll([], Keys(rows))
  }

  /** `groupby(key)[amount].sum()`. */
  function GroupBySum(rows: seq<Row>): (s: Series)
    ensures s.Valid()
    ensures StrictlySorted(s.index)
    ensures s.data.Keys == KeySet(rows)
    ensures forall k :: k in s.data ==> s.data[k] == SumFor(rows, k)
  {
    var ks := Index(rows);
    SortedIsDistinct(ks);
    Series(ks, GroupSum(rows))
  }

  // ---------------------------------------------------------------------------
  // Conservation of the total

  lemma {:induction false} SumZero(xs: seq<real>)
    requires forall i :: 0 <= i < |xs| ==> xs[i] == 0.0
    ensures Sum(xs) == 0.0
    decreases |xs|
  {
    if |xs| > 0 {
      SumZero(xs[1..]);
    }
  }

  /** Summing two columns pointwise and then summing is summing each. */
  lemma {:induction false} SumPointwise(a: seq<real>, b: seq<real>, c: seq<real>)
    requires |a| == |b| == |c|
    requires forall i :: 0 <= i < |c| ==> c[i] == a[i] + b[i]
    ensures Sum(c) == Sum(a) + Sum(b)
    decreases |c|
  {
    if |c| > 0 {
      SumPointwise(a[1..], b[1..], c[1..]);
    }
  }

  /** A column that is `amt` at the one position where `ks` holds `key`, else zero, sums to `amt`. */
  lemma {:induction false} SumIndicator(ks: seq<string>, key: string, amt: real, xs: seq<real>)
    requires Distinct(ks) && key in ks
    requires |xs| == |ks|
    requires forall i :: 0 <= i < |ks| ==> xs[i] == (if ks[i] == key then amt else 0.0)
    ensures Sum(xs) == amt
    decreases |ks|
  {
    if ks[0] == key {
      forall i | 0 <= i < |xs[1..]|
        ensures xs[1..][i] == 0.0
      {
        assert ks[i + 1] != ks[0];
      }
      SumZero(xs[1..]);
    } else {
      SumIndicator(ks[1..], key, amt, xs[1..]);
    }
  }

  /**
   Summing the per-key sums over any duplicate-free list of keys that covers
   every key that occurs gives the total of all rows: no row is lost and none
   is counted twice.
   */
  lemma {:induction false} SumOverCoveringKeys(rows: seq<Row>, ks: seq<string>, vs: seq<real>)
    requires Distinct(ks) && KeySet(rows) <= Elems(ks)
    requires |vs| == |ks|
    requires forall i :: 0 <= i < |ks| ==> vs[i] == SumFor(rows, ks[i])
    ensures Sum(vs) == Total(rows)
    decreases |rows|
  {
    if |rows| == 0 {
      SumZero(vs);
    } else {
      var r := rows[0];
      KeySetCons(rows);
      var ind := seq(|ks|, i requires 0 <= i < |ks| => if ks[i] == r.key then r.amount else 0.0);
      var rest := seq(|ks|, i requires 0 <= i < |ks| => SumFor(rows[1..], ks[i]));
      SumPointwise(ind, rest, vs);
      SumIndicator(ks, r.key, r.amount, ind);
      SumOverCoveringKeys(rows[1..], ks, rest);
    }
  }

  /** The group sums add up to the sum of the whole amount column. */
  lemma GroupBySumConserves(rows: seq<Row>)
    ensures Sum(GroupBySum(rows).Values()) == Total(rows)
  {
    var s := GroupBySum(rows);
    SumOverCoveringKeys(rows, s.index, s.Values());
  }
}

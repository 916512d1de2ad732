/**
 The sales summariser: read (or create) a table of sales with columns Date,
 Region, Product and Sales, then compute the total, the sums by region, by
 product and by date, the running total over dates, and the top product and
 region. Charts and printing are not modelled.
 */
module SalesDashboard {
  import opened Wrappers
  import opened Ordering
  import opened GroupBy

  /** One row of `sales.csv`. */
  datatype Sale = Sale(date: string, region: string, product: string, sales: real)

  /** The three columns the script groups by. */
  datatype Column = Date | Region | Product

  function KeyOf(s: Sale, col: Column): string
  {
    match col
    case Date => s.date
    case Region => s.region
    case Product => s.product
  }

  /** The table reduced to the grouping column `col` and the Sales column. */
  function Project(df: seq<Sale>, col: Column): (rows: seq<Row>)
    ensures |rows| == |df|
    ensures forall i :: 0 <= i < |df| ==> rows[i] == Row(KeyOf(df[i], col), df[i].sales)
  {
    seq(|df|, i requires 0 <= i < |df| => Row(KeyOf(df[i], col), df[i].sales))
  }

  /** `df["Sales"]`. */
  function SalesColumn(df: seq<Sale>): (xs: seq<real>)
    ensures |xs| == |df|
    ensures forall i :: 0 <= i < |df| ==> xs[i] == df[i].sales
  {
    seq(|df|, i requires 0 <= i < |df| => df[i].sales)
  }

  /** The six rows written to `sales.csv` when the file does not exist. */
  function SampleData(): seq<Sale>
  {
    [ Sale("2025-09-01", "North", "Product A", 500.0),
      Sale("2025-09-02", "South", "Product B", 700.0),
      Sale("2025-09-03", "East", "Product A", 450.0),
      Sale("2025-09-04", "West", "Product C", 600.0),
      Sale("2025-09-05", "North", "Product B", 550.0),
      Sale("2025-09-06", "South", "Product A", 650.0) ]
  }

  /** The table the script works on: the file's rows, or the sample when there is no file. */
  function LoadData(csvExists: bool, csv: seq<Sale>): seq<Sale>
  {
    if csvExists then csv else SampleData()
  }

  // ---------------------------------------------------------------------------
  // cumsum and idxmax

  lemma {:induction false} SumAppend(xs: seq<real>, x: real)
    ensures Sum(xs + [x]) == Sum(xs) + x
    decreases |xs|
  {
    if |xs| > 0 {
      assert (xs + [x])[1..] == xs[1..] + [x];
      SumAppend(xs[1..], x);
    }
  }

  /** The running total of `xs`, starting from `acc`. */
  function RunningFrom(acc: real, xs: seq<real>): (c: seq<real>)
    ensures |c| == |xs|
    ensures forall i :: 0 <= i < |xs| ==> c[i] == acc + Sum(xs[..i + 1])
    decreases |xs|
  {
    if |xs| == 0 then []
    else
      var rest := RunningFrom(acc + xs[0], xs[1..]);
      var c := [acc + xs[0]] + rest;
      PrefixSumStep(acc, xs, rest, c);
      c
  }

  lemma PrefixSumStep(acc: real, xs: seq<real>, rest: seq<real>, c: seq<real>)
    requires |xs| > 0 && |rest| == |xs| - 1 && c == [acc + xs[0]] + rest
    requires forall i :: 0 <= i < |rest| ==> rest[i] == acc + xs[0] + Sum(xs[1..][..i + 1])
    ensures forall i :: 0 <= i < |xs| ==> c[i] == acc + Sum(xs[..i + 1])
  {
    forall i | 0 <= i < |xs|
      ensures c[i] == acc + Sum(xs[..i + 1])
    {
      if i > 0 {
        assert xs[..i + 1][1..] == xs[1..][..i];
      }
    }
  }

  /** `cumsum()`: position `i` holds the sum of the first `i + 1` values. */
  function CumSum(xs: seq<real>): (c: seq<real>)
    ensures |c| == |xs|
    ensures forall i :: 0 <= i < |xs| ==> c[i] == Sum(xs[..i + 1])
  {
    RunningFrom(0.0, xs)
  }

  /** The position of the first largest value, as numpy's `argmax` picks it. */
  function FirstMax(xs: seq<real>): (j: nat)
    requires |xs| > 0
    ensures j < |xs|
    ensures forall i :: 0 <= i < |xs| ==> xs[i] <= xs[j]
    ensures forall i :: 0 <= i < j ==> xs[i] < xs[j]
    decreases |xs|
  {
    if |xs| == 1 then 0
    else
      var j := FirstMax(xs[..|xs| - 1]);
      if xs[|xs| - 1] > xs[j] then |xs| - 1 else j
  }

  /**
   `idxmax()`: the label of the first largest value in index order; `None`
   where pandas raises `ValueError` because the series is empty.
   */
  function IdxMax(s: Series): (r: Option<string>)
    requires s.Valid()
    ensures r.None? <==> |s.index| == 0
    ensures r.Some? ==> r.value in s.data
    ensures r.Some? ==> forall k :: k in s.data ==> s.data[k] <= s.data[r.value]
    ensures r.Some? ==> forall i, j :: 0 <= i < j < |s.index| && s.index[j] == r.value ==>
                          s.data[s.index[i]] < s.data[r.value]
  {
    if |s.index| == 0 then None
    else
      var vs := s.Values();
      var j := FirstMax(vs);
      assert forall k :: k in s.data ==> k in s.index;
      Some(s.index[j])
  }

  // ---------------------------------------------------------------------------
  // The dashboard

  datatype Dashboard = Dashboard(
    totalSales: real,
    salesByRegion: Series,
    salesByProduct: Series,
    salesOverTime: Series,
    salesCumulative: seq<real>,
    topProduct: Option<string>,
    topRegion: Option<string>)

  /** Lines 34 to 42 of the script, on the table `df`. */
  function Summarise(df: seq<Sale>): Dashboard
  {
    var byRegion := GroupBySum(Project(df, Region));
    var byProduct := GroupBySum(Project(df, Product));
    var overTime := GroupBySum(Project(df, Date));
    Dashboard(
      Sum(SalesColumn(df)),
      byRegion,
      byProduct,
      overTime,
      CumSum(overTime.Values()),
      IdxMax(byProduct),
      IdxMax(byRegion))
  }

  lemma {:induction false} ProjectTotal(df: seq<Sale>, col: Column)
    ensures Total(Project(df, col)) == Sum(SalesColumn(df))
    decreases |df|
  {
    if |df| > 0 {
      assert Project(df, col)[1..] == Project(df[1..], col);
      assert SalesColumn(df)[1..] == SalesColumn(df[1..]);
      ProjectTotal(df[1..], col);
    }
  }

  /** The sums by region, by product and by date each add up to the total. */
  lemma GroupSumsConserveTotal(df: seq<Sale>)
    ensures var d := Summarise(df);
      && Sum(d.salesByRegion.Values()) == d.totalSales
      && Sum(d.salesByProduct.Values()) == d.totalSales
      && Sum(d.salesOverTime.Values()) == d.totalSales
  {
    GroupBySumConserves(Project(df, Region));
    GroupBySumConserves(Project(df, Product));
    GroupBySumConserves(Project(df, Date));
    ProjectTotal(df, Region);
    ProjectTotal(df, Product);
    ProjectTotal(df, Date);
  }

  lemma KeySetOfProject(df: seq<Sale>, col: Column, k: string)
    ensures k in KeySet(Project(df, col)) <==> exists i :: 0 <= i < |df| && KeyOf(df[i], col) == k
  {
    var ks := Keys(Project(df, col));
    if k in Elems(ks) {
      var i :| 0 <= i < |ks| && ks[i] == k;
      assert KeyOf(df[i], col) == k;
    }
    if exists i :: 0 <= i < |df| && KeyOf(df[i], col) == k {
      var i :| 0 <= i < |df| && KeyOf(df[i], col) == k;
      assert ks[i] == k;
    }
  }

  /**
   The labels of each grouping are exactly the distinct values of its column,
   in ascending order, and each label's sum is the sum of Sales over the rows
   that carry it.
   */
  lemma GroupKeysAndSums(df: seq<Sale>, col: Column, k: string)
    ensures var s := GroupBySum(Project(df, col));
      && StrictlySorted(s.index)
      && (k in s.data <==> exists i :: 0 <= i < |df| && KeyOf(df[i], col) == k)
      && (k in s.data ==> s.data[k] == SumFor(Project(df, col), k))
  {
    KeySetOfProject(df, col, k);
  }

  lemma SumPrefixStep(xs: seq<real>, i: nat)
    requires i < |xs|
    ensures Sum(xs[..i + 1]) == Sum(xs[..i]) + xs[i]
  {
    assert xs[..i + 1] == xs[..i] + [xs[i]];
    SumAppend(xs[..i], xs[i]);
  }

  /**
   A running total: entry `i` is the sum of the first `i + 1` values, each
   entry adds its value to the one before, and the last entry is the sum of all.
   */
  lemma CumSumSteps(xs: seq<real>)
    ensures var c := CumSum(xs);
      && (forall i :: 0 < i < |xs| ==> c[i] == c[i - 1] + xs[i])
      && (|xs| > 0 ==> c[|xs| - 1] == Sum(xs))
  {
    var c := CumSum(xs);
    forall i | 0 < i < |xs|
      ensures c[i] == c[i - 1] + xs[i]
    {
      SumPrefixStep(xs, i);
    }
    if |xs| > 0 {
      assert xs[..|xs|] == xs;
    }
  }

  /** When no value is negative, the running total never decreases. */
  lemma CumSumMonotone(xs: seq<real>)
    requires forall i :: 0 <= i < |xs| ==> xs[i] >= 0.0
    ensures var c := CumSum(xs);
      forall i, j :: 0 <= i <= j < |c| ==> c[i] <= c[j]
  {
    var c := CumSum(xs);
    CumSumSteps(xs);
    forall i, j | 0 <= i <= j < |c|
      ensures c[i] <= c[j]
    {
      var k := i;
      while k < j
        invariant i <= k <= j
        invariant c[i] <= c[k]
      {
        k := k + 1;
      }
    }
  }

  /**
   The running total over dates: entry `i` is the sum of the first `i + 1` daily
   sums, and the last entry is the total.
   */
  lemma CumulativeIsRunningTotal(df: seq<Sale>)
    ensures var d := Summarise(df);
      var daily := d.salesOverTime.Values();
      && d.salesCumulative == CumSum(daily)
      && (|daily| > 0 ==> d.salesCumulative[|daily| - 1] == d.totalSales)
  {
    var overTime := GroupBySum(Project(df, Date));
    CumSumSteps(overTime.Values());
    GroupBySumConserves(Project(df, Date));
    ProjectTotal(df, Date);
  }

  lemma {:induction false} SumForNonNegative(rows: seq<Row>, k: string)
    requires forall i :: 0 <= i < |rows| ==> rows[i].amount >= 0.0
    ensures SumFor(rows, k) >= 0.0
    decreases |rows|
  {
    if |rows| > 0 {
      SumForNonNegative(rows[1..], k);
    }
  }

  /** Sums of amounts none of which is negative are not negative. */
  lemma GroupValuesNonNegative(rows: seq<Row>)
    requires forall i :: 0 <= i < |rows| ==> rows[i].amount >= 0.0
    ensures var vs := GroupBySum(rows).Values();
      forall i :: 0 <= i < |vs| ==> vs[i] >= 0.0
  {
    var s := GroupBySum(rows);
    forall i | 0 <= i < |s.index|
      ensures s.Values()[i] >= 0.0
    {
      SumForNonNegative(rows, s.index[i]);
    }
  }

  /** When no sale is negative, the running total over dates never decreases. */
  lemma CumulativeNonDecreasing(df: seq<Sale>)
    requires forall i :: 0 <= i < |df| ==> df[i].sales >= 0.0
    ensures var c := Summarise(df).salesCumulative;
      forall i, j :: 0 <= i <= j < |c| ==> c[i] <= c[j]
  {
    var rows := Project(df, Date);
    GroupValuesNonNegative(rows);
    CumSumMonotone(GroupBySum(rows).Values());
  }

  /**
   The top region and the top product: present exactly when the table has a
   row; when present, a label whose sum is at least every other label's sum,
   and strictly larger than the sum of every label that sorts before it.
   */
  lemma TopIsFirstMaximum(df: seq<Sale>)
    ensures var d := Summarise(df);
      && (d.topRegion.Some? <==> |df| > 0)
      && (d.topProduct.Some? <==> |df| > 0)
      && (d.topRegion.Some? ==> IsFirstMaximum(d.salesByRegion, d.topRegion.value))
      && (d.topProduct.Some? ==> IsFirstMaximum(d.salesByProduct, d.topProduct.value))
  {
    var d := Summarise(df);
    FirstMaximumOf(d.salesByRegion);
    FirstMaximumOf(d.salesByProduct);
    NonEmptyIndex(df, Region);
    NonEmptyIndex(df, Product);
  }

  /** `top` has the largest sum, and every label that sorts before it a smaller one. */
  ghost predicate IsFirstMaximum(s: Series, top: string)
  {
    && top in s.data
    && (forall k :: k in s.data ==> s.data[k] <= s.data[top])
    && (forall k :: k in s.data && Below(k, top) ==> s.data[k] < s.data[top])
  }

  lemma FirstMaximumOf(s: Series)
    requires s.Valid() && StrictlySorted(s.index)
    ensures IdxMax(s).Some? ==> IsFirstMaximum(s, IdxMax(s).value)
  {
    var r := IdxMax(s);
    if r.Some? {
      var top := r.value;
      forall k | k in s.data && Below(k, top)
        ensures s.data[k] < s.data[top]
      {
        assert k in Elems(s.index) && top in Elems(s.index);
        var i :| 0 <= i < |s.index| && s.index[i] == k;
        var j :| 0 <= j < |s.index| && s.index[j] == top;
        if j <= i {
          BelowIrreflexive(k);
          if j < i {
            BelowTransitive(k, top, k);
          }
          assert false;
        }
      }
    }
  }

  lemma NonEmptyIndex(df: seq<Sale>, col: Column)
    ensures |GroupBySum(Project(df, col)).index| > 0 <==> |df| > 0
  {
    var s := GroupBySum(Project(df, col));
    if |df| > 0 {
      assert Keys(Project(df, col))[0] in KeySet(Project(df, col));
      assert s.index[0] == s.index[0];
    }
  }

  /** The sample table projected on Region and Sales. */
  function SampleByRegion(): seq<Row>
  {
    [Row("North", 500.0), Row("South", 700.0), Row("East", 450.0),
                      Row("West", 600.0), Row("North", 550.0), Row("South", 650.0)]
  }

  /** The sample table projected on Product and Sales. */
  function SampleByProduct(): seq<Row>
  {
    [Row("Product A", 500.0), Row("Product B", 700.0), Row("Product A", 450.0),
                      Row("Product C", 600.0), Row("Product B", 550.0), Row("Product A", 650.0)]
  }

  lemma SampleRegionTotals()
    ensures var rows := SampleByRegion();
      && SumFor(rows, "North") == 1050.0 && SumFor(rows, "South") == 1350.0
      && SumFor(rows, "East") == 450.0 && SumFor(rows, "West") == 600.0
  {
  }

  lemma SampleProductTotals()
    ensures var rows := SampleByProduct();
      && SumFor(rows, "Product A") == 1600.0 && SumFor(rows, "Product B") == 1250.0
      && SumFor(rows, "Product C") == 600.0
  {
  }

  lemma RegionLabels(ks: seq<string>)
    requires ks == ["North", "South", "East", "West", "North", "South"]
    ensures Elems(ks) == {"North", "South", "East", "West"}
  {
    assert forall x :: x in ks <==> x == "North" || x == "South" || x == "East" || x == "West";
  }

  lemma ProductLabels(ks: seq<string>)
    requires ks == ["Product A", "Product B", "Product A", "Product C", "Product B", "Product A"]
    ensures Elems(ks) == {"Product A", "Product B", "Product C"}
  {
    assert forall x :: x in ks <==> x == "Product A" || x == "Product B" || x == "Product C";
  }

  /** The sample table grouped by Region. */
  lemma SampleRegionSums(rows: seq<Row>)
    requires rows == SampleByRegion()
    ensures var m := GroupSum(rows);
      && m.Keys == {"North", "South", "East", "West"}
      && m["North"] == 1050.0 && m["South"] == 1350.0 && m["East"] == 450.0 && m["West"] == 600.0
  {
    var ks := Keys(rows);
    assert ks == ["North", "South", "East", "West", "North", "South"];
    RegionLabels(ks);
    SampleRegionTotals();
  }

  /** The sample table grouped by Product. */
  lemma SampleProductSums(rows: seq<Row>)
    requires rows == SampleByProduct()
    ensures var m := GroupSum(rows);
      && m.Keys == {"Product A", "Product B", "Product C"}
      && m["Product A"] == 1600.0 && m["Product B"] == 1250.0 && m["Product C"] == 600.0
  {
    var ks := Keys(rows);
    assert ks == ["Product A", "Product B", "Product A", "Product C", "Product B", "Product A"];
    ProductLabels(ks);
    SampleProductTotals();
  }

  /**
   Without `sales.csv` the script works on the six sample rows: the total is
   3450, the top region is South with 1350 and the top product Product A with
   1600, and the running total ends at 3450.
   */
  lemma SampleDashboard(csv: seq<Sale>)
    ensures var df := LoadData(false, csv);
      var d := Summarise(df);
      && |df| == 6
      && d.totalSales == 3450.0
      && d.topRegion == Some("South") && "South" in d.salesByRegion.data
      && d.salesByRegion.data["South"] == 1350.0
      && d.topProduct == Some("Product A") && "Product A" in d.salesByProduct.data
      && d.salesByProduct.data["Product A"] == 1600.0
      && |d.salesCumulative| > 0 && d.salesCumulative[|d.salesCumulative| - 1] == 3450.0
  {
    var df := LoadData(false, csv);
    SampleTotal(df);
    SampleRegion(df);
    SampleProduct(df);
    SampleCumulative(df);
  }

  lemma SampleProjections(df: seq<Sale>)
    requires df == SampleData()
    ensures Project(df, Region) == SampleByRegion()
    ensures Project(df, Product) == SampleByProduct()
  {
  }

  lemma SampleRegion(df: seq<Sale>)
    requires df == SampleData()
    ensures var s := GroupBySum(Project(df, Region));
      IdxMax(s) == Some("South") && "South" in s.data && s.data["South"] == 1350.0
  {
    SampleProjections(df);
    SampleRegionSums(Project(df, Region));
    SampleTopRegion(GroupBySum(Project(df, Region)));
  }

  lemma SampleProduct(df: seq<Sale>)
    requires df == SampleData()
    ensures var s := GroupBySum(Project(df, Product));
      IdxMax(s) == Some("Product A") && "Product A" in s.data && s.data["Product A"] == 1600.0
  {
    SampleProjections(df);
    SampleProductSums(Project(df, Product));
    SampleTopProduct(GroupBySum(Project(df, Product)));
  }

  lemma SampleCumulative(df: seq<Sale>)
    requires df == SampleData()
    ensures var c := Summarise(df).salesCumulative;
      |c| > 0 && c[|c| - 1] == 3450.0
  {
    SampleTotal(df);
    NonEmptyIndex(df, Date);
    CumulativeIsRunningTotal(df);
  }

  lemma SampleTotal(df: seq<Sale>)
    requires df == SampleData()
    ensures Sum(SalesColumn(df)) == 3450.0
  {
    assert SalesColumn(df) == [500.0, 700.0, 450.0, 600.0, 550.0, 650.0];
    assert Sum([500.0, 700.0, 450.0, 600.0, 550.0, 650.0]) == 3450.0;
  }

  /** A label whose sum is strictly larger than every other label's is the one `idxmax` picks. */
  lemma StrictMaximumIsTop(s: Series, top: string)
    requires s.Valid() && top in s.data
    requires forall k :: k in s.data && k != top ==> s.data[k] < s.data[top]
    ensures IdxMax(s) == Some(top)
  {
    assert top in Elems(s.index);
  }

  lemma SampleTopRegion(s: Series)
    requires s.Valid() && s.data.Keys == {"North", "South", "East", "West"}
    requires s.data["North"] == 1050.0 && s.data["South"] == 1350.0
    requires s.data["East"] == 450.0 && s.data["West"] == 600.0
    ensures IdxMax(s) == Some("South")
  {
    StrictMaximumIsTop(s, "South");
  }

  lemma SampleTopProduct(s: Series)
    requires s.Valid() && s.data.Keys == {"Product A", "Product B", "Product C"}
    requires s.data["Product A"] == 1600.0 && s.data["Product B"] == 1250.0
    requires s.data["Product C"] == 600.0
    ensures IdxMax(s) == Some("Product A")
  {
    StrictMaximumIsTop(s, "Product A");
  }
}

/**
 The budget-versus-actual analyzer. A session asks for a planned budget for
 each of five fixed categories, then reads expense transactions until the
 user types `done`, sums the spending per category, lines it up against the
 budget, computes the variance of each category and picks out the categories
 that are over budget. The session's input is the sequence of lines typed at
 its prompts; running out of lines is Python's `EOFError`, which ends the
 script. Printing and the two charts are not modelled.
 */
module BudgetAnalyzer {
  import opened Wrappers
  import opened Ordering
  import opened GroupBy
  import opened Console

  /** The spending categories, in the order the budget prompts ask for them. */
  const Categories: seq<string> := ["Rent", "Food", "Transport", "Entertainment", "Other"]

  /** A line that `float()` accepts with a value that is not negative. */
  predicate IsAmount(line: Line)
  {
    line.asFloat.Some? && line.asFloat.value >= 0.0
  }

  /** The answer to a prompt and the position of the next unread line, or the end of the input. */
  datatype Read<T> = Read(value: T, next: nat) | EndOfInput

  // ---------------------------------------------------------------------------
  // Step 2: the budget

  /**
   One budget prompt, asked again until it gets an acceptable amount: the
   first acceptable line at or after `pos`, every line before it rejected.
   */
  function NextAmount(input: seq<Line>, pos: nat): (r: Read<real>)
    requires pos <= |input|
    ensures r.Read? ==> pos < r.next <= |input| && IsAmount(input[r.next - 1])
    ensures r.Read? ==> r.value == input[r.next - 1].asFloat.value
    ensures r.Read? ==> forall j :: pos <= j < r.next - 1 ==> !IsAmount(input[j])
    ensures r.EndOfInput? ==> forall j :: pos <= j < |input| ==> !IsAmount(input[j])
    decreases |input| - pos
  {
    if pos == |input| then EndOfInput
    else if IsAmount(input[pos]) then Read(input[pos].asFloat.value, pos + 1)
    else NextAmount(input, pos + 1)
  }

  /**
   The budget loop over the categories `cats`, reading from `pos` and adding to
   `budget`: every category gets a key, no value is negative, the entries for
   other categories are kept, and the first category gets the first acceptable
   amount (unless a later category overwrites it).
   */
  function BudgetFrom(input: seq<Line>, pos: nat, cats: seq<string>, budget: map<string, real>)
    : (r: Read<map<string, real>>)
    requires pos <= |input|
    ensures r.Read? ==> r.next <= |input|
    ensures r.Read? ==> r.value.Keys == budget.Keys + Elems(cats)
    ensures r.Read? && (forall c :: c in budget ==> budget[c] >= 0.0) ==>
              forall c :: c in r.value ==> r.value[c] >= 0.0
    ensures r.Read? ==> forall c :: c in budget && c !in Elems(cats) ==> r.value[c] == budget[c]
    ensures r.Read? && |cats| > 0 && cats[0] !in Elems(cats[1..]) ==>
              NextAmount(input, pos).Read? && r.value[cats[0]] == NextAmount(input, pos).value
    decreases |cats|
  {
    if |cats| == 0 then Read(budget, pos)
    else
      match NextAmount(input, pos)
      case EndOfInput => EndOfInput
      case Read(v, next) =>
        assert cats == [cats[0]] + cats[1..];
        ElemsCons(cats[0], cats[1..]);
        BudgetFrom(input, next, cats[1..], budget[cats[0] := v])
  }

  /**
   The `while True` loop of one budget prompt (lines 20 to 28): read lines
   until one is a number that is not negative.
   */
  method PromptAmount(input: seq<Line>, pos: nat) returns (r: Read<real>)
    requires pos <= |input|
    ensures r == NextAmount(input, pos)
  {
    var i := pos;
    while i < |input|
      invariant pos <= i <= |input|
      invariant NextAmount(input, i) == NextAmount(input, pos)
      decreases |input| - i
    {
      var line := input[i];
      if line.asFloat.Some? && line.asFloat.value >= 0.0 {
        return Read(line.asFloat.value, i + 1);
      }
      i := i + 1;
    }
    return EndOfInput;
  }

  /** One step of the budget loop: the first category takes the first acceptable amount. */
  lemma BudgetFromStep(input: seq<Line>, pos: nat, cats: seq<string>, budget: map<string, real>, v: real, next: nat)
    requires pos <= |input| && |cats| > 0 && NextAmount(input, pos) == Read(v, next)
    ensures next <= |input|
    ensures BudgetFrom(input, pos, cats, budget) == BudgetFrom(input, next, cats[1..], budget[cats[0] := v])
  {
  }

  /**
   Lines 17 to 28: for each category in turn, prompt until the answer is a
   number that is not negative, and store it.
   */
  method EnterBudget(input: seq<Line>) returns (r: Read<map<string, real>>)
    ensures r == BudgetFrom(input, 0, Categories, map[])
    ensures r.Read? ==> r.value.Keys == Elems(Categories)
    ensures r.Read? ==> forall c :: c in r.value ==> r.value[c] >= 0.0
  {
    ghost var target := BudgetFrom(input, 0, Categories, map[]);
    var budget: map<string, real> := map[];
    var pos := 0;
    for i := 0 to |Categories|
      invariant pos <= |input|
      invariant BudgetFrom(input, pos, Categories[i..], budget) == target
    {
      var answer := PromptAmount(input, pos);
      match answer
      case EndOfInput =>
        return EndOfInput;
      case Read(v, next) =>
        BudgetFromStep(input, pos, Categories[i..], budget, v, next);
        assert Categories[i..][1..] == Categories[i + 1..];
        budget := budget[Categories[i] := v];
        pos := next;
    }
    r := Read(budget, pos);
  }

  // ---------------------------------------------------------------------------
  // Step 3: the transactions

  datatype Transaction = Transaction(date: string, category: string, amount: real)

  /** A transaction the loop accepts: a known category and an amount that is not negative. */
  predicate Accepted(t: Transaction)
  {
    t.category in Categories && t.amount >= 0.0
  }

  function LowerChar(c: char): char
  {
    if 'A' <= c <= 'Z' then (c as int - 'A' as int + 'a' as int) as char else c
  }

  /** Python's `str.lower()` on the letters A to Z. */
  function Lower(s: string): string
  {
    seq(|s|, i requires 0 <= i < |s| => LowerChar(s[i]))
  }

  /** The date prompt's answer that ends the loop: `date.lower() == "done"`. */
  predicate IsDone(text: string)
  {
    Lower(text) == "done"
  }

  /** The loop ends on `done` written in any mix of upper and lower case, and on nothing else. */
  lemma DoneIgnoresCase(text: string)
    ensures IsDone(text) <==>
      && |text| == 4
      && (text[0] == 'd' || text[0] == 'D')
      && (text[1] == 'o' || text[1] == 'O')
      && (text[2] == 'n' || text[2] == 'N')
      && (text[3] == 'e' || text[3] == 'E')
  {
    if IsDone(text) {
      assert Lower(text)[0] == 'd' && Lower(text)[1] == 'o';
      assert Lower(text)[2] == 'n' && Lower(text)[3] == 'e';
    }
    if |text| == 4 && (text[0] == 'd' || text[0] == 'D') && (text[1] == 'o' || text[1] == 'O')
       && (text[2] == 'n' || text[2] == 'N') && (text[3] == 'e' || text[3] == 'E') {
      assert Lower(text) == "done";
    }
  }

  /** What one pass of the transaction loop leads to. */
  datatype Pass = Finished(next: nat) | Again(next: nat, txs: seq<Transaction>) | Exhausted

  /**
   One pass of the loop at line 33, from position `pos` with the list `txs`:
   it ends on `done`; otherwise it goes round again, with one transaction
   appended exactly when the category is known and the amount acceptable.
   */
  function TransactionPass(input: seq<Line>, pos: nat, txs: seq<Transaction>): (p: Pass)
    requires pos <= |input|
    ensures p.Finished? <==> pos < |input| && IsDone(input[pos].text)
    ensures p.Finished? ==> p.next == pos + 1
    ensures p.Again? ==> pos < p.next <= |input|
    ensures p.Again? ==> p.txs == txs || (|p.txs| == |txs| + 1 && p.txs[..|txs|] == txs && Accepted(p.txs[|txs|]))
    ensures p.Again? ==> (p.txs != txs <==> pos + 2 < |input| && input[pos + 1].text in Categories && IsAmount(input[pos + 2]))
    ensures p.Again? && p.txs != txs ==>
      p.txs[|txs|] == Transaction(input[pos].text, input[pos + 1].text, input[pos + 2].asFloat.value)
  {
    if pos == |input| then Exhausted
    else if IsDone(input[pos].text) then Finished(pos + 1)
    else if pos + 1 == |input| then Exhausted
    else if input[pos + 1].text !in Categories then Again(pos + 2, txs)
    else if pos + 2 == |input| then Exhausted
    else if IsAmount(input[pos + 2]) then
      var t := Transaction(input[pos].text, input[pos + 1].text, input[pos + 2].asFloat.value);
      assert (txs + [t])[..|txs|] == txs;
      Again(pos + 3, txs + [t])
    else Again(pos + 3, txs)
  }

  /** `t` is the date, category and amount typed on three lines in a row between `lo` and `hi`. */
  ghost predicate TypedIn(input: seq<Line>, lo: nat, hi: nat, t: Transaction)
  {
    exists j :: lo <= j && j + 2 < hi && j + 2 < |input| && TypedAt(input, j, t)
  }

  predicate TypedAt(input: seq<Line>, j: nat, t: Transaction)
    requires j + 2 < |input|
  {
    && input[j + 2].asFloat.Some?
    && t == Transaction(input[j].text, input[j + 1].text, input[j + 2].asFloat.value)
  }

  /**
   The transaction loop from `pos`, the list so far being `txs`: the list only
   grows, every transaction it gains is accepted and is a date, category and
   amount typed on consecutive lines after `pos`, and the loop stops right after
   a date line that reads `done`.
   */
  function TransactionsFrom(input: seq<Line>, pos: nat, txs: seq<Transaction>): (r: Read<seq<Transaction>>)
    requires pos <= |input|
    ensures r.Read? ==> pos < r.next <= |input| && IsDone(input[r.next - 1].text)
    ensures r.Read? ==> |txs| <= |r.value| && r.value[..|txs|] == txs
    ensures r.Read? ==> forall i :: |txs| <= i < |r.value| ==> Accepted(r.value[i])
    ensures r.Read? ==> forall i :: |txs| <= i < |r.value| ==> TypedIn(input, pos, r.next, r.value[i])
    decreases |input| - pos
  {
    match TransactionPass(input, pos, txs)
    case Finished(next) => Read(txs, next)
    case Exhausted => EndOfInput
    case Again(next, more) =>
      var r := TransactionsFrom(input, next, more);
      if r.Read? then
        assert r.value[..|more|][..|txs|] == r.value[..|txs|];
        TypedInGained(input, pos, next, txs, more, r);
        r
      else r
  }

  /** A pass's own transaction and those of later passes were all typed after `pos`. */
  lemma TypedInGained(input: seq<Line>, pos: nat, next: nat, txs: seq<Transaction>, more: seq<Transaction>,
                      r: Read<seq<Transaction>>)
    requires pos <= |input| && TransactionPass(input, pos, txs) == Again(next, more)
    requires r.Read? && next < r.next && |more| <= |r.value| && r.value[..|more|] == more
    requires forall i :: |more| <= i < |r.value| ==> TypedIn(input, next, r.next, r.value[i])
    ensures forall i :: |txs| <= i < |r.value| ==> TypedIn(input, pos, r.next, r.value[i])
  {
    forall i | |txs| <= i < |r.value|
      ensures TypedIn(input, pos, r.next, r.value[i])
    {
      if i < |more| {
        assert more != txs && i == |txs|;
        assert r.value[i] == more[|txs|];
        assert TypedAt(input, pos, r.value[i]);
      } else {
        assert TypedIn(input, next, r.next, r.value[i]);
        var j :| next <= j && j + 2 < r.next && j + 2 < |input| && TypedAt(input, j, r.value[i]);
      }
    }
  }

  /**
   Lines 31 to 47: read a date, stop on `done`, read a category and skip the
   rest of the pass when it is unknown, read an amount and append the
   transaction when the amount is acceptable.
   */
  method EnterTransactions(input: seq<Line>, start: nat) returns (r: Read<seq<Transaction>>)
    requires start <= |input|
    ensures r == TransactionsFrom(input, start, [])
    ensures r.Read? ==> forall t :: t in r.value ==> Accepted(t)
  {
    var transactions: seq<Transaction> := [];
    var pos := start;
    while true
      invariant pos <= |input|
      invariant TransactionsFrom(input, pos, transactions) == TransactionsFrom(input, start, [])
      invariant forall t :: t in transactions ==> Accepted(t)
      decreases |input| - pos
    {
      if pos == |input| {
        return EndOfInput;
      }
      var date := input[pos].text;
      pos := pos + 1;
      if Lower(date) == "done" {
        break;
      }
      if pos == |input| {
        return EndOfInput;
      }
      var category := input[pos].text;
      pos := pos + 1;
      if category !in Categories {
        continue;
      }
      if pos == |input| {
        return EndOfInput;
      }
      var amount := input[pos].asFloat;
      pos := pos + 1;
      if amount.Some? && amount.value >= 0.0 {
        transactions := transactions + [Transaction(date, category, amount.value)];
      }
    }
    r := Read(transactions, pos);
  }

  // ---------------------------------------------------------------------------
  // Steps 4 to 6: the report

  /** The transactions reduced to the Category and Amount columns. */
  function TransactionRows(txs: seq<Transaction>): (rows: seq<Row>)
    ensures |rows| == |txs|
    ensures forall i :: 0 <= i < |txs| ==> rows[i] == Row(txs[i].category, txs[i].amount)
  {
    seq(|txs|, i requires 0 <= i < |txs| => Row(txs[i].category, txs[i].amount))
  }

  /** A value of a series after `fillna(0)`: zero for a label the series lacks. */
  function Get(s: Series, c: string): real
  {
    if c in s.data then s.data[c] else 0.0
  }

  /** One row of the budget-versus-actual table. */
  datatype SummaryRow = SummaryRow(category: string, budget: real, actual: real, variance: real)

  /** The Category column of the table. */
  function Labels(t: seq<SummaryRow>): (cs: seq<string>)
    ensures |cs| == |t|
    ensures forall i :: 0 <= i < |t| ==> cs[i] == t[i].category
  {
    seq(|t|, i requires 0 <= i < |t| => t[i].category)
  }

  /** The rows' categories ascend strictly. */
  predicate InCategoryOrder(t: seq<SummaryRow>)
  {
    StrictlySorted(Labels(t))
  }

  /**
   The table built from the budget and the actual spending: one row per label of
   either series, in ascending order, the missing amount on either side read as
   zero, and the variance the actual amount less the budget.
   */
  function SummaryTable(budget: Series, actual: Series): (t: seq<SummaryRow>)
    requires budget.Valid() && actual.Valid()
    ensures InCategoryOrder(t)
    ensures Elems(Labels(t)) == budget.data.Keys + actual.data.Keys
    ensures forall i :: 0 <= i < |t| ==>
      && t[i].budget == Get(budget, t[i].category)
      && t[i].actual == Get(actual, t[i].category)
      && t[i].variance == t[i].actual - t[i].budget
  {
    var ix := SortedUnion(budget.index, actual.index);
    var t := seq(|ix|, i requires 0 <= i < |ix| =>
      SummaryRow(ix[i], Get(budget, ix[i]), Get(actual, ix[i]), Get(actual, ix[i]) - Get(budget, ix[i])));
    assert Labels(t) == ix;
    t
  }

  /** `df_summary[df_summary["Variance"] > 0]`: the over-budget rows, in table order. */
  function Overspend(t: seq<SummaryRow>): (o: seq<SummaryRow>)
    ensures forall r :: r in o <==> r in t && r.variance > 0.0
    ensures InCategoryOrder(t) ==> InCategoryOrder(o)
    decreases |t|
  {
    if |t| == 0 then []
    else
      var rest := Overspend(t[1..]);
      if t[0].variance > 0.0 then
        FilterKeepsOrder(t, rest);
        [t[0]] + rest
      else
        rest
  }

  lemma FilterKeepsOrder(t: seq<SummaryRow>, rest: seq<SummaryRow>)
    requires |t| > 0
    requires forall r :: r in rest ==> r in t[1..]
    requires InCategoryOrder(t) ==> InCategoryOrder(rest)
    ensures InCategoryOrder(t) ==> InCategoryOrder([t[0]] + rest)
  {
    if InCategoryOrder(t) {
      var o := [t[0]] + rest;
      forall i, j | 0 <= i < j < |o|
        ensures Below(o[i].category, o[j].category)
      {
        if i == 0 {
          assert o[j] in t[1..];
          var k :| 0 <= k < |t[1..]| && t[1..][k] == o[j];
          assert t[k + 1] == o[j];
        } else {
          assert o[i] == rest[i - 1] && o[j] == rest[j - 1];
        }
      }
    }
  }

  /** The table and its over-budget rows; `showOverspend` is whether they are printed. */
  datatype Report = Report(summary: seq<SummaryRow>, overspend: seq<SummaryRow>, showOverspend: bool)

  /** How a session ends. */
  datatype Outcome =
    | InputExhausted      // `input()` raised EOFError
    | NoTransactions      // `groupby("Category")` on an empty frame raised KeyError
    | Completed(report: Report)

  /**
   Lines 50 to 70: with at least one transaction, the report on the budget and
   the transactions; without one, pandas finds no Category column and fails.
   */
  function Analyze(budget: Series, txs: seq<Transaction>): (o: Outcome)
    requires budget.Valid()
    ensures o.NoTransactions? <==> |txs| == 0
    ensures o.Completed? ==> (o.report.showOverspend <==> exists r :: r in o.report.summary && r.variance > 0.0)
  {
    if |txs| == 0 then NoTransactions
    else
      var actual := GroupBySum(TransactionRows(txs));
      var summary := SummaryTable(budget, actual);
      var overspend := Overspend(summary);
      assert overspend != [] <==> exists r :: r in summary && r.variance > 0.0 by {
        if overspend != [] {
          assert overspend[0] in overspend;
        }
      }
      Completed(Report(summary, overspend, overspend != []))
  }

  /** The whole script as a function of its input lines. */
  function Session(input: seq<Line>): Outcome
  {
    match BudgetFrom(input, 0, Categories, map[])
    case EndOfInput => InputExhausted
    case Read(budget, next) =>
      match TransactionsFrom(input, next, [])
      case EndOfInput => InputExhausted
      case Read(txs, _) =>
        CategoriesDistinct();
        Analyze(Series(Categories, budget), txs)
  }

  lemma CategoriesDistinct()
    ensures Distinct(Categories)
  {
  }

  /** The script: the budget, then the transactions, then the report. */
  method RunAnalyzer(input: seq<Line>) returns (o: Outcome)
    ensures o == Session(input)
  {
    var b := EnterBudget(input);
    if b.EndOfInput? {
      return InputExhausted;
    }
    var txs := EnterTransactions(input, b.next);
    if txs.EndOfInput? {
      return InputExhausted;
    }
    CategoriesDistinct();
    o := Analyze(Series(Categories, b.value), txs.value);
  }

  // ---------------------------------------------------------------------------
  // Properties of the report

  /** The Actual column of the table. */
  function ActualColumn(t: seq<SummaryRow>): (xs: seq<real>)
    ensures |xs| == |t|
    ensures forall i :: 0 <= i < |t| ==> xs[i] == t[i].actual
  {
    seq(|t|, i requires 0 <= i < |t| => t[i].actual)
  }

  /**
   Nothing is lost or counted twice between the transactions and the report:
   the Actual column adds up to the sum of all accepted amounts.
   */
  lemma ActualColumnConserves(budget: Series, txs: seq<Transaction>)
    requires budget.Valid()
    ensures var o := Analyze(budget, txs);
      o.Completed? ==> Sum(ActualColumn(o.report.summary)) == Total(TransactionRows(txs))
  {
    if |txs| > 0 {
      var rows := TransactionRows(txs);
      var actual := GroupBySum(rows);
      var t := SummaryTable(budget, actual);
      var ks := Labels(t);
      SortedIsDistinct(ks);
      forall i | 0 <= i < |ks|
        ensures ActualColumn(t)[i] == SumFor(rows, ks[i])
      {
        if ks[i] !in actual.data {
          SumForAbsent(rows, ks[i]);
        }
      }
      SumOverCoveringKeys(rows, ks, ActualColumn(t));
    }
  }

  /** The five categories in ascending order: the order of the report's rows. */
  const SortedCategories: seq<string> := ["Entertainment", "Food", "Other", "Rent", "Transport"]

  lemma SortedCategoriesSorted()
    ensures StrictlySorted(SortedCategories)
    ensures Elems(SortedCategories) == Elems(Categories)
  {
    assert forall c :: c in SortedCategories <==> c in Categories;
  }

  lemma OnlyTheFiveCategories(ks: seq<string>)
    requires StrictlySorted(ks) && Elems(ks) == Elems(Categories)
    ensures ks == SortedCategories
  {
    SortedCategoriesSorted();
    SortedUnique(ks, SortedCategories);
  }

  /**
   With a budget over exactly the five categories and transactions that all name
   one of them, the report has exactly one row per category, in ascending order.
   */
  lemma RowsAreTheFiveCategories(budget: Series, txs: seq<Transaction>)
    requires budget.Valid() && budget.data.Keys == Elems(Categories)
    requires forall i :: 0 <= i < |txs| ==> Accepted(txs[i])
    ensures var o := Analyze(budget, txs);
      o.Completed? ==> Labels(o.report.summary) == SortedCategories
  {
    if |txs| > 0 {
      var rows := TransactionRows(txs);
      AcceptedKeys(txs);
      TableOfFive(budget, GroupBySum(rows));
    }
  }

  lemma AcceptedKeys(txs: seq<Transaction>)
    requires forall i :: 0 <= i < |txs| ==> Accepted(txs[i])
    ensures KeySet(TransactionRows(txs)) <= Elems(Categories)
  {
    var rows := TransactionRows(txs);
    forall c | c in KeySet(rows)
      ensures c in Elems(Categories)
    {
      var i :| 0 <= i < |Keys(rows)| && Keys(rows)[i] == c;
    }
  }

  lemma TableOfFive(budget: Series, actual: Series)
    requires budget.Valid() && budget.data.Keys == Elems(Categories)
    requires actual.Valid() && actual.data.Keys <= Elems(Categories)
    ensures Labels(SummaryTable(budget, actual)) == SortedCategories
  {
    var t := SummaryTable(budget, actual);
    OnlyTheFiveCategories(Labels(t));
  }

  /**
   A session that completes reports on the five categories, one row each, in
   ascending order, whatever was typed.
   */
  lemma SessionReportsFiveCategories(input: seq<Line>)
    ensures var o := Session(input);
      o.Completed? ==> Labels(o.report.summary) == SortedCategories
  {
    var b := BudgetFrom(input, 0, Categories, map[]);
    if b.Read? {
      var r := TransactionsFrom(input, b.next, []);
      if r.Read? {
        CategoriesDistinct();
        RowsAreTheFiveCategories(Series(Categories, b.value), r.value);
      }
    }
  }

  /**
   Spending in Food only, against a budget for Food only: a single summary row
   whose variance is the amount spent less the budget, listed as overspent
   exactly when that variance is positive.
   */
  lemma FoodOnlyAnalysis(budget: Series, txs: seq<Transaction>, spent: real)
    requires budget.Valid() && budget.index == ["Food"]
    requires |txs| > 0 && forall i :: 0 <= i < |txs| ==> txs[i].category == "Food"
    requires SumFor(TransactionRows(txs), "Food") == spent
    ensures var row := SummaryRow("Food", budget.data["Food"], spent, spent - budget.data["Food"]);
      Analyze(budget, txs) == Completed(Report([row], if row.variance > 0.0 then [row] else [], row.variance > 0.0))
  {
    var rows := TransactionRows(txs);
    OnlyFood(Keys(rows));
    OneCategoryTable(budget, GroupBySum(rows), spent);
    var row := SummaryRow("Food", budget.data["Food"], spent, spent - budget.data["Food"]);
    assert [row][1..] == [];
    assert Overspend([row]) == if row.variance > 0.0 then [row] else [];
  }

  /**
   Under budget: a budget of 200 for Food and two Food expenses of 50 and 75
   give an actual 125 and a variance of -75, and nothing is over budget.
   */
  lemma UnderBudgetScenario(budget: Series, txs: seq<Transaction>)
    requires budget == Series(["Food"], map["Food" := 200.0])
    requires txs == [Transaction("2025-01-01", "Food", 50.0), Transaction("2025-01-02", "Food", 75.0)]
    ensures Analyze(budget, txs) == Completed(Report([SummaryRow("Food", 200.0, 125.0, -75.0)], [], false))
  {
    assert TransactionRows(txs) == [Row("Food", 50.0), Row("Food", 75.0)];
    assert SumFor([Row("Food", 50.0), Row("Food", 75.0)], "Food") == 125.0;
    assert budget.Valid() by {
      assert Elems(budget.index) == {"Food"};
    }
    FoodOnlyAnalysis(budget, txs, 125.0);
  }

  /**
   Over budget: a budget of 50 for Food and one Food expense of 80 give a
   variance of 30, and Food is reported as over budget.
   */
  lemma OverBudgetScenario(budget: Series, txs: seq<Transaction>)
    requires budget == Series(["Food"], map["Food" := 50.0])
    requires txs == [Transaction("2025-01-01", "Food", 80.0)]
    ensures Analyze(budget, txs)
      == Completed(Report([SummaryRow("Food", 50.0, 80.0, 30.0)], [SummaryRow("Food", 50.0, 80.0, 30.0)], true))
  {
    assert TransactionRows(txs) == [Row("Food", 80.0)];
    assert SumFor([Row("Food", 80.0)], "Food") == 80.0;
    assert budget.Valid() by {
      assert Elems(budget.index) == {"Food"};
    }
    FoodOnlyAnalysis(budget, txs, 80.0);
  }

  lemma OnlyFood(ks: seq<string>)
    requires |ks| > 0 && forall i :: 0 <= i < |ks| ==> ks[i] == "Food"
    ensures Elems(ks) == {"Food"}
  {
    assert ks[0] in ks;
  }

  /** A budget and actual spending that both name only `Food`: one row. */
  lemma OneCategoryTable(budget: Series, actual: Series, spent: real)
    requires budget.Valid() && budget.index == ["Food"]
    requires actual.Valid() && actual.data.Keys == {"Food"} && actual.data["Food"] == spent
    ensures var t := SummaryTable(budget, actual);
      t == [SummaryRow("Food", budget.data["Food"], spent, spent - budget.data["Food"])]
  {
    var t := SummaryTable(budget, actual);
    assert budget.data.Keys == {"Food"} by {
      assert Elems(["Food"]) == {"Food"};
    }
    SingleLabel(Labels(t));
  }

  lemma SingleLabel(ks: seq<string>)
    requires StrictlySorted(ks) && Elems(ks) == {"Food"}
    ensures ks == ["Food"]
  {
    assert Elems(["Food"]) == {"Food"};
    SortedUnique(ks, ["Food"]);
  }
}

/**
 The expense tracker: a ledger of expenses kept in memory and mirrored to
 `expenses.csv`, with a text menu to add an expense, list the ledger, show the
 total spent per category, or quit. The file is modelled by the ghost field
 `file`, the records it holds (`None` while there is no file); reading and
 writing CSV text is not modelled. The menu's input is the sequence of lines
 typed at its prompts.
 */
module ExpenseTracker {
  import opened Wrappers
  import opened Ordering
  import opened GroupBy
  import opened Console

  /** The columns of a new ledger, and of the file it is saved to. */
  const Columns: seq<string> := ["Date", "Category", "Description", "Amount"]

  /** One row of the ledger. */
  datatype Expense = Expense(date: string, category: string, description: string, amount: real)

  /**
   The ledger reduced to the Category and Amount columns: the same projection
   `BudgetAnalyzer.TransactionRows` takes of a transaction list, here over the
   tracker's own record type.
   */
  function CategoryRows(ledger: seq<Expense>): (rows: seq<Row>)
    ensures |rows| == |ledger|
    ensures forall i :: 0 <= i < |ledger| ==> rows[i] == Row(ledger[i].category, ledger[i].amount)
  {
    seq(|ledger|, i requires 0 <= i < |ledger| => Row(ledger[i].category, ledger[i].amount))
  }

  /** What the view and summary commands show. */
  datatype Output =
    | NoExpensesRecorded            // "No expenses recorded yet."
    | AllExpenses(rows: seq<Expense>)
    | CategorySums(sums: Series)

  /** `view_expenses`: the whole ledger, or the notice when it is empty. */
  function ViewExpenses(ledger: seq<Expense>): (out: Output)
    ensures out.NoExpensesRecorded? <==> ledger == []
    ensures !out.NoExpensesRecorded? ==> out == AllExpenses(ledger)
  {
    if ledger == [] then NoExpensesRecorded else AllExpenses(ledger)
  }

  /**
   `summary_by_category`: the notice when the ledger is empty; otherwise the
   sum of the amounts of each category that occurs, in ascending order of
   category, the sums adding up to the ledger's total.
   */
  function SummaryByCategory(ledger: seq<Expense>): (out: Output)
    ensures out.NoExpensesRecorded? <==> ledger == []
    ensures !out.NoExpensesRecorded? ==> out.CategorySums?
    ensures out.CategorySums? ==>
      && out.sums.Valid() && StrictlySorted(out.sums.index)
      && out.sums.data.Keys == KeySet(CategoryRows(ledger))
      && (forall c :: c in out.sums.data ==> out.sums.data[c] == SumFor(CategoryRows(ledger), c))
      && Sum(out.sums.Values()) == Total(CategoryRows(ledger))
  {
    if ledger == [] then NoExpensesRecorded
    else
      GroupBySumConserves(CategoryRows(ledger));
      CategorySums(GroupBySum(CategoryRows(ledger)))
  }

  /**
   The record `add_expense` builds from its four answers; `None` when `float()`
   rejects the amount. Any number is accepted, negative ones included.
   */
  function NewExpense(date: Line, category: Line, description: Line, amount: Line): (e: Option<Expense>)
    ensures e.Some? <==> amount.asFloat.Some?
    ensures e.Some? ==> e.value.amount == amount.asFloat.value
    ensures e.Some? ==> e.value.date == date.text && e.value.category == category.text
    ensures e.Some? ==> e.value.description == description.text
  {
    match amount.asFloat
    case None => None
    case Some(v) => Some(Expense(date.text, category.text, description.text, v))
  }

  /** What one pass of the menu loop shows or does. */
  datatype Event =
    | Added(expense: Expense)       // "Expense added and saved successfully!"
    | InvalidAmount                 // "Invalid amount! Please enter a number."
    | Shown(out: Output)
    | InvalidChoice                 // "Invalid choice. Please try again."
    | Goodbye

  /** The records the events added, in order. */
  function AddedIn(events: seq<Event>): seq<Expense>
    decreases |events|
  {
    if |events| == 0 then []
    else (if events[0].Added? then [events[0].expense] else []) + AddedIn(events[1..])
  }

  /** Where one pass of the menu loop leads. */
  datatype MenuPass =
    | Exit(next: nat)
    | Continue(next: nat, ledger: seq<Expense>, event: Event)
    | Crash                         // `input()` raised EOFError

  /**
   One pass of the loop in `main`, reading the choice at `pos`: "1" adds an
   expense from the next four lines, "2" views, "3" summarises, "4" leaves the
   loop, and any other answer changes nothing and goes round again.
   */
  function MenuStep(input: seq<Line>, pos: nat, ledger: seq<Expense>): (p: MenuPass)
    requires pos <= |input|
    ensures p.Continue? ==> pos < p.next <= |input| && p.event != Goodbye
  {
    if pos == |input| then Crash
    else
      var choice := input[pos].text;
      if choice == "1" then
        if pos + 4 >= |input| then Crash
        else
          match NewExpense(input[pos + 1], input[pos + 2], input[pos + 3], input[pos + 4])
          case Some(e) => Continue(pos + 5, ledger + [e], Added(e))
          case None => Continue(pos + 5, ledger, InvalidAmount)
      else if choice == "2" then Continue(pos + 1, ledger, Shown(ViewExpenses(ledger)))
      else if choice == "3" then Continue(pos + 1, ledger, Shown(SummaryByCategory(ledger)))
      else if choice == "4" then Exit(pos + 1)
      else Continue(pos + 1, ledger, InvalidChoice)
  }

  /**
   The dispatch table of the menu: the loop is left exactly on "4"; a pass that
   goes on appends to the ledger only the record it reports as added; "2" and
   "3" show the view and the summary of the ledger as it stands; "1" consumes
   four more lines and adds the record when the amount parses; any other
   answer is reported as an invalid choice and changes nothing; the input
   running out is the only way to crash.
   */
  lemma MenuStepCases(input: seq<Line>, pos: nat, ledger: seq<Expense>)
    requires pos <= |input|
    ensures var p := MenuStep(input, pos, ledger);
      && (p.Exit? <==> pos < |input| && input[pos].text == "4")
      && (p.Exit? ==> p.next == pos + 1)
      && (p.Crash? <==> pos == |input| || (input[pos].text == "1" && pos + 4 >= |input|))
      && (p.Continue? ==> p.ledger == ledger + (if p.event.Added? then [p.event.expense] else []))
      && (p.Continue? && input[pos].text == "2" ==> p.event == Shown(ViewExpenses(ledger)))
      && (p.Continue? && input[pos].text == "3" ==> p.event == Shown(SummaryByCategory(ledger)))
      && (p.Continue? && input[pos].text == "1" ==>
            pos + 4 < |input| && p.next == pos + 5 &&
            p.event == (match NewExpense(input[pos + 1], input[pos + 2], input[pos + 3], input[pos + 4])
                        case Some(e) => Added(e)
                        case None => InvalidAmount))
      && (pos < |input| && input[pos].text !in {"1", "2", "3", "4"} ==>
            p == Continue(pos + 1, ledger, InvalidChoice))
  {
  }

  /** The state of the ledger and what was shown when the menu loop stops. */
  datatype MenuRun = MenuRun(ledger: seq<Expense>, events: seq<Event>, exited: bool)

  /**
   The menu loop from `pos` with the ledger `ledger`. It ends with Goodbye when
   it reads "4", or early when the input runs out; the final ledger is the
   starting one with every added record appended, in order.
   */
  function MenuFrom(input: seq<Line>, pos: nat, ledger: seq<Expense>): (run: MenuRun)
    requires pos <= |input|
    decreases |input| - pos
  {
    match MenuStep(input, pos, ledger)
    case Crash => MenuRun(ledger, [], false)
    case Exit(_) => MenuRun(ledger, [Goodbye], true)
    case Continue(next, ledger', event) =>
      var rest := MenuFrom(input, next, ledger');
      MenuRun(rest.ledger, [event] + rest.events, rest.exited)
  }

  /**
   Whatever the input, the final ledger is the starting one with every added
   record appended in order, and the loop was left by "4" exactly when the
   last event is Goodbye.
   */
  lemma {:induction false} MenuFromAppends(input: seq<Line>, pos: nat, ledger: seq<Expense>)
    requires pos <= |input|
    ensures var run := MenuFrom(input, pos, ledger);
      && run.ledger == ledger + AddedIn(run.events)
      && (run.exited <==> |run.events| > 0 && run.events[|run.events| - 1] == Goodbye)
    decreases |input| - pos
  {
    match MenuStep(input, pos, ledger)
    case Crash =>
    case Exit(_) =>
    case Continue(next, ledger', event) =>
      var rest := MenuFrom(input, next, ledger');
      var run := MenuFrom(input, pos, ledger);
      MenuFromAppends(input, next, ledger');
      MenuStepCases(input, pos, ledger);
      AddedInCons(event, rest.events);
      ConcatAssoc(ledger, if event.Added? then [event.expense] else [], AddedIn(rest.events));
      assert run.events == [event] + rest.events;
      if |rest.events| > 0 {
        assert run.events[|run.events| - 1] == rest.events[|rest.events| - 1];
      }
  }

  lemma AddedInCons(e: Event, events: seq<Event>)
    ensures AddedIn([e] + events) == (if e.Added? then [e.expense] else []) + AddedIn(events)
  {
    assert ([e] + events)[1..] == events;
  }

  /** The tracker's state: the ledger in memory and the file it is saved to. */
  class Tracker {
    var expenses: seq<Expense>
    var columns: seq<string>
    ghost var file: Option<seq<Expense>>

    /** The file, once it exists, holds exactly the ledger; before that the ledger is empty. */
    ghost predicate Valid()
      reads this
    {
      && columns == Columns
      && (file.Some? ==> file.value == expenses)
      && (file.None? ==> expenses == [])
    }

    /**
     Lines 6 to 10: the ledger is the file's records when `expenses.csv`
     exists, and an empty ledger with the four columns otherwise.
     */
    constructor (saved: Option<seq<Expense>>)
      ensures Valid()
      ensures file == saved
      ensures expenses == (if saved.Some? then saved.value else [])
      ensures saved.None? ==> expenses == [] && columns == ["Date", "Category", "Description", "Amount"]
    {
      expenses := if saved.Some? then saved.value else [];
      columns := Columns;
      file := saved;
    }

    /** `save_expenses`: the file is rewritten with the whole ledger. */
    method Save()
      modifies this
      ensures file == Some(expenses)
      ensures expenses == old(expenses) && columns == old(columns)
    {
      file := Some(expenses);
    }

    /**
     `add_expense`, given its four answers: when the amount parses, the record
     is appended as the last row and the ledger saved; otherwise the ledger and
     the file are left as they were.
     */
    method AddExpense(date: Line, category: Line, description: Line, amount: Line) returns (added: Option<Expense>)
      requires Valid()
      modifies this
      ensures Valid()
      ensures added == NewExpense(date, category, description, amount)
      ensures added.Some? ==> expenses == old(expenses) + [added.value] && file == Some(expenses)
      ensures added.None? ==> expenses == old(expenses) && file == old(file)
    {
      if amount.asFloat.None? {
        return None;
      }
      var e := Expense(date.text, category.text, description.text, amount.asFloat.value);
      expenses := expenses + [e];
      Save();
      added := Some(e);
    }

    /**
     One pass of the loop in `main`: read the choice at `pos` and carry it out.
     The pass taken is the one `MenuStep` describes, and the ledger after it is
     the one that pass leads to.
     */
    method Dispatch(input: seq<Line>, pos: nat) returns (p: MenuPass)
      requires Valid() && pos <= |input|
      modifies this
      ensures Valid()
      ensures p == MenuStep(input, pos, old(expenses))
      ensures p.Continue? ==> expenses == p.ledger
      ensures !p.Continue? ==> expenses == old(expenses)
      ensures !(p.Continue? && p.event.Added?) ==> file == old(file)
    {
      if pos == |input| {
        return Crash;
      }
      var choice := input[pos].text;
      if choice == "1" {
        if pos + 4 >= |input| {
          return Crash;
        }
        var added := AddExpense(input[pos + 1], input[pos + 2], input[pos + 3], input[pos + 4]);
        p := Continue(pos + 5, expenses, if added.Some? then Added(added.value) else InvalidAmount);
      } else if choice == "2" {
        p := Continue(pos + 1, expenses, Shown(ViewExpenses(expenses)));
      } else if choice == "3" {
        p := Continue(pos + 1, expenses, Shown(SummaryByCategory(expenses)));
      } else if choice == "4" {
        p := Exit(pos + 1);
      } else {
        p := Continue(pos + 1, expenses, InvalidChoice);
      }
    }

    /**
     `main`: show the menu, read a choice and dispatch on it until the choice
     is "4" or the input runs out; the ledger, the events and the way the
     loop ended are those of `MenuFrom`.
     */
    method RunMenu(input: seq<Line>) returns (events: seq<Event>, exited: bool)
      requires Valid()
      modifies this
      ensures Valid()
      ensures var run := MenuFrom(input, 0, old(expenses));
        expenses == run.ledger && events == run.events && exited == run.exited
      ensures AddedIn(events) == [] ==> file == old(file)
    {
      ghost var run := MenuFrom(input, 0, expenses);
      ghost var rest := run;
      events := [];
      var pos := 0;
      while true
        invariant Valid()
        invariant pos <= |input|
        invariant rest == MenuFrom(input, pos, expenses)
        invariant run.ledger == rest.ledger && run.exited == rest.exited
        invariant run.events == events + rest.events
        invariant AddedIn(events) == [] ==> file == old(file)
        decreases |input| - pos
      {
        ghost var pos0, ledger0, events0, rest0 := pos, expenses, events, rest;
        var p := Dispatch(input, pos);
        match p
        case Crash =>
          return events, false;
        case Exit(_) =>
          AddedInCons(Goodbye, []);
          AddedInAppend(events, [Goodbye]);
          events := events + [Goodbye];
          return events, true;
        case Continue(next, _, e) =>
          MenuFromContinue(input, pos0, ledger0, next, expenses, e);
          AddedInCons(e, []);
          AddedInAppend(events, [e]);
          events := events + [e];
          pos := next;
          rest := MenuFrom(input, pos, expenses);
          ConcatAssoc(events0, [e], rest.events);
      }
    }
  }

  /** The records added over two stretches of the menu loop are those of each in turn. */
  lemma {:induction false} AddedInAppend(a: seq<Event>, b: seq<Event>)
    ensures AddedIn(a + b) == AddedIn(a) + AddedIn(b)
  {
    if a == [] {
      assert a + b == b;
    } else {
      assert (a + b)[1..] == a[1..] + b;
      AddedInAppend(a[1..], b);
      ConcatAssoc(if a[0].Added? then [a[0].expense] else [], AddedIn(a[1..]), AddedIn(b));
    }
  }

  lemma ConcatAssoc<T>(a: seq<T>, b: seq<T>, c: seq<T>)
    ensures a + (b + c) == (a + b) + c
  {
  }

  lemma MenuFromContinue(input: seq<Line>, pos: nat, ledger: seq<Expense>, next: nat, ledger': seq<Expense>, e: Event)
    requires pos <= |input| && MenuStep(input, pos, ledger) == Continue(next, ledger', e)
    ensures var r := MenuFrom(input, next, ledger');
      MenuFrom(input, pos, ledger) == MenuRun(r.ledger, [e] + r.events, r.exited)
  {
  }
}

/**
 * The two command handlers that change the ledger (`cmd_set_budget`,
 * `cmd_add_expense`) and the read-only balance check of `cmd_balance`. The
 * values the handlers read from the console arrive as parameters, already
 * through the parsers; saving to the data file is not modelled.
 */
module Commands {
  import opened Wrappers
  import opened Text
  import opened Dates
  import opened Expenses
  import Parsers

  /** What `cmd_add_expense` prints after recording the expense. */
  datatype Notice =
    | OverBudget(overage: real)     // "budget exceeded by ..."
    | Remaining(balance: real)      // "budget remaining: ..."
    | NoNotice                      // no budget set

  /**
   * The notice `cmd_add_expense` prints once the expense is in: the overage
   * when a positive budget is exceeded, the remaining balance when a positive
   * budget is not exceeded, and nothing when no positive budget is set.
   */
  function BudgetNotice(budget: real, es: seq<Expense>): (n: Notice)
    ensures n.OverBudget? <==> budget > 0.0 && Total(es) > budget
    ensures n.OverBudget? ==> n.overage == Total(es) - budget && n.overage > 0.0
    ensures n.Remaining? <==> budget > 0.0 && Total(es) <= budget
    ensures n.Remaining? ==> n.balance == budget - Total(es) && n.balance >= 0.0
    ensures n == NoNotice <==> budget <= 0.0
  {
    var balance := Balance(budget, es);
    if budget > 0.0 && balance < 0.0 then OverBudget(-balance)
    else if budget > 0.0 then Remaining(balance)
    else NoNotice
  }

  /** The in-memory record: a budget and the expenses, oldest first. */
  class Ledger {
    var budget: real
    var expenses: seq<Expense>

    /** The record `load_state` handed over. */
    constructor (budget: real, expenses: seq<Expense>)
      ensures this.budget == budget && this.expenses == expenses
    {
      this.budget := budget;
      this.expenses := expenses;
    }

    /** `cmd_set_budget`: the new budget replaces the old one; the expenses stay. */
    method SetBudget(amount: real)
      requires amount >= 0.0
      modifies this
      ensures budget == amount
      ensures expenses == old(expenses)
    {
      budget := amount;
    }

    /** Appends one record and reports the budget against the new total. */
    method Record(e: Expense) returns (notice: Notice)
      modifies this
      ensures budget == old(budget)
      ensures expenses == old(expenses) + [e]
      ensures notice == BudgetNotice(budget, expenses)
    {
      expenses := expenses + [e];
      notice := BudgetNotice(budget, expenses);
    }

    /**
     * `cmd_add_expense`: appends the record built from the prompt answers (the
     * amount, the category, the ISO date text and the comment), then reports
     * the budget against the new total.
     */
    method AddExpense(amount: real, category: string, date: string, comment: string) returns (notice: Notice)
      requires amount >= 0.0 && ParseIso(date).Some?
      modifies this
      ensures budget == old(budget)
      ensures expenses == old(expenses)
        + [Expense(Some(amount), Some(Parsers.NormalizeCategory(category)), Some(date), Some(Strip(comment)))]
      ensures notice == BudgetNotice(budget, expenses)
    {
      notice := Record(Expense(Some(amount), Some(Parsers.NormalizeCategory(category)), Some(date), Some(Strip(comment))));
    }

    /**
     * `cmd_balance`: the amount spent, what is left, and the overage it warns
     * about when a positive budget is exceeded.
     */
    method Summary() returns (spent: real, remaining: real, overage: Option<real>)
      ensures spent == Total(expenses)
      ensures remaining == budget - spent
      ensures overage.Some? <==> budget > 0.0 && spent > budget
      ensures overage.Some? ==> overage.value == spent - budget && overage.value > 0.0
    {
      spent := Total(expenses);
      remaining := budget - spent;
      if budget > 0.0 && remaining < 0.0 {
        overage := Some(-remaining);
      } else {
        overage := None;
      }
    }
  }

  /**
   * `cmd_expenses_by_category`: a blank query is refused; any other query
   * lists what `filter_by_category` selects.
   */
  function ExpensesByCategory(es: seq<Expense>, raw: string): (r: Option<seq<Expense>>)
    ensures r.None? <==> Strip(raw) == []
    ensures r.Some? ==> r.value == FilterByCategory(es, raw)
  {
    var cat := Strip(raw);
    if cat == [] then None
    else
      CategoryQueriesAlike(es, cat, raw);
      Some(FilterByCategory(es, cat))
  }

  /** Budget 100, then a 30 expense: 30 spent, 70 remains and no warning is shown. */
  method WithinBudgetScenario() returns (notice: Notice, spent: real, remaining: real, overage: Option<real>)
    ensures notice == Remaining(70.0)
    ensures spent == 30.0 && remaining == 70.0 && overage == None
  {
    var ledger := new Ledger(0.0, []);
    ledger.SetBudget(100.0);
    ParseFormat(Date(2026, 1, 10));
    notice := ledger.AddExpense(30.0, "Food", Format(Date(2026, 1, 10)), "");
    TotalOfOne(ledger.expenses[0]);
    spent, remaining, overage := ledger.Summary();
  }

  /** Budget 50, then an 80 expense: the warning reports an overage of 30. */
  method OverBudgetScenario() returns (notice: Notice)
    ensures notice == OverBudget(30.0)
  {
    var ledger := new Ledger(0.0, []);
    ledger.SetBudget(50.0);
    ParseFormat(Date(2026, 1, 10));
    notice := ledger.AddExpense(80.0, "", Format(Date(2026, 1, 10)), "");
    TotalOfOne(ledger.expenses[0]);
  }
}

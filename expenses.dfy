/**
 * The domain operations over the expense list: totals, the balance, the three
 * filters and the per-category report. Each reads the record fields
 * tolerantly, as `dict.get` does.
 */
module Expenses {
  import opened Wrappers
  import opened Text
  import opened Dates
  import Parsers

  /**
   * One stored expense. Every field may be absent from a hand-edited or older
   * record; the operations below supply the defaults the source uses.
   */
  datatype Expense = Expense(amount: Option<real>, category: Option<string>, date: Option<string>, comment: Option<string>)

  /** `float(e.get("amount", 0))`. */
  function AmountOf(e: Expense): real {
    e.amount.GetOr(0.0)
  }

  /** `str(e.get("date"))`: a missing date reads as the text `None`. */
  function DateText(e: Expense): string {
    match e.date
    case Some(s) => s
    case None => "None"
  }

  /** `str(e.get("category", "")).strip().lower()`: the key the category filter compares. */
  function CategoryKey(e: Expense): string {
    Lower(Strip(e.category.GetOr("")))
  }

  /** The filter's key has no surrounding whitespace, and a missing category gives `""`. */
  lemma CategoryKeyStripped(e: Expense)
    ensures IsStripped(CategoryKey(e))
    ensures e.category.None? ==> CategoryKey(e) == ""
  {
    LowerKeepsStripped(Strip(e.category.GetOr("")));
    if e.category.None? {
      assert Strip("") == "";
    }
  }

  /**
   * `str(e.get("category", "Без категорії")).strip()`: the report's group. It
   * is trimmed but not lower-cased, and a blank label stays blank.
   */
  function ReportLabel(e: Expense): (r: string)
    ensures e.category.None? ==> r == Parsers.Uncategorized
    ensures e.category.Some? ==> r == Strip(e.category.value)
  {
    match e.category
    case None => Parsers.Uncategorized
    case Some(c) => Strip(c)
  }

  // ---------------------------------------------------------------------------
  // Totals and the balance
  // ---------------------------------------------------------------------------

  /** `total_expenses`: the amounts summed from the first expense to the last. */
  function Total(es: seq<Expense>): real {
    if es == [] then 0.0 else Total(es[..|es| - 1]) + AmountOf(es[|es| - 1])
  }

  /** A single expense totals its own amount, 0 when the amount is missing. */
  lemma TotalOfOne(e: Expense)
    ensures Total([e]) == AmountOf(e)
  {
    assert [e][..0] == [];
  }

  lemma {:induction false} TotalAppend(a: seq<Expense>, b: seq<Expense>)
    ensures Total(a + b) == Total(a) + Total(b)
  {
    if b == [] {
      assert a + b == a;
    } else {
      assert (a + b)[..|a + b| - 1] == a + b[..|b| - 1];
      TotalAppend(a, b[..|b| - 1]);
    }
  }

  /** The total does not depend on the order the expenses were entered in. */
  lemma {:induction false} TotalPermutation(a: seq<Expense>, b: seq<Expense>)
    requires multiset(a) == multiset(b)
    ensures Total(a) == Total(b)
    decreases |a|
  {
    if a == [] {
      assert b == [] by { assert |b| == |multiset(b)| == 0; }
    } else {
      var a', x := a[..|a| - 1], a[|a| - 1];
      var p, q := SplitAround(b, x);
      assert multiset(a') == multiset(p + q) by {
        assert a == a' + [x] + [] && a' + [] == a';
        MultisetWithout(a', x, []);
        MultisetWithout(p, x, q);
      }
      TotalPermutation(a', p + q);
      assert a == a' + [x];
      TotalWithout(p, x, q);
      TotalAppend(a', [x]);
      TotalOfOne(x);
    }
  }

  /** An element of `b` splits it into the part before one occurrence and the part after. */
  lemma SplitAround(b: seq<Expense>, x: Expense) returns (p: seq<Expense>, q: seq<Expense>)
    requires x in multiset(b)
    ensures b == p + [x] + q
  {
    var i :| 0 <= i < |b| && b[i] == x;
    p, q := b[..i], b[i + 1..];
    assert b == p + [x] + q;
  }

  lemma MultisetWithout(p: seq<Expense>, x: Expense, q: seq<Expense>)
    ensures multiset(p + q) == multiset(p + [x] + q) - multiset{x}
  {
  }

  /** Taking one expense out of a list lowers the total by its amount. */
  lemma TotalWithout(p: seq<Expense>, x: Expense, q: seq<Expense>)
    ensures Total(p + [x] + q) == Total(p + q) + AmountOf(x)
  {
    TotalAppend(p + [x], q);
    TotalAppend(p, [x]);
    TotalAppend(p, q);
    TotalOfOne(x);
  }

  /** With no negative amounts stored, nothing can make the total negative. */
  lemma {:induction false} TotalNonNegative(es: seq<Expense>)
    requires forall i :: 0 <= i < |es| ==> AmountOf(es[i]) >= 0.0
    ensures Total(es) >= 0.0
  {
    if es != [] {
      TotalNonNegative(es[..|es| - 1]);
    }
  }

  /** `calculate_balance`: what is left of the budget; negative once it is exceeded. */
  function Balance(budget: real, es: seq<Expense>): (r: real)
    ensures r + Total(es) == budget
  {
    budget - Total(es)
  }

  /** Recording one more expense lowers the balance by exactly its amount. */
  lemma BalanceAfterAppend(budget: real, es: seq<Expense>, e: Expense)
    ensures Balance(budget, es + [e]) == Balance(budget, es) - AmountOf(e)
  {
    assert (es + [e])[..|es|] == es;
  }

  // ---------------------------------------------------------------------------
  // Filters
  // ---------------------------------------------------------------------------

  /** Which expenses a filter keeps. */
  datatype Criterion =
    | OnDate(target: string)
    | InCategory(query: string)
    | InPeriod(start: Date, end: Date)

  /**
   * The rule each filter applies to one expense. A period keeps the dates
   * between its earlier and later bound, both included; a date that does not
   * parse is never kept.
   */
  predicate Matches(c: Criterion, e: Expense) {
    match c
    case OnDate(target) => DateText(e) == target
    case InCategory(query) => CategoryKey(e) == Lower(Strip(query))
    case InPeriod(start, end) =>
      match ParseIso(DateText(e))
      case None => false
      case Some(d) => NotAfter(Earlier(start, end), d) && NotAfter(d, Later(start, end))
  }

  /** `a` is `b` with some entries left out and the rest in their original order. */
  predicate IsSublist<T(==)>(a: seq<T>, b: seq<T>)
    decreases |b|
  {
    if a == [] then true
    else if b == [] then false
    else if a[|a| - 1] == b[|b| - 1] then IsSublist(a[..|a| - 1], b[..|b| - 1])
    else IsSublist(a, b[..|b| - 1])
  }

  /**
   * The expenses `c` keeps, in list order. The result is determined by its
   * contract: an ordered sub-list holding every matching expense as often as
   * the input does, and nothing else.
   */
  function Filter(es: seq<Expense>, c: Criterion): (r: seq<Expense>)
    ensures IsSublist(r, es)
    ensures forall i :: 0 <= i < |r| ==> Matches(c, r[i])
    ensures forall e :: Matches(c, e) ==> multiset(r)[e] == multiset(es)[e]
  {
    if es == [] then []
    else
      var e := es[|es| - 1];
      var rest := Filter(es[..|es| - 1], c);
      assert es == es[..|es| - 1] + [e];
      if Matches(c, e) then
        assert (rest + [e])[..|rest|] == rest;
        rest + [e]
      else
        assert rest != [] ==> rest[|rest| - 1] != e;
        SublistOfLonger(rest, es[..|es| - 1], e);
        rest
  }

  lemma SublistOfLonger<T>(a: seq<T>, b: seq<T>, x: T)
    requires IsSublist(a, b)
    requires a != [] ==> a[|a| - 1] != x
    ensures IsSublist(a, b + [x])
  {
    if a != [] {
      assert (b + [x])[..|b|] == b;
    }
  }

  /** Two criteria that keep the same expenses filter every list alike. */
  lemma {:induction false} FilterSameRule(es: seq<Expense>, c1: Criterion, c2: Criterion)
    requires forall e :: Matches(c1, e) == Matches(c2, e)
    ensures Filter(es, c1) == Filter(es, c2)
  {
    if es != [] {
      FilterSameRule(es[..|es| - 1], c1, c2);
    }
  }

  /** `filter_by_date`: the expenses whose date text equals `target` exactly. */
  function FilterByDate(es: seq<Expense>, target: string): (r: seq<Expense>)
    ensures IsSublist(r, es)
    ensures forall i :: 0 <= i < |r| ==> DateText(r[i]) == target
    ensures forall e :: DateText(e) == target ==> multiset(r)[e] == multiset(es)[e]
  {
    Filter(es, OnDate(target))
  }

  /** `filter_by_category`: trimmed, lower-cased category equal to the trimmed, lower-cased query. */
  function FilterByCategory(es: seq<Expense>, query: string): (r: seq<Expense>)
    ensures IsSublist(r, es)
    ensures forall i :: 0 <= i < |r| ==> CategoryKey(r[i]) == Lower(Strip(query))
    ensures forall e :: CategoryKey(e) == Lower(Strip(query)) ==> multiset(r)[e] == multiset(es)[e]
  {
    Filter(es, InCategory(query))
  }

  /** Queries that normalise to the same key select the same expenses. */
  lemma CategoryQueriesAlike(es: seq<Expense>, q1: string, q2: string)
    requires Lower(Strip(q1)) == Lower(Strip(q2))
    ensures FilterByCategory(es, q1) == FilterByCategory(es, q2)
  {
    FilterSameRule(es, InCategory(q1), InCategory(q2));
  }

  /** A query that is already trimmed and lower-cased selects what the raw query does. */
  lemma CategoryQueryNormalized(es: seq<Expense>, query: string)
    ensures FilterByCategory(es, Lower(Strip(query))) == FilterByCategory(es, query)
  {
    LowerCommutesWithStrip(Strip(query));
    StripIdempotent(query);
    LowerIdempotent(Strip(query));
    CategoryQueriesAlike(es, Lower(Strip(query)), query);
  }

  /** `"Food"` between blanks and `"food"` select the same expenses. */
  lemma FoodQueries(es: seq<Expense>, lead: string, trail: string)
    requires AllSpace(lead) && AllSpace(trail)
    ensures FilterByCategory(es, lead + "Food" + trail) == FilterByCategory(es, "food")
  {
    StripPadded(lead, "Food", trail);
    StripOfStripped("food");
    LowerFood();
    CategoryQueriesAlike(es, lead + "Food" + trail, "food");
  }

  lemma LowerFood()
    ensures Lower("Food") == "food"
  {
  }

  /**
   * `filter_by_period`: both bounds are ISO dates (the caller obtained them
   * from `parse_date`); the bounds are put in order, then each expense whose
   * date parses and lies between them is kept.
   */
  method FilterByPeriod(es: seq<Expense>, start: string, end: string) returns (result: seq<Expense>)
    requires ParseIso(start).Some? && ParseIso(end).Some?
    ensures result == Filter(es, InPeriod(ParseIso(start).value, ParseIso(end).value))
  {
    var startD, endD := ParseIso(start).value, ParseIso(end).value;
    ghost var c := InPeriod(startD, endD);
    if Before(endD, startD) {
      startD, endD := endD, startD;
    }
    result := [];
    var i := 0;
    while i < |es|
      invariant 0 <= i <= |es|
      invariant startD == Earlier(c.start, c.end) && endD == Later(c.start, c.end)
      invariant result == Filter(es[..i], c)
    {
      var e := es[i];
      match ParseIso(DateText(e)) {
        case Some(d) =>
          if NotAfter(startD, d) && NotAfter(d, endD) {
            result := result + [e];
          }
        case None =>
      }
      assert es[..i + 1][..i] == es[..i];
      i := i + 1;
    }
    assert es[..i] == es;
  }

  /** Giving the bounds in either order selects the same expenses. */
  lemma PeriodSwap(es: seq<Expense>, start: Date, end: Date)
    ensures Filter(es, InPeriod(start, end)) == Filter(es, InPeriod(end, start))
  {
    BeforeTotal(start, end);
    FilterSameRule(es, InPeriod(start, end), InPeriod(end, start));
  }

  /** An expense whose stored date is not an ISO date is never in a period. */
  lemma PeriodDropsUnparsable(es: seq<Expense>, start: Date, end: Date, e: Expense)
    requires ParseIso(DateText(e)).None?
    ensures multiset(Filter(es, InPeriod(start, end)))[e] == 0
  {
  }

  // ---------------------------------------------------------------------------
  // Report by category
  // ---------------------------------------------------------------------------

  /** The report's group labels present in `es`. */
  function Labels(es: seq<Expense>): set<string> {
    if es == [] then {} else Labels(es[..|es| - 1]) + {ReportLabel(es[|es| - 1])}
  }

  lemma LabelsAppend(es: seq<Expense>, e: Expense)
    ensures Labels(es + [e]) == Labels(es) + {ReportLabel(e)}
  {
    assert (es + [e])[..|es|] == es;
  }

  /** The labels are exactly those of the expenses in the list. */
  lemma {:induction false} LabelsExactly(es: seq<Expense>, k: string)
    ensures k in Labels(es) <==> exists i :: 0 <= i < |es| && ReportLabel(es[i]) == k
  {
    if es != [] {
      var es' := es[..|es| - 1];
      LabelsExactly(es', k);
      if k in Labels(es') {
        var i :| 0 <= i < |es'| && ReportLabel(es'[i]) == k;
        assert es[i] == es'[i];
      }
      if exists i :: 0 <= i < |es| && ReportLabel(es[i]) == k {
        var i :| 0 <= i < |es| && ReportLabel(es[i]) == k;
        if i < |es'| {
          assert es'[i] == es[i];
        }
      }
    }
  }

  /** The amounts of the expenses in group `group`. */
  function LabelTotal(es: seq<Expense>, group: string): real {
    if es == [] then 0.0
    else
      LabelTotal(es[..|es| - 1], group)
        + (if ReportLabel(es[|es| - 1]) == group then AmountOf(es[|es| - 1]) else 0.0)
  }

  /** The sum of a report's values. */
  ghost function MapSum(m: map<string, real>): real
    decreases |m|
  {
    if m == map[] then 0.0
    else
      var k :| k in m;
      m[k] + MapSum(m - {k})
  }

  /** The sum does not depend on which key is taken out first. */
  lemma {:induction false} MapSumRemove(m: map<string, real>, k: string)
    requires k in m
    ensures MapSum(m) == m[k] + MapSum(m - {k})
    decreases |m|
  {
    var j :| j in m && MapSum(m) == m[j] + MapSum(m - {j});
    if j != k {
      MapSumRemove(m - {j}, k);
      MapSumRemove(m - {k}, j);
      assert m - {j} - {k} == m - {k} - {j};
    }
  }

  lemma MapSumUpdate(m: map<string, real>, k: string, v: real)
    ensures MapSum(m[k := v]) == MapSum(m) - (if k in m then m[k] else 0.0) + v
  {
    MapSumRemove(m[k := v], k);
    assert m[k := v] - {k} == m - {k};
    if k in m {
      MapSumRemove(m, k);
    } else {
      assert m - {k} == m;
    }
  }

  /**
   * `report_by_categories`: one entry per group label present, holding the sum
   * of that group's amounts; all entries together add up to the total.
   */
  method ReportByCategories(es: seq<Expense>) returns (report: map<string, real>)
    ensures IsReportOf(report, es)
  {
    report := map[];
    var i := 0;
    while i < |es|
      invariant 0 <= i <= |es|
      invariant IsReportOf(report, es[..i])
    {
      var e := es[i];
      var cat := ReportLabel(e);
      var amount := AmountOf(e);
      var before := if cat in report then report[cat] else 0.0;
      assert es[..i + 1] == es[..i] + [e];
      ReportStep(report, es[..i], e, cat, before + amount);
      report := report[cat := before + amount];
      i := i + 1;
    }
    assert es[..i] == es;
  }

  /**
   * `report` is the per-category report of `es`: its keys are the labels
   * present, each holds its group's sum, and together they add up to the total.
   */
  ghost predicate IsReportOf(report: map<string, real>, es: seq<Expense>) {
    && report.Keys == Labels(es)
    && (forall k :: k in report ==> report[k] == LabelTotal(es, k))
    && MapSum(report) == Total(es)
  }

  /** Adding one expense's amount to its group keeps the report exact. */
  lemma ReportStep(report: map<string, real>, es: seq<Expense>, e: Expense, cat: string, v: real)
    requires IsReportOf(report, es)
    requires cat == ReportLabel(e)
    requires v == (if cat in report then report[cat] else 0.0) + AmountOf(e)
    ensures IsReportOf(report[cat := v], es + [e])
  {
    LabelsAppend(es, e);
    ReportStepValues(report, es, e, cat, v);
    MapSumUpdate(report, cat, v);
    TotalAppend(es, [e]);
    TotalOfOne(e);
  }

  lemma ReportStepValues(report: map<string, real>, es: seq<Expense>, e: Expense, cat: string, v: real)
    requires report.Keys == Labels(es)
    requires forall k :: k in report ==> report[k] == LabelTotal(es, k)
    requires cat == ReportLabel(e)
    requires v == (if cat in report then report[cat] else 0.0) + AmountOf(e)
    ensures forall k :: k in report[cat := v] ==> report[cat := v][k] == LabelTotal(es + [e], k)
  {
    var es' := es + [e];
    assert es'[..|es'| - 1] == es;
    if cat !in report {
      LabelTotalAbsent(es, cat);
    }
  }

  lemma {:induction false} LabelTotalAbsent(es: seq<Expense>, group: string)
    requires group !in Labels(es)
    ensures LabelTotal(es, group) == 0.0
  {
    if es != [] {
      LabelTotalAbsent(es[..|es| - 1], group);
    }
  }

  /** An empty list gives an empty report, and its total is 0. */
  lemma EmptyReport()
    ensures Labels([]) == {} && Total([]) == 0.0
  {
  }

  /** A missing category is reported under the sentinel; a blank one under `""`. */
  lemma ReportLabelDefaults(amount: Option<real>, date: Option<string>, comment: Option<string>)
    ensures ReportLabel(Expense(amount, None, date, comment)) == Parsers.Uncategorized
    ensures ReportLabel(Expense(amount, Some("  "), date, comment)) == ""
  {
    StripBlank();
  }

  lemma StripBlank()
    ensures Strip("  ") == ""
  {
    assert "  "[1..] == " ";
    assert " "[1..] == "";
  }

  /**
   * `"Food"` and `"food"` followed by blanks stay two groups: the report trims
   * but does not fold case.
   */
  lemma ReportKeepsCase(a: real, b: real, date: Option<string>, trail: string)
    requires AllSpace(trail)
    ensures Labels([Expense(Some(a), Some("Food"), date, None), Expense(Some(b), Some("food" + trail), date, None)])
            == {"Food", "food"}
  {
    var e1 := Expense(Some(a), Some("Food"), date, None);
    var e2 := Expense(Some(b), Some("food" + trail), date, None);
    LabelsOfOne(e1, "Food");
    LabelsAppend([e1], e2);
    assert [e1] + [e2] == [e1, e2];
    assert [] + "food" + trail == "food" + trail;
    StripPadded([], "food", trail);
  }

  lemma LabelsOfOne(e: Expense, group: string)
    requires e.category == Some(group) && IsStripped(group)
    ensures Labels([e]) == {group}
  {
    StripOfStripped(group);
    assert [e][..0] == [];
  }
}

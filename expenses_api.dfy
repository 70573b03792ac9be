/** pages/api/expenses/index.js: listing expenses (GET) filtered by a date
    range, a category and a search term, newest first, with their totals;
    creating one (POST) is `Expense.create`, whose validation is
    `ExpenseModel.NewExpense`. */
module ExpensesApi {
  import opened Wrappers
  import opened Seqs
  import opened Text
  import opened ExpenseModel

  const DayMs: int := 86400000

  /** `end.setHours(23, 59, 59, 999)`: the last millisecond of the day `t`
      falls on, with days counted in UTC. */
  function EndOfDay(t: int): (e: int)
    ensures t <= e < t + DayMs
    ensures (e + 1) % DayMs == 0
  {
    t - t % DayMs + DayMs - 1
  }

  /** The GET filter; every part is optional. */
  datatype ExpenseQuery = ExpenseQuery(
    from: Option<int>,
    through: Option<int>,
    category: Option<string>,
    search: Option<string>)

  /** The query a GET request asks for: each part set exactly when its
      parameter is given, "all" and the empty category ignored, and the end
      bound moved to the end of its day. */
  function RequestedQuery(startDate: Option<int>, endDate: Option<int>, category: Option<string>, search: Option<string>): ExpenseQuery
  {
    ExpenseQuery(
      startDate,
      if endDate.Some? then Some(EndOfDay(endDate.value)) else None,
      if category.Some? && category.value != "" && category.value != "all" then category else None,
      if search.Some? && search.value != "" then search else None)
  }

  /** The handler's construction of `query`, one field at a time. The dates
      arrive already parsed; `None` is an absent or empty one. */
  method BuildExpenseQuery(startDate: Option<int>, endDate: Option<int>, category: Option<string>, search: Option<string>)
    returns (q: ExpenseQuery)
    ensures q.from == startDate
    ensures q.through.Some? <==> endDate.Some?
    ensures endDate.Some? ==> q.through.value == EndOfDay(endDate.value) >= endDate.value
    ensures q.category.Some? <==> category.Some? && category.value != "" && category.value != "all"
    ensures q.category.Some? ==> q.category.value == category.value
    ensures q.search.Some? <==> search.Some? && search.value != ""
    ensures q.search.Some? ==> q.search.value == search.value
    ensures q == RequestedQuery(startDate, endDate, category, search)
  {
    q := ExpenseQuery(None, None, None, None);
    if startDate.Some? || endDate.Some? {
      if startDate.Some? {
        q := q.(from := startDate);
      }
      if endDate.Some? {
        var end := EndOfDay(endDate.value);
        q := q.(through := Some(end));
      }
    }
    if category.Some? && category.value != "" && category.value != "all" {
      q := q.(category := category);
    }
    if search.Some? && search.value != "" {
      q := q.(search := search);
    }
  }

  /** An expense the query selects: its date within the bounds that are
      set, both inclusive; its category equal to the one asked for; and
      the term in its description, vendor or receipt number ignoring case. */
  predicate MatchesQuery(q: ExpenseQuery, e: Expense)
  {
    && (q.from.None? || q.from.value <= e.date)
    && (q.through.None? || e.date <= q.through.value)
    && (q.category.None? || e.category.Name() == q.category.value)
    && (q.search.None? || ContainsIgnoreCase(e.description, q.search.value)
                       || ContainsIgnoreCase(e.vendorName, q.search.value)
                       || ContainsIgnoreCase(e.receiptNumber, q.search.value))
  }

  function Matcher(q: ExpenseQuery): Expense -> bool
  {
    (e: Expense) => MatchesQuery(q, e)
  }

  /** `sort({ date: -1 })`. */
  function NewestFirst(a: Expense, b: Expense): bool
  {
    a.date >= b.date
  }

  /** `Expense.find(query).sort({ date: -1 })`: exactly the selected
      expenses, newest first. */
  function ListExpenses(expenses: seq<Expense>, q: ExpenseQuery): (r: seq<Expense>)
    ensures multiset(r) == multiset(Filter(expenses, Matcher(q)))
    ensures forall i, j :: 0 <= i < j < |r| ==> r[i].date >= r[j].date
    ensures forall i :: 0 <= i < |r| ==> r[i] in expenses && MatchesQuery(q, r[i])
    ensures forall i :: 0 <= i < |expenses| && MatchesQuery(q, expenses[i]) ==> expenses[i] in r
  {
    assert TotalPreorder(NewestFirst);
    SelectSorted(expenses, Matcher(q), NewestFirst)
  }

  /** A query with no part set selects every expense. */
  lemma EmptyQuerySelectsAll(expenses: seq<Expense>)
    ensures multiset(ListExpenses(expenses, ExpenseQuery(None, None, None, None))) == multiset(expenses)
  {
    FilterAll(expenses, Matcher(ExpenseQuery(None, None, None, None)));
  }

  /** An end date takes in the whole of its day: an expense dated later
      the same day is selected. */
  lemma EndDateInclusiveAllDay(q: ExpenseQuery, endDate: int, e: Expense)
    requires q == ExpenseQuery(None, Some(EndOfDay(endDate)), None, None)
    requires endDate <= e.date && e.date / DayMs == endDate / DayMs
    ensures MatchesQuery(q, e)
  {
    var day := endDate / DayMs;
    assert endDate - endDate % DayMs == day * DayMs;
    assert e.date < (day + 1) * DayMs;
  }

  function ExpenseAmount(e: Expense): int
  {
    e.amount
  }

  /** `exp.vatAmount || 0`. */
  function ExpenseVat(e: Expense): int
  {
    e.vatAmount
  }

  datatype Summary = Summary(totalAmount: int, totalVat: int, count: nat)

  /** The `summary` block over the returned list. */
  function SummaryOf(list: seq<Expense>): (s: Summary)
    ensures s.count == |list|
    ensures (forall i :: 0 <= i < |list| ==> list[i].amount >= 0) ==> s.totalAmount >= 0
    ensures (forall i :: 0 <= i < |list| ==> list[i].vatAmount >= 0) ==> s.totalVat >= 0
  {
    SumOfNonNegativeIf(list, ExpenseAmount);
    SumOfNonNegativeIf(list, ExpenseVat);
    Summary(SumOf(list, ExpenseAmount), SumOf(list, ExpenseVat), |list|)
  }

  lemma SumOfNonNegativeIf<T>(xs: seq<T>, f: T -> int)
    ensures (forall i :: 0 <= i < |xs| ==> f(xs[i]) >= 0) ==> SumOf(xs, f) >= 0
  {
    if forall i :: 0 <= i < |xs| ==> f(xs[i]) >= 0 {
      SumOfNonNegative(xs, f);
    }
  }

  /** The totals do not depend on the order of the list: they are the sums
      over the selected expenses in stored order. */
  lemma SummaryOfSelection(expenses: seq<Expense>, q: ExpenseQuery)
    ensures SummaryOf(ListExpenses(expenses, q)) ==
      Summary(SumOf(Filter(expenses, Matcher(q)), ExpenseAmount),
              SumOf(Filter(expenses, Matcher(q)), ExpenseVat),
              |Filter(expenses, Matcher(q))|)
  {
    var r := ListExpenses(expenses, q);
    var selected := Filter(expenses, Matcher(q));
    SumOfPermutation(r, selected, ExpenseAmount);
    SumOfPermutation(r, selected, ExpenseVat);
    assert |r| == |multiset(r)| == |multiset(selected)| == |selected|;
  }

  /** GET: the list and its summary. */
  method GetExpenses(expenses: seq<Expense>, startDate: Option<int>, endDate: Option<int>,
                     category: Option<string>, search: Option<string>)
    returns (list: seq<Expense>, summary: Summary)
    ensures forall i, j :: 0 <= i < j < |list| ==> list[i].date >= list[j].date
    ensures forall i :: 0 <= i < |list| ==>
      && list[i] in expenses
      && (startDate.Some? ==> startDate.value <= list[i].date)
      && (endDate.Some? ==> list[i].date <= EndOfDay(endDate.value))
      && (category.Some? && category.value != "" && category.value != "all" ==> list[i].category.Name() == category.value)
      && (search.Some? && search.value != "" ==>
            || ContainsIgnoreCase(list[i].description, search.value)
            || ContainsIgnoreCase(list[i].vendorName, search.value)
            || ContainsIgnoreCase(list[i].receiptNumber, search.value))
    ensures forall i :: 0 <= i < |expenses| ==>
      (&& (startDate.Some? ==> startDate.value <= expenses[i].date)
       && (endDate.Some? ==> expenses[i].date <= EndOfDay(endDate.value))
       && (category.Some? && category.value != "" && category.value != "all" ==> expenses[i].category.Name() == category.value)
       && (search.Some? && search.value != "" ==>
             || ContainsIgnoreCase(expenses[i].description, search.value)
             || ContainsIgnoreCase(expenses[i].vendorName, search.value)
             || ContainsIgnoreCase(expenses[i].receiptNumber, search.value)))
      ==> expenses[i] in list
    ensures multiset(list) == multiset(Filter(expenses, Matcher(RequestedQuery(startDate, endDate, category, search))))
    ensures summary.count == |list|
    ensures summary.totalAmount == SumOf(list, ExpenseAmount) && summary.totalVat == SumOf(list, ExpenseVat)
    ensures var selected := Filter(expenses, Matcher(RequestedQuery(startDate, endDate, category, search)));
      summary == Summary(SumOf(selected, ExpenseAmount), SumOf(selected, ExpenseVat), |selected|)
  {
    var q := BuildExpenseQuery(startDate, endDate, category, search);
    list := ListExpenses(expenses, q);
    summary := SummaryOf(list);
    SummaryOfSelection(expenses, q);
  }
}

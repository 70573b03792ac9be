/** pages/expenses.js: the client-side filter chain over the fetched
    expenses, the category label and colour helpers, and the summary
    cards. */
module ExpensesPage {
  import opened Wrappers
  import opened Seqs
  import opened Text
  import opened ExpenseModel
  import ExpensesApi
  import Badges

  /** The search step: the description, or the vendor or receipt number
      when present, contains the term ignoring case. */
  predicate SearchMatches(term: string, e: Expense)
  {
    || ContainsIgnoreCase(e.description, term)
    || (e.vendorName != "" && ContainsIgnoreCase(e.vendorName, term))
    || (e.receiptNumber != "" && ContainsIgnoreCase(e.receiptNumber, term))
  }

  function SearchStep(term: string): Expense -> bool
  {
    (e: Expense) => SearchMatches(term, e)
  }

  function CategoryStep(categoryFilter: string): Expense -> bool
  {
    (e: Expense) => e.category.Name() == categoryFilter
  }

  function StartStep(startDate: Option<int>): Expense -> bool
  {
    (e: Expense) => startDate.None? || e.date >= startDate.value
  }

  function EndStep(endDate: Option<int>): Expense -> bool
  {
    (e: Expense) => endDate.None? || e.date <= endDate.value
  }

  /** Everything `applyFilters` asks of one expense. Both date bounds are
      inclusive and compared as instants. */
  predicate Keeps(term: string, categoryFilter: string, startDate: Option<int>, endDate: Option<int>, e: Expense)
  {
    && (term == "" || SearchStep(term)(e))
    && (categoryFilter == "" || categoryFilter == "all" || CategoryStep(categoryFilter)(e))
    && (startDate.None? || StartStep(startDate)(e))
    && (endDate.None? || EndStep(endDate)(e))
  }

  /** `applyFilters`: the search, category, start-date and end-date steps,
      each applied only when its filter is set. */
  function ApplyFilters(expenses: seq<Expense>, term: string, categoryFilter: string,
                        startDate: Option<int>, endDate: Option<int>): seq<Expense>
  {
    var s1 := FilterIf(expenses, term != "", SearchStep(term));
    var s2 := FilterIf(s1, categoryFilter != "" && categoryFilter != "all", CategoryStep(categoryFilter));
    var s3 := FilterIf(s2, startDate.Some?, StartStep(startDate));
    FilterIf(s3, endDate.Some?, EndStep(endDate))
  }

  /** The filtered list keeps the order of the fetched one and holds
      exactly the expenses that pass every step that is set. */
  lemma ApplyFiltersSelects(expenses: seq<Expense>, term: string, categoryFilter: string,
                            startDate: Option<int>, endDate: Option<int>)
    ensures IsSubsequence(ApplyFilters(expenses, term, categoryFilter, startDate, endDate), expenses)
    ensures forall x :: x in ApplyFilters(expenses, term, categoryFilter, startDate, endDate) ==>
      x in expenses && Keeps(term, categoryFilter, startDate, endDate, x)
    ensures forall i :: 0 <= i < |expenses| && Keeps(term, categoryFilter, startDate, endDate, expenses[i]) ==>
      expenses[i] in ApplyFilters(expenses, term, categoryFilter, startDate, endDate)
  {
    FilterIfChain(expenses, term != "", SearchStep(term),
                  categoryFilter != "" && categoryFilter != "all", CategoryStep(categoryFilter),
                  startDate.Some?, StartStep(startDate), endDate.Some?, EndStep(endDate));
  }

  /** With no filter set the list is shown whole. */
  lemma NoFiltersShowAll(expenses: seq<Expense>)
    ensures ApplyFilters(expenses, "", "all", None, None) == expenses
  {
  }

  /** The query the list endpoint would build from the same filters. */
  predicate ApiQueryFor(q: ExpensesApi.ExpenseQuery, term: string, categoryFilter: string,
                        startDate: Option<int>, endDate: Option<int>)
  {
    && q.from == startDate
    && q.through == (if endDate.Some? then Some(ExpensesApi.EndOfDay(endDate.value)) else None)
    && q.category == (if categoryFilter != "" && categoryFilter != "all" then Some(categoryFilter) else None)
    && q.search == (if term != "" then Some(term) else None)
  }

  /** Every expense the page keeps, the list endpoint would also return for
      the same filters. */
  lemma PageWithinApi(expenses: seq<Expense>, term: string, categoryFilter: string,
                      startDate: Option<int>, endDate: Option<int>, q: ExpensesApi.ExpenseQuery)
    requires ApiQueryFor(q, term, categoryFilter, startDate, endDate)
    ensures forall i :: 0 <= i < |ApplyFilters(expenses, term, categoryFilter, startDate, endDate)| ==>
      ExpensesApi.MatchesQuery(q, ApplyFilters(expenses, term, categoryFilter, startDate, endDate)[i])
  {
    var r := ApplyFilters(expenses, term, categoryFilter, startDate, endDate);
    forall i | 0 <= i < |r| ensures ExpensesApi.MatchesQuery(q, r[i]) {
      assert Keeps(term, categoryFilter, startDate, endDate, r[i]);
      if endDate.Some? {
        assert r[i].date <= endDate.value <= ExpensesApi.EndOfDay(endDate.value);
      }
    }
  }

  /** The converse fails: the page's end date is the instant the date picker
      gives, so an expense later that day is dropped by the page but
      returned by the endpoint, which stretches the bound to the day's
      end. */
  lemma EndDateNarrowerThanApi(e: Expense, endDate: int, q: ExpensesApi.ExpenseQuery)
    requires endDate % ExpensesApi.DayMs == 0 && e.date == endDate + 1
    requires ApiQueryFor(q, "", "all", None, Some(endDate))
    ensures ExpensesApi.MatchesQuery(q, e)
    ensures ApplyFilters([e], "", "all", None, Some(endDate)) == []
  {
  }

  /** One entry of the `categories` table. */
  datatype CategoryOption = CategoryOption(value: string, caption: string, color: string)

  const Categories: seq<CategoryOption> := [
    CategoryOption("all", "All Categories", "gray"),
    CategoryOption("operating", "Operating Expenses", "blue"),
    CategoryOption("inventory", "Inventory/Purchase", "purple"),
    CategoryOption("tax", "Tax Payments", "red"),
    CategoryOption("labour_transport", "Labour & Transport", "green"),
    CategoryOption("other", "Other", "gray")]

  /** `categories.find(c => c.value === v)`: the first entry with that
      value. */
  function FindCategory(table: seq<CategoryOption>, v: string): (r: Option<CategoryOption>)
    ensures r.None? <==> forall i :: 0 <= i < |table| ==> table[i].value != v
    ensures r.Some? ==> r.value.value == v
    ensures r.Some? ==> exists i :: 0 <= i < |table| && table[i] == r.value && forall j :: 0 <= j < i ==> table[j].value != v
  {
    if table == [] then None
    else if table[0].value == v then
      assert table[0] == table[0];
      Some(table[0])
    else
      var r := FindCategory(table[1..], v);
      if r.Some? then
        var i :| 0 <= i < |table[1..]| && table[1..][i] == r.value
                 && forall j :: 0 <= j < i ==> table[1..][j].value != v;
        assert table[i + 1] == r.value;
        r
      else r
  }

  /** `getCategoryLabel`: the table's label, or the value itself when the
      table has no such entry. */
  function CategoryLabel(v: string): (r: string)
    ensures (forall i :: 0 <= i < |Categories| ==> Categories[i].value != v) ==> r == v
  {
    match FindCategory(Categories, v)
    case Some(c) => c.caption
    case None => v
  }

  /** In a table whose values are distinct, looking up an entry's value
      finds that entry. */
  lemma FindEntry(table: seq<CategoryOption>, k: int)
    requires 0 <= k < |table|
    requires forall i, j :: 0 <= i < j < |table| ==> table[i].value != table[j].value
    ensures FindCategory(table, table[k].value) == Some(table[k])
  {
    var r := FindCategory(table, table[k].value);
    var i :| 0 <= i < |table| && table[i] == r.value && forall j :: 0 <= j < i ==> table[j].value != table[k].value;
    assert !(i < k) && !(k < i);
  }

  /** The row of the table describing a stored category. */
  function RowOf(c: Category): (k: nat)
    ensures 0 < k < |Categories| && Categories[k].value == c.Name()
  {
    match c
    case Operating => 1
    case Inventory => 2
    case Tax => 3
    case LabourTransport => 4
    case OtherCategory => 5
  }

  /** The table's values are distinct, and so are the labels of the
      stored categories' rows. */
  lemma CategoriesDistinct()
    ensures forall i, j :: 0 <= i < j < |Categories| ==> Categories[i].value != Categories[j].value
    ensures forall i, j :: 0 < i < j < |Categories| ==> Categories[i].caption != Categories[j].caption
  {
  }

  /** Each stored category shows the label of its own row, never its raw
      value, and no two share a label. */
  lemma CategoryLabelsOfCategories(a: Category, b: Category)
    ensures CategoryLabel(a.Name()) == Categories[RowOf(a)].caption != a.Name()
    ensures a != b ==> CategoryLabel(a.Name()) != CategoryLabel(b.Name())
  {
    LabelOfRow(a);
    LabelOfRow(b);
    CategoriesDistinct();
    assert a != b ==> RowOf(a) != RowOf(b);
    CaptionsDifferFromValues(RowOf(a));
  }

  lemma CaptionsDifferFromValues(k: int)
    requires 0 <= k < |Categories|
    ensures Categories[k].caption != Categories[k].value
  {
    assert Categories[k].caption[0] != Categories[k].value[0];
  }

  lemma LabelOfRow(c: Category)
    ensures CategoryLabel(c.Name()) == Categories[RowOf(c)].caption
  {
    CategoriesDistinct();
    FindEntry(Categories, RowOf(c));
  }

  /** `colorMap[color] || colorMap.gray`. */
  function ColorClasses(color: string): string
  {
    if color == "blue" then Badges.Blue
    else if color == "purple" then Badges.Purple
    else if color == "red" then Badges.Red
    else if color == "green" then Badges.Green
    else Badges.Gray
  }

  /** `getCategoryColor`: the entry's colour, gray for an unknown value. */
  function CategoryColor(v: string): (r: string)
    ensures (forall i :: 0 <= i < |Categories| ==> Categories[i].value != v) ==> r == Badges.Gray
  {
    var color := match FindCategory(Categories, v)
      case Some(c) => c.color
      case None => "gray";
    ColorClasses(color)
  }

  function Amount(e: Expense): int
  {
    e.amount
  }

  function InCategory(c: Category): Expense -> bool
  {
    (e: Expense) => e.category == c
  }

  function TaxDeductible(e: Expense): bool
  {
    e.isTaxDeductible
  }

  /** The operating-expenses card, over every fetched expense. */
  function OperatingTotal(expenses: seq<Expense>): int
  {
    SumOf(Filter(expenses, InCategory(Operating)), Amount)
  }

  /** The inventory card. */
  function InventoryTotal(expenses: seq<Expense>): int
  {
    SumOf(Filter(expenses, InCategory(Inventory)), Amount)
  }

  /** The tax-deductible card. */
  function TaxDeductibleTotal(expenses: seq<Expense>): int
  {
    SumOf(Filter(expenses, TaxDeductible), Amount)
  }

  /** With the schema's non-negative amounts, the operating and inventory
      cards together and the tax-deductible card alone never exceed the sum
      of all expenses, and none is negative. */
  lemma CardTotalsBounded(expenses: seq<Expense>)
    requires forall i :: 0 <= i < |expenses| ==> expenses[i].amount >= 0
    ensures 0 <= OperatingTotal(expenses) && 0 <= InventoryTotal(expenses)
    ensures OperatingTotal(expenses) + InventoryTotal(expenses) <= SumOf(expenses, Amount)
    ensures 0 <= TaxDeductibleTotal(expenses) <= SumOf(expenses, Amount)
  {
    SumOfDisjointFilters(expenses, Amount, InCategory(Operating), InCategory(Inventory));
    SumOfFilterAtMost(expenses, Amount, TaxDeductible);
    var ops := Filter(expenses, InCategory(Operating));
    var inv := Filter(expenses, InCategory(Inventory));
    var tax := Filter(expenses, TaxDeductible);
    assert forall i :: 0 <= i < |ops| ==> ops[i] in expenses;
    SumOfNonNegative(ops, Amount);
    SumOfNonNegative(inv, Amount);
    SumOfNonNegative(tax, Amount);
  }
}

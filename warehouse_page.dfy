/** pages/warehouse.js: the stock badge of each product, the three summary
    cards (low stock, out of stock, inventory value), the search box and the
    sign shown on a stock-history entry. */
module WarehousePage {
  import opened Seqs
  import opened Text
  import opened ProductModel
  import Badges

  datatype StockStatus = Out | Low | Good {
    function Name(): string
    {
      match this
      case Out => "out"
      case Low => "low"
      case Good => "good"
    }
  }

  /** `getStockStatus`: out at exactly zero, low up to and including the
      threshold, good above it. */
  function StockStatusOf(p: Product): (s: StockStatus)
    ensures s == Out <==> p.currentStock == 0
    ensures s == Low <==> p.currentStock != 0 && p.currentStock <= p.lowStockThreshold
    ensures s == Good <==> p.currentStock != 0 && p.currentStock > p.lowStockThreshold
  {
    if p.currentStock == 0 then Out
    else if p.currentStock <= p.lowStockThreshold then Low
    else Good
  }

  /** `getStockColor`: red, yellow and green for the three statuses, gray
      for any other text. */
  function StockColor(status: string): (r: string)
    ensures r == Badges.Gray <==> status != "out" && status != "low" && status != "good"
  {
    if status == "out" then Badges.Red
    else if status == "low" then Badges.Yellow
    else if status == "good" then Badges.Green
    else Badges.Gray
  }

  /** Every status gets a colour of its own. */
  lemma StockColorsDistinct(a: StockStatus, b: StockStatus)
    requires a != b
    ensures StockColor(a.Name()) != StockColor(b.Name())
  {
  }

  /** The filter behind `lowStockCount`. */
  predicate CountedLow(p: Product)
  {
    p.currentStock > 0 && p.currentStock <= p.lowStockThreshold
  }

  /** The filter behind `outOfStockCount`. */
  predicate CountedOut(p: Product)
  {
    p.currentStock == 0
  }

  function HasStatus(s: StockStatus): Product -> bool
  {
    (p: Product) => StockStatusOf(p) == s
  }

  function LowStockCount(products: seq<Product>): nat
  {
    Count(products, CountedLow)
  }

  function OutOfStockCount(products: seq<Product>): nat
  {
    Count(products, CountedOut)
  }

  /** `currentStock * unitPrice`. */
  function StockValue(p: Product): int
  {
    p.currentStock * p.unitPrice
  }

  /** `totalValue`. */
  function TotalValue(products: seq<Product>): int
  {
    SumOf(products, StockValue)
  }

  /** Counting is the same whatever predicate is used, when the two agree
      on every element. */
  lemma {:induction false} CountAgrees(xs: seq<Product>, p: Product -> bool, q: Product -> bool)
    requires forall i :: 0 <= i < |xs| ==> p(xs[i]) == q(xs[i])
    ensures Count(xs, p) == Count(xs, q)
  {
    if xs != [] {
      CountAgrees(xs[1..], p, q);
    }
  }

  /** The out-of-stock card counts exactly the products with the 'out'
      badge. */
  lemma OutCountMatchesBadges(products: seq<Product>)
    ensures OutOfStockCount(products) == Count(products, HasStatus(Out))
  {
    CountAgrees(products, CountedOut, HasStatus(Out));
  }

  /** With no negative stock (the schema's minimum), the low-stock card
      counts exactly the products with the 'low' badge. A negative stock
      would get the badge but not be counted. */
  lemma LowCountMatchesBadges(products: seq<Product>)
    requires forall i :: 0 <= i < |products| ==> products[i].currentStock >= 0
    ensures LowStockCount(products) == Count(products, HasStatus(Low))
  {
    CountAgrees(products, CountedLow, HasStatus(Low));
  }

  /** Every product gets exactly one badge, so the three badge counts add
      up to the number of products. */
  lemma BadgeCountsCoverAll(products: seq<Product>)
    ensures Count(products, HasStatus(Out)) + Count(products, HasStatus(Low)) + Count(products, HasStatus(Good)) == |products|
  {
    var notOut := (p: Product) => StockStatusOf(p) != Out;
    var all := (p: Product) => true;
    CountDisjointUnion(products, HasStatus(Low), HasStatus(Good), notOut);
    CountDisjointUnion(products, HasStatus(Out), notOut, all);
    FilterAll(products, all);
  }

  /** With no negative stock or price, the inventory value is not negative
      and no product's value exceeds it. */
  lemma {:induction false} TotalValueBounds(products: seq<Product>)
    requires forall i :: 0 <= i < |products| ==> products[i].currentStock >= 0 && products[i].unitPrice >= 0
    ensures TotalValue(products) >= 0
    ensures forall i :: 0 <= i < |products| ==> StockValue(products[i]) <= TotalValue(products)
  {
    if products != [] {
      var front := products[..|products| - 1];
      TotalValueBounds(front);
      forall i | 0 <= i < |products|
        ensures StockValue(products[i]) <= TotalValue(products)
      {
        if i < |front| {
          assert products[i] == front[i];
        }
      }
    }
  }

  /** The search box: a product whose name, or whose category when it has
      one, contains the term ignoring case. */
  predicate ProductMatches(term: string, p: Product)
  {
    ContainsIgnoreCase(p.name, term) || (p.category != "" && ContainsIgnoreCase(p.category, term))
  }

  function Matcher(term: string): Product -> bool
  {
    (p: Product) => ProductMatches(term, p)
  }

  /** `filteredProducts`: all products for an empty term, otherwise the
      matching ones, in their order. */
  function SearchProducts(products: seq<Product>, term: string): (r: seq<Product>)
    ensures IsSubsequence(r, products)
    ensures term == "" ==> r == products
    ensures forall i :: 0 <= i < |r| ==> r[i] in products && (term == "" || ProductMatches(term, r[i]))
    ensures forall i :: 0 <= i < |products| && ProductMatches(term, products[i]) ==> products[i] in r
  {
    FilterIf(products, term != "", Matcher(term))
  }

  /** A product found by its own name ignoring case is never hidden. */
  lemma SearchFindsByName(products: seq<Product>, i: int, term: string)
    requires 0 <= i < |products| && Lower(products[i].name) == Lower(term)
    ensures products[i] in SearchProducts(products, term)
  {
    ContainsIgnoreCaseOfEqual(products[i].name, term);
  }

  /** The sign shown before a history entry's quantity. */
  function ChangeSign(kind: StockEventType): (c: char)
    ensures c == '+' <==> kind == Addition
    ensures c == '+' || c == '-'
  {
    if kind == Addition then '+' else '-'
  }
}

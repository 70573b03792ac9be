/** pages/api/Product/index.js: listing products (GET, with an active-flag
    filter, a case-insensitive search and ordering by name) and creating
    one (POST, with a case-insensitive duplicate-name check, defaults and
    an initial stock-history entry). */
module ProductApi {
  import opened Wrappers
  import opened Seqs
  import opened Text
  import opened ProductModel

  /** The GET filter: `isActive` when `active` was given, and a search term
      when `search` was given and is not empty. */
  datatype ProductQuery = ProductQuery(isActive: Option<bool>, search: Option<string>)

  /** The GET handler's construction of `query`, one field at a time. */
  method BuildProductQuery(search: Option<string>, active: Option<string>) returns (q: ProductQuery)
    ensures q.isActive.Some? <==> active.Some?
    ensures active.Some? ==> (q.isActive.value <==> active.value == "true")
    ensures q.search.Some? <==> search.Some? && search.value != ""
    ensures q.search.Some? ==> q.search.value == search.value
  {
    q := ProductQuery(None, None);
    if active.Some? {
      q := q.(isActive := Some(active.value == "true"));
    }
    if search.Some? && search.value != "" {
      q := q.(search := Some(search.value));
    }
  }

  /** A product the query selects: the active flag agrees when it is
      constrained, and the name or the category contains the term ignoring
      case when there is one. */
  predicate MatchesQuery(q: ProductQuery, p: Product)
  {
    && (q.isActive.None? || p.isActive == q.isActive.value)
    && (q.search.None? || ContainsIgnoreCase(p.name, q.search.value) || ContainsIgnoreCase(p.category, q.search.value))
  }

  function Matcher(q: ProductQuery): Product -> bool
  {
    (p: Product) => MatchesQuery(q, p)
  }

  /** The store's string order: by code point, a prefix first. */
  predicate LexLeq(a: string, b: string)
  {
    if a == [] then true
    else if b == [] then false
    else if a[0] != b[0] then a[0] < b[0]
    else LexLeq(a[1..], b[1..])
  }

  lemma {:induction false} LexLeqTotal(a: string, b: string)
    ensures LexLeq(a, b) || LexLeq(b, a)
  {
    if a != [] && b != [] && a[0] == b[0] {
      LexLeqTotal(a[1..], b[1..]);
    }
  }

  lemma {:induction false} LexLeqTransitive(a: string, b: string, c: string)
    requires LexLeq(a, b) && LexLeq(b, c)
    ensures LexLeq(a, c)
  {
    if a != [] && b != [] && c != [] && a[0] == b[0] && b[0] == c[0] {
      LexLeqTransitive(a[1..], b[1..], c[1..]);
    }
  }

  /** `sort({ name: 1 })`. */
  function NameLeq(p: Product, q: Product): bool
  {
    LexLeq(p.name, q.name)
  }

  lemma NameOrderIsTotalPreorder()
    ensures TotalPreorder(NameLeq)
  {
    forall a: Product, b: Product
      ensures NameLeq(a, b) || NameLeq(b, a)
    {
      LexLeqTotal(a.name, b.name);
    }
    forall a: Product, b: Product, c: Product | NameLeq(a, b) && NameLeq(b, c)
      ensures NameLeq(a, c)
    {
      LexLeqTransitive(a.name, b.name, c.name);
    }
  }

  /** `Product.find(query).sort({ name: 1 })`: exactly the selected
      products, ordered by name. */
  function ListProducts(products: seq<Product>, q: ProductQuery): (r: seq<Product>)
    ensures multiset(r) == multiset(Filter(products, Matcher(q)))
    ensures SortedBy(r, NameLeq)
    ensures forall i :: 0 <= i < |r| ==> r[i] in products && MatchesQuery(q, r[i])
    ensures forall i :: 0 <= i < |products| && MatchesQuery(q, products[i]) ==> products[i] in r
  {
    NameOrderIsTotalPreorder();
    SelectSorted(products, Matcher(q), NameLeq)
  }

  /** The POST body; `None` is an absent field. */
  datatype ProductInput = ProductInput(
    name: Option<string>,
    unit: string,
    currentStock: Option<int>,
    unitPrice: Option<int>,
    lowStockThreshold: Option<int>,
    description: string,
    category: string)

  datatype ProductError =
    | DuplicateName               // 400 from the handler's own check
    | Invalid(cause: SchemaError) // the schema rejected the record
    | DuplicateKey                // the unique index on the stored name

  /** `currentStock || 0`. */
  function StockOrZero(input: ProductInput): int
  {
    if input.currentStock.None? || input.currentStock.value == 0 then 0 else input.currentStock.value
  }

  /** The history a new product starts with: one addition from 0 up to the
      initial stock when that is positive, nothing otherwise. */
  function InitialHistory(stock: int, now: int): (h: seq<StockEvent>)
    ensures |h| == if stock > 0 then 1 else 0
    ensures forall i :: 0 <= i < |h| ==>
      && h[i].kind == Addition && h[i].previousStock == 0
      && h[i].newStock == h[i].previousStock + h[i].quantity
      && h[i].newStock == stock && h[i].reason == "Initial stock"
      && h[i].orderId.None? && h[i].date == now
  {
    if stock > 0 then [StockEvent(Addition, stock, 0, stock, "Initial stock", None, now)] else []
  }

  /** The record handed to `Product.create`. */
  function DraftOf(input: ProductInput, now: int): ProductDraft
  {
    var stock := StockOrZero(input);
    ProductDraft(input.name.GetOr(""), input.unit, Some(stock), input.unitPrice,
                 Some(if input.lowStockThreshold.None? || input.lowStockThreshold.value == 0 then 10
                      else input.lowStockThreshold.value),
                 input.description, input.category, None, InitialHistory(stock, now))
  }

  /** Some stored product's name equals `name` ignoring case: the
      `^name$` match with the `i` flag. */
  predicate NameTaken(products: seq<Product>, name: string)
  {
    exists i :: 0 <= i < |products| && Lower(products[i].name) == Lower(name)
  }

  /** The unique index on `name`: an exact match. */
  predicate NameStored(products: seq<Product>, name: string)
  {
    exists i :: 0 <= i < |products| && products[i].name == name
  }

  /** No two stored names are equal ignoring case. */
  predicate NamesDistinctIgnoringCase(products: seq<Product>)
  {
    forall i, j :: 0 <= i < j < |products| ==> Lower(products[i].name) != Lower(products[j].name)
  }

  /** No two stored names are equal: the unique index on `name`. */
  predicate NamesUnique(products: seq<Product>)
  {
    forall i, j :: 0 <= i < j < |products| ==> products[i].name != products[j].name
  }

  /** The POST outcome when the duplicate check compares `checkedName`. */
  function CreateChecking(products: seq<Product>, id: ProductId, input: ProductInput, now: int,
                          checkedName: string): (r: Result<Product, ProductError>)
    ensures NameTaken(products, checkedName) ==> r == Err(DuplicateName)
    ensures r.Ok? <==> && !NameTaken(products, checkedName)
                       && NewProduct(id, DraftOf(input, now), now).Ok?
                       && !NameStored(products, NewProduct(id, DraftOf(input, now), now).value.name)
    ensures !NameTaken(products, checkedName) && NewProduct(id, DraftOf(input, now), now).Err? ==>
      r == Err(Invalid(NewProduct(id, DraftOf(input, now), now).error))
    ensures (&& !NameTaken(products, checkedName)
             && NewProduct(id, DraftOf(input, now), now).Ok?
             && NameStored(products, NewProduct(id, DraftOf(input, now), now).value.name))
            ==> r == Err(DuplicateKey)
    ensures r.Ok? ==> !NameTaken(products, checkedName) && !NameStored(products, r.value.name)
    ensures r.Ok? ==> input.name.Some? && r.value.name == Trim(input.name.value)
    ensures r.Ok? ==> r.value.id == id && r.value.createdAt == now
    ensures r.Ok? ==> r.value.currentStock == (if input.currentStock.Some? then input.currentStock.value else 0)
                      && r.value.currentStock >= 0
    ensures r.Ok? ==> r.value.lowStockThreshold != 0
                      && (input.lowStockThreshold.Some? && input.lowStockThreshold.value != 0 ==>
                            r.value.lowStockThreshold == input.lowStockThreshold.value)
    ensures r.Ok? ==> && r.value.isActive
                      && r.value.unitPrice == (if input.unitPrice.Some? then input.unitPrice.value else 0)
                      && r.value.unit.Name() == input.unit
    ensures r.Ok? ==> (r.value.stockHistory != [] <==> r.value.currentStock > 0)
    ensures r.Ok? && r.value.stockHistory != [] ==>
      var last := r.value.stockHistory[|r.value.stockHistory| - 1];
      last.newStock == r.value.currentStock && last.kind == Addition
      && last.newStock == last.previousStock + last.quantity
  {
    if NameTaken(products, checkedName) then Err(DuplicateName)
    else match NewProduct(id, DraftOf(input, now), now)
      case Err(e) => Err(Invalid(e))
      case Ok(p) => if NameStored(products, p.name) then Err(DuplicateKey) else Ok(p)
  }

  /** The name the handler's check interpolates: as submitted, and the word
      `undefined` when absent. */
  function SubmittedName(input: ProductInput): string
  {
    input.name.GetOr("undefined")
  }

  /** POST as written: the duplicate check uses the submitted name, while
      the schema trims the name it stores. A name taken ignoring case is
      refused with 400; a created product's submitted name is free ignoring
      case and its stored name is free exactly. */
  function CreateAsWritten(products: seq<Product>, id: ProductId, input: ProductInput, now: int): (r: Result<Product, ProductError>)
    ensures NameTaken(products, SubmittedName(input)) ==> r == Err(DuplicateName)
    ensures r.Ok? <==> && !NameTaken(products, SubmittedName(input))
                       && NewProduct(id, DraftOf(input, now), now).Ok?
                       && !NameStored(products, NewProduct(id, DraftOf(input, now), now).value.name)
    ensures !NameTaken(products, SubmittedName(input)) && NewProduct(id, DraftOf(input, now), now).Err? ==>
      r == Err(Invalid(NewProduct(id, DraftOf(input, now), now).error))
    ensures (&& !NameTaken(products, SubmittedName(input))
             && NewProduct(id, DraftOf(input, now), now).Ok?
             && NameStored(products, NewProduct(id, DraftOf(input, now), now).value.name))
            ==> r == Err(DuplicateKey)
    ensures r.Ok? ==> !NameTaken(products, SubmittedName(input)) && !NameStored(products, r.value.name)
                      && r.value.name == Trim(SubmittedName(input))
    ensures r.Ok? ==> r.value.id == id && r.value.createdAt == now
    ensures r.Ok? ==> r.value.currentStock == (if input.currentStock.Some? then input.currentStock.value else 0)
                      && r.value.currentStock >= 0
    ensures r.Ok? ==> r.value.lowStockThreshold != 0
                      && (input.lowStockThreshold.Some? && input.lowStockThreshold.value != 0 ==>
                            r.value.lowStockThreshold == input.lowStockThreshold.value)
    ensures r.Ok? ==> && r.value.isActive
                      && r.value.unitPrice == (if input.unitPrice.Some? then input.unitPrice.value else 0)
                      && r.value.unit.Name() == input.unit
    ensures r.Ok? ==> (r.value.stockHistory != [] <==> r.value.currentStock > 0)
    ensures r.Ok? && r.value.stockHistory != [] ==>
      var last := r.value.stockHistory[|r.value.stockHistory| - 1];
      last.newStock == r.value.currentStock && last.kind == Addition
      && last.newStock == last.previousStock + last.quantity
  {
    CreateChecking(products, id, input, now, SubmittedName(input))
  }

  lemma TrimPaddedRice()
    ensures Trim(" rice ") == "rice"
  {
    assert LeadingWhitespace("rice ") == 0;
    assert LeadingWhitespace(" rice ") == 1;
    assert " rice "[..5] == " rice";
    assert TrailingWhitespace(" rice") == 0;
    assert TrailingWhitespace(" rice ") == 1;
    assert " rice "[1..5] == "rice";
  }

  lemma LowerRice()
    ensures Lower("Rice") == "rice" && Lower("rice") == "rice" && |Lower(" rice ")| == 6
  {
    assert Lower("e") == "e";
    assert Lower("ce") == "ce";
    assert Lower("ice") == "ice";
    assert "Rice"[1..] == "ice" && "rice"[1..] == "ice";
  }

  lemma StoresPaddedRiceTrimmed(input: ProductInput)
    requires input == ProductInput(Some(" rice "), "bags", None, None, None, "", "")
    ensures NewProduct(1, DraftOf(input, 0), 0) == Ok(Product(1, "rice", Bags, 0, 0, 10, "", "", true, [], 0))
  {
    TrimPaddedRice();
    assert ParseUnit("bags") == Some(Bags);
  }

  /** The check as written lets a padded name through next to a stored name
      equal to it ignoring case: with "Rice" stored, " rice " is created
      as "rice". */
  lemma AsWrittenAdmitsCaseDuplicate(rice: Product, input: ProductInput)
    requires rice == Product(0, "Rice", Bags, 0, 0, 10, "", "", true, [], 0)
    requires input == ProductInput(Some(" rice "), "bags", None, None, None, "", "")
    ensures CreateAsWritten([rice], 1, input, 0).Ok?
    ensures CreateAsWritten([rice], 1, input, 0).value.name == "rice"
    ensures Lower(CreateAsWritten([rice], 1, input, 0).value.name) == Lower(rice.name)
  {
    assert !NameTaken([rice], SubmittedName(input)) by {
      LowerRice();
    }
    StoresPaddedRiceTrimmed(input);
    assert !NameStored([rice], "rice") by {
      assert "Rice"[0] != "rice"[0];
    }
    TrimPaddedRice();
    LowerRice();
  }

  /** The corrected check refuses the padded name that the handler as
      written lets in. */
  lemma CorrectedRefusesPaddedRice(rice: Product, input: ProductInput)
    requires rice == Product(0, "Rice", Bags, 0, 0, 10, "", "", true, [], 0)
    requires input == ProductInput(Some(" rice "), "bags", None, None, None, "", "")
    ensures CreateOutcome([rice], 1, input, 0) == Err(DuplicateName)
  {
    assert SubmittedName(input) == " rice ";
    TrimPaddedRice();
    LowerRice();
    assert [rice][0].name == "Rice";
    assert Lower([rice][0].name) == Lower("rice");
    assert NameTaken([rice], "rice");
  }

  /** POST with the duplicate check on the name as it will be stored: the
      corrected handler. */
  function CreateOutcome(products: seq<Product>, id: ProductId, input: ProductInput, now: int): (r: Result<Product, ProductError>)
    ensures NameTaken(products, Trim(SubmittedName(input))) ==> r == Err(DuplicateName)
    ensures r.Ok? <==> && !NameTaken(products, Trim(SubmittedName(input)))
                       && NewProduct(id, DraftOf(input, now), now).Ok?
                       && !NameStored(products, NewProduct(id, DraftOf(input, now), now).value.name)
    ensures !NameTaken(products, Trim(SubmittedName(input))) && NewProduct(id, DraftOf(input, now), now).Err? ==>
      r == Err(Invalid(NewProduct(id, DraftOf(input, now), now).error))
    ensures (&& !NameTaken(products, Trim(SubmittedName(input)))
             && NewProduct(id, DraftOf(input, now), now).Ok?
             && NameStored(products, NewProduct(id, DraftOf(input, now), now).value.name))
            ==> r == Err(DuplicateKey)
    ensures r.Ok? ==> !NameTaken(products, r.value.name) && r.value.name == Trim(SubmittedName(input))
    ensures r.Ok? ==> r.value.id == id && r.value.createdAt == now
    ensures r.Ok? ==> r.value.currentStock == (if input.currentStock.Some? then input.currentStock.value else 0)
                      && r.value.currentStock >= 0
    ensures r.Ok? ==> r.value.lowStockThreshold != 0
                      && (input.lowStockThreshold.Some? && input.lowStockThreshold.value != 0 ==>
                            r.value.lowStockThreshold == input.lowStockThreshold.value)
    ensures r.Ok? ==> && r.value.isActive
                      && r.value.unitPrice == (if input.unitPrice.Some? then input.unitPrice.value else 0)
                      && r.value.unit.Name() == input.unit
    ensures r.Ok? ==> (r.value.stockHistory != [] <==> r.value.currentStock > 0)
    ensures r.Ok? && r.value.stockHistory != [] ==>
      var last := r.value.stockHistory[|r.value.stockHistory| - 1];
      last.newStock == r.value.currentStock && last.kind == Addition
      && last.newStock == last.previousStock + last.quantity
  {
    CreateChecking(products, id, input, now, Trim(SubmittedName(input)))
  }

  /** Products created through the trimmed check never share a name
      ignoring case with one already stored. */
  lemma CreateKeepsNamesDistinct(products: seq<Product>, id: ProductId, input: ProductInput, now: int)
    requires NamesDistinctIgnoringCase(products)
    requires CreateOutcome(products, id, input, now).Ok?
    ensures NamesDistinctIgnoringCase(products + [CreateOutcome(products, id, input, now).value])
  {
    var p := CreateOutcome(products, id, input, now).value;
    var all := products + [p];
    forall i, j | 0 <= i < j < |all|
      ensures Lower(all[i].name) != Lower(all[j].name)
    {
      if j == |products| {
        assert all[j] == p;
        assert all[i] == products[i];
      }
    }
  }

  /** The unique index holds after any creation, the one as written included. */
  lemma CreateKeepsNamesUnique(products: seq<Product>, p: Product)
    requires NamesUnique(products)
    requires !NameStored(products, p.name)
    ensures NamesUnique(products + [p])
  {
    var all := products + [p];
    forall i, j | 0 <= i < j < |all|
      ensures all[i].name != all[j].name
    {
      if j == |products| {
        assert all[i] == products[i];
      }
    }
  }

  /** The stored products with the next free id. */
  class ProductCatalog {
    var products: seq<Product>
    var nextId: ProductId

    /** Names are unique (the index), and ids are below `nextId`. */
    ghost predicate Valid()
      reads this
    {
      && NamesUnique(products)
      && forall i :: 0 <= i < |products| ==> products[i].id < nextId
    }

    constructor ()
      ensures Valid() && products == [] && nextId == 0
    {
      products := [];
      nextId := 0;
    }

    /** GET: the products `search` and `active` select, ordered by name. */
    method List(search: Option<string>, active: Option<string>) returns (r: seq<Product>)
      ensures SortedBy(r, NameLeq)
      ensures forall i :: 0 <= i < |r| ==>
        && r[i] in products
        && (active.Some? ==> (r[i].isActive <==> active.value == "true"))
        && (search.Some? && search.value != "" ==>
              ContainsIgnoreCase(r[i].name, search.value) || ContainsIgnoreCase(r[i].category, search.value))
      ensures forall i :: 0 <= i < |products| ==>
        && (active.None? || (products[i].isActive <==> active.value == "true"))
        && (search.None? || search.value == ""
            || ContainsIgnoreCase(products[i].name, search.value) || ContainsIgnoreCase(products[i].category, search.value))
        ==> products[i] in r
    {
      var q := BuildProductQuery(search, active);
      r := ListProducts(products, q);
    }

    /** POST as written: store the new product unless the submitted name
        is taken ignoring case, the schema rejects it or the unique index
        already holds its trimmed name. */
    method Create(input: ProductInput, now: int) returns (r: Result<Product, ProductError>)
      requires Valid()
      modifies this
      ensures Valid()
      ensures r == CreateAsWritten(old(products), old(nextId), input, now)
      ensures r.Ok? ==> products == old(products) + [r.value] && nextId == old(nextId) + 1
      ensures r.Err? ==> products == old(products) && nextId == old(nextId)
    {
      r := CreateAsWritten(products, nextId, input, now);
      if r.Ok? {
        CreateKeepsNamesUnique(products, r.value);
        products := products + [r.value];
        nextId := nextId + 1;
      }
    }
  }
}

/** The product record of models/Product.js and its stock-history entries. */
module ProductModel {
  import opened Wrappers
  import opened OrderModel
  import Text

  type ProductId = nat

  datatype StockEventType = Addition | Deduction | Adjustment {
    /** The value stored in the `type` field. */
    function Name(): (s: string)
      ensures ParseStockEventType(s) == Some(this)
    {
      match this
      case Addition => "addition"
      case Deduction => "deduction"
      case Adjustment => "adjustment"
    }
  }

  /** The `enum` validator of a stock event's `type`. */
  function ParseStockEventType(s: string): (r: Option<StockEventType>)
    ensures r.Some? <==> s == "addition" || s == "deduction" || s == "adjustment"
  {
    if s == "addition" then Some(Addition)
    else if s == "deduction" then Some(Deduction)
    else if s == "adjustment" then Some(Adjustment)
    else None
  }

  /** One stock-history entry; quantity, previous and new stock are
      required, the reason (empty when absent) and the order are optional. */
  datatype StockEvent = StockEvent(
    kind: StockEventType,
    quantity: int,
    previousStock: int,
    newStock: int,
    reason: string,
    orderId: Option<OrderId>,
    date: int)

  datatype Unit = Bags | Cartons | Pieces | Kg | Liters | Units {
    function Name(): (s: string)
      ensures ParseUnit(s) == Some(this)
    {
      match this
      case Bags => "bags"
      case Cartons => "cartons"
      case Pieces => "pieces"
      case Kg => "kg"
      case Liters => "liters"
      case Units => "units"
    }
  }

  /** The `enum` validator of `unit`. */
  function ParseUnit(s: string): (r: Option<Unit>)
    ensures r.Some? <==> s in ["bags", "cartons", "pieces", "kg", "liters", "units"]
  {
    if s == "bags" then Some(Bags)
    else if s == "cartons" then Some(Cartons)
    else if s == "pieces" then Some(Pieces)
    else if s == "kg" then Some(Kg)
    else if s == "liters" then Some(Liters)
    else if s == "units" then Some(Units)
    else None
  }

  datatype Product = Product(
    id: ProductId,
    name: string,
    unit: Unit,
    currentStock: int,
    unitPrice: int,
    lowStockThreshold: int,
    description: string,
    category: string,
    isActive: bool,
    stockHistory: seq<StockEvent>,
    createdAt: int)

  /** What a handler hands to `Product.create`; `None` is an absent field. */
  datatype ProductDraft = ProductDraft(
    name: string,
    unit: string,
    currentStock: Option<int>,
    unitPrice: Option<int>,
    lowStockThreshold: Option<int>,
    description: string,
    category: string,
    isActive: Option<bool>,
    stockHistory: seq<StockEvent>)

  /** Storing a new product: the name is trimmed and required, the unit must
      be one of the six units, stock defaults to 0 and may not be negative,
      and price, threshold and the active flag default to 0, 10 and true. */
  function NewProduct(id: ProductId, d: ProductDraft, now: int): (r: Result<Product, SchemaError>)
    ensures r.Ok? <==> Text.Trim(d.name) != "" && ParseUnit(d.unit).Some? && d.currentStock.GetOr(0) >= 0
    ensures r.Ok? ==> && r.value.id == id && r.value.name == Text.Trim(d.name)
                      && r.value.unit.Name() == d.unit
                      && r.value.description == d.description && r.value.category == d.category
                      && r.value.stockHistory == d.stockHistory && r.value.createdAt == now
    ensures r.Ok? ==> && r.value.currentStock == (if d.currentStock.Some? then d.currentStock.value else 0)
                      && r.value.unitPrice == (if d.unitPrice.Some? then d.unitPrice.value else 0)
                      && r.value.lowStockThreshold == (if d.lowStockThreshold.Some? then d.lowStockThreshold.value else 10)
                      && r.value.isActive == (d.isActive != Some(false))
  {
    var name := Text.Trim(d.name);
    if name == "" then Err(Required("name"))
    else if ParseUnit(d.unit).None? then Err(NotInEnum("unit"))
    else if d.currentStock.GetOr(0) < 0 then Err(BelowMinimum("currentStock"))
    else
      Ok(Product(id, name, ParseUnit(d.unit).value, d.currentStock.GetOr(0), d.unitPrice.GetOr(0),
                 d.lowStockThreshold.GetOr(10), d.description, d.category, d.isActive.GetOr(true),
                 d.stockHistory, now))
  }
}

/** The order record of models/Order.js. Payments are not part of it: they
    live on the customer (the older per-order shape is in LegacyOrders). */
module OrderModel {
  import opened Wrappers
  import opened CustomerModel

  type OrderId = nat

  /** One line of an order, also the shape of a return line. */
  datatype LineItem = LineItem(name: string, quantity: int, unitPrice: int, totalPrice: int)

  datatype Order = Order(
    id: OrderId,
    customerId: CustomerId,
    orderNumber: string,
    products: seq<LineItem>,
    totalAmount: int,
    walletUsed: int,
    createdAt: int)

  /** What a handler hands to `Order.create`; `None` is an absent field. */
  datatype OrderDraft = OrderDraft(
    customerId: Option<CustomerId>,
    orderNumber: string,
    products: seq<LineItem>,
    totalAmount: int,
    walletUsed: Option<int>)

  /** Every line names its product (quantity and prices are always present
      in this model, since they are integers). */
  predicate LinesComplete(lines: seq<LineItem>)
  {
    forall i :: 0 <= i < |lines| ==> lines[i].name != ""
  }

  /** Storing a new order: customer, order number, total and each line's
      fields are required, and `walletUsed` defaults to 0. */
  function NewOrder(id: OrderId, d: OrderDraft, now: int): (r: Result<Order, SchemaError>)
    ensures r.Ok? <==> d.customerId.Some? && d.orderNumber != "" && LinesComplete(d.products)
    ensures r.Ok? ==> && r.value.id == id && r.value.customerId == d.customerId.value
                      && r.value.orderNumber == d.orderNumber && r.value.products == d.products
                      && r.value.totalAmount == d.totalAmount && r.value.createdAt == now
    ensures r.Ok? ==> r.value.walletUsed == if d.walletUsed.Some? then d.walletUsed.value else 0
  {
    if d.customerId.None? then Err(Required("customerId"))
    else if d.orderNumber == "" then Err(Required("orderNumber"))
    else if !LinesComplete(d.products) then Err(Required("products.name"))
    else Ok(Order(id, d.customerId.value, d.orderNumber, d.products, d.totalAmount, d.walletUsed.GetOr(0), now))
  }

  /** The `unique` index on `orderNumber`. */
  predicate UniqueOrderNumbers(orders: seq<Order>)
  {
    forall i, j :: 0 <= i < j < |orders| ==> orders[i].orderNumber != orders[j].orderNumber
  }

  function OrderTotal(o: Order): int
  {
    o.totalAmount
  }

  function LineTotal(l: LineItem): int
  {
    l.totalPrice
  }

  /** `Order.find({ customerId })` as a filter. */
  function OwnedBy(cid: CustomerId): Order -> bool
  {
    (o: Order) => o.customerId == cid
  }
}

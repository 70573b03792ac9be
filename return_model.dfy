/** The return record of models/Return.js: goods a customer gave back,
    optionally against the order they came from. */
module ReturnModel {
  import opened Wrappers
  import opened CustomerModel
  import opened OrderModel

  type ReturnId = nat

  /** Return lines have exactly the shape of order lines, so they reuse
      OrderModel.LineItem. */
  datatype Return = Return(
    id: ReturnId,
    customerId: CustomerId,
    orderId: Option<OrderId>,
    returnNumber: string,
    products: seq<LineItem>,
    totalAmount: int,
    reason: string,
    createdAt: int)

  datatype ReturnDraft = ReturnDraft(
    customerId: Option<CustomerId>,
    orderId: Option<OrderId>,
    returnNumber: string,
    products: seq<LineItem>,
    totalAmount: int,
    reason: string)

  /** Storing a new return: customer, return number, total and each line's
      fields are required; the order reference and the reason are optional. */
  function NewReturn(id: ReturnId, d: ReturnDraft, now: int): (r: Result<Return, SchemaError>)
    ensures r.Ok? <==> d.customerId.Some? && d.returnNumber != "" && LinesComplete(d.products)
    ensures r.Ok? ==> && r.value.id == id && r.value.customerId == d.customerId.value
                      && r.value.orderId == d.orderId && r.value.returnNumber == d.returnNumber
                      && r.value.products == d.products && r.value.totalAmount == d.totalAmount
                      && r.value.reason == d.reason && r.value.createdAt == now
  {
    if d.customerId.None? then Err(Required("customerId"))
    else if d.returnNumber == "" then Err(Required("returnNumber"))
    else if !LinesComplete(d.products) then Err(Required("products.name"))
    else Ok(Return(id, d.customerId.value, d.orderId, d.returnNumber, d.products, d.totalAmount, d.reason, now))
  }

  /** The `unique` index on `returnNumber`. */
  predicate UniqueReturnNumbers(rets: seq<Return>)
  {
    forall i, j :: 0 <= i < j < |rets| ==> rets[i].returnNumber != rets[j].returnNumber
  }
}

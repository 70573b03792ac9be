/** The earlier order shape, in which each order carried its own payments
    (scripts/migrate-to-customer-payments.js:40-50), and the store of
    customers and such orders that the per-order payment handler and the
    migration script work on. */
module LegacyOrders {
  import opened Wrappers
  import opened CustomerModel
  import opened OrderModel
  import Seqs

  /** The four payment fields of an old order. They were added and are
      removed together, so the model keeps them as one optional group. */
  datatype OrderLedger = OrderLedger(amountPaid: int, balance: int, payments: seq<Payment>, status: string)

  datatype LegacyOrder = LegacyOrder(
    id: OrderId,
    customerId: CustomerId,
    orderNumber: string,
    products: seq<LineItem>,
    totalAmount: int,
    createdAt: Option<int>,
    ledger: Option<OrderLedger>)

  predicate OrderIdsUnique(orders: seq<LegacyOrder>)
  {
    forall i, j :: 0 <= i < j < |orders| ==> orders[i].id != orders[j].id
  }

  /** `Order.findById(id)`: the position of the order with that id. */
  function FindOrder(orders: seq<LegacyOrder>, id: OrderId): (r: Option<nat>)
    ensures r.Some? ==> r.value < |orders| && orders[r.value].id == id
    ensures r.None? <==> forall i :: 0 <= i < |orders| ==> orders[i].id != id
  {
    Seqs.FindByKey(orders, (o: LegacyOrder) => o.id, id)
  }

  /** `Customer.findByIdAndUpdate(id, { $inc: { totalDebt: delta } })`:
      the matching customer's debt moves by `delta`; an unknown id changes
      nothing. */
  function IncrementDebt(customers: seq<Customer>, id: CustomerId, delta: int): (r: seq<Customer>)
    ensures |r| == |customers|
    ensures forall i :: 0 <= i < |customers| && customers[i].id != id ==> r[i] == customers[i]
    ensures CustomerIdsUnique(customers) ==>
      forall i :: 0 <= i < |customers| && customers[i].id == id ==>
        r[i] == customers[i].(totalDebt := customers[i].totalDebt + delta)
  {
    match FindCustomer(customers, id)
    case None => customers
    case Some(i) => customers[i := customers[i].(totalDebt := customers[i].totalDebt + delta)]
  }

  /** The customers and old-shape orders in the document store. */
  class LegacyStore {
    var customers: seq<Customer>
    var orders: seq<LegacyOrder>

    /** Record ids are unique, as the store's `_id` index guarantees. */
    ghost predicate Valid()
      reads this
    {
      CustomerIdsUnique(customers) && OrderIdsUnique(orders)
    }

    constructor (customers: seq<Customer>, orders: seq<LegacyOrder>)
      requires CustomerIdsUnique(customers) && OrderIdsUnique(orders)
      ensures Valid() && this.customers == customers && this.orders == orders
    {
      this.customers := customers;
      this.orders := orders;
    }
  }
}

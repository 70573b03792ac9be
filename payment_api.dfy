/** pages/api/payment.js: recording a payment against one order in the
    earlier per-order payment shape. The order is updated in place and the
    owning customer's debt is decremented. */
module PaymentApi {
  import opened Wrappers
  import opened CustomerModel
  import opened OrderModel
  import opened LegacyOrders
  import Seqs

  datatype PaymentError =
    | OrderNotFound        // 404
    | NonPositiveAmount    // 400, amount <= 0
    | ExceedsBalance       // 400, amount > balance
    | MissingPaymentFields // 400, the order has no payment list to push onto

  /** The handler's guards, in the order it runs them: the order must exist,
      the amount must be positive, the order must carry payment fields (on
      an order without them `amount > order.balance` is false and the push
      onto the absent list throws), and the amount may not exceed the
      balance. On success, the position of the order. */
  function CheckPayment(orders: seq<LegacyOrder>, id: OrderId, amount: int): (r: Result<nat, PaymentError>)
    ensures r == Err(OrderNotFound) <==> FindOrder(orders, id).None?
    ensures r == Err(NonPositiveAmount) <==> FindOrder(orders, id).Some? && amount <= 0
    ensures r.Ok? <==> && FindOrder(orders, id).Some? && 0 < amount
                       && orders[FindOrder(orders, id).value].ledger.Some?
                       && amount <= orders[FindOrder(orders, id).value].ledger.value.balance
    ensures r.Ok? ==> r.value < |orders| && orders[r.value].id == id
  {
    match FindOrder(orders, id)
    case None => Err(OrderNotFound)
    case Some(k) =>
      if amount <= 0 then Err(NonPositiveAmount)
      else if orders[k].ledger.None? then Err(MissingPaymentFields)
      else if amount > orders[k].ledger.value.balance then Err(ExceedsBalance)
      else Ok(k)
  }

  /** The bookkeeping an old order's payment fields should satisfy: what was
      paid is the sum of its payments, and paid plus outstanding is the
      order total, with neither part negative. */
  predicate LedgerConsistent(o: LegacyOrder)
  {
    o.ledger.Some? ==>
      var l := o.ledger.value;
      && l.amountPaid == Seqs.SumOf(l.payments, PaymentAmount)
      && l.amountPaid + l.balance == o.totalAmount
      && 0 <= l.amountPaid && 0 <= l.balance
  }

  /** POST: record `amount` (with an optional note) against order `id`. */
  method PostPayment(store: LegacyStore, id: OrderId, amount: int, note: string, now: int)
    returns (r: Result<LegacyOrder, PaymentError>)
    requires store.Valid()
    modifies store
    ensures store.Valid()
    ensures CheckPayment(old(store.orders), id, amount).Err? ==>
      && r == Err(CheckPayment(old(store.orders), id, amount).error)
      && store.orders == old(store.orders) && store.customers == old(store.customers)
    ensures CheckPayment(old(store.orders), id, amount).Ok? ==>
      var k := CheckPayment(old(store.orders), id, amount).value;
      var o := old(store.orders)[k];
      var l := o.ledger.value;
      && r.Ok? && r.value.ledger.Some?
      && store.orders == old(store.orders)[k := r.value]
      && r.value == o.(ledger := r.value.ledger)
      && r.value.ledger.value.payments == l.payments + [Payment(amount, Some(now), note)]
      && r.value.ledger.value.amountPaid == l.amountPaid + amount
      && r.value.ledger.value.balance == l.balance - amount
      && 0 <= r.value.ledger.value.balance
      && r.value.ledger.value.status == (if r.value.ledger.value.balance == 0 then "paid"
                                         else if r.value.ledger.value.amountPaid > 0 then "partial"
                                         else l.status)
      && (LedgerConsistent(o) ==> LedgerConsistent(r.value))
      && store.customers == IncrementDebt(old(store.customers), o.customerId, -amount)
  {
    var check := CheckPayment(store.orders, id, amount);
    if check.Err? {
      return Err(check.error);
    }
    var k := check.value;
    var order := store.orders[k];
    var ledger := order.ledger.value;

    // Add payment to order
    ledger := ledger.(payments := ledger.payments + [Payment(amount, Some(now), note)]);
    Seqs.SumOfAppend(order.ledger.value.payments, [Payment(amount, Some(now), note)], PaymentAmount);
    assert [Payment(amount, Some(now), note)][..0] == [];

    // Update order amounts
    ledger := ledger.(amountPaid := ledger.amountPaid + amount);
    ledger := ledger.(balance := ledger.balance - amount);

    // Update status
    if ledger.balance == 0 {
      ledger := ledger.(status := "paid");
    } else if ledger.amountPaid > 0 {
      ledger := ledger.(status := "partial");
    }

    order := order.(ledger := Some(ledger));
    store.orders := store.orders[k := order];

    // Update customer total debt
    store.customers := IncrementDebt(store.customers, order.customerId, -amount);
    r := Ok(order);
  }
}

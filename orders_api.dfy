/** pages/api/orders/index.js, POST: turning the submitted lines into an
    order with computed line totals, a sequential order number, and a full
    recompute of the owning customer's debt. */
module OrdersApi {
  import opened Wrappers
  import opened Seqs
  import opened Text
  import opened CustomerModel
  import opened OrderModel

  /** A line as submitted: the handler reads only these three fields. */
  datatype LineInput = LineInput(name: string, quantity: int, unitPrice: int)

  datatype OrderError =
    | NoProducts                  // 400 before anything is written
    | Invalid(cause: SchemaError) // `Order.create` rejected the record
    | DuplicateOrderNumber        // the unique index on `orderNumber`
    | CustomerNotFound            // 400: `customer.payments` on a null customer throws

  /** A stored line's total is its quantity times its unit price. */
  predicate LineConsistent(l: LineItem)
  {
    l.totalPrice == l.quantity * l.unitPrice
  }

  /** The submitted part of a stored line. */
  function AsInput(l: LineItem): LineInput
  {
    LineInput(l.name, l.quantity, l.unitPrice)
  }

  function InputTotal(p: LineInput): int
  {
    p.quantity * p.unitPrice
  }

  /** `products.map(...)`: each line keeps its name, quantity and price, in
      the same order, and gets its total. */
  function ProcessLines(ps: seq<LineInput>): (r: seq<LineItem>)
    ensures |r| == |ps|
    ensures forall i :: 0 <= i < |ps| ==> LineConsistent(r[i]) && AsInput(r[i]) == ps[i]
  {
    if ps == [] then []
    else
      var p := ps[|ps| - 1];
      ProcessLines(ps[..|ps| - 1]) + [LineItem(p.name, p.quantity, p.unitPrice, p.quantity * p.unitPrice)]
  }

  /** The order total is the sum over the submitted lines of quantity times
      price. */
  lemma {:induction false} ProcessedTotal(ps: seq<LineInput>)
    ensures SumOf(ProcessLines(ps), LineTotal) == SumOf(ps, InputTotal)
  {
    if ps != [] {
      var r := ProcessLines(ps);
      assert r[..|r| - 1] == ProcessLines(ps[..|ps| - 1]);
      ProcessedTotal(ps[..|ps| - 1]);
    }
  }

  /** With no negative quantity or price, no order total is negative. */
  lemma ProcessedTotalNonNegative(ps: seq<LineInput>)
    requires forall i :: 0 <= i < |ps| ==> ps[i].quantity >= 0 && ps[i].unitPrice >= 0
    ensures SumOf(ProcessLines(ps), LineTotal) >= 0
  {
    ProcessedTotal(ps);
    SumOfNonNegative(ps, InputTotal);
  }

  /** `` `ORD-${String(orderCount + 1).padStart(5, '0')}` ``: the digits of
      `orderCount + 1`, never cut, padded on the left to five. */
  function OrderNumber(orderCount: nat): (r: string)
    ensures |r| == 4 + (if |NatToString(orderCount + 1)| >= 5 then |NatToString(orderCount + 1)| else 5)
    ensures r[..4] == "ORD-" && AllDigits(r[4..])
    ensures r[|r| - |NatToString(orderCount + 1)|..] == NatToString(orderCount + 1)
  {
    var digits := NatToString(orderCount + 1);
    var padded := PadStart(digits, 5, '0');
    assert padded == padded[..|padded| - |digits|] + digits;
    assert ("ORD-" + padded)[4..] == padded;
    "ORD-" + padded
  }

  /** The digits of an order number read back as `orderCount + 1`. */
  lemma OrderNumberParses(orderCount: nat)
    ensures ParseNat(OrderNumber(orderCount)[4..]) == orderCount + 1
  {
    var digits := NatToString(orderCount + 1);
    var padded := OrderNumber(orderCount)[4..];
    var zeros := padded[..|padded| - |digits|];
    assert padded == zeros + digits;
    ParseNatLeadingZeros(zeros, digits);
    ParseNatToString(orderCount + 1);
  }

  /** Different counts give different order numbers. */
  lemma OrderNumberInjective(a: nat, b: nat)
    requires OrderNumber(a) == OrderNumber(b)
    ensures a == b
  {
    OrderNumberParses(a);
    OrderNumberParses(b);
  }

  predicate HasOrderNumber(orders: seq<Order>, number: string)
  {
    exists i :: 0 <= i < |orders| && orders[i].orderNumber == number
  }

  /** The record the handler asks the store to create. */
  function Draft(customerId: Option<CustomerId>, orderCount: nat, lines: seq<LineItem>): OrderDraft
  {
    OrderDraft(customerId, OrderNumber(orderCount), lines, SumOf(lines, LineTotal), None)
  }

  /** Everything up to and including `Order.create`: the empty-list guard,
      line processing, numbering, the schema and the unique index. */
  function PrepareOrder(orders: seq<Order>, id: OrderId, customerId: Option<CustomerId>,
                        products: Option<seq<LineInput>>, now: int): (r: Result<Order, OrderError>)
    ensures (products.None? || products.value == []) ==> r == Err(NoProducts)
    ensures r.Ok? <==> && products.Some? && products.value != [] && customerId.Some?
                       && LinesComplete(ProcessLines(products.value))
                       && !HasOrderNumber(orders, OrderNumber(|orders|))
    ensures r.Ok? ==> && r.value.id == id && r.value.customerId == customerId.value
                      && r.value.orderNumber == OrderNumber(|orders|)
                      && |r.value.products| == |products.value|
                      && (forall i :: 0 <= i < |products.value| ==>
                            LineConsistent(r.value.products[i]) && AsInput(r.value.products[i]) == products.value[i])
                      && r.value.totalAmount == SumOf(products.value, InputTotal)
                      && r.value.walletUsed == 0 && r.value.createdAt == now
    ensures r.Ok? && UniqueOrderNumbers(orders) ==> UniqueOrderNumbers(orders + [r.value])
  {
    if products.None? || products.value == [] then Err(NoProducts)
    else
      var lines := ProcessLines(products.value);
      ProcessedTotal(products.value);
      match NewOrder(id, Draft(customerId, |orders|, lines), now)
      case Err(e) => Err(Invalid(e))
      case Ok(o) =>
        if HasOrderNumber(orders, o.orderNumber) then Err(DuplicateOrderNumber)
        else Ok(o)
  }

  /** `(customer.oldBalance || 0) + totalOrders - totalPaid` over the
      customer's orders; not clamped, and the stored `totalDebt` plays no
      part. */
  function RecomputedDebt(c: Customer, orders: seq<Order>): int
  {
    c.oldBalance + SumOf(Filter(orders, OwnedBy(c.id)), OrderTotal) - TotalPaid(c)
  }

  /** Adding an order moves its owner's recomputed debt by exactly the
      order's total and leaves every other customer's as it was; so on a
      store whose debts were up to date the full recompute agrees with an
      incremental update. */
  lemma DebtAfterNewOrder(c: Customer, orders: seq<Order>, o: Order)
    ensures RecomputedDebt(c, orders + [o]) ==
      RecomputedDebt(c, orders) + (if o.customerId == c.id then o.totalAmount else 0)
  {
    FilterAppend(orders, [o], OwnedBy(c.id));
    SumOfAppend(Filter(orders, OwnedBy(c.id)), Filter([o], OwnedBy(c.id)), OrderTotal);
    assert Filter([o], OwnedBy(c.id)) == if o.customerId == c.id then [o] else [];
  }

  /** The recompute is not clamped: payments beyond the orders and old
      balance give a negative debt. */
  lemma DebtCanBeNegative()
    ensures exists c: Customer, orders: seq<Order> :: RecomputedDebt(c, orders) < 0
  {
    var c := Customer(0, "A", "1", "", "", 0, 0, [Payment(5, None, "")], 0);
    assert Filter([], OwnedBy(0)) == [];
    SumOfCons(Payment(5, None, ""), [], PaymentAmount);
    assert RecomputedDebt(c, []) == -5;
  }

  /** The customers and orders in the document store, with the next free
      order id. */
  class OrderStore {
    var customers: seq<Customer>
    var orders: seq<Order>
    var nextId: OrderId

    /** Ids and order numbers are unique, as the store's indexes keep them. */
    ghost predicate Valid()
      reads this
    {
      && CustomerIdsUnique(customers)
      && UniqueOrderNumbers(orders)
      && forall i :: 0 <= i < |orders| ==> orders[i].id < nextId
    }

    constructor (customers: seq<Customer>)
      requires CustomerIdsUnique(customers)
      ensures Valid() && this.customers == customers && orders == [] && nextId == 0
    {
      this.customers := customers;
      orders := [];
      nextId := 0;
    }

    /** POST: create the order, then overwrite its customer's `totalDebt`
        with the full recompute. When the customer does not exist the order
        is already stored before the handler fails. */
    method CreateOrder(customerId: Option<CustomerId>, products: Option<seq<LineInput>>, now: int)
      returns (r: Result<Order, OrderError>)
      requires Valid()
      modifies this
      ensures Valid()
      ensures PrepareOrder(old(orders), old(nextId), customerId, products, now).Err? ==>
        && r == Err(PrepareOrder(old(orders), old(nextId), customerId, products, now).error)
        && customers == old(customers) && orders == old(orders) && nextId == old(nextId)
      ensures PrepareOrder(old(orders), old(nextId), customerId, products, now).Ok? ==>
        var o := PrepareOrder(old(orders), old(nextId), customerId, products, now).value;
        && orders == old(orders) + [o]
        && nextId == old(nextId) + 1
        && match FindCustomer(old(customers), o.customerId)
           case None => r == Err(CustomerNotFound) && customers == old(customers)
           case Some(k) =>
             && r == Ok(o)
             && customers == old(customers)[k := old(customers)[k].(totalDebt := RecomputedDebt(old(customers)[k], orders))]
    {
      var prepared := PrepareOrder(orders, nextId, customerId, products, now);
      if prepared.Err? {
        return Err(prepared.error);
      }
      var order := prepared.value;
      orders := orders + [order];
      nextId := nextId + 1;
      var found := FindCustomer(customers, order.customerId);
      if found.None? {
        return Err(CustomerNotFound);
      }
      var k := found.value;
      var customer := customers[k];
      customers := customers[k := customer.(totalDebt := RecomputedDebt(customer, orders))];
      r := Ok(order);
    }
  }
}

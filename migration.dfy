/** scripts/migrate-to-customer-payments.js: the one-off move of payments
    from orders to their customers. For each customer, every payment of
    every order it owns is copied onto the customer (filling in a missing
    date or note), the debt is recomputed from the order totals and those
    payments, and the orders lose their payment fields. */
module PaymentMigration {
  import opened Wrappers
  import opened CustomerModel
  import opened OrderModel
  import opened LegacyOrders
  import opened Seqs

  function OrderPayments(o: LegacyOrder): seq<Payment>
  {
    if o.ledger.Some? then o.ledger.value.payments else []
  }

  /** A payment of order `o` as it lands on the customer: the same amount,
      the order's creation date when it has none, and a note naming the
      order when it has none. */
  function MovedPayment(p: Payment, o: LegacyOrder): Payment
  {
    Payment(p.amount,
            if p.date.Some? then p.date else o.createdAt,
            if p.note != "" then p.note else "Payment for Order " + o.orderNumber)
  }

  function MoveAll(ps: seq<Payment>, o: LegacyOrder): (r: seq<Payment>)
    ensures |r| == |ps|
    ensures forall i :: 0 <= i < |ps| ==> r[i] == MovedPayment(ps[i], o)
  {
    if ps == [] then [] else MoveAll(ps[..|ps| - 1], o) + [MovedPayment(ps[|ps| - 1], o)]
  }

  /** The payments collected for customer `cid`, order by order. */
  function CollectedPayments(orders: seq<LegacyOrder>, cid: CustomerId): seq<Payment>
  {
    if orders == [] then []
    else
      var o := orders[|orders| - 1];
      CollectedPayments(orders[..|orders| - 1], cid)
        + (if o.customerId == cid then MoveAll(OrderPayments(o), o) else [])
  }

  /** `totalFromOrders`: the sum of the totals of the orders `cid` owns. */
  function OrdersTotal(orders: seq<LegacyOrder>, cid: CustomerId): int
  {
    if orders == [] then 0
    else
      var o := orders[|orders| - 1];
      OrdersTotal(orders[..|orders| - 1], cid) + (if o.customerId == cid then o.totalAmount else 0)
  }

  /** Extending the prefix of orders by one adds that order's share. */
  lemma PrefixStep(orders: seq<LegacyOrder>, j: nat, cid: CustomerId)
    requires j < |orders|
    ensures CollectedPayments(orders[..j + 1], cid) == CollectedPayments(orders[..j], cid)
      + (if orders[j].customerId == cid then MoveAll(OrderPayments(orders[j]), orders[j]) else [])
    ensures OrdersTotal(orders[..j + 1], cid) == OrdersTotal(orders[..j], cid)
      + (if orders[j].customerId == cid then orders[j].totalAmount else 0)
  {
    assert orders[..j + 1][..j] == orders[..j];
  }

  /** `Math.max(0, totalFromOrders - totalPaid)`. */
  function MigratedDebt(totalFromOrders: int, totalPaid: int): (d: int)
    ensures d >= 0
    ensures d >= totalFromOrders - totalPaid
    ensures d == 0 || d == totalFromOrders - totalPaid
  {
    if totalFromOrders - totalPaid > 0 then totalFromOrders - totalPaid else 0
  }

  /** The customer after migration: payments replaced by those collected,
      debt recomputed; `oldBalance` plays no part. */
  function MigratedCustomer(c: Customer, orders: seq<LegacyOrder>): (r: Customer)
    ensures r.totalDebt >= 0
    ensures r.totalDebt >= OrdersTotal(orders, c.id) - SumOf(r.payments, PaymentAmount)
    ensures r.(payments := c.payments, totalDebt := c.totalDebt) == c
  {
    var payments := CollectedPayments(orders, c.id);
    c.(payments := payments,
       totalDebt := MigratedDebt(OrdersTotal(orders, c.id), SumOf(payments, PaymentAmount)))
  }

  /** The `$unset` of `amountPaid`, `balance`, `payments` and `status`. */
  function Stripped(o: LegacyOrder): LegacyOrder
  {
    o.(ledger := None)
  }

  /** Orders that `cid` does not own may change in any way that keeps them
      out of `cid`'s hands without changing what is collected for `cid`. */
  lemma {:induction false} CollectedIgnoresOthers(os: seq<LegacyOrder>, os': seq<LegacyOrder>, cid: CustomerId)
    requires |os'| == |os|
    requires forall j :: 0 <= j < |os| && (os[j].customerId == cid || os'[j].customerId == cid) ==> os'[j] == os[j]
    ensures CollectedPayments(os', cid) == CollectedPayments(os, cid)
    ensures OrdersTotal(os', cid) == OrdersTotal(os, cid)
  {
    if os != [] {
      CollectedIgnoresOthers(os[..|os| - 1], os'[..|os| - 1], cid);
    }
  }

  /** The inner `forEach`: `allPayments` extended by the order's payments,
      each moved onto the customer. */
  method MoveOrderPayments(order: LegacyOrder, allPayments: seq<Payment>) returns (r: seq<Payment>)
    ensures r == allPayments + MoveAll(OrderPayments(order), order)
  {
    r := allPayments;
    if order.ledger.Some? && |order.ledger.value.payments| > 0 {
      var ps := order.ledger.value.payments;
      var k := 0;
      while k < |ps|
        invariant 0 <= k <= |ps|
        invariant r == allPayments + MoveAll(ps[..k], order)
      {
        assert ps[..k + 1][..k] == ps[..k];
        r := r + [MovedPayment(ps[k], order)];
        k := k + 1;
      }
      assert ps[..k] == ps;
    }
  }

  /** One turn of the loop over customers: the customer at `ci` gets the
      payments of the orders it owns and a recomputed debt, and those orders
      lose their payment fields. */
  method MigrateCustomer(store: LegacyStore, ci: nat)
    requires store.Valid() && ci < |store.customers|
    modifies store
    ensures store.Valid()
    ensures |store.orders| == |old(store.orders)|
    ensures forall j :: 0 <= j < |store.orders| ==>
      store.orders[j] == if old(store.orders)[j].customerId == old(store.customers)[ci].id
                         then Stripped(old(store.orders)[j]) else old(store.orders)[j]
    ensures store.customers == old(store.customers)[ci := MigratedCustomer(old(store.customers)[ci], old(store.orders))]
  {
    var customer := store.customers[ci];
    ghost var orders0 := store.orders;
    var allPayments: seq<Payment> := [];
    var totalFromOrders := 0;
    var j := 0;
    while j < |store.orders|
      invariant 0 <= j <= |store.orders| == |orders0|
      invariant store.customers == old(store.customers)
      invariant allPayments == CollectedPayments(orders0[..j], customer.id)
      invariant totalFromOrders == OrdersTotal(orders0[..j], customer.id)
      invariant forall j' :: 0 <= j' < |orders0| ==>
        store.orders[j'] == if j' < j && orders0[j'].customerId == customer.id
                            then Stripped(orders0[j']) else orders0[j']
    {
      var order := store.orders[j];
      PrefixStep(orders0, j, customer.id);
      if order.customerId == customer.id {
        totalFromOrders := totalFromOrders + order.totalAmount;
        allPayments := MoveOrderPayments(order, allPayments);
        store.orders := store.orders[j := Stripped(order)];
      }
      j := j + 1;
    }
    assert orders0[..j] == orders0;
    var totalPaid := SumOf(allPayments, PaymentAmount);
    store.customers := store.customers[ci := customer.(payments := allPayments,
                                                       totalDebt := MigratedDebt(totalFromOrders, totalPaid))];
  }

  /** What order `o` contributes to customer `cid`, as a number per order. */
  function OwnedPaymentCount(cid: CustomerId): LegacyOrder -> int
  {
    (o: LegacyOrder) => if o.customerId == cid then |OrderPayments(o)| else 0
  }

  function OwnedPaidAmount(cid: CustomerId): LegacyOrder -> int
  {
    (o: LegacyOrder) => if o.customerId == cid then SumOf(OrderPayments(o), PaymentAmount) else 0
  }

  function OwnedTotal(cid: CustomerId): LegacyOrder -> int
  {
    (o: LegacyOrder) => if o.customerId == cid then o.totalAmount else 0
  }

  /** Moving payments keeps their amounts. */
  lemma {:induction false} MoveAllAmounts(ps: seq<Payment>, o: LegacyOrder)
    ensures SumOf(MoveAll(ps, o), PaymentAmount) == SumOf(ps, PaymentAmount)
  {
    if ps != [] {
      var m := MoveAll(ps, o);
      assert m[..|m| - 1] == MoveAll(ps[..|ps| - 1], o);
      MoveAllAmounts(ps[..|ps| - 1], o);
    }
  }

  /** The customer receives as many payments as its orders held together. */
  lemma {:induction false} CollectedCount(orders: seq<LegacyOrder>, cid: CustomerId)
    ensures |CollectedPayments(orders, cid)| == SumOf(orders, OwnedPaymentCount(cid))
  {
    if orders != [] {
      CollectedCount(orders[..|orders| - 1], cid);
    }
  }

  /** The amounts received add up to what was paid on the customer's orders. */
  lemma {:induction false} CollectedAmount(orders: seq<LegacyOrder>, cid: CustomerId)
    ensures SumOf(CollectedPayments(orders, cid), PaymentAmount) == SumOf(orders, OwnedPaidAmount(cid))
  {
    if orders != [] {
      var o := orders[|orders| - 1];
      var front := CollectedPayments(orders[..|orders| - 1], cid);
      var moved := if o.customerId == cid then MoveAll(OrderPayments(o), o) else [];
      SumOfAppend(front, moved, PaymentAmount);
      MoveAllAmounts(OrderPayments(o), o);
      CollectedAmount(orders[..|orders| - 1], cid);
    }
  }

  /** `totalFromOrders` is the sum of the customer's order totals. */
  lemma {:induction false} OrdersTotalIsSum(orders: seq<LegacyOrder>, cid: CustomerId)
    ensures OrdersTotal(orders, cid) == SumOf(orders, OwnedTotal(cid))
  {
    if orders != [] {
      OrdersTotalIsSum(orders[..|orders| - 1], cid);
    }
  }

  /** The payments are collected order by order: those of an earlier order
      come before those of a later one. */
  lemma {:induction false} CollectedAppend(xs: seq<LegacyOrder>, ys: seq<LegacyOrder>, cid: CustomerId)
    ensures CollectedPayments(xs + ys, cid) == CollectedPayments(xs, cid) + CollectedPayments(ys, cid)
    decreases |ys|
  {
    if ys == [] {
      assert xs + ys == xs;
    } else {
      assert (xs + ys)[..|xs + ys| - 1] == xs + ys[..|ys| - 1];
      CollectedAppend(xs, ys[..|ys| - 1], cid);
    }
  }

  lemma HasCustomerExtend(customers: seq<Customer>, n: nat, id: CustomerId)
    requires n < |customers|
    ensures HasCustomer(customers[..n + 1], id) <==> HasCustomer(customers[..n], id) || id == customers[n].id
  {
    if HasCustomer(customers[..n + 1], id) {
      var i :| 0 <= i < n + 1 && customers[..n + 1][i].id == id;
      if i < n { assert customers[..n][i].id == id; }
    }
    if id == customers[n].id { assert customers[..n + 1][n].id == id; }
    if HasCustomer(customers[..n], id) {
      var i :| 0 <= i < n && customers[..n][i].id == id;
      assert customers[..n + 1][i].id == id;
    }
  }

  /** With unique ids, the customer at `ci` is not among those before it. */
  lemma NotYetMigrated(customers: seq<Customer>, ci: nat)
    requires CustomerIdsUnique(customers) && ci < |customers|
    ensures !HasCustomer(customers[..ci], customers[ci].id)
  {
  }

  /** Migrating the customer at `ci` strips exactly the orders it owns, on
      top of those the customers before it owned. */
  lemma StripStep(orders0: seq<LegacyOrder>, before: seq<LegacyOrder>, after: seq<LegacyOrder>,
                  customers0: seq<Customer>, ci: nat)
    requires ci < |customers0| && |before| == |orders0| && |after| == |orders0|
    requires !HasCustomer(customers0[..ci], customers0[ci].id)
    requires forall j :: 0 <= j < |orders0| ==>
      before[j] == if HasCustomer(customers0[..ci], orders0[j].customerId) then Stripped(orders0[j]) else orders0[j]
    requires forall j :: 0 <= j < |orders0| ==>
      after[j] == if before[j].customerId == customers0[ci].id then Stripped(before[j]) else before[j]
    ensures forall j :: 0 <= j < |orders0| ==>
      after[j] == if HasCustomer(customers0[..ci + 1], orders0[j].customerId) then Stripped(orders0[j]) else orders0[j]
  {
    forall j | 0 <= j < |orders0|
      ensures after[j] == if HasCustomer(customers0[..ci + 1], orders0[j].customerId) then Stripped(orders0[j]) else orders0[j]
    {
      HasCustomerExtend(customers0, ci, orders0[j].customerId);
      assert before[j].customerId == orders0[j].customerId;
    }
  }

  /** `migrateData` with the database calls replaced by reads and writes of
      the store's sequences. */
  method Migrate(store: LegacyStore)
    requires store.Valid()
    modifies store
    ensures store.Valid()
    ensures |store.customers| == |old(store.customers)|
    ensures forall i :: 0 <= i < |store.customers| ==>
      store.customers[i] == MigratedCustomer(old(store.customers)[i], old(store.orders))
    ensures |store.orders| == |old(store.orders)|
    ensures forall j :: 0 <= j < |store.orders| ==>
      store.orders[j] == if HasCustomer(old(store.customers), old(store.orders)[j].customerId)
                         then Stripped(old(store.orders)[j]) else old(store.orders)[j]
  {
    ghost var customers0 := store.customers;
    ghost var orders0 := store.orders;
    var ci := 0;
    while ci < |store.customers|
      invariant store.Valid()
      invariant 0 <= ci <= |store.customers| == |customers0|
      invariant |store.orders| == |orders0|
      invariant forall i :: 0 <= i < ci ==> store.customers[i] == MigratedCustomer(customers0[i], orders0)
      invariant forall i :: ci <= i < |customers0| ==> store.customers[i] == customers0[i]
      invariant forall j :: 0 <= j < |orders0| ==>
        store.orders[j] == if HasCustomer(customers0[..ci], orders0[j].customerId)
                           then Stripped(orders0[j]) else orders0[j]
    {
      var customer := store.customers[ci];
      ghost var before := store.orders;
      NotYetMigrated(customers0, ci);
      CollectedIgnoresOthers(orders0, before, customer.id);
      MigrateCustomer(store, ci);
      StripStep(orders0, before, store.orders, customers0, ci);
      ci := ci + 1;
    }
    assert customers0[..ci] == customers0;
  }
}

/** The three "paid / partial / unpaid" rules side by side: the orders
    page's badge (pages/orders.js), the statement's badge
    (lib/pdfGenerator.js) and the dashboard's order buckets
    (pages/api/analytics.js), and when they agree. */
module StatusRules {
  import opened Wrappers
  import opened Seqs
  import opened CustomerModel
  import opened OrderModel
  import OrdersPage
  import Statement
  import Analytics
  import OrdersApi

  predicate PositivePayments(c: Customer)
  {
    forall k :: 0 <= k < |c.payments| ==> c.payments[k].amount > 0
  }

  /** With every payment positive, some payment is recorded exactly when
      the total paid is positive. */
  lemma TotalPaidPositive(c: Customer)
    requires PositivePayments(c)
    ensures |c.payments| > 0 <==> TotalPaid(c) > 0
  {
    var ps := c.payments;
    if ps != [] {
      SumOfNonNegative(ps[..|ps| - 1], PaymentAmount);
    }
  }

  /** When every payment is positive, as the payment endpoint guarantees,
      the orders page and the statement show the same standing. */
  lemma PageAgreesWithStatement(c: Customer)
    requires PositivePayments(c)
    ensures OrdersPage.CustomerStatus(Some(c)) == OrdersPage.Known(Statement.StatementStatus(c.totalDebt, TotalPaid(c)))
  {
    TotalPaidPositive(c);
  }

  /** A recorded payment of zero makes them disagree: the page says
      partial, the statement unpaid. */
  lemma PageCanDisagreeWithStatement()
    ensures exists c: Customer :: OrdersPage.CustomerStatus(Some(c)) == OrdersPage.Known(Partial)
                                  && Statement.StatementStatus(c.totalDebt, TotalPaid(c)) == Unpaid
  {
    var c := Customer(0, "A", "1", "", "", 5, 0, [Payment(0, None, "")], 0);
    SumOfCons(Payment(0, None, ""), [], PaymentAmount);
    assert TotalPaid(c) == 0;
    assert OrdersPage.CustomerStatus(Some(c)) == OrdersPage.Known(Partial);
  }

  /** The dashboard bucket that corresponds to a standing. */
  function BucketFor(s: PayStatus): Analytics.Bucket
  {
    match s
    case Paid => Analytics.PaidOrders
    case Partial => Analytics.PartialOrders
    case Unpaid => Analytics.UnpaidOrders
  }

  /** For a customer with orders, no opening balance, non-negative payments
      that do not exceed the orders, and a debt kept up to date by order
      creation, the dashboard puts the customer's orders in the bucket the
      statement's badge names. */
  lemma BucketAgreesWithStatement(c: Customer, orders: seq<Order>)
    requires c.oldBalance == 0 && Analytics.NonNegativePayments(c)
    requires |Analytics.CustomerOrders(c, orders)| > 0
    requires TotalPaid(c) <= SumOf(Analytics.CustomerOrders(c, orders), OrderTotal)
    requires c.totalDebt == OrdersApi.RecomputedDebt(c, orders)
    ensures Analytics.CustomerBucket(c, orders) == BucketFor(Statement.StatementStatus(c.totalDebt, TotalPaid(c)))
  {
    SumOfNonNegative(c.payments, PaymentAmount);
  }
}

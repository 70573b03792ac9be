/** pages/api/analytics.js: the dashboard figures. Debt totals over all
    customers, the orders tallied as paid, partial or unpaid by their
    customer's standing, the ten largest debtors, and twelve months of
    debt issued and payments received. */
module Analytics {
  import opened Wrappers
  import opened Seqs
  import opened CustomerModel
  import opened OrderModel

  function DebtOf(c: Customer): int
  {
    c.totalDebt
  }

  predicate HasDebt(c: Customer)
  {
    c.totalDebt > 0
  }

  /** `allCustomers.reduce((sum, c) => sum + c.totalDebt, 0)`. */
  function TotalDebt(customers: seq<Customer>): int
  {
    SumOf(customers, DebtOf)
  }

  /** `countDocuments({ totalDebt: { $gt: 0 } })`. */
  function CustomersWithDebt(customers: seq<Customer>): (n: nat)
    ensures n <= |customers|
    ensures n == |Filter(customers, HasDebt)|
  {
    Count(customers, HasDebt)
  }

  /** With no customer in debt the total debt is not positive; with no
      negative debt, the total is carried by the customers in debt alone. */
  lemma TotalDebtOfDebtors(customers: seq<Customer>)
    ensures CustomersWithDebt(customers) == 0 ==> TotalDebt(customers) <= 0
    ensures (forall i :: 0 <= i < |customers| ==> customers[i].totalDebt >= 0) ==>
      TotalDebt(customers) == SumOf(Filter(customers, HasDebt), DebtOf)
  {
    if CustomersWithDebt(customers) == 0 {
      assert forall i :: 0 <= i < |customers| ==> DebtOf(customers[i]) <= 0;
      SumOfNonPositive(customers, DebtOf);
    }
    if forall i :: 0 <= i < |customers| ==> customers[i].totalDebt >= 0 {
      SumOfFilterDropsZeros(customers, DebtOf, HasDebt);
    }
  }

  /** Where a customer's orders are tallied. */
  datatype Bucket = PaidOrders | PartialOrders | UnpaidOrders | NotTallied

  /** The loop body's rule: nothing without orders; unpaid when nothing was
      paid against a positive total; paid once payments cover the total;
      partial in between. */
  function BucketOf(totalPaid: int, totalOrderAmount: int, orderCount: nat): (b: Bucket)
    ensures orderCount == 0 ==> b == NotTallied
    ensures orderCount > 0 && totalPaid >= 0 ==> b != NotTallied
    ensures b == PaidOrders ==> totalPaid >= totalOrderAmount
    ensures b == PartialOrders ==> 0 < totalPaid < totalOrderAmount
    ensures b == UnpaidOrders ==> totalPaid == 0 && totalOrderAmount > 0
    ensures orderCount > 0 && totalPaid == 0 && totalOrderAmount == 0 ==> b == PaidOrders
  {
    if orderCount == 0 then NotTallied
    else if totalPaid == 0 && totalOrderAmount > 0 then UnpaidOrders
    else if totalPaid >= totalOrderAmount then PaidOrders
    else if totalPaid > 0 && totalPaid < totalOrderAmount then PartialOrders
    else NotTallied
  }

  function CustomerOrders(c: Customer, orders: seq<Order>): seq<Order>
  {
    Filter(orders, OwnedBy(c.id))
  }

  function CustomerBucket(c: Customer, orders: seq<Order>): Bucket
  {
    var mine := CustomerOrders(c, orders);
    BucketOf(TotalPaid(c), SumOf(mine, OrderTotal), |mine|)
  }

  datatype Tally = Tally(paid: nat, partial: nat, unpaid: nat) {
    function Total(): nat
    {
      paid + partial + unpaid
    }

    function Add(b: Bucket, n: nat): (t: Tally)
      ensures t.Total() == Total() + (if b == NotTallied then 0 else n)
    {
      match b
      case PaidOrders => this.(paid := paid + n)
      case PartialOrders => this.(partial := partial + n)
      case UnpaidOrders => this.(unpaid := unpaid + n)
      case NotTallied => this
    }
  }

  /** The three counters after the loop has seen `customers`. */
  function Buckets(customers: seq<Customer>, orders: seq<Order>): Tally
  {
    if customers == [] then Tally(0, 0, 0)
    else
      var c := customers[|customers| - 1];
      Buckets(customers[..|customers| - 1], orders).Add(CustomerBucket(c, orders), |CustomerOrders(c, orders)|)
  }

  /** The counters after one more customer are the earlier ones plus that
      customer's bucket. */
  lemma BucketsStep(customers: seq<Customer>, i: int, orders: seq<Order>)
    requires 0 <= i < |customers|
    ensures Buckets(customers[..i + 1], orders)
         == Buckets(customers[..i], orders).Add(CustomerBucket(customers[i], orders), |CustomerOrders(customers[i], orders)|)
  {
    var s := customers[..i + 1];
    assert s[..|s| - 1] == customers[..i] && s[|s| - 1] == customers[i];
  }

  /** The loop over customers updating `paidOrders`, `partialOrders` and
      `unpaidOrders`. */
  method CountBuckets(customers: seq<Customer>, orders: seq<Order>)
    returns (paidOrders: nat, partialOrders: nat, unpaidOrders: nat)
    ensures Tally(paidOrders, partialOrders, unpaidOrders) == Buckets(customers, orders)
  {
    paidOrders, partialOrders, unpaidOrders := 0, 0, 0;
    var i := 0;
    while i < |customers|
      invariant 0 <= i <= |customers|
      invariant Tally(paidOrders, partialOrders, unpaidOrders) == Buckets(customers[..i], orders)
    {
      var customer := customers[i];
      var customerOrders := Filter(orders, OwnedBy(customer.id));
      var totalOrderAmount := SumOf(customerOrders, OrderTotal);
      var totalPaid := SumOf(customer.payments, PaymentAmount);
      BucketsStep(customers, i, orders);
      assert CustomerBucket(customer, orders) == BucketOf(totalPaid, totalOrderAmount, |customerOrders|);
      if |customerOrders| > 0 {
        if totalPaid == 0 && totalOrderAmount > 0 {
          unpaidOrders := unpaidOrders + |customerOrders|;
        } else if totalPaid >= totalOrderAmount {
          paidOrders := paidOrders + |customerOrders|;
        } else if totalPaid > 0 && totalPaid < totalOrderAmount {
          partialOrders := partialOrders + |customerOrders|;
        }
      }
      i := i + 1;
    }
    assert customers[..i] == customers;
  }

  predicate NonNegativePayments(c: Customer)
  {
    forall k :: 0 <= k < |c.payments| ==> c.payments[k].amount >= 0
  }

  function OwnedByOneOf(customers: seq<Customer>): Order -> bool
  {
    (o: Order) => HasCustomer(customers, o.customerId)
  }

  lemma HasCustomerAppend(customers: seq<Customer>, c: Customer, id: CustomerId)
    ensures HasCustomer(customers + [c], id) <==> HasCustomer(customers, id) || c.id == id
  {
    var all := customers + [c];
    if HasCustomer(all, id) && c.id != id {
      var i :| 0 <= i < |all| && all[i].id == id;
      assert customers[i].id == id;
    }
    if HasCustomer(customers, id) {
      var i :| 0 <= i < |customers| && customers[i].id == id;
      assert all[i].id == id;
    }
    if c.id == id {
      assert all[|customers|].id == id;
    }
  }

  /** When no payment is negative, every order whose customer exists is
      tallied exactly once: the three counters add up to the number of
      such orders. */
  lemma {:induction false} BucketsCoverOwnedOrders(customers: seq<Customer>, orders: seq<Order>)
    requires CustomerIdsUnique(customers)
    requires forall i :: 0 <= i < |customers| ==> NonNegativePayments(customers[i])
    ensures Buckets(customers, orders).Total() == Count(orders, OwnedByOneOf(customers))
  {
    if customers == [] {
      assert Count(orders, OwnedByOneOf(customers)) == 0 by {
        FilterNone(orders, OwnedByOneOf(customers));
      }
    } else {
      var front := customers[..|customers| - 1];
      var c := customers[|customers| - 1];
      assert customers == front + [c];
      BucketsCoverOwnedOrders(front, orders);
      SumOfNonNegative(c.payments, PaymentAmount);
      forall i | 0 <= i < |orders|
        ensures (OwnedByOneOf(customers)(orders[i]) <==> OwnedByOneOf(front)(orders[i]) || OwnedBy(c.id)(orders[i]))
                && !(OwnedByOneOf(front)(orders[i]) && OwnedBy(c.id)(orders[i]))
      {
        HasCustomerAppend(front, c, orders[i].customerId);
      }
      CountDisjointUnion(orders, OwnedByOneOf(front), OwnedBy(c.id), OwnedByOneOf(customers));
    }
  }

  /** `sort({ totalDebt: -1 })`. */
  function DebtDescending(a: Customer, b: Customer): bool
  {
    a.totalDebt >= b.totalDebt
  }

  /** `Customer.find({}).sort({ totalDebt: -1 }).limit(10)`: ten customers
      (or all when fewer), largest debt first, none of the others owing
      more than any of them. */
  function TopDebtors(customers: seq<Customer>): (r: seq<Customer>)
    ensures |r| == if |customers| < 10 then |customers| else 10
    ensures forall i, j :: 0 <= i < j < |r| ==> r[i].totalDebt >= r[j].totalDebt
    ensures multiset(r) <= multiset(customers)
    ensures forall c, i :: c in multiset(customers) - multiset(r) && 0 <= i < |r| ==> c.totalDebt <= r[i].totalDebt
  {
    assert TotalPreorder(DebtDescending);
    var sorted := SortBy(customers, DebtDescending);
    TakeOfSortedIsTop(sorted, 10, DebtDescending);
    Take(sorted, 10)
  }

  /** One entry of the returned `customers` list. */
  datatype DebtorRow = DebtorRow(id: CustomerId, name: string, totalDebt: int)

  function Rows(cs: seq<Customer>): (r: seq<DebtorRow>)
    ensures |r| == |cs|
    ensures forall i :: 0 <= i < |cs| ==> r[i] == DebtorRow(cs[i].id, cs[i].name, cs[i].totalDebt)
  {
    if cs == [] then [] else [DebtorRow(cs[0].id, cs[0].name, cs[0].totalDebt)] + Rows(cs[1..])
  }

  /** A calendar month as the local calendar gives it: its name, its first
      instant, the first instant of its last day (`new Date(y, m + 1, 0)`)
      and the first instant of the next month. */
  datatype MonthWindow = MonthWindow(name: string, start: int, lastDay: int, next: int)

  predicate WellFormed(w: MonthWindow)
  {
    w.start <= w.lastDay < w.next
  }

  /** The month test as written: up to the first instant of the last day. */
  predicate InMonthAsWritten(w: MonthWindow, t: int)
  {
    w.start <= t <= w.lastDay
  }

  /** The month test meant: up to the next month. */
  predicate InMonth(w: MonthWindow, t: int)
  {
    w.start <= t < w.next
  }

  /** `months[k]` ends where `months[k + 1]` begins. */
  predicate Consecutive(months: seq<MonthWindow>)
  {
    && (forall k :: 0 <= k < |months| ==> WellFormed(months[k]))
    && (forall k :: 0 <= k < |months| - 1 ==> months[k].next == months[k + 1].start)
  }

  lemma {:induction false} ConsecutiveOrdered(months: seq<MonthWindow>, a: nat, b: nat)
    requires Consecutive(months) && a < b < |months|
    ensures months[a].next <= months[b].start
    decreases b - a
  {
    if a + 1 < b {
      ConsecutiveOrdered(months, a + 1, b);
    }
  }

  /** As written, an instant on a month's last day after its first instant
      lies in none of the consecutive months. */
  lemma LastDayInNoMonthAsWritten(months: seq<MonthWindow>, k: nat, t: int)
    requires Consecutive(months) && k < |months|
    requires months[k].lastDay < t < months[k].next
    ensures forall m :: 0 <= m < |months| ==> !InMonthAsWritten(months[m], t)
  {
    forall m | 0 <= m < |months|
      ensures !InMonthAsWritten(months[m], t)
    {
      if m < k {
        ConsecutiveOrdered(months, m, k);
      } else if m > k {
        ConsecutiveOrdered(months, k, m);
      }
    }
  }

  /** With the intended test, consecutive months share out every instant
      of their span: each lies in exactly one month. */
  lemma {:induction false} MonthsPartition(months: seq<MonthWindow>, t: int)
    requires Consecutive(months) && |months| > 0
    requires months[0].start <= t < months[|months| - 1].next
    ensures exists k :: 0 <= k < |months| && InMonth(months[k], t)
    ensures forall k, m :: 0 <= k < m < |months| && InMonth(months[k], t) ==> !InMonth(months[m], t)
  {
    forall k, m | 0 <= k < m < |months| && InMonth(months[k], t)
      ensures !InMonth(months[m], t)
    {
      ConsecutiveOrdered(months, k, m);
    }
    if t >= months[|months| - 1].start {
      assert InMonth(months[|months| - 1], t);
    } else {
      MonthsPartition(months[..|months| - 1], t);
      var k :| 0 <= k < |months| - 1 && InMonth(months[..|months| - 1][k], t);
      assert InMonth(months[k], t);
    }
  }

  /** `orderDate >= monthStart && orderDate <= monthEnd`, as written. */
  function CreatedIn(w: MonthWindow): Order -> bool
  {
    (o: Order) => InMonthAsWritten(w, o.createdAt)
  }

  /** The same test on a payment's date. A payment without a date is an
      invalid date and in no month. */
  function PaidIn(w: MonthWindow): Payment -> bool
  {
    (p: Payment) => p.date.Some? && InMonthAsWritten(w, p.date.value)
  }

  /** `debtIssued`: the totals of the orders created in the month. */
  function DebtIssued(orders: seq<Order>, w: MonthWindow): int
  {
    SumOf(Filter(orders, CreatedIn(w)), OrderTotal)
  }

  function PaymentsIn(w: MonthWindow): Customer -> int
  {
    (c: Customer) => SumOf(Filter(c.payments, PaidIn(w)), PaymentAmount)
  }

  /** `paymentsMade`: the payments dated in the month, over all customers. */
  function PaymentsMade(customers: seq<Customer>, w: MonthWindow): int
  {
    SumOf(customers, PaymentsIn(w))
  }

  /** A month's figures never exceed the whole when amounts are not
      negative: what was issued in a month is at most all orders' totals. */
  lemma {:induction false} DebtIssuedAtMostTotal(orders: seq<Order>, w: MonthWindow)
    requires forall i :: 0 <= i < |orders| ==> orders[i].totalAmount >= 0
    ensures 0 <= DebtIssued(orders, w) <= SumOf(orders, OrderTotal)
  {
    if orders != [] {
      var o := orders[0];
      var rest := orders[1..];
      assert orders == [o] + rest;
      DebtIssuedAtMostTotal(rest, w);
      SumOfCons(o, rest, OrderTotal);
      if CreatedIn(w)(o) {
        SumOfCons(o, Filter(rest, CreatedIn(w)), OrderTotal);
      }
    }
  }

  /** An order created on a month's last day after its first instant adds
      nothing to any month's `debtIssued` in the chart as written. */
  lemma LastDayOrderUncharted(orders: seq<Order>, months: seq<MonthWindow>, k: nat, o: Order)
    requires Consecutive(months) && k < |months|
    requires months[k].lastDay < o.createdAt < months[k].next
    ensures forall m :: 0 <= m < |months| ==> DebtIssued(orders + [o], months[m]) == DebtIssued(orders, months[m])
  {
    LastDayInNoMonthAsWritten(months, k, o.createdAt);
    forall m | 0 <= m < |months|
      ensures DebtIssued(orders + [o], months[m]) == DebtIssued(orders, months[m])
    {
      FilterAppend(orders, [o], CreatedIn(months[m]));
      assert Filter([o], CreatedIn(months[m])) == [];
      assert Filter(orders + [o], CreatedIn(months[m])) == Filter(orders, CreatedIn(months[m]));
    }
  }

  /** The inner loop adding up `paymentsMade`. */
  method PaymentsMadeIn(customers: seq<Customer>, w: MonthWindow) returns (paymentsMade: int)
    ensures paymentsMade == PaymentsMade(customers, w)
  {
    paymentsMade := 0;
    var i := 0;
    while i < |customers|
      invariant 0 <= i <= |customers|
      invariant paymentsMade == PaymentsMade(customers[..i], w)
    {
      var monthPayments := Filter(customers[i].payments, PaidIn(w));
      paymentsMade := paymentsMade + SumOf(monthPayments, PaymentAmount);
      assert customers[..i + 1][..i] == customers[..i];
      i := i + 1;
    }
    assert customers[..i] == customers;
  }

  datatype ChartPoint = ChartPoint(name: string, debt: int, paid: int)

  function PointFor(orders: seq<Order>, customers: seq<Customer>, w: MonthWindow): ChartPoint
  {
    ChartPoint(w.name, DebtIssued(orders, w), PaymentsMade(customers, w))
  }

  /** The month loop: `monthsBack(i)` is the month `i` months before the
      current one, and the twelve points run from eleven months back to the
      current month. */
  method ChartData(orders: seq<Order>, customers: seq<Customer>, monthsBack: nat -> MonthWindow)
    returns (chart: seq<ChartPoint>)
    ensures |chart| == 12
    ensures forall k :: 0 <= k < 12 ==> chart[k] == PointFor(orders, customers, monthsBack(11 - k))
  {
    chart := [];
    var i := 11;
    while i >= 0
      invariant -1 <= i <= 11
      invariant |chart| == 11 - i
      invariant forall k :: 0 <= k < |chart| ==> chart[k] == PointFor(orders, customers, monthsBack(11 - k))
    {
      var month := monthsBack(i);
      var debtIssued := SumOf(Filter(orders, CreatedIn(month)), OrderTotal);
      var paymentsMade := PaymentsMadeIn(customers, month);
      chart := chart + [ChartPoint(month.name, debtIssued, paymentsMade)];
      i := i - 1;
    }
  }

  /** When the calendar's months follow one another, the chart's months
      are in order, oldest first, with no gap between them. */
  lemma ChartMonthsConsecutive(monthsBack: nat -> MonthWindow)
    requires forall i: nat :: WellFormed(monthsBack(i))
    requires forall i: nat :: monthsBack(i + 1).next == monthsBack(i).start
    ensures Consecutive(seq(12, k requires 0 <= k < 12 => monthsBack(11 - k)))
  {
    var months := seq(12, k requires 0 <= k < 12 => monthsBack(11 - k));
    forall k | 0 <= k < 11
      ensures months[k].next == months[k + 1].start
    {
      assert monthsBack((10 - k) + 1).next == monthsBack(10 - k).start;
    }
  }

  datatype Stats = Stats(
    totalCustomers: nat,
    totalOrders: nat,
    totalDebt: int,
    customersWithDebt: nat,
    paidOrders: nat,
    partialOrders: nat,
    unpaidOrders: nat)

  /** The whole GET response. */
  method Analyze(customers: seq<Customer>, orders: seq<Order>, monthsBack: nat -> MonthWindow)
    returns (stats: Stats, debtors: seq<DebtorRow>, chart: seq<ChartPoint>)
    ensures stats.totalCustomers == |customers| && stats.totalOrders == |orders|
    ensures stats.totalDebt == TotalDebt(customers)
    ensures stats.customersWithDebt == CustomersWithDebt(customers)
    ensures Tally(stats.paidOrders, stats.partialOrders, stats.unpaidOrders) == Buckets(customers, orders)
    ensures debtors == Rows(TopDebtors(customers)) && |debtors| <= 10
    ensures |chart| == 12
    ensures forall k :: 0 <= k < 12 ==> chart[k] == PointFor(orders, customers, monthsBack(11 - k))
  {
    var paid, partial, unpaid := CountBuckets(customers, orders);
    stats := Stats(|customers|, |orders|, TotalDebt(customers), CustomersWithDebt(customers), paid, partial, unpaid);
    debtors := Rows(TopDebtors(customers));
    chart := ChartData(orders, customers, monthsBack);
  }
}

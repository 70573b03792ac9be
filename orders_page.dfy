/** pages/orders.js: the status badge of an order's customer and the
    search-and-status filter over the fetched orders. */
module OrdersPage {
  import opened Wrappers
  import opened Seqs
  import opened Text
  import opened CustomerModel
  import opened OrderModel
  import Badges

  /** An order as the list shows it: `customerId` populated with the
      customer record, or `None` when that customer no longer exists. */
  datatype ListedOrder = ListedOrder(order: Order, customer: Option<Customer>)

  /** The badge: a known standing, or 'unknown' without a customer. */
  datatype ShownStatus = Unknown | Known(standing: PayStatus) {
    function Name(): string
    {
      match this
      case Unknown => "unknown"
      case Known(s) => s.Name()
    }
  }

  /** `getCustomerStatus`: paid when the stored debt is zero, partial when
      any payment is recorded, unpaid otherwise. */
  function CustomerStatus(c: Option<Customer>): (s: ShownStatus)
    ensures s == Unknown <==> c.None?
    ensures s == Known(Paid) <==> c.Some? && c.value.totalDebt == 0
    ensures s == Known(Partial) <==> c.Some? && c.value.totalDebt != 0 && |c.value.payments| > 0
    ensures s == Known(Unpaid) <==> c.Some? && c.value.totalDebt != 0 && c.value.payments == []
  {
    if c.None? then Unknown
    else if c.value.totalDebt == 0 then Known(Paid)
    else if |c.value.payments| > 0 then Known(Partial)
    else Known(Unpaid)
  }

  /** The search: the order number, or the customer's name when there is a
      customer, contains the term ignoring case. */
  predicate SearchMatches(term: string, o: ListedOrder)
  {
    ContainsIgnoreCase(o.order.orderNumber, term) || (o.customer.Some? && ContainsIgnoreCase(o.customer.value.name, term))
  }

  predicate StatusMatches(statusFilter: string, o: ListedOrder)
  {
    CustomerStatus(o.customer).Name() == statusFilter
  }

  /** The effect that sets `filteredOrders`: the search step when a term is
      typed, then the status step unless the filter is 'all'. */
  function FilterOrders(orders: seq<ListedOrder>, term: string, statusFilter: string): (r: seq<ListedOrder>)
    ensures IsSubsequence(r, orders)
    ensures term == "" && statusFilter == "all" ==> r == orders
    ensures forall i :: 0 <= i < |r| ==>
      && r[i] in orders
      && (term == "" || SearchMatches(term, r[i]))
      && (statusFilter == "all" || StatusMatches(statusFilter, r[i]))
    ensures forall i :: 0 <= i < |orders| ==>
      ((term == "" || SearchMatches(term, orders[i])) && (statusFilter == "all" || StatusMatches(statusFilter, orders[i])))
      ==> orders[i] in r
  {
    var searched := FilterIf(orders, term != "", (o: ListedOrder) => SearchMatches(term, o));
    var r := FilterIf(searched, statusFilter != "all", (o: ListedOrder) => StatusMatches(statusFilter, o));
    SubsequenceTransitive(r, searched, orders);
    assert forall i :: 0 <= i < |r| ==> r[i] in orders by {
      forall i | 0 <= i < |r| ensures r[i] in orders {
        assert r[i] in searched;
      }
    }
    forall i | 0 <= i < |orders| && (term == "" || SearchMatches(term, orders[i]))
                && (statusFilter == "all" || StatusMatches(statusFilter, orders[i]))
      ensures orders[i] in r
    {
      var j :| 0 <= j < |searched| && searched[j] == orders[i];
    }
    r
  }

  /** A status filter that names no badge ('overdue', say) empties the
      list. */
  lemma UnknownFilterShowsNothing(orders: seq<ListedOrder>, term: string, statusFilter: string)
    requires statusFilter !in ["all", "unknown", "paid", "partial", "unpaid"]
    ensures FilterOrders(orders, term, statusFilter) == []
  {
  }

  /** `getStatusColor`: green, yellow and red for paid, partial and
      unpaid; gray for anything else, 'unknown' included. */
  function StatusColor(status: string): (r: string)
    ensures r == Badges.Gray <==> status != "paid" && status != "partial" && status != "unpaid"
  {
    if status == "paid" then Badges.Green
    else if status == "partial" then Badges.Yellow
    else if status == "unpaid" then Badges.Red
    else Badges.Gray
  }

  /** `getStatusIcon`. */
  function StatusIcon(status: string): (r: string)
    ensures r == "•" <==> status != "paid" && status != "partial" && status != "unpaid"
  {
    if status == "paid" then "✓"
    else if status == "partial" then "◐"
    else if status == "unpaid" then "○"
    else "•"
  }

  /** Badges of different statuses differ in both colour and icon. */
  lemma BadgesDistinct(a: ShownStatus, b: ShownStatus)
    requires a != b
    ensures a.Known? && b.Known? ==> StatusColor(a.Name()) != StatusColor(b.Name())
    ensures a.Known? && b.Known? ==> StatusIcon(a.Name()) != StatusIcon(b.Name())
    ensures a.Known? <==> StatusIcon(a.Name()) != "•"
  {
  }
}

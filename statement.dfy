/** lib/pdfGenerator.js: the figures and rows of a customer statement.
    Amounts are integer minor units (kobo), so `toFixed(2)` is exact. The
    page layout itself is not part of this model. */
module Statement {
  import opened Wrappers
  import opened Seqs
  import opened Text
  import opened CustomerModel
  import opened OrderModel

  /** The two digits of `k`, zero first when `k < 10`. */
  function TwoDigits(k: nat): (r: string)
    requires k < 100
    ensures |r| == 2 && AllDigits(r) && ParseNat(r) == k
  {
    var r := [DigitChar(k / 10), DigitChar(k % 10)];
    assert r[..1] == [DigitChar(k / 10)] && r[..1][..0] == [];
    assert DigitValue(r[0]) == k / 10 && DigitValue(r[1]) == k % 10;
    assert ParseNat(r[..1]) == ParseNat(r[..1][..0]) * 10 + k / 10 == k / 10;
    assert ParseNat(r) == ParseNat(r[..1]) * 10 + k % 10;
    r
  }

  function Abs(m: int): nat
  {
    if m < 0 then -m else m
  }

  function SignOf(m: int): string
  {
    if m < 0 then "-" else ""
  }

  /** `(m / 100).toFixed(2)`. */
  function ToFixed2(m: int): string
  {
    SignOf(m) + NatToString(Abs(m) / 100) + "." + TwoDigits(Abs(m) % 100)
  }

  /** The `/\B(?=(\d{3})+(?!\d))/g` insertion on a run of digits: a comma
      before every third digit from the right, never in front. */
  function Group(s: string): (r: string)
    requires AllDigits(s)
    ensures |s| >= 1 ==> |r| == |s| + (|s| - 1) / 3
    decreases |s|
  {
    if |s| <= 3 then s
    else Group(s[..|s| - 3]) + "," + s[|s| - 3..]
  }

  /** The grouped digits: digits and commas only, a comma exactly where a
      positive multiple of four characters (three digits and their comma)
      follow, so the first group has one to three digits and every other
      group three. */
  lemma {:induction false} GroupShape(s: string)
    requires AllDigits(s)
    ensures forall i :: 0 <= i < |Group(s)| ==> Group(s)[i] == ',' || IsDigit(Group(s)[i])
    ensures forall i :: 0 <= i < |Group(s)| ==> (Group(s)[i] == ',' <==> i > 0 && (|Group(s)| - i) % 4 == 0)
    decreases |s|
  {
    if |s| > 3 {
      var front := s[..|s| - 3];
      var back := s[|s| - 3..];
      assert Group(s) == Group(front) + "," + back;
      GroupShape(front);
      assert AllDigits(back) by {
        forall i | 0 <= i < |back| ensures IsDigit(back[i]) {
          assert back[i] == s[|s| - 3 + i];
        }
      }
      GroupStepShape(Group(front), back);
    }
  }

  /** Appending a comma and three digits to a grouped number keeps its
      shape. */
  lemma GroupStepShape(g: string, back: string)
    requires |g| > 0 && |back| == 3 && AllDigits(back)
    requires forall i :: 0 <= i < |g| ==> g[i] == ',' || IsDigit(g[i])
    requires forall i :: 0 <= i < |g| ==> (g[i] == ',' <==> i > 0 && (|g| - i) % 4 == 0)
    ensures forall i :: 0 <= i < |g + "," + back| ==> (g + "," + back)[i] == ',' || IsDigit((g + "," + back)[i])
    ensures forall i :: 0 <= i < |g + "," + back| ==>
      ((g + "," + back)[i] == ',' <==> i > 0 && (|g + "," + back| - i) % 4 == 0)
  {
    var r := g + "," + back;
    forall i | 0 <= i < |r|
      ensures r[i] == ',' || IsDigit(r[i])
      ensures r[i] == ',' <==> i > 0 && (|r| - i) % 4 == 0
    {
      if i < |g| {
        assert r[i] == g[i];
        assert (|r| - i) % 4 == (|g| - i) % 4;
      } else if i > |g| {
        assert r[i] == back[i - |g| - 1];
      }
    }
  }

  /** Drops every comma. */
  function RemoveCommas(s: string): (r: string)
    ensures |r| <= |s|
  {
    if s == [] then [] else (if s[0] == ',' then [] else [s[0]]) + RemoveCommas(s[1..])
  }

  lemma {:induction false} RemoveCommasAppend(a: string, b: string)
    ensures RemoveCommas(a + b) == RemoveCommas(a) + RemoveCommas(b)
  {
    if a != [] {
      assert (a + b)[0] == a[0];
      assert (a + b)[1..] == a[1..] + b;
      RemoveCommasAppend(a[1..], b);
    } else {
      assert a + b == b;
    }
  }

  lemma {:induction false} RemoveCommasNone(s: string)
    requires forall i :: 0 <= i < |s| ==> s[i] != ','
    ensures RemoveCommas(s) == s
  {
    if s != [] {
      RemoveCommasNone(s[1..]);
    }
  }

  /** Dropping the commas around one inserted comma. */
  lemma RemoveCommasJoin(g: string, back: string)
    requires forall i :: 0 <= i < |back| ==> back[i] != ','
    ensures RemoveCommas(g + "," + back) == RemoveCommas(g) + back
  {
    RemoveCommasAppend(g + ",", back);
    RemoveCommasAppend(g, ",");
    RemoveCommasComma();
    RemoveCommasNone(back);
    assert RemoveCommas(g + ",") == RemoveCommas(g);
  }

  lemma RemoveCommasComma()
    ensures RemoveCommas(",") == []
  {
    assert ","[0] == ',' && ","[1..] == [];
  }

  /** Grouping only inserts commas. */
  lemma {:induction false} RemoveCommasGroup(s: string)
    requires AllDigits(s)
    ensures RemoveCommas(Group(s)) == s
    decreases |s|
  {
    if |s| <= 3 {
      RemoveCommasNone(s);
    } else {
      var front := s[..|s| - 3];
      var back := s[|s| - 3..];
      assert Group(s) == Group(front) + "," + back;
      RemoveCommasGroup(front);
      assert forall i :: 0 <= i < |back| ==> back[i] != ',' by {
        forall i | 0 <= i < |back| ensures back[i] != ',' {
          assert back[i] == s[|s| - 3 + i];
        }
      }
      RemoveCommasJoin(Group(front), back);
      assert s == front + back;
    }
  }

  /** `formatNumber`: the sign, the whole units grouped by threes, the point
      and two decimals. Commas sit in the integer part only, each with a
      multiple of three digits between it and the point, and never right
      after the sign or first. */
  function FormatNumber(m: int): (r: string)
    ensures |r| >= 4 + |SignOf(m)|
    ensures r[..|SignOf(m)|] == SignOf(m)
    ensures r[|r| - 3] == '.' && IsDigit(r[|r| - 2]) && IsDigit(r[|r| - 1])
    ensures forall i :: |SignOf(m)| <= i < |r| - 3 ==>
      (r[i] == ',' <==> i > |SignOf(m)| && (|r| - 3 - i) % 4 == 0)
    ensures forall i :: |SignOf(m)| <= i < |r| - 3 ==> r[i] == ',' || IsDigit(r[i])
  {
    var sign := SignOf(m);
    var grouped := Group(NatToString(Abs(m) / 100));
    var r := sign + grouped + ("." + TwoDigits(Abs(m) % 100));
    GroupShape(NatToString(Abs(m) / 100));
    assert forall i :: |sign| <= i < |r| - 3 ==> r[i] == grouped[i - |sign|];
    r
  }

  /** Removing the commas from a text between comma-free ends touches only
      its middle. */
  lemma RemoveCommasAround(sign: string, g: string, tail: string)
    requires forall i :: 0 <= i < |sign| ==> sign[i] != ','
    requires forall i :: 0 <= i < |tail| ==> tail[i] != ','
    ensures RemoveCommas(sign + g + tail) == sign + RemoveCommas(g) + tail
  {
    assert sign + g + tail == sign + (g + tail);
    RemoveCommasAppend(sign, g + tail);
    RemoveCommasAppend(g, tail);
    RemoveCommasNone(sign);
    RemoveCommasNone(tail);
  }

  /** Removing the commas from `formatNumber(x)` gives `x.toFixed(2)`. */
  lemma FormatNumberRoundTrip(m: int)
    ensures RemoveCommas(FormatNumber(m)) == ToFixed2(m)
  {
    var tail := "." + TwoDigits(Abs(m) % 100);
    assert forall i :: 0 <= i < |tail| ==> tail[i] != ',' by {
      assert tail[0] == '.';
      assert forall i :: 1 <= i < |tail| ==> IsDigit(tail[i]);
    }
    var digits := NatToString(Abs(m) / 100);
    RemoveCommasGroup(digits);
    RemoveCommasAround(SignOf(m), Group(digits), tail);
  }

  /** The financial summary: old balance, the orders' totals, the payments'
      total, and the balance, which is the stored debt. */
  datatype Summary = Summary(oldBalance: int, totalOrders: int, totalPaid: int, balance: int)

  function SummaryOf(c: Customer, orders: seq<Order>): (s: Summary)
    ensures s.oldBalance == c.oldBalance && s.balance == c.totalDebt
    ensures s.totalOrders == SumOf(orders, OrderTotal) && s.totalPaid == TotalPaid(c)
  {
    Summary(c.oldBalance, SumOf(orders, OrderTotal), TotalPaid(c), c.totalDebt)
  }

  /** The status badge: paid exactly when the balance is zero; otherwise
      partial once anything was paid, unpaid when nothing was. */
  function StatementStatus(balance: int, totalPaid: int): (s: PayStatus)
    ensures s == Paid <==> balance == 0
    ensures s == Partial <==> balance != 0 && totalPaid > 0
    ensures s == Unpaid <==> balance != 0 && totalPaid <= 0
  {
    if balance == 0 then Paid
    else if totalPaid > 0 then Partial
    else Unpaid
  }

  /** `${p.name} (x${p.quantity})`. */
  function ProductLabel(l: LineItem): string
  {
    l.name + " (x" + IntToString(l.quantity) + ")"
  }

  /** The label is the name, then " (x", then the quantity's decimal
      digits (after a minus sign when it is negative), then ")". */
  lemma ProductLabelReadsBack(l: LineItem)
    ensures var r := ProductLabel(l);
      |r| >= |l.name| + 5 && r[..|l.name|] == l.name && r[|l.name|..|l.name| + 3] == " (x" && r[|r| - 1] == ')'
    ensures var r := ProductLabel(l); var n := r[|l.name| + 3..|r| - 1];
      if l.quantity >= 0 then AllDigits(n) && ParseNat(n) == l.quantity
      else |n| >= 2 && n[0] == '-' && AllDigits(n[1..]) && ParseNat(n[1..]) == -l.quantity
  {
    var q := IntToString(l.quantity);
    var r := ProductLabel(l);
    assert r == l.name + " (x" + q + ")";
    assert r[|l.name| + 3..|r| - 1] == q;
    if l.quantity >= 0 {
      ParseNatToString(l.quantity);
    } else {
      ParseNatToString(-l.quantity);
      assert q[1..] == NatToString(-l.quantity);
    }
  }

  function ProductLabels(lines: seq<LineItem>): (r: seq<string>)
    ensures |r| == |lines|
    ensures forall i :: 0 <= i < |lines| ==> r[i] == ProductLabel(lines[i])
  {
    Map(lines, ProductLabel)
  }

  /** The products column: the labels joined by ", ". */
  function ProductsList(lines: seq<LineItem>): string
  {
    Join(ProductLabels(lines), ", ")
  }

  lemma {:induction false} JoinAppend(parts: seq<string>, p: string, sep: string)
    requires parts != []
    ensures Join(parts + [p], sep) == Join(parts, sep) + sep + p
  {
    if |parts| == 1 {
      assert (parts + [p])[1..] == [p];
    } else {
      assert (parts + [p])[1..] == parts[1..] + [p];
      JoinAppend(parts[1..], p, sep);
    }
  }

  /** Each further line adds ", " and its label to the column. */
  lemma ProductsListAppend(lines: seq<LineItem>, l: LineItem)
    requires lines != []
    ensures ProductsList(lines + [l]) == ProductsList(lines) + ", " + ProductLabel(l)
  {
    assert ProductLabels(lines + [l]) == ProductLabels(lines) + [ProductLabel(l)];
    JoinAppend(ProductLabels(lines), ProductLabel(l), ", ");
  }

  /** One row of the order table; dates stay as instants, since their
      locale text is not part of this model. */
  datatype OrderRow = OrderRow(orderNumber: string, date: int, products: string, amount: string)

  /** One row of the payment table. */
  datatype PaymentRow = PaymentRow(date: Option<int>, amount: string, note: string)

  function OlderOrder(a: Order, b: Order): bool
  {
    a.createdAt <= b.createdAt
  }

  /** Payments without a date are placed first. */
  function OlderPayment(a: Payment, b: Payment): bool
  {
    a.date.None? || (b.date.Some? && a.date.value <= b.date.value)
  }

  function OrderRowOf(o: Order): OrderRow
  {
    OrderRow(o.orderNumber, o.createdAt, ProductsList(o.products), "N" + FormatNumber(o.totalAmount))
  }

  function PaymentRowOf(p: Payment): PaymentRow
  {
    PaymentRow(p.date, "N" + FormatNumber(p.amount), if p.note != "" then p.note else "-")
  }

  /** The order table: one row per order, oldest first. */
  function OrderRows(orders: seq<Order>): (r: seq<OrderRow>)
    ensures |r| == |orders|
    ensures forall i, j :: 0 <= i < j < |r| ==> r[i].date <= r[j].date
    ensures multiset(r) == multiset(Map(orders, OrderRowOf))
  {
    assert TotalPreorder(OlderOrder);
    var sorted := SortBy(orders, OlderOrder);
    MapPermutation(sorted, orders, OrderRowOf);
    Map(sorted, OrderRowOf)
  }

  /** The payment table: one row per payment, oldest first, undated ones
      leading. */
  function PaymentRows(c: Customer): (r: seq<PaymentRow>)
    ensures |r| == |c.payments|
    ensures forall i, j :: 0 <= i < j < |r| && r[i].date.Some? ==>
      r[j].date.Some? && r[i].date.value <= r[j].date.value
    ensures multiset(r) == multiset(Map(c.payments, PaymentRowOf))
  {
    assert TotalPreorder(OlderPayment);
    var sorted := SortBy(c.payments, OlderPayment);
    MapPermutation(sorted, c.payments, PaymentRowOf);
    Map(sorted, PaymentRowOf)
  }

  /** `statement-<name>-<date>.pdf`, with each run of white space in the
      name turned into one '-' and the slashes of the printed date into
      '-'. */
  function FileName(customerName: string, printedDate: string): (r: string)
    ensures var name := ReplaceWhitespaceRuns(customerName, '-');
      && |r| == 15 + |name| + |printedDate|
      && r[..10] == "statement-"
      && r[10..10 + |name|] == name
      && r[10 + |name|] == '-'
      && (forall i :: 0 <= i < |printedDate| ==>
            r[11 + |name| + i] == if printedDate[i] == '/' then '-' else printedDate[i])
      && r[|r| - 4..] == ".pdf"
  {
    var tail := DatePart(printedDate);
    assert tail[|tail| - 4..] == ".pdf";
    "statement-" + ReplaceWhitespaceRuns(customerName, '-') + tail
  }

  /** `-<date>.pdf`, the slashes of the printed date turned into '-'. */
  function DatePart(printedDate: string): string
  {
    "-" + ReplaceChar(printedDate, '/', '-') + ".pdf"
  }

  /** Three pieces without white space joined together have none, and a
      slash in the join can only come from the middle piece when the outer
      pieces have none. */
  lemma {:induction false} JoinedClean(head: string, middle: string, tail: string)
    requires NoWhitespace(head) && NoWhitespace(middle) && NoWhitespace(tail)
    requires '/' !in head && '/' !in tail
    ensures NoWhitespace(head + middle + tail)
    ensures forall i :: 0 <= i < |head + middle + tail| && (head + middle + tail)[i] == '/' ==>
      |head| <= i < |head| + |middle|
  {
    var r := head + middle + tail;
    forall i | 0 <= i < |r|
      ensures !IsWhitespace(r[i])
      ensures r[i] == '/' ==> |head| <= i < |head| + |middle|
    {
      if i < |head| {
        assert r[i] == head[i];
      } else if i < |head| + |middle| {
        assert r[i] == middle[i - |head|];
      } else {
        assert r[i] == tail[i - |head| - |middle|];
      }
    }
  }

  /** The date part of the file name has neither white space nor '/'. */
  lemma DatePartClean(printedDate: string)
    requires NoWhitespace(printedDate)
    ensures NoWhitespace(DatePart(printedDate)) && '/' !in DatePart(printedDate)
  {
    var date := ReplaceChar(printedDate, '/', '-');
    forall i | 0 <= i < |date| ensures !IsWhitespace(date[i]) && date[i] != '/' {
      assert date[i] == if printedDate[i] == '/' then '-' else printedDate[i];
    }
    JoinedClean("-", date, ".pdf");
  }

  /** A statement's file name has no white space when the printed date has
      none, and no slash anywhere that the name did not bring. */
  lemma FileNameClean(customerName: string, printedDate: string)
    requires NoWhitespace(printedDate)
    ensures NoWhitespace(FileName(customerName, printedDate))
    ensures forall i :: 0 <= i < |FileName(customerName, printedDate)| && FileName(customerName, printedDate)[i] == '/' ==>
      10 <= i < 10 + |ReplaceWhitespaceRuns(customerName, '-')|
  {
    DatePartClean(printedDate);
    JoinedClean("statement-", ReplaceWhitespaceRuns(customerName, '-'), DatePart(printedDate));
  }

  /** What the statement shows, apart from layout. */
  datatype StatementData = StatementData(
    orderRows: seq<OrderRow>,
    paymentRows: seq<PaymentRow>,
    summary: Summary,
    status: PayStatus)

  function StatementOf(c: Customer, orders: seq<Order>): (s: StatementData)
    ensures s.summary == SummaryOf(c, orders)
    ensures s.status == StatementStatus(c.totalDebt, TotalPaid(c))
    ensures s.orderRows == OrderRows(orders) && s.paymentRows == PaymentRows(c)
  {
    var summary := SummaryOf(c, orders);
    StatementData(OrderRows(orders), PaymentRows(c), summary, StatementStatus(summary.balance, summary.totalPaid))
  }
}

/** The expense record of models/Expense.js. */
module ExpenseModel {
  import opened Wrappers
  import Text

  type ExpenseId = nat

  datatype Category = Operating | Inventory | Tax | LabourTransport | OtherCategory {
    function Name(): (s: string)
      ensures ParseCategory(s) == Some(this)
    {
      match this
      case Operating => "operating"
      case Inventory => "inventory"
      case Tax => "tax"
      case LabourTransport => "labour_transport"
      case OtherCategory => "other"
    }
  }

  /** The `enum` validator of `category`. */
  function ParseCategory(s: string): (r: Option<Category>)
    ensures r.Some? <==> s in ["operating", "inventory", "tax", "labour_transport", "other"]
  {
    if s == "operating" then Some(Operating)
    else if s == "inventory" then Some(Inventory)
    else if s == "tax" then Some(Tax)
    else if s == "labour_transport" then Some(LabourTransport)
    else if s == "other" then Some(OtherCategory)
    else None
  }

  /** A category that passes the validator is stored under that name. */
  lemma ParseCategoryName(s: string)
    ensures ParseCategory(s).Some? ==> ParseCategory(s).value.Name() == s
  {
    if ParseCategory(s).Some? {
      assert s in ["operating", "inventory", "tax", "labour_transport", "other"];
    }
  }

  datatype PaymentMethod = Cash | BankTransfer | Cheque | MobileMoney | OtherMethod {
    function Name(): (s: string)
      ensures ParsePaymentMethod(s) == Some(this)
    {
      match this
      case Cash => "cash"
      case BankTransfer => "bank_transfer"
      case Cheque => "cheque"
      case MobileMoney => "mobile_money"
      case OtherMethod => "other"
    }
  }

  /** The `enum` validator of `paymentMethod`. */
  function ParsePaymentMethod(s: string): (r: Option<PaymentMethod>)
    ensures r.Some? <==> s in ["cash", "bank_transfer", "cheque", "mobile_money", "other"]
  {
    if s == "cash" then Some(Cash)
    else if s == "bank_transfer" then Some(BankTransfer)
    else if s == "cheque" then Some(Cheque)
    else if s == "mobile_money" then Some(MobileMoney)
    else if s == "other" then Some(OtherMethod)
    else None
  }

  /** A payment method that passes the validator is stored under that name. */
  lemma ParsePaymentMethodName(s: string)
    ensures ParsePaymentMethod(s).Some? ==> ParsePaymentMethod(s).value.Name() == s
  {
    if ParsePaymentMethod(s).Some? {
      assert s in ["cash", "bank_transfer", "cheque", "mobile_money", "other"];
    }
  }

  /** An expense; empty strings stand for the absent optional fields. */
  datatype Expense = Expense(
    id: ExpenseId,
    date: int,
    amount: int,
    category: Category,
    description: string,
    paymentMethod: PaymentMethod,
    receiptNumber: string,
    vendorName: string,
    vendorContact: string,
    vatAmount: int,
    isTaxDeductible: bool,
    createdAt: int)

  /** What a caller hands to `Expense.create`; `None` is an absent field. */
  datatype ExpenseDraft = ExpenseDraft(
    date: Option<int>,
    amount: Option<int>,
    category: string,
    description: string,
    paymentMethod: string,
    receiptNumber: string,
    vendorName: string,
    vendorContact: string,
    vatAmount: Option<int>,
    isTaxDeductible: Option<bool>)

  /** Storing a new expense: the amount is required and not negative, the
      category and payment method must be in their lists, the description is
      trimmed and required, the VAT defaults to 0 and may not be negative,
      the tax flag defaults to false and the date to now. */
  function NewExpense(id: ExpenseId, d: ExpenseDraft, now: int): (r: Result<Expense, SchemaError>)
    ensures r.Ok? <==> && d.amount.Some? && d.amount.value >= 0
                       && ParseCategory(d.category).Some?
                       && Text.Trim(d.description) != ""
                       && ParsePaymentMethod(d.paymentMethod).Some?
                       && d.vatAmount.GetOr(0) >= 0
    ensures r.Ok? ==> && r.value.id == id && r.value.amount == d.amount.value
                      && r.value.category.Name() == d.category
                      && r.value.paymentMethod.Name() == d.paymentMethod
                      && r.value.description == Text.Trim(d.description)
                      && r.value.receiptNumber == Text.Trim(d.receiptNumber)
                      && r.value.vendorName == Text.Trim(d.vendorName)
                      && r.value.vendorContact == Text.Trim(d.vendorContact)
                      && r.value.createdAt == now
    ensures r.Ok? ==> && r.value.date == (if d.date.Some? then d.date.value else now)
                      && r.value.vatAmount == (if d.vatAmount.Some? then d.vatAmount.value else 0)
                      && r.value.isTaxDeductible == (d.isTaxDeductible == Some(true))
  {
    ParseCategoryName(d.category);
    ParsePaymentMethodName(d.paymentMethod);
    var description := Text.Trim(d.description);
    var category := ParseCategory(d.category);
    var payWith := ParsePaymentMethod(d.paymentMethod);
    if d.amount.None? then Err(Required("amount"))
    else if d.amount.value < 0 then Err(BelowMinimum("amount"))
    else if category.None? then Err(NotInEnum("category"))
    else if description == "" then Err(Required("description"))
    else if payWith.None? then Err(NotInEnum("paymentMethod"))
    else if d.vatAmount.GetOr(0) < 0 then Err(BelowMinimum("vatAmount"))
    else
      var date := if d.date.Some? then d.date.value else now;
      var vat := if d.vatAmount.Some? then d.vatAmount.value else 0;
      var deductible := d.isTaxDeductible.Some? && d.isTaxDeductible.value;
      Ok(Expense(id, date, d.amount.value, category.value, description, payWith.value,
                 Text.Trim(d.receiptNumber), Text.Trim(d.vendorName), Text.Trim(d.vendorContact),
                 vat, deductible, now))
  }
}

/** The customer record of models/Customer.js, with the two fields the
    handlers read although the schema does not declare them: `oldBalance`
    (debt carried over from before the system) and `payments`. */
module CustomerModel {
  import opened Wrappers
  import Seqs

  type CustomerId = nat

  /** A payment on the customer's account. `date` may be absent in records
      written before dates were kept; an empty `note` is no note. */
  datatype Payment = Payment(amount: int, date: Option<int>, note: string)

  datatype Customer = Customer(
    id: CustomerId,
    name: string,
    phone: string,
    email: string,
    address: string,
    totalDebt: int,
    oldBalance: int,
    payments: seq<Payment>,
    createdAt: int)

  /** The standing of an account as the pages and the statement show it. */
  datatype PayStatus = Paid | Partial | Unpaid {
    function Name(): string
    {
      match this
      case Paid => "paid"
      case Partial => "partial"
      case Unpaid => "unpaid"
    }
  }

  /** The fields a caller supplies; empty strings stand for absent ones. */
  datatype CustomerInput = CustomerInput(name: string, phone: string, email: string, address: string)

  function PaymentAmount(p: Payment): int
  {
    p.amount
  }

  /** `customer.payments ? customer.payments.reduce((s, p) => s + p.amount, 0) : 0`. */
  function TotalPaid(c: Customer): int
  {
    Seqs.SumOf(c.payments, PaymentAmount)
  }

  /** Storing a new customer: name and phone are required, email and
      address optional, and the debt, old balance and payments start empty. */
  function NewCustomer(id: CustomerId, input: CustomerInput, now: int): (r: Result<Customer, SchemaError>)
    ensures r.Ok? <==> input.name != "" && input.phone != ""
    ensures input.name == "" ==> r == Err(Required("name"))
    ensures r.Ok? ==> && r.value.id == id && r.value.name == input.name && r.value.phone == input.phone
                      && r.value.email == input.email && r.value.address == input.address
                      && r.value.createdAt == now
    ensures r.Ok? ==> r.value.totalDebt == 0 && TotalPaid(r.value) == 0 && r.value.oldBalance == 0
  {
    if input.name == "" then Err(Required("name"))
    else if input.phone == "" then Err(Required("phone"))
    else Ok(Customer(id, input.name, input.phone, input.email, input.address, 0, 0, [], now))
  }

  predicate CustomerIdsUnique(customers: seq<Customer>)
  {
    forall i, j :: 0 <= i < j < |customers| ==> customers[i].id != customers[j].id
  }

  /** `Customer.findById(id)`: the position of the customer with that id. */
  function FindCustomer(customers: seq<Customer>, id: CustomerId): (r: Option<nat>)
    ensures r.Some? ==> r.value < |customers| && customers[r.value].id == id
    ensures r.None? <==> forall i :: 0 <= i < |customers| ==> customers[i].id != id
  {
    Seqs.FindByKey(customers, (c: Customer) => c.id, id)
  }

  /** Some customer in `customers` has id `id`. */
  predicate HasCustomer(customers: seq<Customer>, id: CustomerId)
  {
    exists i :: 0 <= i < |customers| && customers[i].id == id
  }
}

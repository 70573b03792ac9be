/** pages/customers.js: the search box over the customer list. */
module CustomersPage {
  import opened Seqs
  import opened Text
  import opened CustomerModel

  /** The name contains the term ignoring case, or the phone contains it
      exactly. */
  predicate CustomerMatches(term: string, c: Customer)
  {
    ContainsIgnoreCase(c.name, term) || Contains(c.phone, term)
  }

  /** `filteredCustomers`: every customer for an empty term, otherwise the
      matching ones in list order. */
  function SearchCustomers(customers: seq<Customer>, term: string): (r: seq<Customer>)
    ensures IsSubsequence(r, customers)
    ensures term == "" ==> r == customers
    ensures forall i :: 0 <= i < |r| ==> r[i] in customers && (term == "" || CustomerMatches(term, r[i]))
    ensures forall i :: 0 <= i < |customers| && CustomerMatches(term, customers[i]) ==> customers[i] in r
  {
    FilterIf(customers, term != "", (c: Customer) => CustomerMatches(term, c))
  }

  /** Typing a customer's whole phone number finds that customer. */
  lemma SearchFindsByPhone(customers: seq<Customer>, i: int)
    requires 0 <= i < |customers|
    ensures customers[i] in SearchCustomers(customers, customers[i].phone)
  {
    ContainsSelf(customers[i].phone);
  }

  /** Typing a customer's name in any case of its ASCII letters finds that
      customer. */
  lemma SearchFindsByName(customers: seq<Customer>, i: int, term: string)
    requires 0 <= i < |customers| && Lower(customers[i].name) == Lower(term)
    ensures customers[i] in SearchCustomers(customers, term)
  {
    ContainsIgnoreCaseOfEqual(customers[i].name, term);
  }

  /** When the name does not match, only the phone can find a customer,
      and it must contain the term exactly as typed. */
  lemma PhoneMatchIsCaseSensitive(c: Customer, term: string)
    requires !ContainsIgnoreCase(c.name, term)
    ensures c in SearchCustomers([c], term) <==> Contains(c.phone, term)
  {
    assert OccursAt(Lower(c.name), Lower(""), 0);
    var r := SearchCustomers([c], term);
    if c in r {
      var i :| 0 <= i < |r| && r[i] == c;
    }
  }

  /** A customer whose phone is "ab" is not found by "AB" unless the name
      matches, while a name "ab" is. */
  lemma PhoneCaseWitness(byPhone: Customer, byName: Customer)
    requires byPhone.phone == "ab" && byPhone.name == "x"
    requires byName.name == "ab"
    ensures byPhone !in SearchCustomers([byPhone], "AB")
    ensures byName in SearchCustomers([byName], "AB")
  {
    ContainsIgnoreCaseOfEqual("ab", "AB");
    assert !ContainsIgnoreCase("x", "AB");
    assert !Contains("ab", "AB") by {
      assert !OccursAt("ab", "AB", 0);
    }
    PhoneMatchIsCaseSensitive(byPhone, "AB");
  }
}

/** The older customer store: `add` silently replaces a customer stored under the same
    id, and `update` fails for an unknown one. */
module LegacyCustomerRepos {
  import opened Common
  import opened Dicts
  import opened Customers

  class CustomerRepository {
    var customers: Dict<int, Customer>

    /** Each customer is stored under its own id. */
    ghost predicate Valid()
      reads this
    {
      customers.Valid() &&
      forall id | id in customers.entries :: customers.entries[id].id == id
    }

    constructor ()
      ensures Valid() && customers == Empty()
    {
      customers := Empty();
    }

    /** `add(customer)`: stores the customer under its id, replacing any customer there. */
    method Add(customer: Customer)
      requires Valid()
      modifies this
      ensures Valid()
      ensures customers == old(customers).Put(customer.id, customer)
      ensures GetById(customer.id) == Some(customer)
    {
      customers := customers.Put(customer.id, customer);
    }

    /** `get_by_id(customer_id)`: the stored customer, or `None`. */
    function GetById(customerId: int): (r: Option<Customer>)
      reads this
      ensures r.Some? <==> customerId in customers.entries
      ensures r.Some? ==> r.value == customers.entries[customerId]
    {
      customers.Get(customerId)
    }

    /** `get_all()`: every stored customer, one per id, in insertion order. */
    function GetAll(): (all: seq<Customer>)
      requires Valid()
      reads this
      ensures |all| == |customers.entries| == |customers.keys|
      ensures forall i | 0 <= i < |all| :: all[i] == customers.entries[customers.keys[i]]
      ensures forall id | id in customers.entries :: customers.entries[id] in all
      ensures NoDuplicates(all)
    {
      customers.ValuesAreEntries();
      var all := customers.Values();
      assert NoDuplicates(all) by {
        forall i, j | 0 <= i < j < |all| ensures all[i] != all[j] {
          assert all[i].id == customers.keys[i] && all[j].id == customers.keys[j];
        }
      }
      all
    }

    /** `update(customer)`: replaces the entry under the customer's id when there is one;
        otherwise fails, changing nothing. */
    method Update(customer: Customer) returns (r: Outcome)
      requires Valid()
      modifies this
      ensures Valid()
      ensures customer.id in old(customers.entries) ==>
        r == Pass && customers == old(customers).Put(customer.id, customer)
      ensures customer.id !in old(customers.entries) ==>
        r == Fail(CustomerNotFound(customer.id)) && customers == old(customers)
    {
      if customer.id in customers.entries {
        customers := customers.Put(customer.id, customer);
        return Pass;
      }
      return Fail(CustomerNotFound(customer.id));
    }
  }
}

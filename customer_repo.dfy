/** The customer store: customers keyed by their id, refusing a second customer with an
    id already stored. */
module CustomerRepos {
  import opened Common
  import opened Dicts
  import opened Customers

  class CustomerRepository {
    var customers: Dict<int, Customer>

    /** Each customer is stored under its own id. */
    ghost predicate Valid()
      reads this
    {
      customers.Valid() &&
      forall id | id in customers.entries :: customers.entries[id].id == id
    }

    constructor ()
      ensures Valid() && customers == Empty()
    {
      customers := Empty();
    }

    /** The stored customer with this id, as a frame. */
    function Lookup(customerId: int): set<Customer>
      reads this
    {
      if customerId in customers.entries then {customers.entries[customerId]} else {}
    }

    /** `add(customer)`: fails, changing nothing, when its id is already stored; otherwise
        stores and returns it. */
    method Add(customer: Customer) returns (r: Result<Customer>)
      requires Valid()
      modifies this`customers
      ensures Valid()
      ensures customer.id in old(customers.entries) ==>
        r == Err(CustomerExists(customer.id)) && customers == old(customers)
      ensures customer.id !in old(customers.entries) ==>
        r == Ok(customer) && customers == old(customers).Put(customer.id, customer)
    {
      if customer.id in customers.entries {
        return Err(CustomerExists(customer.id));
      }
      customers := customers.Put(customer.id, customer);
      return Ok(customer);
    }

    /** `get_by_id(customer_id)`: the stored customer, or `None`. */
    function GetById(customerId: int): (r: Option<Customer>)
      reads this
      ensures r.Some? <==> customerId in customers.entries
      ensures r.Some? ==> r.value == customers.entries[customerId]
    {
      customers.Get(customerId)
    }

    /** `find_by_email(email)`: the first customer, in insertion order, whose email is
        exactly `email` (case counts), or `None` when no stored customer has it. */
    method FindByEmail(email: string) returns (r: Option<Customer>)
      requires Valid()
      ensures r.Some? ==> r.value.email == email
      ensures r.Some? ==> r.value.id in customers.entries && customers.entries[r.value.id] == r.value
      ensures r.Some? ==> exists i | 0 <= i < |customers.keys| ::
        customers.keys[i] == r.value.id &&
        forall j | 0 <= j < i :: customers.entries[customers.keys[j]].email != email
      ensures r.None? ==> forall id | id in customers.entries :: customers.entries[id].email != email
    {
      var values := customers.Values();
      for i := 0 to |values|
        invariant forall j | 0 <= j < i :: values[j].email != email
      {
        if values[i].email == email {
          var id := customers.keys[i];
          assert id in customers.entries && values[i] == customers.entries[id];
          assert values[i].id == id;
          return Some(values[i]);
        }
      }
      forall id | id in customers.entries ensures customers.entries[id].email != email {
        var k :| 0 <= k < |customers.keys| && customers.keys[k] == id;
        assert values[k] == customers.entries[id];
      }
      return None;
    }

    /** `get_all()`: the stored customers in insertion order. */
    function GetAll(): (all: seq<Customer>)
      requires Valid()
      reads this
      ensures |all| == |customers.entries| == |customers.keys|
      ensures forall i | 0 <= i < |all| :: all[i] == customers.entries[customers.keys[i]]
      ensures forall id | id in customers.entries :: customers.entries[id] in all
    {
      customers.ValuesAreEntries();
      customers.Values()
    }

    /** `update(customer)`: fails, changing nothing, when its id is not stored; otherwise
        replaces only that entry. */
    method Update(customer: Customer) returns (r: Result<Customer>)
      requires Valid()
      modifies this`customers
      ensures Valid()
      ensures customer.id !in old(customers.entries) ==>
        r == Err(CustomerNotFound(customer.id)) && customers == old(customers)
      ensures customer.id in old(customers.entries) ==>
        r == Ok(customer) && customers == old(customers).Put(customer.id, customer)
    {
      if customer.id !in customers.entries {
        return Err(CustomerNotFound(customer.id));
      }
      customers := customers.Put(customer.id, customer);
      return Ok(customer);
    }

    /** `delete(customer_id)`: removes the customer when stored, silently does nothing
        otherwise. */
    method Delete(customerId: int)
      requires Valid()
      modifies this`customers
      ensures Valid()
      ensures customers == old(customers).Remove(customerId)
      ensures GetById(customerId) == None
    {
      if customerId in customers.entries {
        customers := customers.Remove(customerId);
      }
    }
  }
}

/** Customer use cases over the customer store, keeping emails unique across customers. */
module CustomerServices {
  import opened Common
  import opened Customers
  import opened Schemas
  import opened CustomerRepos

  class CustomerService {
    const repository: CustomerRepository

    /** Some stored customer has exactly this email. */
    ghost predicate EmailTaken(email: string)
      reads this, repository, repository.customers.entries.Values
    {
      exists id | id in repository.customers.entries :: repository.customers.entries[id].email == email
    }

    /** A stored customer other than `customerId` has exactly this email. */
    ghost predicate EmailHeldByOther(customerId: int, email: string)
      reads this, repository, repository.customers.entries.Values
    {
      exists id | id in repository.customers.entries && id != customerId ::
        repository.customers.entries[id].email == email
    }

    /** No two stored customers share an email: the invariant the service keeps. */
    ghost predicate EmailsUnique()
      reads this, repository, repository.customers.entries.Values
    {
      forall a, b | a in repository.customers.entries && b in repository.customers.entries && a != b ::
        repository.customers.entries[a].email != repository.customers.entries[b].email
    }

    constructor (repository: CustomerRepository)
      requires repository.Valid()
      ensures this.repository.Valid()
      ensures this.repository == repository
    {
      this.repository := repository;
    }

    /** `create_customer(dto)`: an email already held by a stored customer fails first,
        then an id already stored fails; either way nothing changes. Otherwise a new
        customer built from the DTO is stored under its id and its DTO (equal to the
        input) is returned. Unique emails stay unique. */
    method CreateCustomer(dto: CustomerDTO) returns (r: Result<CustomerDTO>)
      requires repository.Valid()
      modifies repository`customers
      ensures repository.Valid()
      ensures old(EmailsUnique()) ==> EmailsUnique()
      ensures old(EmailTaken(dto.email)) ==>
        r == Err(EmailExists(dto.email)) && repository.customers == old(repository.customers)
      ensures !old(EmailTaken(dto.email)) && dto.id in old(repository.customers.entries) ==>
        r == Err(CustomerExists(dto.id)) && repository.customers == old(repository.customers)
      ensures !old(EmailTaken(dto.email)) && dto.id !in old(repository.customers.entries) ==>
        r == Ok(dto) && dto.id in repository.customers.entries
      ensures !old(EmailTaken(dto.email)) && dto.id !in old(repository.customers.entries) ==>
        var stored := repository.customers.entries[dto.id];
        fresh(stored) && repository.customers == old(repository.customers).Put(dto.id, stored)
    {
      var existing := repository.FindByEmail(dto.email);
      if existing.Some? {
        return Err(EmailExists(dto.email));
      }
      var customer := dto.ToModel();
      var added := repository.Add(customer);
      match added
      case Err(e) =>
        r := Err(e);
      case Ok(c) =>
        r := Ok(CustomerDTO.FromModel(c));
    }

    /** `get_customer(customer_id)`: a DTO of the stored customer, or `None`. */
    function GetCustomer(customerId: int): (r: Option<CustomerDTO>)
      reads this, repository, repository.Lookup(customerId)
      ensures r.None? <==> customerId !in repository.customers.entries
      ensures r.Some? ==> r.value == CustomerDTO.FromModel(repository.customers.entries[customerId])
    {
      match repository.GetById(customerId)
      case None => None
      case Some(customer) => Some(CustomerDTO.FromModel(customer))
    }

    /** `get_customer_by_email(email)`: a DTO of a stored customer with exactly this
        email, or `None` when there is none. */
    method GetCustomerByEmail(email: string) returns (r: Option<CustomerDTO>)
      requires repository.Valid()
      ensures r.None? <==> !EmailTaken(email)
      ensures r.Some? ==> r.value.email == email
      ensures r.Some? ==> r.value.id in repository.customers.entries
      ensures r.Some? ==> r.value == CustomerDTO.FromModel(repository.customers.entries[r.value.id])
    {
      var found := repository.FindByEmail(email);
      match found
      case None =>
        r := None;
      case Some(customer) =>
        r := Some(CustomerDTO.FromModel(customer));
    }

    /** `add_address_to_customer(customer_id, address)`: an unknown id fails; otherwise
        the customer gains the address at the end, keeps its email, and its DTO is
        returned. The store itself is not rearranged. */
    method AddAddressToCustomer(customerId: int, address: AddressDTO) returns (r: Result<CustomerDTO>)
      requires repository.Valid()
      modifies repository`customers, repository.Lookup(customerId)
      ensures repository.Valid() && repository.customers == old(repository.customers)
      ensures old(EmailsUnique()) ==> EmailsUnique()
      ensures customerId !in repository.customers.entries ==> r == Err(CustomerNotFound(customerId))
      ensures customerId in repository.customers.entries ==>
        var customer := repository.customers.entries[customerId];
        customer.addresses == old(customer.addresses) + [Address(address.street, address.city, address.country)] &&
        customer.email == old(customer.email) &&
        r == Ok(CustomerDTO.FromModel(customer))
    {
      var found := repository.GetById(customerId);
      if found.None? {
        return Err(CustomerNotFound(customerId));
      }
      var customer := found.value;
      customer.AddAddress(address.street, address.city, address.country);
      assert customer.addresses == old(customer.addresses) + [Address(address.street, address.city, address.country)];
      repository.customers.PutExisting(customerId);
      var updated := repository.Update(customer);
      r := Ok(CustomerDTO.FromModel(customer));
    }

    /** `update_customer_email(customer_id, new_email)`: an unknown id fails; an email
        in use by another customer fails; on failure nothing changes. The lookup finds
        the first holder of the email in insertion order, so without unique emails a
        customer that already holds the email can shadow another holder; with unique
        emails the refusal is exactly "another customer holds it". On success only that
        customer's email changes. */
    method UpdateCustomerEmail(customerId: int, newEmail: string) returns (r: Result<CustomerDTO>)
      requires repository.Valid()
      modifies repository`customers, repository.Lookup(customerId)
      ensures repository.Valid() && repository.customers == old(repository.customers)
      ensures old(EmailsUnique()) ==> EmailsUnique()
      ensures customerId !in repository.customers.entries ==> r == Err(CustomerNotFound(customerId))
      ensures r == Err(EmailInUse(newEmail)) ==> old(EmailHeldByOther(customerId, newEmail))
      ensures customerId in repository.customers.entries && !old(EmailHeldByOther(customerId, newEmail)) ==> r.Ok?
      ensures customerId in repository.customers.entries && old(EmailsUnique()) ==>
        (r.Ok? <==> !old(EmailHeldByOther(customerId, newEmail)))
      ensures customerId in repository.customers.entries ==>
        var customer := repository.customers.entries[customerId];
        customer.addresses == old(customer.addresses) &&
        customer.email == (if r.Ok? then newEmail else old(customer.email)) &&
        (r.Ok? ==> r == Ok(CustomerDTO.FromModel(customer)))
      ensures r.Ok? || r == Err(CustomerNotFound(customerId)) || r == Err(EmailInUse(newEmail))
    {
      var found := repository.GetById(customerId);
      if found.None? {
        return Err(CustomerNotFound(customerId));
      }
      var customer := found.value;
      var existing := repository.FindByEmail(newEmail);
      if existing.Some? && existing.value.id != customerId {
        return Err(EmailInUse(newEmail));
      }
      customer.email := newEmail;
      repository.customers.PutExisting(customerId);
      var updated := repository.Update(customer);
      r := Ok(CustomerDTO.FromModel(customer));
    }

    /** `delete_customer(customer_id)`: an unknown id fails with nothing changed;
        otherwise the customer is removed and can no longer be fetched. */
    method DeleteCustomer(customerId: int) returns (r: Outcome)
      requires repository.Valid()
      modifies repository`customers
      ensures repository.Valid()
      ensures old(EmailsUnique()) ==> EmailsUnique()
      ensures customerId !in old(repository.customers.entries) ==>
        r == Fail(CustomerNotFound(customerId)) && repository.customers == old(repository.customers)
      ensures customerId in old(repository.customers.entries) ==>
        r == Pass && repository.customers == old(repository.customers).Remove(customerId)
      ensures GetCustomer(customerId) == None
    {
      var found := repository.GetById(customerId);
      if found.None? {
        return Fail(CustomerNotFound(customerId));
      }
      repository.Delete(customerId);
      r := Pass;
    }
  }
}

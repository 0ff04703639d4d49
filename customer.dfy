/** Customers and their postal addresses. */
module Customers {

  datatype Address = Address(street: string, city: string, country: string)

  class Customer {
    const id: int
    const name: string
    var email: string
    var addresses: seq<Address>

    /** `Customer(id, name, email)`: no validation; starts with no addresses. */
    constructor (id: int, name: string, email: string)
      ensures this.id == id && this.name == name && this.email == email
      ensures addresses == []
    {
      this.id := id;
      this.name := name;
      this.email := email;
      addresses := [];
    }

    /** `add_address`: never fails; appends one address and keeps the earlier ones in
        place. The email is untouched (only `addresses` is in the frame). */
    method AddAddress(street: string, city: string, country: string)
      modifies this`addresses
      ensures |addresses| == |old(addresses)| + 1
      ensures addresses[..|old(addresses)|] == old(addresses)
      ensures addresses[|old(addresses)|] == Address(street, city, country)
    {
      addresses := addresses + [Address(street, city, country)];
    }
  }
}

/** The older order store: like the current one, but `add` returns the new id and does
    not stamp it on the order, and there is no `update`. */
module LegacyOrderRepos {
  import opened Common
  import opened Dicts
  import opened Orders
  import OrderRepos

  class OrderRepository {
    var orders: Dict<int, Order>
    var nextId: int

    ghost predicate Valid()
      reads this
    {
      orders.Valid() && OrderRepos.CountedIds(orders.keys, nextId)
    }

    constructor ()
      ensures Valid() && orders == Empty() && nextId == 1
    {
      orders := Empty();
      nextId := 1;
    }

    /** `add(order)`: stores the order under the counter's value, returns that id (1, 2,
        3, ...) and advances the counter; the order itself is not touched. */
    method Add(order: Order) returns (orderId: int)
      requires Valid()
      modifies this
      ensures Valid()
      ensures orderId == old(nextId) && orderId >= 1 && orderId !in old(orders.entries)
      ensures orders == old(orders).Put(orderId, order)
      ensures nextId == old(nextId) + 1
    {
      OrderRepos.CountedIdsFacts(orders.keys, nextId);
      orderId := nextId;
      orders := orders.Put(orderId, order);
      nextId := nextId + 1;
    }

    /** `get_by_id(order_id)`: the stored order, or `None`. */
    function GetById(orderId: int): (r: Option<Order>)
      reads this
      ensures r.Some? <==> orderId in orders.entries
      ensures r.Some? ==> r.value == orders.entries[orderId]
    {
      orders.Get(orderId)
    }

    /** `get_by_customer(customer_id)`: exactly the stored orders of that customer, in
        insertion order. */
    function GetByCustomer(customerId: int): (r: seq<Order>)
      requires Valid()
      reads this
      ensures forall id | id in orders.entries && orders.entries[id].customer.id == customerId ::
        orders.entries[id] in r
      ensures forall o | o in r :: o in orders.entries.Values && o.customer.id == customerId
      ensures r == OrderRepos.OrdersOfCustomer(GetAll(), customerId)
    {
      orders.ValuesAreEntries();
      OrderRepos.OrdersOfCustomer(GetAll(), customerId)
    }

    /** `get_all()`: the stored orders in insertion order. */
    function GetAll(): (all: seq<Order>)
      requires Valid()
      reads this
      ensures |all| == |orders.entries| == |orders.keys|
      ensures forall i | 0 <= i < |all| :: all[i] == orders.entries[orders.keys[i]]
      ensures forall id | id in orders.entries :: orders.entries[id] in all
    {
      orders.ValuesAreEntries();
      orders.Values()
    }
  }
}

/** The order store: orders keyed by ids it hands out from a counter, stamping each order
    with its id. */
module OrderRepos {
  import opened Common
  import opened Dicts
  import opened Orders

  /** `[o for o in orders if o.customer.id == customer_id]` */
  function OrdersOfCustomer(orders: seq<Order>, customerId: int): (r: seq<Order>)
    ensures forall o | o in r :: o in orders && o.customer.id == customerId
    ensures forall o | o in orders && o.customer.id == customerId :: o in r
  {
    if orders == [] then []
    else
      var n := |orders| - 1;
      assert orders == orders[..n] + [orders[n]];
      OrdersOfCustomer(orders[..n], customerId) +
        (if orders[n].customer.id == customerId then [orders[n]] else [])
  }

  /** Selecting a customer's orders keeps their order: it distributes over concatenation. */
  lemma {:induction false} OrdersOfCustomerAppend(a: seq<Order>, b: seq<Order>, customerId: int)
    ensures OrdersOfCustomer(a + b, customerId) == OrdersOfCustomer(a, customerId) + OrdersOfCustomer(b, customerId)
    decreases |b|
  {
    if b == [] {
      assert a + b == a;
    } else {
      var n := |b| - 1;
      var last := if b[n].customer.id == customerId then [b[n]] else [];
      assert (a + b)[..|a + b| - 1] == a + b[..n];
      assert (a + b)[|a + b| - 1] == b[n];
      calc {
        OrdersOfCustomer(a + b, customerId);
        OrdersOfCustomer(a + b[..n], customerId) + last;
        { OrdersOfCustomerAppend(a, b[..n], customerId); }
        (OrdersOfCustomer(a, customerId) + OrdersOfCustomer(b[..n], customerId)) + last;
        OrdersOfCustomer(a, customerId) + (OrdersOfCustomer(b[..n], customerId) + last);
        OrdersOfCustomer(a, customerId) + OrdersOfCustomer(b, customerId);
      }
    }
  }

  /** The ids the counter has handed out, in insertion order: 1, 2, 3, ... up to just
      below the counter. */
  ghost predicate CountedIds(keys: seq<int>, nextId: int)
  {
    nextId == |keys| + 1 && forall i | 0 <= i < |keys| :: keys[i] == i + 1
  }

  /** Handed-out ids are positive, distinct and below the counter, and handing out the
      counter's value keeps the ids counted. */
  lemma {:induction false} CountedIdsFacts(keys: seq<int>, nextId: int)
    requires CountedIds(keys, nextId)
    ensures NoDuplicates(keys)
    ensures forall k | k in keys :: 1 <= k < nextId
    ensures nextId !in keys
    ensures CountedIds(keys + [nextId], nextId + 1)
  {
    forall k | k in keys ensures 1 <= k < nextId {
      var i :| 0 <= i < |keys| && keys[i] == k;
    }
  }

  class OrderRepository {
    var orders: Dict<int, Order>
    var nextId: int

    ghost predicate Valid()
      reads this
    {
      orders.Valid() && CountedIds(orders.keys, nextId)
    }

    constructor ()
      ensures Valid() && orders == Empty() && nextId == 1
    {
      orders := Empty();
      nextId := 1;
    }

    /** The stored order with this id, as a frame. */
    function Lookup(orderId: int): set<Order>
      reads this
    {
      if orderId in orders.entries then {orders.entries[orderId]} else {}
    }

    /** `add(order)`: stamps the order with the counter's value, stores it under that id and
        advances the counter, so successive orders get ids 1, 2, 3, ... */
    method Add(order: Order) returns (saved: Order)
      requires Valid()
      modifies this`orders, this`nextId, order`orderId
      ensures Valid()
      ensures saved == order && order.orderId == Some(old(nextId))
      ensures old(nextId) !in old(orders.entries)
      ensures orders == old(orders).Put(old(nextId), order)
      ensures nextId == old(nextId) + 1
    {
      CountedIdsFacts(orders.keys, nextId);
      var stamped := order.SetOrderId(nextId);
      orders := orders.Put(nextId, order);
      nextId := nextId + 1;
      saved := order;
    }

    /** `get_by_id(order_id)`: the stored order, or `None`. */
    function GetById(orderId: int): (r: Option<Order>)
      reads this
      ensures r.Some? <==> orderId in orders.entries
      ensures r.Some? ==> r.value == orders.entries[orderId]
    {
      orders.Get(orderId)
    }

    /** `get_by_customer(customer_id)`: exactly the stored orders of that customer, in
        insertion order. */
    function GetByCustomer(customerId: int): (r: seq<Order>)
      requires Valid()
      reads this
      ensures forall id | id in orders.entries && orders.entries[id].customer.id == customerId ::
        orders.entries[id] in r
      ensures forall o | o in r :: o in orders.entries.Values && o.customer.id == customerId
      ensures r == OrdersOfCustomer(GetAll(), customerId)
    {
      orders.ValuesAreEntries();
      OrdersOfCustomer(GetAll(), customerId)
    }

    /** `get_all()`: the stored orders in insertion order. */
    function GetAll(): (all: seq<Order>)
      requires Valid()
      reads this
      ensures |all| == |orders.entries| == |orders.keys|
      ensures forall i | 0 <= i < |all| :: all[i] == orders.entries[orders.keys[i]]
      ensures forall id | id in orders.entries :: orders.entries[id] in all
    {
      orders.ValuesAreEntries();
      orders.Values()
    }

    /** `update(order)`: fails, changing nothing, unless the order's own id is stored;
        otherwise replaces only that entry. */
    method Update(order: Order) returns (r: Result<Order>)
      requires Valid()
      modifies this`orders
      ensures Valid() && nextId == old(nextId)
      ensures order.orderId.None? || order.orderId.value !in old(orders.entries) ==>
        r == Err(OrderNotFound(order.orderId)) && orders == old(orders)
      ensures order.orderId.Some? && order.orderId.value in old(orders.entries) ==>
        r == Ok(order) && orders == old(orders).Put(order.orderId.value, order)
    {
      if order.orderId.None? || order.orderId.value !in orders.entries {
        return Err(OrderNotFound(order.orderId));
      }
      orders := orders.Put(order.orderId.value, order);
      return Ok(order);
    }
  }
}

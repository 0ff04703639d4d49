/** The order use cases: creating an order from product ids and quantities, looking orders
    up and cancelling them. */
module OrderServices {
  import opened Common
  import opened Dicts
  import opened Status
  import opened Products
  import opened Customers
  import opened Carts
  import opened Orders
  import opened Schemas
  import opened ProductRepos
  import opened CustomerRepos
  import opened OrderRepos

  /** Whether a (product id, quantity) pair passes `create_order`'s checks. */
  predicate LineAccepted(line: (int, int), products: map<int, Product>)
  {
    line.0 in products && line.1 > 0
  }

  /** The error `create_order` raises for a pair it refuses: an unknown product is reported
      before its quantity is looked at. */
  function LineError(line: (int, int), products: map<int, Product>): Error
  {
    if line.0 !in products then ProductNotFound(line.0) else InvalidQuantity(line.1, line.0)
  }

  /** The line DTOs `create_order` builds from the requested (product id, quantity) pairs,
      in list order: each is a snapshot of the stored product with the requested quantity.
      The first refused pair decides the error. */
  function LineSnapshots(lines: seq<(int, int)>, products: map<int, Product>): (r: Result<seq<CartItemDTO>>)
    reads products.Values
    ensures r.Ok? <==> forall i | 0 <= i < |lines| :: LineAccepted(lines[i], products)
    ensures r.Ok? ==> |r.value| == |lines|
    ensures r.Ok? ==> forall i | 0 <= i < |lines| ::
      r.value[i] == CartItemDTO(ProductDTO.FromModel(products[lines[i].0]), lines[i].1)
    ensures r.Err? ==> exists i | 0 <= i < |lines| ::
      !LineAccepted(lines[i], products) && r.error == LineError(lines[i], products) &&
      forall j | 0 <= j < i :: LineAccepted(lines[j], products)
  {
    if lines == [] then Ok([])
    else
      var n := |lines| - 1;
      var line := lines[n];
      assert forall i | 0 <= i < n :: lines[..n][i] == lines[i];
      match LineSnapshots(lines[..n], products)
      case Err(e) => Err(e)
      case Ok(prefix) =>
        if !LineAccepted(line, products) then Err(LineError(line, products))
        else Ok(prefix + [CartItemDTO(ProductDTO.FromModel(products[line.0]), line.1)])
  }

  class OrderService {
    const orderRepository: OrderRepository
    const productRepository: ProductRepository
    const customerRepository: CustomerRepository

    /** Every stored order carries the id it is stored under. */
    ghost predicate Stamped()
      reads this, orderRepository, orderRepository.orders.entries.Values
    {
      forall id | id in orderRepository.orders.entries :: orderRepository.orders.entries[id].orderId == Some(id)
    }

    ghost predicate Valid()
      reads this, orderRepository, productRepository, customerRepository, orderRepository.orders.entries.Values
    {
      orderRepository.Valid() && productRepository.Valid() && customerRepository.Valid() && Stamped()
    }

    constructor (orderRepository: OrderRepository, productRepository: ProductRepository,
                 customerRepository: CustomerRepository)
      requires orderRepository.Valid() && productRepository.Valid() && customerRepository.Valid()
      requires forall id | id in orderRepository.orders.entries ::
        orderRepository.orders.entries[id].orderId == Some(id)
      ensures Valid()
      ensures this.orderRepository == orderRepository
      ensures this.productRepository == productRepository
      ensures this.customerRepository == customerRepository
    {
      this.orderRepository := orderRepository;
      this.productRepository := productRepository;
      this.customerRepository := customerRepository;
    }

    /** `create_order(dto)`: an unknown customer fails first; then the pairs are checked in
        order (see `LineSnapshots`); then an empty list fails. Any failure leaves the order
        store as it was. On success exactly one order is stored, under the counter's value
        and stamped with it: PENDING, for the customer, with one line per pair over a new
        copy of the product (never a stored product), and with the discount, delivery and
        payment of the DTO. The result reports that order. */
    method CreateOrder(dto: OrderCreateDTO) returns (r: Result<OrderResultDTO>)
      requires Valid()
      modifies orderRepository`orders, orderRepository`nextId
      ensures Valid()
      ensures dto.customerId !in customerRepository.customers.entries ==>
        r == Err(CustomerNotFound(dto.customerId))
      ensures dto.customerId in customerRepository.customers.entries &&
              old(LineSnapshots(dto.items, productRepository.products.entries)).Err? ==>
        r == Err(old(LineSnapshots(dto.items, productRepository.products.entries)).error)
      ensures dto.customerId in customerRepository.customers.entries && dto.items == [] ==>
        r == Err(EmptyOrder)
      ensures r.Err? ==> orderRepository.orders == old(orderRepository.orders) &&
                         orderRepository.nextId == old(orderRepository.nextId)
      ensures r.Ok? <==> dto.customerId in customerRepository.customers.entries && dto.items != [] &&
                         old(LineSnapshots(dto.items, productRepository.products.entries)).Ok?
      ensures r.Ok? ==>
        var id := old(orderRepository.nextId);
        id in orderRepository.orders.entries &&
        var order := orderRepository.orders.entries[id];
        && fresh(order)
        && orderRepository.orders == old(orderRepository.orders).Put(id, order)
        && orderRepository.nextId == id + 1
        && order.orderId == Some(id)
        && order.status == Pending
        && order.customer == customerRepository.customers.entries[dto.customerId]
        && |order.items| == |dto.items|
        && (forall i | 0 <= i < |dto.items| ::
              LineToDTO(order.items[i]) == old(LineSnapshots(dto.items, productRepository.products.entries)).value[i])
        && (forall i | 0 <= i < |dto.items| ::
              fresh(order.items[i].product) && order.items[i].product !in productRepository.products.entries.Values)
        && order.discount == Some(dto.discount.ToModel())
        && order.delivery == Some(dto.delivery.ToModel())
        && order.payment == Some(dto.payment.ToModel())
        && Reports(r.value, order)
    {
      var customer := customerRepository.GetById(dto.customerId);
      if customer.None? {
        return Err(CustomerNotFound(dto.customerId));
      }
      var snapshots := SnapshotLines(dto.items);
      if snapshots.Err? {
        return Err(snapshots.error);
      }
      var cartItemsDto := snapshots.value;
      if |cartItemsDto| == 0 {
        return Err(EmptyOrder);
      }
      var order := BuildOrder(dto, customer.value, cartItemsDto);
      var result := SaveAndReport(order);
      r := Ok(result);
    }

    /** `dto.to_model(customer, [item.to_model() for item in cart_items_dto])` for accepted
        snapshots: a new order whose lines report exactly the snapshots, over new product
        copies, with the DTO's strategies. It cannot fail, since every snapshot quantity is
        positive. */
    method BuildOrder(dto: OrderCreateDTO, customer: Customer, snapshots: seq<CartItemDTO>) returns (order: Order)
      requires forall i | 0 <= i < |snapshots| :: snapshots[i].quantity > 0 && snapshots[i].product.price >= 0.0
      ensures fresh(order) && order.Valid() && order.customer == customer
      ensures order.status == Pending && order.orderId == None
      ensures |order.items| == |snapshots|
      ensures forall i | 0 <= i < |snapshots| :: LineToDTO(order.items[i]) == snapshots[i]
      ensures forall i | 0 <= i < |snapshots| :: fresh(order.items[i].product)
      ensures order.discount == Some(dto.discount.ToModel())
      ensures order.delivery == Some(dto.delivery.ToModel())
      ensures order.payment == Some(dto.payment.ToModel())
    {
      var cartItems := CartItemsFromDTOs(snapshots);
      var created := dto.ToModel(customer, cartItems);
      assert created.Ok?;
      order := created.value;
      forall i | 0 <= i < |order.items|
        ensures LineToDTO(order.items[i]) == snapshots[i]
      {
        assert order.items[i].product == cartItems[i].product;
        assert CartItemDTO.FromModel(cartItems[i]) == snapshots[i];
      }
    }

    /** The tail of `create_order`: `add` stamps the new order with the counter's value and
        stores it under that id, keeping every stored order stamped with its own key; the
        result reports the stamped order. */
    method SaveAndReport(order: Order) returns (result: OrderResultDTO)
      requires Valid()
      requires forall k | k in orderRepository.orders.entries :: orderRepository.orders.entries[k] != order
      modifies orderRepository`orders, orderRepository`nextId, order`orderId
      ensures Valid()
      ensures orderRepository.orders == old(orderRepository.orders).Put(old(orderRepository.nextId), order)
      ensures orderRepository.nextId == old(orderRepository.nextId) + 1
      ensures order.orderId == Some(old(orderRepository.nextId))
      ensures Reports(result, order)
    {
      ghost var id := orderRepository.nextId;
      ghost var stored := orderRepository.orders;
      var saved := orderRepository.Add(order);
      forall k | k in orderRepository.orders.entries
        ensures orderRepository.orders.entries[k].orderId == Some(k)
      {
        if k != id {
          assert orderRepository.orders.entries[k] == stored.entries[k] && stored.entries[k] != order;
        }
      }
      label Added:
      result := ResultFromModel(saved);
      assert Stamped() by {
        assert old@Added(Stamped());
        assert forall k | k in orderRepository.orders.entries ::
          orderRepository.orders.entries[k].orderId == old@Added(orderRepository.orders.entries[k].orderId);
      }
    }

    /** The loop of `create_order` that turns the requested pairs into line DTOs, stopping
        at the first refused pair. */
    method SnapshotLines(lines: seq<(int, int)>) returns (r: Result<seq<CartItemDTO>>)
      ensures r == LineSnapshots(lines, productRepository.products.entries)
    {
      ghost var products := productRepository.products.entries;
      var cartItemsDto: seq<CartItemDTO> := [];
      for i := 0 to |lines|
        invariant LineSnapshots(lines[..i], products) == Ok(cartItemsDto)
      {
        var line := lines[i];
        assert lines[..i + 1][..i] == lines[..i];
        var product := productRepository.GetById(line.0);
        if product.None? {
          LineSnapshotsRefused(lines, i, products);
          return Err(ProductNotFound(line.0));
        }
        if line.1 <= 0 {
          LineSnapshotsRefused(lines, i, products);
          return Err(InvalidQuantity(line.1, line.0));
        }
        var productDto := ProductDTO.FromModel(product.value);
        cartItemsDto := cartItemsDto + [CartItemDTO(productDto, line.1)];
      }
      assert lines[..|lines|] == lines;
      r := Ok(cartItemsDto);
    }

    /** `get_order(order_id)`: a report of the stored order, carrying that id, or `None`. */
    method GetOrder(orderId: int) returns (r: Option<OrderResultDTO>)
      requires Valid()
      ensures r.None? <==> orderId !in orderRepository.orders.entries
      ensures r.Some? ==> Reports(r.value, orderRepository.orders.entries[orderId])
      ensures r.Some? ==> r.value.orderId == Some(orderId)
    {
      var order := orderRepository.GetById(orderId);
      match order
      case None =>
        r := None;
      case Some(o) =>
        var result := ResultFromModel(o);
        r := Some(result);
    }

    /** `get_customer_orders(customer_id)`: one report per stored order of that customer,
        in insertion order, each carrying the id the order is stored under. */
    method GetCustomerOrders(customerId: int) returns (r: seq<OrderResultDTO>)
      requires Valid()
      ensures |r| == |orderRepository.GetByCustomer(customerId)|
      ensures forall i | 0 <= i < |r| :: Reports(r[i], orderRepository.GetByCustomer(customerId)[i])
      ensures forall i | 0 <= i < |r| :: r[i].orderId.Some? && r[i].orderId.value in orderRepository.orders.entries
      ensures forall i | 0 <= i < |r| ::
        orderRepository.orders.entries[r[i].orderId.value].customer.id == customerId
      ensures forall id | id in orderRepository.orders.entries &&
                          orderRepository.orders.entries[id].customer.id == customerId ::
        exists i | 0 <= i < |r| :: r[i].orderId == Some(id)
    {
      var orders := orderRepository.GetByCustomer(customerId);
      r := ReportAll(orders);
      CustomerOrdersStamped(customerId);
      forall id | id in orderRepository.orders.entries && orderRepository.orders.entries[id].customer.id == customerId
        ensures exists i | 0 <= i < |r| :: r[i].orderId == Some(id)
      {
        var i :| 0 <= i < |orders| && orders[i] == orderRepository.orders.entries[id];
        assert r[i].orderId == Some(id);
      }
    }

    /** Under the stamping invariant, each of a customer's stored orders carries the id it
        is stored under. */
    lemma CustomerOrdersStamped(customerId: int)
      requires Valid()
      ensures forall o | o in orderRepository.GetByCustomer(customerId) ::
        o.orderId.Some? && o.orderId.value in orderRepository.orders.entries &&
        orderRepository.orders.entries[o.orderId.value] == o
      ensures forall id | id in orderRepository.orders.entries &&
                          orderRepository.orders.entries[id].customer.id == customerId ::
        exists i | 0 <= i < |orderRepository.GetByCustomer(customerId)| ::
          orderRepository.GetByCustomer(customerId)[i] == orderRepository.orders.entries[id]
    {
      var orders := orderRepository.GetByCustomer(customerId);
      forall o | o in orders
        ensures o.orderId.Some? && o.orderId.value in orderRepository.orders.entries
        ensures orderRepository.orders.entries[o.orderId.value] == o
      {
        var id :| id in orderRepository.orders.entries && orderRepository.orders.entries[id] == o;
      }
      forall id | id in orderRepository.orders.entries && orderRepository.orders.entries[id].customer.id == customerId
        ensures exists i | 0 <= i < |orders| :: orders[i] == orderRepository.orders.entries[id]
      {
        assert orderRepository.orders.entries[id] in orders;
      }
    }

    /** `cancel_order(order_id)`: an unknown id fails; otherwise the order becomes
        CANCELLED whatever its status was, nothing else about it or the store changes, and
        its report is returned. */
    method CancelOrder(orderId: int) returns (r: Result<OrderResultDTO>)
      requires Valid()
      modifies orderRepository`orders, orderRepository.Lookup(orderId)
      ensures Valid() && orderRepository.orders == old(orderRepository.orders)
      ensures orderId !in orderRepository.orders.entries ==> r == Err(OrderNotFound(Some(orderId)))
      ensures orderId in orderRepository.orders.entries ==>
        var order := orderRepository.orders.entries[orderId];
        && order.status == Cancelled
        && order.orderId == old(order.orderId)
        && order.discount == old(order.discount)
        && order.delivery == old(order.delivery)
        && order.payment == old(order.payment)
        && r.Ok? && Reports(r.value, order)
    {
      var found := orderRepository.GetById(orderId);
      if found.None? {
        return Err(OrderNotFound(Some(orderId)));
      }
      var order := found.value;
      order.SetStatus(Cancelled);
      orderRepository.orders.PutExisting(orderId);
      var updated := orderRepository.Update(order);
      match updated
      case Err(e) =>
        r := Err(e);
      case Ok(o) =>
        var result := ResultFromModel(o);
        r := Ok(result);
    }
  }

  /** `[item.to_model() for item in cart_items_dto]`: one cart item per line DTO, each over
      a new product, none of which can fail since the DTOs' prices are not negative. */
  method CartItemsFromDTOs(dtos: seq<CartItemDTO>) returns (items: seq<CartItem>)
    requires forall i | 0 <= i < |dtos| :: dtos[i].product.price >= 0.0
    ensures |items| == |dtos|
    ensures forall i | 0 <= i < |dtos| :: fresh(items[i].product) && CartItemDTO.FromModel(items[i]) == dtos[i]
  {
    items := [];
    for i := 0 to |dtos|
      invariant |items| == i
      invariant forall k | 0 <= k < i :: fresh(items[k].product) && CartItemDTO.FromModel(items[k]) == dtos[k]
    {
      var converted := dtos[i].ToModel();
      assert converted.Ok?;
      items := items + [converted.value];
    }
  }

  /** `[OrderResultDTO.from_model(order) for order in orders]` */
  method ReportAll(orders: seq<Order>) returns (r: seq<OrderResultDTO>)
    ensures |r| == |orders|
    ensures forall i | 0 <= i < |orders| :: Reports(r[i], orders[i])
  {
    r := [];
    for i := 0 to |orders|
      invariant |r| == i
      invariant forall k | 0 <= k < i :: Reports(r[k], orders[k])
    {
      ghost var before := r;
      label BeforeCall:
      var result := ResultFromModel(orders[i]);
      forall k | 0 <= k < i
        ensures Reports(before[k], orders[k])
      {
        assert old@BeforeCall(Reports(before[k], orders[k]));
        assert forall x | x in ProductsOf(orders[k].items) :: x.price == old@BeforeCall(x.price);
      }
      r := r + [result];
      assert forall k | 0 <= k < i :: r[k] == before[k];
    }
  }

  /** When the pair at `i` is refused and all before it were accepted, the snapshots fail
      with that pair's error. */
  lemma LineSnapshotsRefused(lines: seq<(int, int)>, i: nat, products: map<int, Product>)
    requires i < |lines|
    requires LineSnapshots(lines[..i], products).Ok?
    requires !LineAccepted(lines[i], products)
    ensures LineSnapshots(lines, products) == Err(LineError(lines[i], products))
  {
    LineSnapshotsPrefix(lines, i + 1, products);
    assert lines[..i + 1][..i] == lines[..i];
  }

  /** A refused prefix decides the whole list's error. */
  lemma {:induction false} LineSnapshotsPrefix(lines: seq<(int, int)>, k: nat, products: map<int, Product>)
    requires k <= |lines|
    requires LineSnapshots(lines[..k], products).Err?
    ensures LineSnapshots(lines, products) == LineSnapshots(lines[..k], products)
    decreases |lines| - k
  {
    if k < |lines| {
      assert lines[..k + 1][..k] == lines[..k];
      LineSnapshotsPrefix(lines, k + 1, products);
    } else {
      assert lines[..k] == lines;
    }
  }
}

/** Orders, their lines and pricing, and the warehouse stock ledger. */
module Orders {
  import opened Common
  import opened Status
  import opened Discounts
  import opened Deliveries
  import opened Payments
  import opened Products
  import opened Carts
  import opened Customers

  /** An order line: a shared product and a quantity, which `NewOrderItem` keeps positive. */
  datatype OrderItem = OrderItem(product: Product, quantity: int) {

    /** `get_total_price()`: a line with a positive quantity never costs less than 0, and
        costs more than 0 exactly when its product does. */
    function TotalPrice(): (p: real)
      reads product
      ensures quantity > 0 ==> p >= 0.0
      ensures quantity > 0 ==> (p > 0.0 <==> product.price > 0.0)
    {
      product.price * quantity as real
    }
  }

  /** `OrderItem(product, quantity)`: fails unless the quantity is positive. */
  function NewOrderItem(product: Product, quantity: int): (r: Result<OrderItem>)
    ensures r.Ok? <==> quantity > 0
    ensures r.Ok? ==> r.value.product == product && r.value.quantity == quantity
    ensures r.Err? ==> r.error == NonPositiveQuantity
  {
    if quantity <= 0 then Err(NonPositiveQuantity) else Ok(OrderItem(product, quantity))
  }

  /** `[OrderItem(i.product, i.quantity) for i in cart_items]`: one line per cart item, with
      the same product and quantity; the first non-positive quantity aborts it. */
  function OrderItemsOf(cartItems: seq<CartItem>): (r: Result<seq<OrderItem>>)
    ensures r.Ok? <==> forall i | 0 <= i < |cartItems| :: cartItems[i].quantity > 0
    ensures r.Err? ==> r.error == NonPositiveQuantity
    ensures r.Ok? ==> |r.value| == |cartItems|
    ensures r.Ok? ==> forall i | 0 <= i < |cartItems| ::
      r.value[i].product == cartItems[i].product && r.value[i].quantity == cartItems[i].quantity
  {
    if cartItems == [] then Ok([])
    else
      var n := |cartItems| - 1;
      match OrderItemsOf(cartItems[..n])
      case Err(e) => Err(e)
      case Ok(init) =>
        match NewOrderItem(cartItems[n].product, cartItems[n].quantity)
        case Err(e) => Err(e)
        case Ok(item) => Ok(init + [item])
  }

  /** The products the lines refer to: what pricing reads. */
  function ProductsOf(items: seq<OrderItem>): set<Product>
  {
    set i | i in items :: i.product
  }

  /** Every line has a positive quantity, as `OrderItem` demands. */
  ghost predicate PositiveQuantities(items: seq<OrderItem>)
  {
    forall i | 0 <= i < |items| :: items[i].quantity > 0
  }

  /** `_calculate_subtotal()`: the sum of price times quantity over the lines, which is
      0 for no lines and never negative when every quantity is positive. */
  function Subtotal(items: seq<OrderItem>): (s: real)
    reads ProductsOf(items)
    ensures items == [] ==> s == 0.0
    ensures PositiveQuantities(items) ==> s >= 0.0
  {
    if items == [] then 0.0
    else
      var n := |items| - 1;
      assert ProductsOf(items[..n]) <= ProductsOf(items) by {
        forall i | i in items[..n] ensures i in items { }
      }
      assert PositiveQuantities(items) ==> PositiveQuantities(items[..n]);
      Subtotal(items[..n]) + items[n].TotalPrice()
  }

  /** A discount with a percentage in [0, 100], or a fixed one: it never takes more than
      the amount. */
  predicate DiscountInRange(discount: Option<Discount>)
  {
    discount.Some? && discount.value.PercentageDiscount? ==> 0.0 <= discount.value.percentage <= 100.0
  }

  /** The discount step of the pricing chain: no discount contributes 0, and an in-range
      discount of a non-negative subtotal is at most that subtotal. */
  function DiscountAmount(discount: Option<Discount>, subtotal: real): (d: real)
    ensures discount.None? ==> d == 0.0
    ensures DiscountInRange(discount) && subtotal >= 0.0 ==> d <= subtotal
  {
    if discount.None? then 0.0
    else
      assert DiscountInRange(discount) && subtotal >= 0.0 ==> discount.value.Apply(subtotal) <= subtotal by {
        if discount.value.PercentageDiscount? && subtotal >= 0.0 {
          PercentageBounds(discount.value.percentage, subtotal);
        }
      }
      discount.value.Apply(subtotal)
  }

  /** The delivery step of the pricing chain: no delivery contributes 0, a chosen one a
      positive cost. */
  function DeliveryCost(delivery: Option<Delivery>): (c: real)
    ensures delivery.None? ==> c == 0.0
    ensures delivery.Some? ==> c > 0.0
  {
    if delivery.Some? then delivery.value.Cost() else 0.0
  }

  class Order {
    const customer: Customer
    const items: seq<OrderItem>
    var status: OrderStatus
    var orderId: Option<int>
    var discount: Option<Discount>
    var delivery: Option<Delivery>
    var payment: Option<Payment>

    /** Every line has a positive quantity, and an assigned id is positive. */
    ghost predicate Valid()
      reads this
    {
      PositiveQuantities(items) &&
      (orderId.Some? ==> orderId.value > 0)
    }

    /** Allocation of an order from lines that have already been validated. */
    constructor (customer: Customer, items: seq<OrderItem>)
      requires PositiveQuantities(items)
      ensures Valid() && this.customer == customer && this.items == items
      ensures status == Pending && orderId == None
      ensures discount == None && delivery == None && payment == None
    {
      this.customer := customer;
      this.items := items;
      status := Pending;
      orderId := None;
      discount := None;
      delivery := None;
      payment := None;
    }

    /** `Order(customer, cart_items)`: one line per cart item with the same product and
        quantity, status PENDING, no id and no strategies; any cart item with a quantity
        of 0 or less makes construction fail. */
    static method Create(customer: Customer, cartItems: seq<CartItem>) returns (r: Result<Order>)
      ensures r.Err? <==> exists i | 0 <= i < |cartItems| :: cartItems[i].quantity <= 0
      ensures r.Err? ==> r.error == NonPositiveQuantity
      ensures r.Ok? ==> fresh(r.value) && r.value.Valid() && r.value.customer == customer
      ensures r.Ok? ==> |r.value.items| == |cartItems| && forall i | 0 <= i < |cartItems| ::
        r.value.items[i].product == cartItems[i].product && r.value.items[i].quantity == cartItems[i].quantity
      ensures r.Ok? ==> r.value.status == Pending && r.value.orderId == None
      ensures r.Ok? ==> r.value.discount == None && r.value.delivery == None && r.value.payment == None
    {
      match OrderItemsOf(cartItems)
      case Err(e) =>
        return Err(e);
      case Ok(lines) =>
        var order := new Order(customer, lines);
        return Ok(order);
    }

    /** The `order_id` setter: a value of 0 or less fails and keeps the old id. */
    method SetOrderId(value: int) returns (r: Outcome)
      modifies this`orderId
      ensures r.Fail? <==> value <= 0
      ensures r.Fail? ==> r.error == NonPositiveOrderId && orderId == old(orderId)
      ensures r.Pass? ==> orderId == Some(value)
    {
      if value <= 0 {
        return Fail(NonPositiveOrderId);
      }
      orderId := Some(value);
      return Pass;
    }

    /** The `status` setter: any status, from any status. */
    method SetStatus(value: OrderStatus)
      modifies this`status
      ensures status == value
    {
      status := value;
    }

    /** The `discount` setter. */
    method SetDiscount(value: Discount)
      modifies this`discount
      ensures discount == Some(value)
    {
      discount := Some(value);
    }

    /** The `delivery` setter. */
    method SetDelivery(value: Delivery)
      modifies this`delivery
      ensures delivery == Some(value)
    {
      delivery := Some(value);
    }

    /** The `payment` setter. */
    method SetPayment(value: Payment)
      modifies this`payment
      ensures payment == Some(value)
    {
      payment := Some(value);
    }

    /** `calculate_total()`: subtotal, less the discount on it, plus the delivery cost. An
        in-range discount on valid lines never pushes it below the delivery cost, and with
        no discount it is the subtotal plus the delivery cost. */
    function CalculateTotal(): (t: real)
      reads this, ProductsOf(items)
      ensures Valid() && DiscountInRange(discount) ==> t >= DeliveryCost(delivery)
      ensures discount.None? ==> t == Subtotal(items) + DeliveryCost(delivery)
    {
      var subtotal := Subtotal(items);
      subtotal - DiscountAmount(discount, subtotal) + DeliveryCost(delivery)
    }

    /** `process_payment()`: fails when no payment is attached; otherwise charges exactly
        the order's total to it. It changes no field of the order, its status included. */
    method ProcessPayment() returns (r: Result<Charge>)
      ensures payment.None? ==> r == Err(PaymentNotSet)
      ensures payment.Some? ==> r == Ok(Charge(payment.value, CalculateTotal()))
    {
      if payment.None? {
        return Err(PaymentNotSet);
      }
      var total := CalculateTotal();
      return Ok(Charge(payment.value, total));
    }
  }

  /** The subtotal of two runs of lines is the sum of their subtotals: each line adds its
      own `get_total_price()`, whatever the order of the lines. */
  lemma {:induction false} SubtotalAppend(a: seq<OrderItem>, b: seq<OrderItem>)
    ensures Subtotal(a + b) == Subtotal(a) + Subtotal(b)
    decreases |b|
  {
    if b == [] {
      assert a + b == a;
    } else {
      var n := |b| - 1;
      assert (a + b)[..|a + b| - 1] == a + b[..n];
      assert (a + b)[|a + b| - 1] == b[n];
      SubtotalAppend(a, b[..n]);
    }
  }

  /** A single line's subtotal is its `get_total_price()`. */
  lemma SubtotalOfOneLine(item: OrderItem)
    ensures Subtotal([item]) == item.TotalPrice()
  {
    assert [item][..0] == [];
  }

  /** With neither a discount nor a delivery, the total is the subtotal. */
  lemma TotalWithoutStrategies(order: Order)
    requires order.discount == None && order.delivery == None
    ensures order.CalculateTotal() == Subtotal(order.items)
  {
  }

  /** Nothing floors the total: a percentage above 100 on an order with a positive
      subtotal and no delivery drives it below zero. */
  lemma {:induction false} TotalCanBeNegative(order: Order)
    requires Subtotal(order.items) > 0.0 && order.delivery == None
    requires order.discount.Some? && order.discount.value.PercentageDiscount?
    requires order.discount.value.percentage > 100.0
    ensures order.CalculateTotal() < 0.0
  {
    PercentageBounds(order.discount.value.percentage, Subtotal(order.items));
  }

  /** The worked example: a 1000.0 product once and a 25.0 product twice. */
  lemma FixtureTotals(laptop: Product, mouse: Product, order: Order)
    requires laptop.price == 1000.0 && mouse.price == 25.0
    requires order.items == [OrderItem(laptop, 1), OrderItem(mouse, 2)]
    ensures Subtotal(order.items) == 1050.0
    ensures order.discount == Some(PercentageDiscount(10.0)) && order.delivery == None ==>
      order.CalculateTotal() == 945.0
    ensures order.discount == Some(FixedDiscount(50.0)) && order.delivery == Some(StandardDelivery) ==>
      order.CalculateTotal() == 1005.0
    ensures order.discount == Some(PercentageDiscount(10.0)) && order.delivery == Some(ExpressDelivery) ==>
      order.CalculateTotal() == 960.0
  {
    var first := [OrderItem(laptop, 1)];
    assert order.items[..1] == first && first[..0] == [];
    assert Subtotal(first) == 1000.0;
  }

  /** The stock ledger: a count per product, never negative. */
  class Warehouse {
    var stock: map<Product, int>

    ghost predicate Valid()
      reads this
    {
      forall p | p in stock :: stock[p] >= 0
    }

    constructor ()
      ensures Valid() && stock == map[]
    {
      stock := map[];
    }

    /** `stock.get(product, 0)`: the recorded count, 0 for a product never stocked, and
        never negative in a valid ledger. */
    function StockOf(product: Product): (n: int)
      reads this
      ensures product in stock ==> n == stock[product]
      ensures product !in stock ==> n == 0
      ensures Valid() ==> n >= 0
    {
      if product in stock then stock[product] else 0
    }

    /** `add_stock`: a quantity of 0 or less fails; otherwise the product's count (0 when
        absent) grows by the quantity, and every other count is unchanged. */
    method AddStock(product: Product, quantity: int) returns (r: Outcome)
      requires Valid()
      modifies this`stock
      ensures Valid()
      ensures quantity <= 0 ==> r == Fail(NonPositiveQuantity) && stock == old(stock)
      ensures quantity > 0 ==> r == Pass && stock == old(stock)[product := old(StockOf(product)) + quantity]
    {
      if quantity <= 0 {
        return Fail(NonPositiveQuantity);
      }
      stock := stock[product := StockOf(product) + quantity];
      return Pass;
    }

    /** `remove_stock`: a quantity of 0 or less, or more than is in stock, fails and
        changes nothing; otherwise the count drops by the quantity, never below 0. */
    method RemoveStock(product: Product, quantity: int) returns (r: Outcome)
      requires Valid()
      modifies this`stock
      ensures Valid()
      ensures quantity <= 0 ==> r == Fail(NonPositiveQuantity) && stock == old(stock)
      ensures quantity > 0 && old(StockOf(product)) < quantity ==>
        r == Fail(InsufficientStock(old(StockOf(product)), quantity)) && stock == old(stock)
      ensures quantity > 0 && old(StockOf(product)) >= quantity ==>
        r == Pass && stock == old(stock)[product := old(StockOf(product)) - quantity]
    {
      if quantity <= 0 {
        return Fail(NonPositiveQuantity);
      }
      var current := StockOf(product);
      if current < quantity {
        return Fail(InsufficientStock(current, quantity));
      }
      stock := stock[product := stock[product] - quantity];
      return Pass;
    }
  }
}

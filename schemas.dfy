/** The data-transfer shapes and their conversions to and from the domain model. */
module Schemas {
  import opened Common
  import opened Status
  import opened Discounts
  import opened Deliveries
  import opened Payments
  import opened Products
  import opened Carts
  import opened Customers
  import opened Orders

  datatype ProductDTO = ProductDTO(productId: int, name: string, price: real) {

    /** `ProductDTO.from_model(product)`: the product's id, name and price. Since a
        product's price is never negative, neither is the DTO's, so `to_model` on it
        cannot fail. */
    static function FromModel(product: Product): (d: ProductDTO)
      reads product
      ensures d.productId == product.productId && d.name == product.name
      ensures d.price == product.price && d.price >= 0.0
    {
      ProductDTO(product.productId, product.name, product.price)
    }

    /** `to_model()`: a new product with the same id, name and price, so that `from_model`
        gives this DTO back; like the `Product` constructor it fails on a negative price.
        A DTO made by `from_model` never has one, so a product's round trip succeeds. */
    method ToModel() returns (r: Result<Product>)
      ensures r.Err? <==> price < 0.0
      ensures r.Err? ==> r.error == NegativePrice
      ensures r.Ok? ==> fresh(r.value) && FromModel(r.value) == this
    {
      r := Product.New(productId, name, price);
    }
  }

  datatype AddressDTO = AddressDTO(street: string, city: string, country: string)

  /** `[AddressDTO(a.street, a.city, a.country) for a in addresses]` */
  function AddressesToDTO(addresses: seq<Address>): seq<AddressDTO>
  {
    seq(|addresses|, i requires 0 <= i < |addresses| =>
      AddressDTO(addresses[i].street, addresses[i].city, addresses[i].country))
  }

  datatype CustomerDTO = CustomerDTO(id: int, name: string, email: string, addresses: seq<AddressDTO>) {

    /** `CustomerDTO.from_model(customer)`: the customer's id, name and email and one
        address DTO per address, in order. */
    static function FromModel(customer: Customer): (d: CustomerDTO)
      reads customer
      ensures d.id == customer.id && d.name == customer.name && d.email == customer.email
      ensures |d.addresses| == |customer.addresses|
      ensures forall i | 0 <= i < |customer.addresses| ::
        var a := customer.addresses[i];
        d.addresses[i] == AddressDTO(a.street, a.city, a.country)
    {
      CustomerDTO(customer.id, customer.name, customer.email, AddressesToDTO(customer.addresses))
    }

    /** `to_model()`: a new customer with the same id, name and email and one address per
        address DTO, in order (added one by one through `add_address`), so that
        `from_model` gives this DTO back. */
    method ToModel() returns (customer: Customer)
      ensures fresh(customer)
      ensures FromModel(customer) == this
    {
      customer := new Customer(id, name, email);
      for i := 0 to |addresses|
        invariant customer.email == email
        invariant AddressesToDTO(customer.addresses) == addresses[..i]
      {
        customer.AddAddress(addresses[i].street, addresses[i].city, addresses[i].country);
      }
    }
  }

  datatype CartItemDTO = CartItemDTO(product: ProductDTO, quantity: int) {

    /** `CartItemDTO.from_model(cart_item)`: the product's DTO and the quantity; its
        price is never negative, so `to_model` on it cannot fail. */
    static function FromModel(item: CartItem): (d: CartItemDTO)
      reads item.product
      ensures d.product == ProductDTO.FromModel(item.product) && d.quantity == item.quantity
      ensures d.product.price >= 0.0
    {
      CartItemDTO(ProductDTO.FromModel(item.product), item.quantity)
    }

    /** `to_model()`: a cart item over a new product; it keeps the product id and the
        quantity, so `from_model` gives this DTO back. It fails only as the product does. */
    method ToModel() returns (r: Result<CartItem>)
      ensures r.Err? <==> product.price < 0.0
      ensures r.Err? ==> r.error == NegativePrice
      ensures r.Ok? ==> fresh(r.value.product) && FromModel(r.value) == this
    {
      var p := product.ToModel();
      match p
      case Err(e) =>
        return Err(e);
      case Ok(model) =>
        return Ok(CartItem(model, quantity));
    }
  }

  /** The discount DTOs carry a second copy of the discount formulas. */
  datatype DiscountDTO = PercentageDiscountDTO(value: real) | FixedDiscountDTO(value: real) {

    /** `calculate_discount(amount)`: the same amount the converted strategy's `apply`
        gives, since `to_model` carries `value` over unchanged. */
    function CalculateDiscount(amount: real): (d: real)
      ensures d == ToModel().Apply(amount)
    {
      match this
      case PercentageDiscountDTO(v) => amount * (v / 100.0)
      case FixedDiscountDTO(v) => if v <= amount then v else amount
    }

    /** `to_model()` */
    function ToModel(): (d: Discount)
      ensures PercentageDiscountDTO? <==> d.PercentageDiscount?
      ensures PercentageDiscountDTO? ==> d.percentage == value
      ensures FixedDiscountDTO? ==> d.fixedAmount == value
    {
      match this
      case PercentageDiscountDTO(v) => PercentageDiscount(v)
      case FixedDiscountDTO(v) => FixedDiscount(v)
    }
  }

  datatype DeliveryDTO = StandardDeliveryDTO | ExpressDeliveryDTO {

    /** `to_model()` */
    function ToModel(): (d: Delivery)
      ensures StandardDeliveryDTO? <==> d.StandardDelivery?
    {
      match this
      case StandardDeliveryDTO => StandardDelivery
      case ExpressDeliveryDTO => ExpressDelivery
    }
  }

  datatype PaymentDTO =
    | CreditCardPaymentDTO(details: string)
    | BankTransferPaymentDTO(details: string)
    | PayPalPaymentDTO(details: string)
  {
    /** `to_model()`: the details become the card number or the e-mail address. */
    function ToModel(): (p: Payment)
      ensures CreditCardPaymentDTO? <==> p.CreditCardPayment?
      ensures PayPalPaymentDTO? <==> p.PayPalPayment?
      ensures p.CreditCardPayment? ==> p.cardNumber == details
      ensures p.PayPalPayment? ==> p.email == details
    {
      match this
      case CreditCardPaymentDTO(d) => CreditCardPayment(d)
      case BankTransferPaymentDTO(_) => BankTransferPayment
      case PayPalPaymentDTO(d) => PayPalPayment(d)
    }
  }

  datatype OrderCreateDTO = OrderCreateDTO(
    customerId: int,
    items: seq<(int, int)>,
    discount: DiscountDTO,
    delivery: DeliveryDTO,
    payment: PaymentDTO)
  {
    /** `to_model(customer, cart_items)`: a new order for the customer with one line per
        cart item, and the discount, delivery and payment all set from this DTO; it fails
        as the `Order` constructor does, on a quantity of 0 or less. */
    method ToModel(customer: Customer, cartItems: seq<CartItem>) returns (r: Result<Order>)
      ensures r.Err? <==> exists i | 0 <= i < |cartItems| :: cartItems[i].quantity <= 0
      ensures r.Err? ==> r.error == NonPositiveQuantity
      ensures r.Ok? ==> fresh(r.value) && r.value.Valid() && r.value.customer == customer
      ensures r.Ok? ==> |r.value.items| == |cartItems| && forall i | 0 <= i < |cartItems| ::
        r.value.items[i].product == cartItems[i].product && r.value.items[i].quantity == cartItems[i].quantity
      ensures r.Ok? ==> r.value.status == Pending && r.value.orderId == None
      ensures r.Ok? ==> r.value.discount == Some(discount.ToModel())
      ensures r.Ok? ==> r.value.delivery == Some(delivery.ToModel())
      ensures r.Ok? ==> r.value.payment == Some(payment.ToModel())
    {
      r := Order.Create(customer, cartItems);
      if r.Ok? {
        var order := r.value;
        order.SetDiscount(discount.ToModel());
        order.SetDelivery(delivery.ToModel());
        order.SetPayment(payment.ToModel());
      }
    }
  }

  datatype OrderResultDTO = OrderResultDTO(
    orderId: Option<int>,
    customerName: string,
    items: seq<CartItemDTO>,
    subtotal: real,
    discountAmount: real,
    deliveryCost: real,
    totalAmount: real,
    status: OrderStatus,
    paymentMethod: Option<Payment>)

  /** The line DTO `from_model` builds for an order line. */
  function LineToDTO(item: OrderItem): CartItemDTO
    reads item.product
  {
    CartItemDTO(ProductDTO.FromModel(item.product), item.quantity)
  }

  /** What `OrderResultDTO.from_model(order)` reports: the order's id, customer name,
      status and payment, one line DTO per order line, and the pricing chain
      subtotal - discount + delivery. */
  ghost predicate Reports(r: OrderResultDTO, order: Order)
    reads order, ProductsOf(order.items)
  {
    && r.orderId == order.orderId
    && r.customerName == order.customer.name
    && r.status == order.status
    && r.paymentMethod == order.payment
    && |r.items| == |order.items|
    && (forall i | 0 <= i < |order.items| :: r.items[i] == LineToDTO(order.items[i]))
    && r.subtotal == Subtotal(order.items)
    && r.discountAmount == DiscountAmount(order.discount, r.subtotal)
    && r.deliveryCost == DeliveryCost(order.delivery)
    && r.totalAmount == r.subtotal - r.discountAmount + r.deliveryCost
  }

  /** `OrderResultDTO.from_model(order)`: builds the line DTOs one by one and recomputes
      the pricing chain; the total it reports is the order's `calculate_total()`. The chain
      is written twice in the program with the same steps, and both copies here use the
      same step functions, so their agreement holds by construction. */
  method ResultFromModel(order: Order) returns (r: OrderResultDTO)
    ensures Reports(r, order)
    ensures r.totalAmount == order.CalculateTotal()
  {
    var itemsDto: seq<CartItemDTO> := [];
    for i := 0 to |order.items|
      invariant |itemsDto| == i
      invariant forall k | 0 <= k < i :: itemsDto[k] == LineToDTO(order.items[k])
    {
      var line := order.items[i];
      var productDto := ProductDTO.FromModel(line.product);
      itemsDto := itemsDto + [CartItemDTO(productDto, line.quantity)];
    }
    var subtotal := Subtotal(order.items);
    var discountAmount := DiscountAmount(order.discount, subtotal);
    var deliveryCost := DeliveryCost(order.delivery);
    var total := subtotal - discountAmount + deliveryCost;
    r := OrderResultDTO(order.orderId, order.customer.name, itemsDto, subtotal, discountAmount,
                        deliveryCost, total, order.status, order.payment);
  }
}

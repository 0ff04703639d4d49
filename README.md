# Composition-and-Aggregation: a verified model of the shop core

This project models, in Dafny, the core of a small in-memory shop. Customers, products, carts and
orders live in dictionaries held by repositories. Services sit on top of the repositories and
validate requests, convert between domain objects and data-transfer objects (DTOs), and update the
stores.

The model has one module per source file:

- **`Orders`** (`order.dfy`): orders and their lines.
  - Pricing is subtotal − discount + delivery.
  - Also here: the id, status and strategy setters, payment, and the `Warehouse` stock ledger.
- **`Discounts`, `Deliveries`, `Status`**: the strategy families and the order status enum, as datatypes.
- **`Products`, `Carts`, `Customers`**: the guarded entities, as classes whose methods change them in place.
  - A product's price has the type `Price` (a real ≥ 0), so the price invariant holds by typing.
- **`Schemas`**: the DTOs and their conversions.
  - This includes the second copy of the discount formulas.
  - It also includes the second copy of the pricing chain in `OrderResultDTO.from_model`, proved equal to `calculate_total`.
- **Repositories**:
  - `ProductRepos`: the root product repository, which the services use.
  - `CustomerRepos`, `OrderRepos`, `WarehouseRepos`: the current repositories.
  - `LegacyOrderRepos`, `LegacyCustomerRepos`: the older root-level ones.
- **Services**: `CartServices`, `OrderServices`, `ProductServices`, `CustomerServices`.

Two shared modules support the rest:

- **`Common`** holds `Option`, `Result` and `Outcome`, and one `Error` constructor per `ValueError` the code raises.
  - Every raised exception becomes an `Err`/`Fail`, never a precondition.
- **`Dicts`** models a Python `dict` as insertion-ordered keys plus a map.
  - `Put` overwrites in place or appends a new key; `Remove` drops a key.
  - `Values()` lists the values in insertion order, as `values()` does.

Money is `real`. The functions that compute prices, such as `calculate_total`, `_calculate_subtotal`,
`get_total_price` and `apply`, are Dafny functions, so they change nothing by construction.

## Model

| member | source | states |
|---|---|---|
| `Orders.Order.constructor` | src/models/order.py:12-26 | Given lines already checked positive: the order keeps them and the customer, status is PENDING, and there is no id, discount, delivery or payment. |
| `Orders.Order.Create` | src/models/order.py:12-26 | Construction fails exactly when some cart item has quantity ≤ 0. Otherwise: a new order, one line per cart item with the same product and quantity, PENDING, no id, no strategies. |
| `Orders.NewOrderItem` | src/models/order.py:92-96 | An order line exists exactly when the quantity is positive, and keeps the product and quantity. |
| `Orders.OrderItemsOf` | src/models/order.py:18-20 | The line list succeeds exactly when every quantity is positive; then it has one line per cart item with the same product and quantity. |
| `Orders.OrderItem.TotalPrice` | src/models/order.py:98-100 | A line with a positive quantity costs at least 0, and more than 0 exactly when its product's price is positive. |
| `Orders.Subtotal` | src/models/order.py:79-81 | No lines give 0; lines with positive quantities (prices are never negative) give a non-negative subtotal. |
| `Orders.Order.SetOrderId` | src/models/order.py:32-36 | A value ≤ 0 fails and keeps the old id; a positive value is stored. |
| `Orders.Order.SetStatus` | src/models/order.py:42-44 | Any status may follow any status; only the status field changes. |
| `Orders.Order.SetDiscount` | src/models/order.py:50-52 | The discount is set; nothing else changes. |
| `Orders.Order.SetDelivery` | src/models/order.py:58-61 | The delivery is set; nothing else changes. |
| `Orders.Order.SetPayment` | src/models/order.py:67-70 | The payment is set; nothing else changes. |
| `Orders.SubtotalAppend` | src/models/order.py:79-81 | The subtotal of two runs of lines is the sum of their subtotals. |
| `Orders.SubtotalOfOneLine` | src/models/order.py:98-100 | One line's subtotal is its `get_total_price`, so the subtotal is the sum of the line totals. |
| `Orders.DeliveryCost` | src/models/order.py:76 | A missing delivery contributes 0, and a chosen one a positive cost. |
| `Orders.DiscountAmount` | src/models/order.py:75 | A missing discount contributes 0. A fixed discount, or a percentage in [0, 100], of a non-negative subtotal is at most that subtotal. |
| `Orders.Order.CalculateTotal` | src/models/order.py:72-77 | For valid lines with a fixed discount or a percentage in [0, 100], the total is at least the delivery cost, so it is never negative. With no discount it is the subtotal plus the delivery cost. |
| `Orders.TotalWithoutStrategies` | src/models/order.py:72-77 | With neither discount nor delivery, the total equals the subtotal. |
| `Orders.TotalCanBeNegative` | src/models/order.py:72-77 | Nothing clamps a percentage above 100: with it, no delivery and a positive subtotal, the total is negative. |
| `Orders.FixtureTotals` | src/models/order.py:72-81 | For one line of 1000.0 × 1 and one of 25.0 × 2: subtotal 1050, totals 945 (10 %), 1005 (50 off plus standard delivery) and 960 (10 % plus express delivery). |
| `Orders.Order.ProcessPayment` | src/models/order.py:83-87 | With no payment it fails with "payment not set"; otherwise it charges exactly `calculate_total()` to the attached payment. The order is not changed. |
| `Orders.Warehouse.constructor` | src/models/order.py:105-106 | A new ledger is empty. |
| `Orders.Warehouse.StockOf` | src/models/order.py:116-122 | `stock.get(product, 0)`: the recorded count, 0 for a product never stocked, never negative in a valid ledger. |
| `Orders.Warehouse.AddStock` | src/models/order.py:112-116 | A quantity ≤ 0 fails with no change. Otherwise the product's count (0 if absent) grows by the quantity, every other count is unchanged, and no count is negative. |
| `Orders.Warehouse.RemoveStock` | src/models/order.py:118-127 | A quantity ≤ 0 fails; a quantity above the stock (absent counts as 0) fails with both numbers. Neither failure changes anything. Otherwise only that count drops by the quantity, and counts never go negative. |
| `Discounts.Discount.Apply` | models/discount.py:14-23 | Percentage: the discount × 100 equals amount × percentage. Fixed: the discount is the smaller of the fixed amount and the amount. |
| `Discounts.PercentageBounds` | models/discount.py:14-15 | For amount ≥ 0 and 0 ≤ p ≤ 100 the discount lies in [0, amount]; for p > 100 and amount > 0 it exceeds the amount. |
| `Discounts.FixedBounds` | models/discount.py:22-23 | A fixed discount never exceeds the amount, and a fixed amount ≥ the amount leaves exactly 0 to pay. |
| `Discounts.ZeroDiscounts` | models/discount.py:10-23 | A zero percentage or zero fixed amount gives 0, and either discount of an amount of 0 is 0. |
| `Deliveries.Delivery.Cost` | models/delivery.py:10-17 | Standard costs 5.0 and express 15.0. Both are positive and take no input. |
| `Deliveries.ExpressCostsMore` | models/delivery.py:10-17 | Express costs strictly more than standard. |
| `Status.OrderStatus.Value` | src/enum.py:5-10 | Each value is a non-empty lower-case word. |
| `Status.OrderStatus.ToString` | src/enum.py:12-13 | `str(status)` is the status value. |
| `Status.OrderStatus.EqualsString` | src/enum.py:4 | A status (a `str` enum) equals a string exactly when looking that string up gives the status. |
| `Status.FromValue` | src/enum.py:4-10 | `OrderStatus(s)` finds a status only when its value is `s`, and finds none exactly when no status has that value. |
| `Status.ExactlyFiveStatuses` | src/enum.py:4-10 | There are exactly five statuses and each is listed once. |
| `Status.ValueDeterminesStatus` | src/enum.py:4-10 | Two statuses have equal values only if they are the same status, and looking a status's value up gives that status back. |
| `Products.Product.constructor` | src/models/product.py:2-10 | Stores id, name and an already non-negative price. |
| `Products.Product.New` | src/models/product.py:2-20 | Construction goes through the price setter: it fails exactly on a negative price. Otherwise it gives a new product with the given fields. |
| `Products.Product.SetPrice` | src/models/product.py:16-20 | A negative price fails and keeps the old price; zero and positive prices are stored. |
| `Products.Category.constructor` | src/models/product.py:24-26 | A new category has no products. |
| `Products.Category.AddProduct` | src/models/product.py:32-34 | Appends only a product not already listed, so the list stays duplicate-free. |
| `Products.Category.RemoveProduct` | src/models/product.py:36-38 | Removes the product when listed and is a no-op otherwise. The others keep their order, and the list stays duplicate-free. |
| `Products.RemoveFirstKeepsNoDuplicates` | src/models/product.py:36-38 | Removing a listed product from a duplicate-free list gives a duplicate-free list, one shorter, without it. |
| `Carts.ShoppingCart.constructor` | src/models/cart.py:5-6 | A new cart has no items. |
| `Carts.ShoppingCart.AddItem` | src/models/cart.py:8-9 | Appends exactly one unchecked line at the end, never merging, and earlier lines are unchanged. |
| `Customers.Customer.constructor` | models/customer.py:2-6 | Stores id, name and email; there are no addresses. |
| `Customers.Customer.AddAddress` | models/customer.py:8-9 | Appends one address at the end; earlier addresses keep their places and the email is untouched. |
| `Schemas.ProductDTO.FromModel` | src/schemas.py:27-33 | Copies the product's id, name and price; the price is never negative, so `to_model` on the result succeeds. |
| `Schemas.CustomerDTO.FromModel` | src/schemas.py:59-69 | Copies id, name and email, with one address DTO per address, in order and field by field. |
| `Schemas.CartItemDTO.FromModel` | src/schemas.py:85-90 | The product's DTO and the same quantity, with a non-negative price, so `to_model` on the result succeeds. |
| `Schemas.ProductDTO.ToModel` | src/schemas.py:35-40 | Fails exactly on a negative price. Otherwise it gives a new product whose `from_model` is this DTO, so id, name and price round-trip. |
| `Schemas.CustomerDTO.ToModel` | src/schemas.py:71-76 | A new customer with the same id, name and email and one address per address DTO, in order; its `from_model` is this DTO. |
| `Schemas.CartItemDTO.ToModel` | src/schemas.py:92-93 | Fails only as the product does. Otherwise it gives a cart item over a new product whose `from_model` is this DTO, so product id and quantity round-trip. |
| `Schemas.DiscountDTO.CalculateDiscount` | src/schemas.py:112-131 | The DTO's own discount formula equals `apply` on the converted discount. |
| `Schemas.DiscountDTO.ToModel` | src/schemas.py:119-131 | Keeps the kind of discount and carries `value` over unchanged. |
| `Schemas.DeliveryDTO.ToModel` | src/schemas.py:144-157 | Standard maps to standard, express to express. |
| `Schemas.PaymentDTO.ToModel` | src/schemas.py:171-192 | Keeps the kind of payment; the details become the card number or the e-mail. |
| `Schemas.OrderCreateDTO.ToModel` | src/schemas.py:204-214 | Fails exactly as the `Order` constructor does. Otherwise: a new PENDING order for the customer, one line per cart item, and discount, delivery and payment all set from the DTO. |
| `Schemas.ResultFromModel` | src/schemas.py:230-260 | Reports the order's id, customer name, status and payment, plus one line DTO per order line. Its total is subtotal − discount + delivery and equals `calculate_total()`. |
| `ProductRepos.ProductRepository.constructor` | repositories/product_repo.py:5-6 | The store starts empty. |
| `ProductRepos.ProductRepository.Create` | repositories/product_repo.py:8-17 | Fails, storing nothing, on a negative price. Otherwise it stores a new product under its id, and `get_by_id` returns it. |
| `ProductRepos.ProductRepository.Add` | repositories/product_repo.py:19-21 | Stores under the product id, silently replacing any product there. |
| `ProductRepos.ProductRepository.GetById` | repositories/product_repo.py:23-25 | Returns the stored product, or `None` exactly when the id is unknown. |
| `ProductRepos.ProductRepository.GetAll` | repositories/product_repo.py:27-29 | One entry per stored product: every stored product is in the list and nothing else is. In insertion order: the i-th entry is the value of the i-th inserted key still stored. |
| `ProductRepos.ProductRepository.Update` | repositories/product_repo.py:31-35 | An unknown id fails with no change; otherwise only that entry is replaced. |
| `ProductRepos.ProductRepository.Delete` | repositories/product_repo.py:37-41 | An unknown id fails with no change. Otherwise the entry is removed, `get_all` shrinks by one, and `get_by_id` returns `None`. |
| `CustomerRepos.CustomerRepository.constructor` | src/repositories/customer_repo.py:5-6 | The store starts empty. |
| `CustomerRepos.CustomerRepository.Add` | src/repositories/customer_repo.py:8-13 | A duplicate id fails with no change; otherwise the customer is stored and returned. |
| `CustomerRepos.CustomerRepository.GetById` | src/repositories/customer_repo.py:15-17 | Returns the stored customer, or `None` exactly when the id is unknown. |
| `CustomerRepos.CustomerRepository.FindByEmail` | src/repositories/customer_repo.py:19-24 | Returns the first stored customer in insertion order whose email is exactly equal (case-sensitive), or `None` when no stored customer has it. |
| `CustomerRepos.CustomerRepository.GetAll` | src/repositories/customer_repo.py:26-28 | One entry per stored customer, each stored customer included. In insertion order: the i-th entry is the value of the i-th inserted key still stored. |
| `CustomerRepos.CustomerRepository.Update` | src/repositories/customer_repo.py:30-35 | An unknown id fails with no change; otherwise only that entry is replaced. |
| `CustomerRepos.CustomerRepository.Delete` | src/repositories/customer_repo.py:37-40 | Removes the customer when present and silently does nothing otherwise. |
| `OrderRepos.OrderRepository.constructor` | src/repositories/order_repo.py:5-7 | Empty store, counter at 1. |
| `OrderRepos.OrderRepository.Add` | src/repositories/order_repo.py:9-14 | Stamps the order with the counter's value and stores it under that fresh key. The counter goes up by one, so ids run 1, 2, 3, … |
| `OrderRepos.CountedIdsFacts` | src/repositories/order_repo.py:7-13 | Handed-out ids are positive, distinct and below the counter, the next id is unused, and handing it out keeps this so. |
| `OrderRepos.OrderRepository.GetById` | src/repositories/order_repo.py:16-18 | Returns the stored order, or `None` exactly when the id is unknown. |
| `OrderRepos.OrdersOfCustomer` | src/repositories/order_repo.py:22-25 | Keeps exactly the orders whose customer id matches. |
| `OrderRepos.OrdersOfCustomerAppend` | src/repositories/order_repo.py:22-25 | The selection distributes over concatenation, so insertion order is kept. |
| `OrderRepos.OrderRepository.GetByCustomer` | src/repositories/order_repo.py:20-25 | Exactly the stored orders of that customer. It is exactly the selection of `get_all()` by customer id, so the orders keep their insertion order and each appears once. |
| `OrderRepos.OrderRepository.GetAll` | src/repositories/order_repo.py:27-29 | One entry per stored order, each stored order included. In insertion order: the i-th entry is the value of the i-th inserted key still stored. |
| `OrderRepos.OrderRepository.Update` | src/repositories/order_repo.py:31-37 | An order whose id is `None` or not stored fails with that id and no change. Otherwise only that entry is replaced and the counter is untouched. |
| `LegacyOrderRepos.OrderRepository.constructor` | repositories/order_repo.py:5-7 | Empty store, counter at 1. |
| `LegacyOrderRepos.OrderRepository.Add` | repositories/order_repo.py:9-14 | Stores the order under the counter's value and returns that id (1, 2, 3, …); the order's own fields are not written. |
| `LegacyOrderRepos.OrderRepository.GetById` | repositories/order_repo.py:16-18 | Returns the stored order, or `None` exactly when the id is unknown. |
| `LegacyOrderRepos.OrderRepository.GetByCustomer` | repositories/order_repo.py:20-25 | Exactly the stored orders of that customer. It is exactly the selection of `get_all()` by customer id, so the orders keep their insertion order and each appears once. |
| `LegacyOrderRepos.OrderRepository.GetAll` | repositories/order_repo.py:27-29 | One entry per stored order, each stored order included. In insertion order: the i-th entry is the value of the i-th inserted key still stored. |
| `LegacyCustomerRepos.CustomerRepository.constructor` | repositories/customer_repo.py:5-6 | The store starts empty. |
| `LegacyCustomerRepos.CustomerRepository.Add` | repositories/customer_repo.py:8-9 | Stores under the customer id, silently replacing any customer there. |
| `LegacyCustomerRepos.CustomerRepository.GetById` | repositories/customer_repo.py:11-12 | Returns the stored customer, or `None` exactly when the id is unknown. |
| `LegacyCustomerRepos.CustomerRepository.GetAll` | repositories/customer_repo.py:14-15 | Every stored customer, exactly once each. In insertion order: the i-th entry is the value of the i-th inserted key still stored. |
| `LegacyCustomerRepos.CustomerRepository.Update` | repositories/customer_repo.py:17-21 | Replaces an existing entry; an unknown id fails with no change. |
| `WarehouseRepos.WarehouseRepository.constructor` | src/repositories/warehouse_repo.py:5-6 | Starts with a new, empty warehouse. |
| `WarehouseRepos.WarehouseRepository.GetStock` | src/repositories/warehouse_repo.py:14-15 | The recorded count for a stocked product, 0 for one never stocked, and never negative. |
| `WarehouseRepos.WarehouseRepository.CheckAvailability` | src/repositories/warehouse_repo.py:17-18 | Holds exactly when the quantity is at most the stock, so a quantity ≤ 0 is always available, and a product never stocked has nothing positive available. |
| `WarehouseRepos.WarehouseRepository.AddStock` | src/repositories/warehouse_repo.py:8-9 | The warehouse's own errors with no change. On success the stock grows by the quantity and `check_availability` for that quantity holds. |
| `WarehouseRepos.WarehouseRepository.RemoveStock` | src/repositories/warehouse_repo.py:11-12 | The warehouse's own errors (non-positive quantity, insufficient stock) with no change. Otherwise the stock drops by the quantity. |
| `CartServices.FindLine` | src/servises/cart_service.py:21-24 | The position of the first line for a product id, or none when no line has it. |
| `CartServices.WithoutProduct` | src/servises/cart_service.py:32-35 | Keeps exactly the lines of other products. |
| `CartServices.WithoutProductAppend` | src/servises/cart_service.py:32-35 | The filter distributes over concatenation, so the lines kept keep their order. |
| `CartServices.LineTotal` | src/servises/cart_service.py:55 | A line with a positive quantity and a price of at least 0 costs at least 0. |
| `CartServices.CartTotal` | src/servises/cart_service.py:53-55 | An empty cart costs 0; lines with positive quantities and prices of at least 0 never cost less than 0. |
| `CartServices.CartTotalAppend` | src/servises/cart_service.py:53-55 | Appending a line adds price × quantity to the total. |
| `CartServices.CartTotalUpdate` | src/servises/cart_service.py:53-55 | Replacing one line changes the total by the difference of the two lines' costs. |
| `CartServices.FindLineAppend` | src/servises/cart_service.py:21-24 | Where the first line for a product sits after one more line is appended. |
| `CartServices.WithoutAbsentProduct` | src/servises/cart_service.py:32-35 | Removing a product that has no line leaves the cart as it was. |
| `CartServices.RemoveLowersTotal` | src/servises/cart_service.py:30-35 | With one line per product, removing a product lowers the total by exactly its line's cost, or by 0 when it has no line. |
| `CartServices.WithoutProductKeepsWellFormed` | src/servises/cart_service.py:30-35 | Removing a product keeps one line per product and positive quantities. |
| `CartServices.MergeKeepsWellFormed` | src/servises/cart_service.py:21-24 | Raising one line's quantity keeps one line per product and adds price × extra quantity to the total. |
| `CartServices.AppendKeepsWellFormed` | src/servises/cart_service.py:26-27 | Appending a line for a product not yet in the cart keeps one line per product. |
| `CartServices.CartService.MergeLine` | src/servises/cart_service.py:21-28 | The scan raises the first same-product line's quantity (keeping its price), or appends the new line when there is none. Either way the total grows by that line's price × the added quantity. |
| `CartServices.CartService.constructor` | src/servises/cart_service.py:6-8 | The cart starts empty. |
| `CartServices.CartService.AddItem` | src/servises/cart_service.py:10-28 | Quantity ≤ 0 fails before the lookup, then an unknown product fails; neither changes the cart. A product with a line gets its quantity raised in place (same line count). Otherwise a snapshot line is appended. Either way the total grows by price × quantity and there is still one line per product. |
| `CartServices.CartService.RemoveItem` | src/servises/cart_service.py:30-35 | Drops the product's line and keeps the others in order (a no-op for an absent id). The total drops by that line's cost. |
| `CartServices.CartService.UpdateQuantity` | src/servises/cart_service.py:37-47 | Quantity ≤ 0 fails, then "not in cart" for an absent id; neither changes the cart. Otherwise only that line's quantity is set, exactly, and the total changes by the line difference. |
| `CartServices.CartService.GetItems` | src/servises/cart_service.py:49-51 | The cart's lines in insertion order: one per product, each with a positive quantity, and they add up to `get_total()`. |
| `CartServices.CartService.GetTotal` | src/servises/cart_service.py:53-55 | The total of the lines is never negative, and is 0 for an empty cart. |
| `CartServices.CartService.Clear` | src/servises/cart_service.py:57-59 | Empties the cart. |
| `CartServices.CartService.IsEmpty` | src/servises/cart_service.py:61-63 | True exactly when there are no lines, and then the total is 0. |
| `OrderServices.LineSnapshots` | src/servises/order_service.py:24-35 | Succeeds exactly when every pair names a stored product with a positive quantity, giving one product snapshot per pair. Otherwise the first refused pair's error wins: unknown product before bad quantity. |
| `OrderServices.LineSnapshotsPrefix` | src/servises/order_service.py:24-31 | Once a prefix of the pairs is refused, the whole list fails with the same error. |
| `OrderServices.LineSnapshotsRefused` | src/servises/order_service.py:24-31 | A refused pair after accepted ones decides the error. |
| `OrderServices.OrderService.SnapshotLines` | src/servises/order_service.py:24-35 | The checking loop computes exactly `LineSnapshots` over the stored products. |
| `OrderServices.CartItemsFromDTOs` | src/servises/order_service.py:40 | One cart item per line DTO, each over a new product that converts back to that DTO. |
| `OrderServices.OrderService.constructor` | src/servises/order_service.py:7-15 | Keeps the three repositories; over valid repositories whose stored orders carry their keys, the service starts valid. |
| `OrderServices.OrderService.CreateOrder` | src/servises/order_service.py:17-45 | Failures come in order: unknown customer, then the pair checks, then an empty list; each leaves the order store unchanged. Success stores exactly one new order under the old counter value, stamped with it and PENDING (not PROCESSING). It has one line per pair, over new product copies (never a stored product), and the DTO's discount, delivery and payment. The result reports that order, and every stored order keeps its own id. |
| `OrderServices.OrderService.BuildOrder` | src/servises/order_service.py:40 | For accepted snapshots the conversion cannot fail. It gives a new PENDING order for the customer whose lines report exactly the snapshots, over new product copies, with the DTO's strategies. |
| `OrderServices.OrderService.SaveAndReport` | src/servises/order_service.py:41-45 | The new order is stored under the counter's value and stamped with it, and the counter goes up by one. Every stored order keeps the id it is stored under, and the result reports the order. |
| `OrderServices.OrderService.GetOrder` | src/servises/order_service.py:47-53 | `None` exactly for an unknown id; otherwise a report of the stored order carrying that id. |
| `OrderServices.ReportAll` | src/servises/order_service.py:58 | One report per order, in order. |
| `OrderServices.OrderService.CustomerOrdersStamped` | src/servises/order_service.py:55-58 | Each stored order of a customer carries the id it is stored under, and each appears in the customer's list. |
| `OrderServices.OrderService.GetCustomerOrders` | src/servises/order_service.py:55-58 | One report per stored order of that customer, in insertion order. Each report's id is a stored order of that customer, and every such order is reported. |
| `OrderServices.OrderService.CancelOrder` | src/servises/order_service.py:65-75 | An unknown id fails. Otherwise the order becomes CANCELLED whatever its prior status; its id and strategies and the store are unchanged, and its report is returned. |
| `ProductServices.ProductService.constructor` | src/servises/product_service.py:6-7 | Keeps the repository; over a valid repository the service starts valid. |
| `ProductServices.ProductService.CreateProduct` | src/servises/product_service.py:9-15 | A negative price fails with nothing stored; zero is allowed. Otherwise a new product is stored under the id and the returned DTO equals the input, as `get_product` then does. |
| `ProductServices.ProductService.GetProduct` | src/servises/product_service.py:17-20 | `None` exactly for an unknown id; otherwise the stored product's DTO. |
| `ProductServices.ProductService.UpdatePrice` | src/servises/product_service.py:22-33 | A negative price fails before the existence check, then an unknown id fails. On success only that product's price changes. |
| `ProductServices.ProductService.DeleteProduct` | src/servises/product_service.py:40-46 | An unknown id fails with no change; otherwise it is removed. Either way `get_product` then returns `None`. |
| `CustomerServices.CustomerService.constructor` | src/servises/customer_service.py:6-7 | Keeps the repository, which stays valid. |
| `CustomerServices.CustomerService.CreateCustomer` | src/servises/customer_service.py:9-17 | An email any stored customer holds exactly fails first, then a duplicate id fails; neither changes the store. Otherwise a new customer from the DTO is stored and the DTO is returned. Unique emails stay unique. |
| `CustomerServices.CustomerService.GetCustomer` | src/servises/customer_service.py:19-22 | `None` exactly for an unknown id; otherwise the stored customer's DTO. |
| `CustomerServices.CustomerService.GetCustomerByEmail` | src/servises/customer_service.py:24-27 | `None` exactly when no stored customer has the email; otherwise the DTO of a stored customer with it. |
| `CustomerServices.CustomerService.AddAddressToCustomer` | src/servises/customer_service.py:29-39 | An unknown id fails. Otherwise exactly one address is appended, the email is kept, and unique emails stay unique. |
| `CustomerServices.CustomerService.UpdateCustomerEmail` | src/servises/customer_service.py:41-55 | An unknown id fails, and an email in use fails only if a different customer holds it. With unique emails, failure happens exactly when another customer holds it, so re-setting one's own email succeeds. Only that email changes, and unique emails stay unique. |
| `CustomerServices.CustomerService.DeleteCustomer` | src/servises/customer_service.py:62-68 | An unknown id fails with no change; otherwise it is removed. `get_customer` then returns `None`, and unique emails stay unique. |

## Left out

- Payment output: `pay` only prints a line (src/models/payment.py). A payment is an opaque tagged value, and `ProcessPayment` returns the amount it would be charged.
- The `BankTransferPayment` constructor mismatch: it takes no argument, yet the DTO passes one. The model's bank transfer payment simply carries no details; the `TypeError` this raises in Python is not modelled.
- `main.py` (console printing), `src/utils/data_loader.py` (file and JSON input) and `src/servises/app_service.py` (wiring and statistics) are not part of this model.
- The listing helpers `get_all_products`, `get_all_customers` and `get_all_orders` of the services are not modelled. They only map `from_model` over a repository's `get_all`, which is modelled.
- Floating-point rounding: money is exact `real` arithmetic.
- Reference aliasing of returned containers and DTO lines: a Dafny `seq` or `map` is a value. So `Warehouse.stock` and `Category.products` return snapshots, not the live dict or list. A cart line returned by the cart service is a copy, not the stored line object.
- Identity fields are `const`: the source never reassigns a product's id or name, a customer's id or name, or an order's customer or line list.
- The PROCESSING status after order creation is not modelled, because no code sets it; created orders are PENDING.
- `OrderServices.OrderService.CreateOrder`, `CancelOrder`, `GetOrder` and `GetCustomerOrders` assume a store where every order carries the id it is stored under. The service's own operations keep this; the repository alone does not, since adding the same order object twice re-stamps it.
- `CustomerServices.CustomerService.UpdateCustomerEmail`: without unique emails, its refusal is stated only one way (a refusal means another customer holds the email). The lookup returns the first holder in insertion order, so the customer's own record can hide another holder.

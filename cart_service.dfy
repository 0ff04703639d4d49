/** The shopping-cart use cases: a list of line DTOs, one per product, over the product store. */
module CartServices {
  import opened Common
  import opened Products
  import opened Schemas
  import opened ProductRepos

  /** What one cart line costs: its price snapshot times its quantity, never less than 0
      for a line the cart accepts. */
  function LineTotal(item: CartItemDTO): (t: real)
    ensures item.quantity > 0 && item.product.price >= 0.0 ==> t >= 0.0
  {
    assert item.quantity > 0 && item.product.price >= 0.0 ==>
      item.product.price * (item.quantity as real) >= 0.0 * (item.quantity as real);
    item.product.price * item.quantity as real
  }

  /** `sum(item.product.price * item.quantity for item in cart_items)`: 0 for an empty
      cart, and never negative for lines with positive quantities and prices of at least 0. */
  function CartTotal(items: seq<CartItemDTO>): (t: real)
    ensures items == [] ==> t == 0.0
    ensures LinesAccepted(items) ==> t >= 0.0
  {
    if items == [] then 0.0
    else
      var n := |items| - 1;
      assert LinesAccepted(items) ==> LinesAccepted(items[..n]);
      CartTotal(items[..n]) + LineTotal(items[n])
  }

  /** Every line has a positive quantity and a price of at least 0, as `add_item` and
      `update_quantity` ensure. */
  ghost predicate LinesAccepted(items: seq<CartItemDTO>)
  {
    forall i | 0 <= i < |items| :: items[i].quantity > 0 && items[i].product.price >= 0.0
  }

  /** The position of the first line for `productId`, as the cart's scanning loops find it. */
  function FindLine(items: seq<CartItemDTO>, productId: int): (r: Option<nat>)
    ensures r.Some? ==> r.value < |items| && items[r.value].product.productId == productId
    ensures r.Some? ==> forall j | 0 <= j < r.value :: items[j].product.productId != productId
    ensures r.None? ==> forall j | 0 <= j < |items| :: items[j].product.productId != productId
  {
    if items == [] then None
    else if items[0].product.productId == productId then Some(0)
    else match FindLine(items[1..], productId)
      case None => None
      case Some(i) => Some(i + 1)
  }

  /** `[item for item in cart_items if item.product.product_id != product_id]` */
  function WithoutProduct(items: seq<CartItemDTO>, productId: int): (r: seq<CartItemDTO>)
    ensures forall x | x in r :: x in items && x.product.productId != productId
    ensures forall x | x in items && x.product.productId != productId :: x in r
  {
    if items == [] then []
    else
      var n := |items| - 1;
      assert items == items[..n] + [items[n]];
      WithoutProduct(items[..n], productId) +
        (if items[n].product.productId == productId then [] else [items[n]])
  }

  /** Filtering two runs of lines is filtering each run, in order: the lines kept are
      kept in the order they had. */
  lemma {:induction false} WithoutProductAppend(a: seq<CartItemDTO>, b: seq<CartItemDTO>, productId: int)
    ensures WithoutProduct(a + b, productId) == WithoutProduct(a, productId) + WithoutProduct(b, productId)
    decreases |b|
  {
    if b == [] {
      assert a + b == a;
    } else {
      var n := |b| - 1;
      var last := if b[n].product.productId == productId then [] else [b[n]];
      assert (a + b)[..|a + b| - 1] == a + b[..n];
      assert (a + b)[|a + b| - 1] == b[n];
      calc {
        WithoutProduct(a + b, productId);
        WithoutProduct(a + b[..n], productId) + last;
        { WithoutProductAppend(a, b[..n], productId); }
        (WithoutProduct(a, productId) + WithoutProduct(b[..n], productId)) + last;
        WithoutProduct(a, productId) + (WithoutProduct(b[..n], productId) + last);
        WithoutProduct(a, productId) + WithoutProduct(b, productId);
      }
    }
  }

  /** At most one line per product. */
  ghost predicate UniqueLines(items: seq<CartItemDTO>)
  {
    forall i, j | 0 <= i < j < |items| :: items[i].product.productId != items[j].product.productId
  }

  /** The cart's invariant: one line per product, positive quantities, prices of products. */
  ghost predicate WellFormed(items: seq<CartItemDTO>)
  {
    UniqueLines(items) && LinesAccepted(items)
  }

  /** Adding a line at the end adds its cost. */
  lemma CartTotalAppend(items: seq<CartItemDTO>, x: CartItemDTO)
    ensures CartTotal(items + [x]) == CartTotal(items) + LineTotal(x)
  {
    assert (items + [x])[..|items|] == items;
  }

  /** Replacing one line changes the total by the difference of the two lines' costs. */
  lemma {:induction false} CartTotalUpdate(items: seq<CartItemDTO>, i: nat, x: CartItemDTO)
    requires i < |items|
    ensures CartTotal(items[i := x]) == CartTotal(items) - LineTotal(items[i]) + LineTotal(x)
    decreases |items|
  {
    var n := |items| - 1;
    assert items[i := x][..n] == if i == n then items[..n] else items[..n][i := x];
    if i < n {
      CartTotalUpdate(items[..n], i, x);
    }
  }

  /** Dropping a product nobody has ordered leaves the lines as they were. */
  lemma {:induction false} WithoutAbsentProduct(items: seq<CartItemDTO>, productId: int)
    requires forall j | 0 <= j < |items| :: items[j].product.productId != productId
    ensures WithoutProduct(items, productId) == items
    decreases |items|
  {
    if items != [] {
      var n := |items| - 1;
      var init := items[..n];
      WithoutAbsentProduct(init, productId);
      calc {
        WithoutProduct(items, productId);
        WithoutProduct(init, productId) + [items[n]];
        init + [items[n]];
        items;
      }
    }
  }

  /** The cost of the line `FindLine` finds, or nothing. */
  function FoundLineTotal(items: seq<CartItemDTO>, productId: int): real
  {
    match FindLine(items, productId)
    case None => 0.0
    case Some(i) => LineTotal(items[i])
  }

  /** Where the first line of a product sits after one more line is appended. */
  lemma FindLineAppend(items: seq<CartItemDTO>, x: CartItemDTO, productId: int)
    ensures FindLine(items + [x], productId) ==
      if FindLine(items, productId).Some? then FindLine(items, productId)
      else if x.product.productId == productId then Some(|items|)
      else None
  {
    var r := FindLine(items + [x], productId);
    if FindLine(items, productId).Some? {
      var i := FindLine(items, productId).value;
      assert (items + [x])[i] == items[i];
    } else {
      assert (items + [x])[|items|] == x;
      assert forall j | 0 <= j < |items| :: (items + [x])[j] == items[j];
    }
  }

  /** Removing a product from a cart with one line per product lowers the total by exactly
      that product's line, and by nothing when it has no line. */
  lemma {:induction false} RemoveLowersTotal(items: seq<CartItemDTO>, productId: int)
    requires UniqueLines(items)
    ensures CartTotal(WithoutProduct(items, productId)) == CartTotal(items) - FoundLineTotal(items, productId)
    decreases |items|
  {
    if items != [] {
      var n := |items| - 1;
      var init := items[..n];
      var last := items[n];
      assert items == init + [last];
      assert UniqueLines(init);
      RemoveLowersTotal(init, productId);
      FindLineAppend(init, last, productId);
      assert CartTotal(items) == CartTotal(init) + LineTotal(last);
      if last.product.productId == productId {
        WithoutAbsentProduct(init, productId);
        assert WithoutProduct(items, productId) == WithoutProduct(init, productId);
        assert FindLine(init, productId).None?;
        assert FoundLineTotal(items, productId) == LineTotal(last);
      } else {
        assert WithoutProduct(items, productId) == WithoutProduct(init, productId) + [last];
        CartTotalAppend(WithoutProduct(init, productId), last);
        assert FindLine(items, productId) == FindLine(init, productId);
        if FindLine(init, productId).Some? {
          assert items[FindLine(init, productId).value] == init[FindLine(init, productId).value];
        }
        assert FoundLineTotal(items, productId) == FoundLineTotal(init, productId);
      }
    }
  }

  /** Raising one line's quantity keeps the cart well formed and adds the line's price
      times the extra quantity to the total. */
  lemma MergeKeepsWellFormed(items: seq<CartItemDTO>, i: nat, quantity: int)
    requires WellFormed(items) && i < |items| && quantity > 0
    ensures var item := items[i].(quantity := items[i].quantity + quantity);
      WellFormed(items[i := item]) &&
      CartTotal(items[i := item]) == CartTotal(items) + LineTotal(item.(quantity := quantity))
  {
    var item := items[i].(quantity := items[i].quantity + quantity);
    CartTotalUpdate(items, i, item);
    var p := item.product.price;
    assert p * (items[i].quantity + quantity) as real == p * items[i].quantity as real + p * quantity as real;
  }

  /** Appending a line for a product the cart does not hold keeps the cart well formed
      and adds the line's price times its quantity to the total. */
  lemma AppendKeepsWellFormed(items: seq<CartItemDTO>, x: CartItemDTO)
    requires WellFormed(items) && x.quantity > 0 && x.product.price >= 0.0
    requires forall j | 0 <= j < |items| :: items[j].product.productId != x.product.productId
    ensures WellFormed(items + [x])
    ensures CartTotal(items + [x]) == CartTotal(items) + LineTotal(x)
  {
    var r := items + [x];
    assert forall k | 0 <= k < |items| :: r[k] == items[k];
    assert r[|items|] == x;
    assert UniqueLines(r);
    assert LinesAccepted(r);
    CartTotalAppend(items, x);
  }

  class CartService {
    const productRepository: ProductRepository
    var cartItems: seq<CartItemDTO>

    ghost predicate Valid()
      reads this, productRepository
    {
      WellFormed(cartItems) && productRepository.Valid()
    }

    /** `CartService(product_repository)`: an empty cart. */
    constructor (productRepository: ProductRepository)
      requires productRepository.Valid()
      ensures Valid() && this.productRepository == productRepository && cartItems == []
    {
      this.productRepository := productRepository;
      cartItems := [];
    }

    /** `add_item(product_id, quantity)`: a quantity of 0 or less fails before the lookup,
        then an unknown product fails; on error the cart is unchanged. A product already
        in the cart has its line's quantity raised (keeping the price seen when it was
        first added); otherwise a line with the product's current price is appended.
        Either way the total grows by that line's price times `quantity`. */
    method AddItem(productId: int, quantity: int) returns (r: Result<CartItemDTO>)
      requires Valid()
      modifies this`cartItems
      ensures Valid()
      ensures quantity <= 0 ==> r == Err(NonPositiveQuantity) && cartItems == old(cartItems)
      ensures quantity > 0 && productId !in productRepository.products.entries ==>
        r == Err(ProductNotFound(productId)) && cartItems == old(cartItems)
      ensures quantity > 0 && productId in productRepository.products.entries ==>
        r.Ok? && match FindLine(old(cartItems), productId)
          case Some(i) =>
            r.value == old(cartItems)[i].(quantity := old(cartItems)[i].quantity + quantity) &&
            cartItems == old(cartItems)[i := r.value]
          case None =>
            r.value == CartItemDTO(ProductDTO.FromModel(productRepository.products.entries[productId]), quantity) &&
            cartItems == old(cartItems) + [r.value]
      ensures r.Ok? ==> r.value.product.productId == productId
      ensures r.Ok? ==> CartTotal(cartItems) == old(CartTotal(cartItems)) + LineTotal(r.value.(quantity := quantity))
    {
      if quantity <= 0 {
        return Err(NonPositiveQuantity);
      }
      var found := productRepository.GetById(productId);
      if found.None? {
        return Err(ProductNotFound(productId));
      }
      var item := MergeLine(CartItemDTO(ProductDTO.FromModel(found.value), quantity));
      r := Ok(item);
    }

    /** The scan of `add_item` past its checks: raises the quantity of the first line for the
        same product, or appends `line` when there is none; the total grows by that line's
        price times the added quantity. */
    method MergeLine(line: CartItemDTO) returns (item: CartItemDTO)
      requires WellFormed(cartItems) && line.quantity > 0 && line.product.price >= 0.0
      modifies this`cartItems
      ensures WellFormed(cartItems)
      ensures match FindLine(old(cartItems), line.product.productId)
        case Some(i) =>
          item == old(cartItems)[i].(quantity := old(cartItems)[i].quantity + line.quantity) &&
          cartItems == old(cartItems)[i := item]
        case None =>
          item == line && cartItems == old(cartItems) + [line]
      ensures item.product.productId == line.product.productId
      ensures CartTotal(cartItems) == old(CartTotal(cartItems)) + LineTotal(item.(quantity := line.quantity))
    {
      var items := cartItems;
      var i := 0;
      while i < |items|
        invariant i <= |items|
        invariant forall j | 0 <= j < i :: items[j].product.productId != line.product.productId
      {
        if items[i].product.productId == line.product.productId {
          break;
        }
        i := i + 1;
      }
      if i < |items| {
        item := items[i].(quantity := items[i].quantity + line.quantity);
        assert FindLine(items, line.product.productId) == Some(i);
        MergeKeepsWellFormed(items, i, line.quantity);
        cartItems := items[i := item];
      } else {
        item := line;
        assert FindLine(items, line.product.productId).None?;
        AppendKeepsWellFormed(items, item);
        cartItems := items + [item];
      }
    }

    /** `remove_item(product_id)`: never fails; drops the product's line, keeping the
        others in order, and lowers the total by that line's cost. */
    method RemoveItem(productId: int)
      requires Valid()
      modifies this`cartItems
      ensures Valid()
      ensures cartItems == WithoutProduct(old(cartItems), productId)
      ensures forall x | x in cartItems :: x.product.productId != productId
      ensures CartTotal(cartItems) == old(CartTotal(cartItems)) - FoundLineTotal(old(cartItems), productId)
    {
      RemoveLowersTotal(cartItems, productId);
      WithoutProductKeepsWellFormed(cartItems, productId);
      cartItems := WithoutProduct(cartItems, productId);
    }

    /** `update_quantity(product_id, quantity)`: a quantity of 0 or less fails, then a
        product without a line fails; on error the cart is unchanged. Otherwise that
        line's quantity becomes `quantity` and the line is returned. */
    method UpdateQuantity(productId: int, quantity: int) returns (r: Result<CartItemDTO>)
      requires Valid()
      modifies this`cartItems
      ensures Valid()
      ensures quantity <= 0 ==> r == Err(NonPositiveQuantity) && cartItems == old(cartItems)
      ensures quantity > 0 && FindLine(old(cartItems), productId).None? ==>
        r == Err(ProductNotInCart(productId)) && cartItems == old(cartItems)
      ensures quantity > 0 && FindLine(old(cartItems), productId).Some? ==>
        var i := FindLine(old(cartItems), productId).value;
        r == Ok(old(cartItems)[i].(quantity := quantity)) && cartItems == old(cartItems)[i := r.value]
      ensures r.Ok? ==>
        var before := old(cartItems)[FindLine(old(cartItems), productId).value];
        CartTotal(cartItems) == old(CartTotal(cartItems)) - LineTotal(before) + LineTotal(r.value)
    {
      if quantity <= 0 {
        return Err(NonPositiveQuantity);
      }
      for i := 0 to |cartItems|
        invariant forall j | 0 <= j < i :: cartItems[j].product.productId != productId
      {
        if cartItems[i].product.productId == productId {
          var item := cartItems[i].(quantity := quantity);
          assert FindLine(cartItems, productId) == Some(i);
          CartTotalUpdate(cartItems, i, item);
          cartItems := cartItems[i := item];
          return Ok(item);
        }
      }
      r := Err(ProductNotInCart(productId));
    }

    /** `get_items()`: the cart's lines in the order they were first added, one per
        product, each with a positive quantity; their total is `get_total()`. */
    function GetItems(): (items: seq<CartItemDTO>)
      requires Valid()
      reads this, productRepository
      ensures items == cartItems
      ensures UniqueLines(items) && LinesAccepted(items)
      ensures CartTotal(items) == GetTotal()
    {
      cartItems
    }

    /** `get_total()`: the sum of the lines' costs, never negative. */
    function GetTotal(): (t: real)
      requires Valid()
      reads this, productRepository
      ensures t >= 0.0
      ensures cartItems == [] ==> t == 0.0
    {
      CartTotal(cartItems)
    }

    /** `clear()`: empties the cart. */
    method Clear()
      requires Valid()
      modifies this`cartItems
      ensures Valid() && cartItems == []
    {
      cartItems := [];
    }

    /** `is_empty()`: no lines, and then nothing to pay. */
    predicate IsEmpty()
      reads this
      ensures IsEmpty() <==> |cartItems| == 0
      ensures IsEmpty() ==> CartTotal(cartItems) == 0.0
    {
      |cartItems| == 0
    }
  }

  /** Dropping a product's line keeps a cart well formed. */
  lemma {:induction false} WithoutProductKeepsWellFormed(items: seq<CartItemDTO>, productId: int)
    requires WellFormed(items)
    ensures WellFormed(WithoutProduct(items, productId))
    decreases |items|
  {
    if items != [] {
      var n := |items| - 1;
      var init := items[..n];
      assert items == init + [items[n]];
      assert WellFormed(init);
      WithoutProductKeepsWellFormed(init, productId);
      var rest := WithoutProduct(init, productId);
      if items[n].product.productId != productId {
        forall i | 0 <= i < |rest| ensures rest[i].product.productId != items[n].product.productId {
          assert rest[i] in init;
          var k :| 0 <= k < n && init[k] == rest[i];
        }
      }
    }
  }
}

/** The plain shopping cart of the model layer: an append-only list of lines, without
    any validation or merging. */
module Carts {
  import opened Products

  /** `CartItem(product, quantity)`: stores any quantity, zero and negative ones included. */
  datatype CartItem = CartItem(product: Product, quantity: int)

  class ShoppingCart {
    var items: seq<CartItem>

    constructor ()
      ensures items == []
    {
      items := [];
    }

    /** `add_item`: appends one line at the end and never merges with an earlier line for
        the same product, so adding a product twice gives two lines. */
    method AddItem(product: Product, quantity: int)
      modifies this`items
      ensures |items| == |old(items)| + 1
      ensures items[..|old(items)|] == old(items)
      ensures items[|old(items)|] == CartItem(product, quantity)
    {
      items := items + [CartItem(product, quantity)];
    }
  }
}

/** Products and categories. A product's price can change after creation, and the same
    product object is shared by every holder, so `Product` is a class. */
module Products {
  import opened Common

  /** A price the `price` setter accepts. Every `price` assignment in the source goes
      through that setter, so this type states the invariant: a price is never negative. */
  type Price = r: real | r >= 0.0

  class Product {
    const productId: int
    const name: string
    var price: Price

    /** Allocation of a product whose price has already passed the setter's check. */
    constructor (productId: int, name: string, price: Price)
      ensures this.productId == productId && this.name == name && this.price == price
    {
      this.productId := productId;
      this.name := name;
      this.price := price;
    }

    /** `Product(product_id, name, price)`: the constructor assigns through the price
        setter, so a negative price makes construction fail. */
    static method New(productId: int, name: string, price: real) returns (r: Result<Product>)
      ensures r.Err? <==> price < 0.0
      ensures r.Err? ==> r.error == NegativePrice
      ensures r.Ok? ==> fresh(r.value)
      ensures r.Ok? ==> r.value.productId == productId && r.value.name == name && r.value.price == price
    {
      if price < 0.0 {
        return Err(NegativePrice);
      }
      var p := new Product(productId, name, price);
      return Ok(p);
    }

    /** The `price` setter: a negative value fails and keeps the old price. */
    method SetPrice(value: real) returns (r: Outcome)
      modifies this`price
      ensures r.Fail? <==> value < 0.0
      ensures r.Fail? ==> r.error == NegativePrice && price == old(price)
      ensures r.Pass? ==> price == value
    {
      if value < 0.0 {
        return Fail(NegativePrice);
      }
      price := value;
      return Pass;
    }
  }

  class Category {
    const name: string
    var products: seq<Product>

    /** The product list never holds the same product twice. */
    ghost predicate Valid()
      reads this
    {
      NoDuplicates(products)
    }

    constructor (name: string)
      ensures Valid() && this.name == name && products == []
    {
      this.name := name;
      products := [];
    }

    /** `add_product`: appends the product unless it is already listed. */
    method AddProduct(product: Product)
      requires Valid()
      modifies this`products
      ensures Valid()
      ensures product in products
      ensures products == if product in old(products) then old(products) else old(products) + [product]
    {
      if product !in products {
        products := products + [product];
      }
    }

    /** `remove_product`: removes the product when listed, else changes nothing. */
    method RemoveProduct(product: Product)
      requires Valid()
      modifies this`products
      ensures Valid()
      ensures product !in products
      ensures products == RemoveFirst(old(products), product)
    {
      if product in products {
        RemoveFirstKeepsNoDuplicates(products, product);
        products := RemoveFirst(products, product);
      }
    }
  }

  /** The position of the first occurrence of `x`. */
  function IndexOf<T(==)>(s: seq<T>, x: T): (i: nat)
    requires x in s
    ensures i < |s| && s[i] == x && x !in s[..i]
  {
    if s[0] == x then 0
    else
      assert x in s[1..];
      var j := IndexOf(s[1..], x);
      assert s[..j + 1] == [s[0]] + s[1..][..j];
      j + 1
  }

  /** `list.remove(x)` when `x` is listed: drops its first occurrence, keeping the rest in
      order; otherwise the list is unchanged. */
  function RemoveFirst<T(==)>(s: seq<T>, x: T): (r: seq<T>)
  {
    if x in s then s[..IndexOf(s, x)] + s[IndexOf(s, x) + 1..] else s
  }

  /** Removing a listed element from a duplicate-free list leaves a duplicate-free list
      without it, one shorter, with the others in their old relative order. */
  lemma {:induction false} RemoveFirstKeepsNoDuplicates<T>(s: seq<T>, x: T)
    requires NoDuplicates(s) && x in s
    ensures NoDuplicates(RemoveFirst(s, x)) && x !in RemoveFirst(s, x)
    ensures |RemoveFirst(s, x)| == |s| - 1
  {
    var i := IndexOf(s, x);
    var r := RemoveFirst(s, x);
    assert r == s[..i] + s[i + 1..];
    forall a, b | 0 <= a < b < |r| ensures r[a] != r[b] {
      RemovedAt(s, i, a);
      RemovedAt(s, i, b);
    }
    forall k | 0 <= k < |r| ensures r[k] != x {
      RemovedAt(s, i, k);
    }
  }

  lemma RemovedAt<T>(s: seq<T>, i: nat, k: nat)
    requires i < |s| && k < |s| - 1
    ensures (s[..i] + s[i + 1..])[k] == s[if k < i then k else k + 1]
  {
  }
}

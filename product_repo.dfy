/** The product store: products keyed by their id. A new product under an existing id
    silently replaces the old one. */
module ProductRepos {
  import opened Common
  import opened Dicts
  import opened Products

  class ProductRepository {
    var products: Dict<int, Product>

    /** Each product is stored under its own id. */
    ghost predicate Valid()
      reads this
    {
      products.Valid() &&
      forall id | id in products.entries :: products.entries[id].productId == id
    }

    constructor ()
      ensures Valid() && products == Empty()
    {
      products := Empty();
    }

    /** The stored product with this id, as a frame. */
    function Lookup(productId: int): set<Product>
      reads this
    {
      if productId in products.entries then {products.entries[productId]} else {}
    }

    /** `create(product_id, name, price)`: builds a product (failing, with nothing stored,
        on a negative price) and stores it, so that `get_by_id` then returns it. */
    method Create(productId: int, name: string, price: real) returns (r: Result<Product>)
      requires Valid()
      modifies this`products
      ensures Valid()
      ensures r.Err? <==> price < 0.0
      ensures r.Err? ==> r.error == NegativePrice && products == old(products)
      ensures r.Ok? ==> fresh(r.value)
      ensures r.Ok? ==> r.value.productId == productId && r.value.name == name && r.value.price == price
      ensures r.Ok? ==> products == old(products).Put(productId, r.value)
      ensures r.Ok? ==> GetById(productId) == Some(r.value)
    {
      r := Product.New(productId, name, price);
      if r.Ok? {
        Add(r.value);
      }
    }

    /** `add(product)`: stores the product under its id, replacing any product there. */
    method Add(product: Product)
      requires Valid()
      modifies this`products
      ensures Valid()
      ensures products == old(products).Put(product.productId, product)
      ensures GetById(product.productId) == Some(product)
    {
      products := products.Put(product.productId, product);
    }

    /** `get_by_id(product_id)`: the stored product, or `None`. */
    function GetById(productId: int): (r: Option<Product>)
      reads this
      ensures r.Some? <==> productId in products.entries
      ensures r.Some? ==> r.value == products.entries[productId]
    {
      products.Get(productId)
    }

    /** `get_all()`: the stored products in insertion order, one per id. */
    function GetAll(): (all: seq<Product>)
      requires Valid()
      reads this
      ensures |all| == |products.entries| == |products.keys|
      ensures forall i | 0 <= i < |all| :: all[i] == products.entries[products.keys[i]]
      ensures forall id | id in products.entries :: products.entries[id] in all
      ensures forall p | p in all :: p in products.entries.Values
    {
      products.ValuesAreEntries();
      products.Values()
    }

    /** `update(product)`: fails, changing nothing, when no product has its id; otherwise
        replaces only that entry. */
    method Update(product: Product) returns (r: Outcome)
      requires Valid()
      modifies this`products
      ensures Valid()
      ensures product.productId !in old(products.entries) ==>
        r == Fail(ProductNotFound(product.productId)) && products == old(products)
      ensures product.productId in old(products.entries) ==>
        r == Pass && products == old(products).Put(product.productId, product)
    {
      if product.productId !in products.entries {
        return Fail(ProductNotFound(product.productId));
      }
      products := products.Put(product.productId, product);
      return Pass;
    }

    /** `delete(product_id)`: fails for an unknown id; otherwise removes that entry, so
        `get_all` shrinks by one and `get_by_id` returns `None`. */
    method Delete(productId: int) returns (r: Outcome)
      requires Valid()
      modifies this`products
      ensures Valid()
      ensures productId !in old(products.entries) ==>
        r == Fail(ProductNotFound(productId)) && products == old(products)
      ensures productId in old(products.entries) ==>
        r == Pass && products == old(products).Remove(productId)
      ensures productId in old(products.entries) ==> |GetAll()| == |old(GetAll())| - 1
      ensures GetById(productId) == None
    {
      if productId !in products.entries {
        return Fail(ProductNotFound(productId));
      }
      products := products.Remove(productId);
      return Pass;
    }
  }
}

/** Product use cases over the product store. */
module ProductServices {
  import opened Common
  import opened Products
  import opened Schemas
  import opened ProductRepos

  class ProductService {
    const repository: ProductRepository

    ghost predicate Valid()
      reads this, repository
    {
      repository.Valid()
    }

    constructor (repository: ProductRepository)
      requires repository.Valid()
      ensures Valid()
      ensures this.repository == repository
    {
      this.repository := repository;
    }

    /** `create_product(dto)`: a negative price fails with nothing stored (zero is
        allowed); otherwise a new product with the DTO's id, name and price is stored
        under its id, replacing any product there, and the DTO is given back. */
    method CreateProduct(dto: ProductDTO) returns (r: Result<ProductDTO>)
      requires Valid()
      modifies repository`products
      ensures Valid()
      ensures dto.price < 0.0 ==> r == Err(NegativePrice) && repository.products == old(repository.products)
      ensures dto.price >= 0.0 ==> r == Ok(dto)
      ensures dto.price >= 0.0 ==> dto.productId in repository.products.entries
      ensures dto.price >= 0.0 ==>
        var stored := repository.products.entries[dto.productId];
        fresh(stored) && repository.products == old(repository.products).Put(dto.productId, stored)
      ensures dto.price >= 0.0 ==> GetProduct(dto.productId) == Some(dto)
    {
      if dto.price < 0.0 {
        return Err(NegativePrice);
      }
      var created := repository.Create(dto.productId, dto.name, dto.price);
      match created
      case Err(e) =>
        r := Err(e);
      case Ok(product) =>
        r := Ok(ProductDTO.FromModel(product));
    }

    /** `get_product(product_id)`: a DTO of the stored product, or `None` for an unknown id. */
    function GetProduct(productId: int): (r: Option<ProductDTO>)
      reads this, repository, repository.Lookup(productId)
      ensures r.None? <==> productId !in repository.products.entries
      ensures r.Some? ==> r.value == ProductDTO.FromModel(repository.products.entries[productId])
    {
      match repository.GetById(productId)
      case None => None
      case Some(product) => Some(ProductDTO.FromModel(product))
    }

    /** `update_price(product_id, new_price)`: a negative price fails before the id is
        looked up, then an unknown id fails; on either error nothing changes. Otherwise
        only that product's price changes (every other object is outside the frame). */
    method UpdatePrice(productId: int, newPrice: real) returns (r: Outcome)
      requires Valid()
      modifies repository`products, repository.Lookup(productId)
      ensures Valid() && repository.products == old(repository.products)
      ensures newPrice < 0.0 ==> r == Fail(NegativePrice)
      ensures newPrice >= 0.0 && productId !in old(repository.products.entries) ==>
        r == Fail(ProductNotFound(productId))
      ensures productId in old(repository.products.entries) ==>
        var product := repository.products.entries[productId];
        product.price == if newPrice < 0.0 then old(product.price) else newPrice
      ensures newPrice >= 0.0 && productId in old(repository.products.entries) ==> r == Pass
    {
      if newPrice < 0.0 {
        return Fail(NegativePrice);
      }
      var found := repository.GetById(productId);
      if found.None? {
        return Fail(ProductNotFound(productId));
      }
      var product := found.value;
      var outcome := product.SetPrice(newPrice);
      repository.products.PutExisting(productId);
      r := repository.Update(product);
    }

    /** `delete_product(product_id)`: fails, changing nothing, for an unknown id;
        otherwise removes it, after which `get_product` returns `None`. */
    method DeleteProduct(productId: int) returns (r: Outcome)
      requires Valid()
      modifies repository`products
      ensures Valid()
      ensures productId !in old(repository.products.entries) ==>
        r == Fail(ProductNotFound(productId)) && repository.products == old(repository.products)
      ensures productId in old(repository.products.entries) ==>
        r == Pass && repository.products == old(repository.products).Remove(productId)
      ensures GetProduct(productId) == None
    {
      var found := repository.GetById(productId);
      if found.None? {
        return Fail(ProductNotFound(productId));
      }
      r := repository.Delete(productId);
    }
  }
}

/** The stock store: a warehouse ledger behind a repository interface. */
module WarehouseRepos {
  import opened Common
  import opened Products
  import opened Orders

  class WarehouseRepository {
    const warehouse: Warehouse

    ghost predicate Valid()
      reads this, warehouse
    {
      warehouse.Valid()
    }

    constructor ()
      ensures Valid() && fresh(warehouse) && warehouse.stock == map[]
    {
      warehouse := new Warehouse();
    }

    /** `get_stock(product)`: 0 for a product never stocked, and never negative. */
    function GetStock(product: Product): (n: int)
      requires Valid()
      reads this, warehouse
      ensures n >= 0
      ensures product !in warehouse.stock ==> n == 0
      ensures product in warehouse.stock ==> n == warehouse.stock[product]
    {
      warehouse.StockOf(product)
    }

    /** `check_availability(product, quantity)`: whether `remove_stock` of that quantity
        would not run short. Stock never being negative, a quantity of 0 or less is always
        available, and a product never stocked has nothing positive available. */
    predicate CheckAvailability(product: Product, quantity: int)
      requires Valid()
      reads this, warehouse
      ensures quantity <= 0 ==> CheckAvailability(product, quantity)
      ensures product !in warehouse.stock ==> (CheckAvailability(product, quantity) <==> quantity <= 0)
      ensures CheckAvailability(product, quantity) <==> quantity <= warehouse.StockOf(product)
    {
      GetStock(product) >= quantity
    }

    /** `add_stock`: the warehouse's own errors and effect; on success the product's stock
        has grown by the quantity, so that quantity is then available. */
    method AddStock(product: Product, quantity: int) returns (r: Outcome)
      requires Valid()
      modifies warehouse
      ensures Valid()
      ensures quantity <= 0 ==> r == Fail(NonPositiveQuantity) && warehouse.stock == old(warehouse.stock)
      ensures quantity > 0 ==> r == Pass && GetStock(product) == old(GetStock(product)) + quantity
      ensures quantity > 0 ==> CheckAvailability(product, quantity)
      ensures quantity > 0 ==> warehouse.stock == old(warehouse.stock)[product := GetStock(product)]
    {
      r := warehouse.AddStock(product, quantity);
    }

    /** `remove_stock`: the warehouse's own errors (nothing changes on either) and effect. */
    method RemoveStock(product: Product, quantity: int) returns (r: Outcome)
      requires Valid()
      modifies warehouse
      ensures Valid()
      ensures quantity <= 0 ==> r == Fail(NonPositiveQuantity) && warehouse.stock == old(warehouse.stock)
      ensures quantity > 0 && !old(CheckAvailability(product, quantity)) ==>
        r == Fail(InsufficientStock(old(GetStock(product)), quantity)) && warehouse.stock == old(warehouse.stock)
      ensures quantity > 0 && old(CheckAvailability(product, quantity)) ==>
        r == Pass && GetStock(product) == old(GetStock(product)) - quantity
      ensures quantity > 0 && old(CheckAvailability(product, quantity)) ==>
        warehouse.stock == old(warehouse.stock)[product := GetStock(product)]
    {
      r := warehouse.RemoveStock(product, quantity);
    }
  }
}

/** The inventory adapter: turns a product's WooCommerce stock settings into the Commerce
    Inventory data object. Commerce cannot express "inventory not tracked, yet out of stock", so
    that case is sent as tracked with a zero quantity, and tracking is always on when the
    product is backorderable. Quantities are kept as real numbers; the model does no arithmetic
    on them. */
module InventoryAdapter {
  import opened Php

  /** The stock settings the adapter reads from a product: its stock status, whether stock
      management is enabled, its backorders setting and its current stock (null when unset). */
  datatype StockSettings = StockSettings(
    stockStatus: string,
    stockManaged: bool,
    backordersAllowed: string,
    currentStock: Option<real>)

  /** The Commerce Inventory data object. */
  datatype Inventory = Inventory(backorderable: bool, externalService: bool, quantity: Option<real>, tracking: bool)

  /** The stock statuses that mean "not in stock". */
  predicate NotInStock(status: string) {
    status == "onbackorder" || status == "outofstock"
  }

  /** `convertToSource`; None stands for a null product and a null result. */
  function ConvertToSource(product: Option<StockSettings>): Option<Inventory> {
    if product.None? then None
    else
      var p := product.value;
      var backorderable := p.backordersAllowed == "yes" || p.stockStatus == "onbackorder";
      Some(Inventory(
        backorderable := backorderable,
        externalService := p.stockManaged,
        quantity := if !p.stockManaged && NotInStock(p.stockStatus) then Some(0.0) else p.currentStock,
        tracking := p.stockManaged || NotInStock(p.stockStatus) || backorderable))
  }

  /** A product gives an inventory and a null product gives null. */
  lemma ConvertToSourceNullExactly(product: Option<StockSettings>)
    ensures ConvertToSource(product).Some? <==> product.Some?
  {
  }

  /** Tracking is on whenever the product is backorderable; and the product is backorderable
      exactly when it allows backorders or is on backorder. */
  lemma BackorderableIsTracked(p: StockSettings)
    ensures ConvertToSource(Some(p)).value.backorderable ==> ConvertToSource(Some(p)).value.tracking
    ensures ConvertToSource(Some(p)).value.backorderable <==>
      (p.backordersAllowed == "yes" || p.stockStatus == "onbackorder")
  {
  }

  /** An unmanaged product that is out of stock or on backorder is sent as tracked with zero
      quantity. */
  lemma UnmanagedOutOfStockIsTrackedAtZero(p: StockSettings)
    requires !p.stockManaged && NotInStock(p.stockStatus)
    ensures ConvertToSource(Some(p)).value.tracking
    ensures ConvertToSource(Some(p)).value.quantity == Some(0.0)
    ensures !ConvertToSource(Some(p)).value.externalService
  {
  }

  /** A product with stock management is tracked by the external service with its own current
      stock. */
  lemma ManagedStockIsPassedThrough(p: StockSettings)
    requires p.stockManaged
    ensures ConvertToSource(Some(p)) ==
      Some(Inventory(p.backordersAllowed == "yes" || p.stockStatus == "onbackorder", true, p.currentStock, true))
  {
  }

  /** Tracking is off exactly for an unmanaged, in-stock product that does not allow
      backorders. */
  lemma UntrackedExactly(p: StockSettings)
    ensures !ConvertToSource(Some(p)).value.tracking <==>
      !p.stockManaged && !NotInStock(p.stockStatus) && p.backordersAllowed != "yes"
  {
  }
}

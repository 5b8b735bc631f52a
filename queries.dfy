/** The read-only queries of backend/core/views.py: the search of each list view, the
    status filter of the order list, and the stock-level check. Each returns the keys
    of the matching rows in table order. */
module Queries {
  import opened Results
  import opened Text
  import opened Models
  import opened Forms

  predicate Increasing(ids: seq<Id>) {
    forall i, j :: 0 <= i < j < |ids| ==> ids[i] < ids[j]
  }

  /** Every key of a table of `count` rows (an unfiltered `.all()`). */
  function AllIds(count: nat): (r: seq<Id>)
    ensures |r| == count && Increasing(r)
    ensures forall id :: id in r <==> IsRef(count, id)
  {
    var r := seq(count, i requires 0 <= i < count => i + 1);
    assert forall id :: IsRef(count, id) ==> r[id - 1] == id;
    r
  }

  /** The keys of the rows of `table` that satisfy `keep` (a queryset `.filter`). */
  function Select<T>(table: seq<T>, keep: T -> bool): (r: seq<Id>)
    ensures Increasing(r)
    ensures forall k :: 0 <= k < |r| ==> IsRef(|table|, r[k])
    ensures forall id :: id in r <==> IsRef(|table|, id) && keep(table[id - 1])
    decreases |table|
  {
    if table == [] then []
    else
      var front := table[..|table| - 1];
      var earlier := Select(front, keep);
      assert forall id :: IsRef(|front|, id) ==> front[id - 1] == table[id - 1];
      if keep(table[|table| - 1]) then earlier + [|table|] else earlier
  }

  /** `list_products`: an empty search lists every product, any other keeps the
      products whose name contains it, ignoring case. */
  function ListProducts(products: seq<Product>, search: string): (r: seq<Id>)
    ensures Increasing(r)
    ensures forall id :: id in r <==>
              IsRef(|products|, id) && (search == "" || ContainsIgnoreCase(products[id - 1].name, search))
    ensures search == "" ==> r == AllIds(|products|)
  {
    if search != "" then Select(products, (p: Product) => ContainsIgnoreCase(p.name, search))
    else AllIds(|products|)
  }

  /** `list_suppliers`: a supplier matches when its name OR its email contains the
      search, ignoring case. */
  function ListSuppliers(suppliers: seq<Supplier>, search: string): (r: seq<Id>)
    ensures Increasing(r)
    ensures forall id :: id in r <==>
              IsRef(|suppliers|, id) &&
              (search == "" || ContainsIgnoreCase(suppliers[id - 1].name, search)
                            || ContainsIgnoreCase(suppliers[id - 1].email, search))
    ensures search == "" ==> r == AllIds(|suppliers|)
  {
    if search != "" then
      Select(suppliers, (s: Supplier) => ContainsIgnoreCase(s.name, search) || ContainsIgnoreCase(s.email, search))
    else AllIds(|suppliers|)
  }

  /** The name of the product a movement references (a join through the foreign key). */
  predicate MovementNameMatches(products: seq<Product>, m: StockMovement, search: string) {
    IsRef(|products|, m.product) && ContainsIgnoreCase(products[m.product - 1].name, search)
  }

  /** `list_stock_movements`: a movement matches when its product's name contains the
      search, ignoring case. */
  function ListStockMovements(products: seq<Product>, ledger: seq<StockMovement>, search: string): (r: seq<Id>)
    ensures Increasing(r)
    ensures forall id :: id in r <==>
              IsRef(|ledger|, id) && (search == "" || MovementNameMatches(products, ledger[id - 1], search))
    ensures search == "" ==> r == AllIds(|ledger|)
  {
    if search != "" then Select(ledger, (m: StockMovement) => MovementNameMatches(products, m, search))
    else AllIds(|ledger|)
  }

  /** `list_sale_orders`: "All" lists every order; any other value keeps the orders
      whose status is exactly that value (so an unknown value lists none). */
  function ListSaleOrders(orders: seq<SaleOrder>, status: string): (r: seq<Id>)
    ensures Increasing(r)
    ensures forall id :: id in r <==> IsRef(|orders|, id) && (status == "All" || StatusName(orders[id - 1].status) == status)
    ensures status == "All" ==> r == AllIds(|orders|)
  {
    if status == "All" then AllIds(|orders|)
    else Select(orders, (o: SaleOrder) => StatusName(o.status) == status)
  }

  /** Every criterion of a valid stock-level form that the product meets; an empty
      name and an absent supplier or minimum are no criterion. */
  predicate MeetsStockLevel(p: Product, f: StockLevelFilter) {
    && (f.name == "" || ContainsIgnoreCase(p.name, f.name))
    && (f.supplier.None? || p.supplier == f.supplier.value)
    && (f.minStock.None? || p.stockQuantity >= f.minStock.value)
  }

  /** `stock_level_check`: `request` is the submitted form, absent for a GET. A GET or
      an invalid form shows every product; a valid form shows exactly the products
      meeting all of its criteria. */
  function StockLevelCheck(suppliers: seq<Supplier>, products: seq<Product>, request: Option<StockLevelFilter>)
    : (r: seq<Id>)
    ensures Increasing(r)
    ensures request.None? || StockLevelFormErrors(suppliers, request.value) != [] ==> r == AllIds(|products|)
    ensures request.Some? && StockLevelFormErrors(suppliers, request.value) == [] ==>
              forall id :: id in r <==>
                && IsRef(|products|, id)
                && (request.value.name == "" || ContainsIgnoreCase(products[id - 1].name, request.value.name))
                && (request.value.supplier.None? || products[id - 1].supplier == request.value.supplier.value)
                && (request.value.minStock.None? || products[id - 1].stockQuantity >= request.value.minStock.value)
  {
    match request
    case None => AllIds(|products|)
    case Some(f) =>
      if StockLevelFormErrors(suppliers, f) != [] then AllIds(|products|)
      else Select(products, (p: Product) => MeetsStockLevel(p, f))
  }

  /** The minimum-stock criterion on its own: with only `min_stock` given, the check
      returns exactly the products holding at least that much. */
  lemma MinStockAlone(suppliers: seq<Supplier>, products: seq<Product>, n: nat)
    ensures forall id :: id in StockLevelCheck(suppliers, products, Some(StockLevelFilter("", None, Some(n)))) <==>
              IsRef(|products|, id) && products[id - 1].stockQuantity >= n
  {
  }
}

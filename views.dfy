/** The state-changing handlers of backend/core/views.py over an in-memory store:
    adding a supplier or a product, recording a stock movement, and creating,
    cancelling and completing a sale order. Each handler is one atomic step; a
    rejected submission or a refused transition leaves the store as it was. */
module Views {
  import opened Results
  import opened Text
  import opened Models
  import opened Forms

  /** How a form handler ends: the key of the row it stored, or the form shown again
      with its errors. */
  datatype Submission = Created(id: Id) | Rejected(errors: seq<FieldError>)

  /** How an order transition ends: success, the warning for an order that is no
      longer Pending, or a 404 for a key that names no order. */
  datatype Transition = Applied | NotPending | NotFound

  const InsufficientStockForProduct := "Insufficient stock for this product."
  const SaleOrderNotePrefix := "Sale Order #"
  const CancelledNotePrefix := "Cancelled Sale Order #"

  /** The note of the "Out" movement recorded when order `id` is created. */
  function SaleOrderNote(id: Id): string {
    SaleOrderNotePrefix + NatToDecimal(id)
  }

  /** The note of the "In" movement recorded when order `id` is cancelled. */
  function CancelledNote(id: Id): string {
    CancelledNotePrefix + NatToDecimal(id)
  }

  /** The note of a new order's movement names that order: after the prefix it
      reads back as the order's key. */
  lemma SaleOrderNoteNamesOrder(id: Id)
    ensures StartsWith(SaleOrderNote(id), SaleOrderNotePrefix)
    ensures var digits := SaleOrderNote(id)[|SaleOrderNotePrefix|..];
            IsDigits(digits) && DecimalValue(digits) == id
  {
    assert SaleOrderNote(id)[|SaleOrderNotePrefix|..] == NatToDecimal(id);
    DecimalRoundTrip(id);
  }

  /** Two different orders never share a creation note. */
  lemma SaleOrderNotesDistinct(a: Id, b: Id)
    requires a != b
    ensures SaleOrderNote(a) != SaleOrderNote(b)
  {
    SaleOrderNoteNamesOrder(a);
    SaleOrderNoteNamesOrder(b);
  }

  /** The note of a cancellation's movement names the cancelled order: after the
      prefix it reads back as the order's key. */
  lemma CancelledNoteNamesOrder(id: Id)
    ensures StartsWith(CancelledNote(id), CancelledNotePrefix)
    ensures var digits := CancelledNote(id)[|CancelledNotePrefix|..];
            IsDigits(digits) && DecimalValue(digits) == id
  {
    assert CancelledNote(id)[|CancelledNotePrefix|..] == NatToDecimal(id);
    DecimalRoundTrip(id);
  }

  class Store {
    var suppliers: seq<Supplier>
    var products: seq<Product>
    var movements: seq<StockMovement>
    var orders: seq<SaleOrder>
    /** The stock each product was created with, before any ledger entry. */
    ghost var opening: seq<int>

    /** Per product, its stock minus the net sum of its ledger entries. */
    ghost function Drift(): (d: seq<int>)
      reads this
      ensures |d| == |products|
    {
      seq(|products|, i requires 0 <= i < |products| reads this => products[i].stockQuantity - Net(movements, i + 1))
    }

    /** The store invariants, and: each product's stock is its opening stock plus the
        net sum of its ledger entries. */
    ghost predicate Valid()
      reads this
    {
      && StoreValid(suppliers, products, movements, orders)
      && Drift() == opening
    }

    constructor ()
      ensures Valid()
      ensures suppliers == [] && products == [] && movements == [] && orders == []
    {
      suppliers, products, movements, orders := [], [], [], [];
      opening := [];
    }

    /** `add_supplier`: a valid supplier form appends the supplier. */
    method AddSupplier(f: SupplierInput) returns (r: Submission)
      requires Valid()
      modifies this
      ensures Valid()
      ensures var errs := SupplierFormErrors(old(suppliers), f);
              if errs != [] then r == Rejected(errs) && unchanged(this)
              else r == Created(|old(suppliers)| + 1) &&
                   suppliers == old(suppliers) + [Supplier(f.name, f.email, f.phone, f.address)]
      ensures products == old(products) && movements == old(movements) && orders == old(orders)
      ensures opening == old(opening)
    {
      var errs := SupplierFormErrors(suppliers, f);
      if errs != [] {
        return Rejected(errs);
      }
      suppliers := suppliers + [Supplier(f.name, f.email, f.phone, f.address)];
      r := Created(|suppliers|);
    }

    /** `add_product`: a valid product form appends the product with the stock it
        was given; it has no ledger entries yet. */
    method AddProduct(f: ProductInput) returns (r: Submission)
      requires Valid()
      modifies this
      ensures Valid()
      ensures var errs := ProductFormErrors(old(suppliers), old(products), f);
              if errs != [] then r == Rejected(errs) && unchanged(this)
              else
                var p := Product(f.name, f.description, f.category, f.price.value, f.stockQuantity.value, f.supplier.value);
                && r == Created(|old(products)| + 1)
                && products == old(products) + [p]
                && opening == old(opening) + [p.stockQuantity]
      ensures suppliers == old(suppliers) && movements == old(movements) && orders == old(orders)
    {
      var errs := ProductFormErrors(suppliers, products, f);
      if errs != [] {
        return Rejected(errs);
      }
      var p := Product(f.name, f.description, f.category, f.price.value, f.stockQuantity.value, f.supplier.value);
      NetUnreferenced(movements, |products| + 1);
      products := products + [p];
      opening := opening + [p.stockQuantity];
      r := Created(|products|);
    }

    /** `add_stock_movement`: a valid movement form changes that product's stock by
        the movement's signed quantity and appends the movement. */
    method AddStockMovement(product: Option<int>, movementType: string, quantity: Option<int>, notes: string)
      returns (r: Submission)
      requires Valid()
      modifies this
      ensures Valid()
      ensures Drift() == old(Drift())
      ensures var errs := StockMovementFormErrors(old(products), product, movementType, quantity);
              if errs != [] then r == Rejected(errs) && unchanged(this)
              else
                var pid, t, q := product.value, ParseMovementType(movementType).value, quantity.value;
                var p := old(products)[pid - 1];
                && r == Created(|old(movements)| + 1)
                && products == old(products)[pid - 1 := p.(stockQuantity := p.stockQuantity + Signed(t, q))]
                && movements == old(movements) + [StockMovement(pid, q, t, notes)]
                && suppliers == old(suppliers) && orders == old(orders) && opening == old(opening)
    {
      var errs := StockMovementFormErrors(products, product, movementType, quantity);
      if errs != [] {
        return Rejected(errs);
      }
      var pid, t, q := product.value, ParseMovementType(movementType).value, quantity.value;
      var m := StockMovement(pid, q, t, notes);
      Record(pid, m);
      r := Created(|movements|);
    }

    /** Applies `m`'s signed quantity to product `pid` and appends `m` to the ledger:
        the step the three stock-changing handlers share. */
    method Record(pid: Id, m: StockMovement)
      requires Valid()
      requires IsRef(|products|, pid) && m.product == pid && m.quantity >= 1
      requires products[pid - 1].stockQuantity + Signed(m.movementType, m.quantity) >= 0
      modifies this`products, this`movements
      ensures StoreValid(suppliers, products, movements, orders)
      ensures Drift() == old(Drift()) && Valid()
      ensures products == old(products)[pid - 1 := old(products)[pid - 1].(stockQuantity :=
                old(products)[pid - 1].stockQuantity + Signed(m.movementType, m.quantity))]
      ensures movements == old(movements) + [m]
    {
      var p := products[pid - 1];
      forall id: Id
        ensures Net(movements + [m], id) == Net(movements, id) + Delta(m, id)
      {
        NetAppend(movements, m, id);
      }
      products := products[pid - 1 := p.(stockQuantity := p.stockQuantity + Signed(m.movementType, m.quantity))];
      movements := movements + [m];
    }

    /** `create_sale_order`: a valid order form for no more than the product holds
        appends a Pending order priced at `price * quantity`, takes the quantity out of
        stock and records the matching "Out" movement. Asking for more than the
        product holds is refused on `quantity`. */
    method CreateSaleOrder(product: Option<int>, quantity: Option<int>) returns (r: Submission)
      requires Valid()
      modifies this
      ensures Valid()
      ensures Drift() == old(Drift())
      ensures var errs := SaleOrderFormErrors(old(products), product, quantity);
              if errs != [] then r == Rejected(errs) && unchanged(this)
              else
                var pid, q := product.value, quantity.value;
                var p := old(products)[pid - 1];
                if p.stockQuantity < q then
                  r == Rejected([FieldError("quantity", Message(InsufficientStockForProduct))]) && unchanged(this)
                else
                  var id := |old(orders)| + 1;
                  && r == Created(id)
                  && orders == old(orders) + [SaleOrder(pid, q, p.price * q, Pending)]
                  && products == old(products)[pid - 1 := p.(stockQuantity := p.stockQuantity - q)]
                  && movements == old(movements) + [StockMovement(pid, q, Out, SaleOrderNote(id))]
                  && suppliers == old(suppliers) && opening == old(opening)
    {
      var errs := SaleOrderFormErrors(products, product, quantity);
      if errs != [] {
        return Rejected(errs);
      }
      var pid, q := product.value, quantity.value;
      var p := products[pid - 1];
      if p.stockQuantity < q {
        return Rejected([FieldError("quantity", Message(InsufficientStockForProduct))]);
      }
      orders := orders + [SaleOrder(pid, q, p.price * q, Pending)];
      var id := |orders|;
      Record(pid, StockMovement(pid, q, Out, SaleOrderNote(id)));
      r := Created(id);
    }

    /** `cancel_sale_order`: a Pending order becomes Cancelled, its quantity goes back
        into stock and the matching "In" movement is recorded. Any other order, or an
        unknown key, changes nothing. */
    method CancelSaleOrder(orderId: int) returns (r: Transition)
      requires Valid()
      modifies this
      ensures Valid()
      ensures Drift() == old(Drift())
      ensures r == NotFound <==> !IsRef(|old(orders)|, orderId)
      ensures r == NotPending <==> IsRef(|old(orders)|, orderId) && old(orders)[orderId - 1].status != Pending
      ensures r != Applied ==> unchanged(this)
      ensures r == Applied ==>
                var o := old(orders)[orderId - 1];
                var p := old(products)[o.product - 1];
                && orders == old(orders)[orderId - 1 := o.(status := Cancelled)]
                && products == old(products)[o.product - 1 := p.(stockQuantity := p.stockQuantity + o.quantity)]
                && movements == old(movements) + [StockMovement(o.product, o.quantity, In, CancelledNote(orderId))]
                && suppliers == old(suppliers) && opening == old(opening)
    {
      if !IsRef(|orders|, orderId) {
        return NotFound;
      }
      var o := orders[orderId - 1];
      if o.status != Pending {
        return NotPending;
      }
      orders := orders[orderId - 1 := o.(status := Cancelled)];
      Record(o.product, StockMovement(o.product, o.quantity, In, CancelledNote(orderId)));
      r := Applied;
    }

    /** `complete_sale_order`: a Pending order becomes Completed; stock and ledger are
        untouched (the stock left at creation). Any other order, or an unknown key,
        changes nothing. */
    method CompleteSaleOrder(orderId: int) returns (r: Transition)
      requires Valid()
      modifies this
      ensures Valid()
      ensures r == NotFound <==> !IsRef(|old(orders)|, orderId)
      ensures r == NotPending <==> IsRef(|old(orders)|, orderId) && old(orders)[orderId - 1].status != Pending
      ensures r != Applied ==> unchanged(this)
      ensures r == Applied ==> orders == old(orders)[orderId - 1 := old(orders)[orderId - 1].(status := Completed)]
      ensures products == old(products) && movements == old(movements)
      ensures suppliers == old(suppliers) && opening == old(opening)
    {
      if !IsRef(|orders|, orderId) {
        return NotFound;
      }
      var o := orders[orderId - 1];
      if o.status != Pending {
        return NotPending;
      }
      orders := orders[orderId - 1 := o.(status := Completed)];
      r := Applied;
    }
  }

  /** Creating an order and then cancelling it gives every product back the stock it
      had, leaves the new order Cancelled and the ledger one "Out" and one matching
      "In" entry longer. */
  method CreateThenCancel(s: Store, product: Option<int>, quantity: Option<int>) returns (id: Option<Id>)
    requires s.Valid()
    modifies s
    ensures s.Valid()
    ensures id.Some? <==>
              && SaleOrderFormErrors(old(s.products), product, quantity) == []
              && quantity.value <= old(s.products)[product.value - 1].stockQuantity
    ensures id.None? ==> unchanged(s)
    ensures s.suppliers == old(s.suppliers) && s.opening == old(s.opening)
    ensures id.Some? ==> id.value == |old(s.orders)| + 1
    ensures id.Some? ==>
              && s.products == old(s.products)
              && s.orders == old(s.orders) + [SaleOrder(product.value, quantity.value,
                                                        old(s.products)[product.value - 1].price * quantity.value, Cancelled)]
              && s.movements == old(s.movements) + [StockMovement(product.value, quantity.value, Out, SaleOrderNote(id.value)),
                                                   StockMovement(product.value, quantity.value, In, CancelledNote(id.value))]
  {
    var created := s.CreateSaleOrder(product, quantity);
    if created.Rejected? {
      return None;
    }
    var cancelled := s.CancelSaleOrder(created.id);
    assert cancelled == Applied;
    id := Some(created.id);
  }
}

/** The record shapes of backend/core/models.py, the stock ledger sum, and the
    invariants the store keeps (uniqueness, field bounds, foreign keys). */
module Models {
  import opened Results
  import opened Text

  /** A primary key. The model assumes keys 1, 2, ... with no gaps, since no handler
      deletes a row or fails an insert, so the row with key k is the k-th row. */
  type Id = nat

  /** A `DecimalField(max_digits=10, decimal_places=2)` value, in hundredths. */
  type Cents = int

  /** Ten digits of which two are decimals: the magnitude in cents stays below 10^10. */
  const MoneyLimit: int := 10_000_000_000

  predicate FitsMoney(c: Cents) {
    -MoneyLimit < c < MoneyLimit
  }

  /** `id` names one of the `count` rows of a table. */
  predicate IsRef(count: nat, id: int) {
    1 <= id <= count
  }

  /** `SaleOrder.STATUS_CHOICES`. */
  datatype Status = Pending | Completed | Cancelled

  /** The status a stored status string names, if any. */
  function ParseStatus(s: string): (r: Option<Status>)
    ensures r.Some? <==> s == "Pending" || s == "Completed" || s == "Cancelled"
  {
    if s == "Pending" then Some(Pending)
    else if s == "Completed" then Some(Completed)
    else if s == "Cancelled" then Some(Cancelled)
    else None
  }

  function StatusName(s: Status): (name: string)
    ensures ParseStatus(name) == Some(s)
    ensures |name| <= 10  // max_length of the status column
  {
    match s
    case Pending => "Pending"
    case Completed => "Completed"
    case Cancelled => "Cancelled"
  }

  /** `StockMovement.MOVEMENT_TYPES`. */
  datatype MovementType = In | Out

  /** The choice a submitted `movement_type` string selects, if any. */
  function ParseMovementType(s: string): (r: Option<MovementType>)
    ensures r.Some? <==> s == "In" || s == "Out"
  {
    if s == "In" then Some(In) else if s == "Out" then Some(Out) else None
  }

  function MovementTypeName(t: MovementType): (name: string)
    ensures ParseMovementType(name) == Some(t)
    ensures |name| <= 3  // max_length of the movement_type column
  {
    match t
    case In => "In"
    case Out => "Out"
  }

  datatype Supplier = Supplier(name: string, email: string, phone: string, address: string)

  datatype Product = Product(
    name: string,
    description: string,
    category: string,
    price: Cents,
    stockQuantity: int,
    supplier: Id)

  /** `totalPrice` is fixed when the order is created. */
  datatype SaleOrder = SaleOrder(product: Id, quantity: int, totalPrice: Cents, status: Status)

  datatype StockMovement = StockMovement(
    product: Id,
    quantity: int,
    movementType: MovementType,
    notes: string)

  // ----- the stock ledger -----

  /** The change in stock a movement of this type and quantity stands for. */
  function Signed(t: MovementType, quantity: int): int {
    match t
    case In => quantity
    case Out => -quantity
  }

  /** What one ledger entry contributes to the stock of product `pid`. */
  function Delta(m: StockMovement, pid: Id): int {
    if m.product == pid then Signed(m.movementType, m.quantity) else 0
  }

  /** The net ledger sum of product `pid`: its "In" quantities minus its "Out" quantities. */
  function Net(ledger: seq<StockMovement>, pid: Id): int {
    if ledger == [] then 0 else Delta(ledger[0], pid) + Net(ledger[1..], pid)
  }

  /** Appending an entry moves the net sum by exactly that entry's contribution. */
  lemma {:induction false} NetAppend(ledger: seq<StockMovement>, m: StockMovement, pid: Id)
    ensures Net(ledger + [m], pid) == Net(ledger, pid) + Delta(m, pid)
  {
    if ledger != [] {
      assert (ledger + [m])[1..] == ledger[1..] + [m];
      NetAppend(ledger[1..], m, pid);
    }
  }

  /** A product that no entry names has a net sum of zero. */
  lemma {:induction false} NetUnreferenced(ledger: seq<StockMovement>, pid: Id)
    requires forall i :: 0 <= i < |ledger| ==> ledger[i].product != pid
    ensures Net(ledger, pid) == 0
  {
    if ledger != [] {
      NetUnreferenced(ledger[1..], pid);
    }
  }

  // ----- store invariants -----

  /** Field bounds of one supplier row: `phone` is at most 10 characters (all
      suppliers come in through the supplier form, which demands exactly 10 digits). */
  predicate SupplierOk(s: Supplier) {
    |s.name| <= 100 && |s.phone| == 10 && IsDigits(s.phone)
  }

  /** Emails are unique (case-insensitively, as the supplier form checks) and
      phones are unique. */
  predicate SuppliersValid(suppliers: seq<Supplier>) {
    && (forall i :: 0 <= i < |suppliers| ==> SupplierOk(suppliers[i]))
    && (forall i, j :: 0 <= i < j < |suppliers| ==>
          !EqualsIgnoreCase(suppliers[i].email, suppliers[j].email))
    && (forall i, j :: 0 <= i < j < |suppliers| ==> suppliers[i].phone != suppliers[j].phone)
  }

  /** Field bounds of one product row and its supplier foreign key. */
  predicate ProductOk(supplierCount: nat, p: Product) {
    && |p.name| <= 100
    && |p.category| <= 100
    && 0 <= p.price && FitsMoney(p.price)
    && p.stockQuantity >= 0
    && IsRef(supplierCount, p.supplier)
  }

  /** Every product references a supplier; names are unique (case-insensitively,
      as the product form checks); no stock level is negative. */
  predicate ProductsValid(suppliers: seq<Supplier>, products: seq<Product>) {
    && (forall i :: 0 <= i < |products| ==> ProductOk(|suppliers|, products[i]))
    && (forall i, j :: 0 <= i < j < |products| ==>
          !EqualsIgnoreCase(products[i].name, products[j].name))
  }

  /** Every order references a product, has a quantity of at least 1, and carries
      the total its product's price gives for that quantity. */
  predicate OrderOk(products: seq<Product>, o: SaleOrder) {
    && IsRef(|products|, o.product)
    && o.quantity >= 1
    && o.totalPrice == products[o.product - 1].price * o.quantity
  }

  predicate OrdersValid(products: seq<Product>, orders: seq<SaleOrder>) {
    forall i :: 0 <= i < |orders| ==> OrderOk(products, orders[i])
  }

  /** Every ledger entry references a product and moves a positive quantity. */
  predicate MovementsValid(products: seq<Product>, ledger: seq<StockMovement>) {
    forall i :: 0 <= i < |ledger| ==> IsRef(|products|, ledger[i].product) && ledger[i].quantity >= 1
  }

  predicate StoreValid(
    suppliers: seq<Supplier>,
    products: seq<Product>,
    ledger: seq<StockMovement>,
    orders: seq<SaleOrder>)
  {
    && SuppliersValid(suppliers)
    && ProductsValid(suppliers, products)
    && OrdersValid(products, orders)
    && MovementsValid(products, ledger)
  }
}

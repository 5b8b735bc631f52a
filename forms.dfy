/** The validators of backend/core/forms.py, and the error list each form that gates a
    handler produces. A field check of Django's own (required, max_length, a choice that
    names no row) runs first; a field's `clean_<field>` method runs only when that check
    passed, so it sees a present value of the field's type. */
module Forms {
  import opened Results
  import opened Text
  import opened Models

  /** Why a field was rejected. */
  datatype ErrorKind =
    | Required                 // the field was left empty
    | InvalidChoice            // a key or choice that names no row or option
    | TooLong(limit: nat)      // longer than the field's max_length
    | TooManyDigits            // more digits than the decimal field allows
    | BelowMinimum(minimum: int) // below the field's min_value
    | Duplicate                // a value the model declares unique is already stored
    | Message(text: string)    // raised by a clean_* method of this application

  datatype FieldError = FieldError(field: string, kind: ErrorKind)

  const ProductNameTaken := "A product with this name already exists."
  const NegativePrice := "Price cannot be negative."
  const NegativeStock := "Stock quantity cannot be negative."
  const PhoneLength := "Phone number must be exactly 10 digits."
  const PhoneNotDigits := "Phone number must contain only digits."
  const EmailTaken := "A supplier with this email already exists."
  const NonPositiveQuantity := "Quantity must be a positive integer."
  const QuantityBelowOne := "Quantity must be at least 1."

  function InsufficientStock(stock: int): string {
    "Insufficient stock. Currently " + IntToDecimal(stock) + " in stock."
  }

  // ----- ProductForm -----

  predicate NameTaken(products: seq<Product>, name: string) {
    exists i :: 0 <= i < |products| && EqualsIgnoreCase(products[i].name, name)
  }

  /** `ProductForm.clean_name`: refuses a name some stored product already has,
      ignoring case. */
  function CleanName(products: seq<Product>, name: string): (r: Result<string>)
    ensures r.Ok? <==> forall i :: 0 <= i < |products| ==> !EqualsIgnoreCase(products[i].name, name)
    ensures r.Ok? ==> r.value == name
    ensures r.Err? ==> r.message == ProductNameTaken
  {
    if NameTaken(products, name) then Err(ProductNameTaken) else Ok(name)
  }

  /** A name `clean_name` accepted keeps product names unique once it is stored. */
  lemma CleanNameKeepsNamesUnique(products: seq<Product>, p: Product)
    requires forall i, j :: 0 <= i < j < |products| ==> !EqualsIgnoreCase(products[i].name, products[j].name)
    requires CleanName(products, p.name).Ok?
    ensures forall i, j :: 0 <= i < j < |products + [p]| ==>
              !EqualsIgnoreCase((products + [p])[i].name, (products + [p])[j].name)
  {
  }

  /** `ProductForm.clean_price`: refuses a negative price; zero and an absent
      value pass. */
  function CleanPrice(price: Option<Cents>): (r: Result<Option<Cents>>)
    ensures r.Ok? <==> (price.Some? ==> price.value >= 0)
    ensures r.Ok? ==> r.value == price
    ensures r.Err? ==> r.message == NegativePrice
  {
    if price.Some? && price.value < 0 then Err(NegativePrice) else Ok(price)
  }

  /** `ProductForm.clean_stock_quantity`: refuses a negative quantity; zero and an
      absent value pass. */
  function CleanStockQuantity(quantity: Option<int>): (r: Result<Option<int>>)
    ensures r.Ok? <==> (quantity.Some? ==> quantity.value >= 0)
    ensures r.Ok? ==> r.value == quantity
    ensures r.Err? ==> r.message == NegativeStock
  {
    if quantity.Some? && quantity.value < 0 then Err(NegativeStock) else Ok(quantity)
  }

  // ----- SupplierForm -----

  /** `SupplierForm.clean_phone`: exactly ten characters, all digits; a wrong length
      is reported before a non-digit. */
  function CleanPhone(phone: string): (r: Result<string>)
    ensures r.Ok? <==> |phone| == 10 && IsDigits(phone)
    ensures r.Ok? ==> r.value == phone
    ensures |phone| != 10 ==> r == Err(PhoneLength)
    ensures |phone| == 10 && !IsDigits(phone) ==> r == Err(PhoneNotDigits)
  {
    if |phone| != 10 then Err(PhoneLength)
    else if !IsDigits(phone) then Err(PhoneNotDigits)
    else Ok(phone)
  }

  predicate EmailTakenBy(suppliers: seq<Supplier>, email: string) {
    exists i :: 0 <= i < |suppliers| && EqualsIgnoreCase(suppliers[i].email, email)
  }

  /** `SupplierForm.clean_email`: refuses an email some stored supplier already has,
      ignoring case. */
  function CleanEmail(suppliers: seq<Supplier>, email: string): (r: Result<string>)
    ensures r.Ok? <==> forall i :: 0 <= i < |suppliers| ==> !EqualsIgnoreCase(suppliers[i].email, email)
    ensures r.Ok? ==> r.value == email
    ensures r.Err? ==> r.message == EmailTaken
  {
    if EmailTakenBy(suppliers, email) then Err(EmailTaken) else Ok(email)
  }

  // ----- StockMovementForm and SaleOrderForm -----

  /** `StockMovementForm.clean_quantity`: the quantity must be positive, and an "Out"
      movement of a chosen product may not take more than that product holds. An
      "In" movement is never bounded by stock. `movementType` and `product` are the
      cleaned values of those fields, absent when their own check failed. */
  function MovementCleanQuantity(quantity: int, movementType: Option<MovementType>, product: Option<Product>)
    : (r: Result<int>)
    ensures r.Ok? <==>
              quantity > 0 && (movementType == Some(Out) && product.Some? ==> quantity <= product.value.stockQuantity)
    ensures r.Ok? ==> r.value == quantity
    ensures quantity <= 0 ==> r == Err(NonPositiveQuantity)
    ensures quantity > 0 && r.Err? ==> r == Err(InsufficientStock(product.value.stockQuantity))
  {
    if quantity <= 0 then Err(NonPositiveQuantity)
    else if movementType == Some(Out) && product.Some? && product.value.stockQuantity < quantity then
      Err(InsufficientStock(product.value.stockQuantity))
    else Ok(quantity)
  }

  /** `SaleOrderForm.clean_quantity`: at least 1. */
  function SaleOrderCleanQuantity(quantity: int): (r: Result<int>)
    ensures r.Ok? <==> quantity >= 1
    ensures r.Ok? ==> r.value == quantity
    ensures r.Err? ==> r.message == QuantityBelowOne
  {
    if quantity < 1 then Err(QuantityBelowOne) else Ok(quantity)
  }

  // ----- whole forms -----

  /** The errors a failed `clean_*` method attaches to its field. */
  function Reported<T>(field: string, r: Result<T>): (errs: seq<FieldError>)
    ensures errs == [] <==> r.Ok?
  {
    if r.Ok? then [] else [FieldError(field, Message(r.message))]
  }

  /** Django's check of a required text field with an optional max_length. */
  function TextFieldErrors(field: string, value: string, maxLength: Option<nat>): (errs: seq<FieldError>)
    ensures errs == [] <==> value != "" && (maxLength.Some? ==> |value| <= maxLength.value)
  {
    if value == "" then [FieldError(field, Required)]
    else if maxLength.Some? && |value| > maxLength.value then [FieldError(field, TooLong(maxLength.value))]
    else []
  }

  /** Django's check of a required foreign-key choice among `count` rows. */
  function ChoiceErrors(field: string, count: nat, choice: Option<int>): (errs: seq<FieldError>)
    ensures errs == [] <==> choice.Some? && IsRef(count, choice.value)
  {
    match choice
    case None => [FieldError(field, Required)]
    case Some(id) => if IsRef(count, id) then [] else [FieldError(field, InvalidChoice)]
  }

  /** The product a product choice selects, when it names a stored row. */
  function ChosenProduct(products: seq<Product>, choice: Option<int>): Option<Product>
  {
    if choice.Some? && IsRef(|products|, choice.value) then Some(products[choice.value - 1]) else None
  }

  /** What a product form submits; an absent number is one left empty. */
  datatype ProductInput = ProductInput(
    name: string,
    description: string,
    category: string,
    price: Option<Cents>,
    stockQuantity: Option<int>,
    supplier: Option<int>)

  function ProductFormErrors(suppliers: seq<Supplier>, products: seq<Product>, f: ProductInput)
    : (errs: seq<FieldError>)
    ensures errs == [] <==>
              && f.name != "" && |f.name| <= 100 && !NameTaken(products, f.name)
              && f.description != ""
              && f.category != "" && |f.category| <= 100
              && f.price.Some? && 0 <= f.price.value && FitsMoney(f.price.value)
              && f.stockQuantity.Some? && f.stockQuantity.value >= 0
              && f.supplier.Some? && IsRef(|suppliers|, f.supplier.value)
  {
    var nameErrs := TextFieldErrors("name", f.name, Some(100));
    var priceErrs :=
      match f.price
      case None => [FieldError("price", Required)]
      case Some(c) => if FitsMoney(c) then Reported("price", CleanPrice(f.price)) else [FieldError("price", TooManyDigits)];
    var stockErrs :=
      match f.stockQuantity
      case None => [FieldError("stock_quantity", Required)]
      case Some(_) => Reported("stock_quantity", CleanStockQuantity(f.stockQuantity));
    (if nameErrs != [] then nameErrs else Reported("name", CleanName(products, f.name)))
    + TextFieldErrors("description", f.description, None)
    + TextFieldErrors("category", f.category, Some(100))
    + priceErrs
    + stockErrs
    + ChoiceErrors("supplier", |suppliers|, f.supplier)
  }

  /** What a supplier form submits. */
  datatype SupplierInput = SupplierInput(name: string, email: string, phone: string, address: string)

  predicate PhoneTaken(suppliers: seq<Supplier>, phone: string) {
    exists i :: 0 <= i < |suppliers| && suppliers[i].phone == phone
  }

  /** The field checks run first; then the model's uniqueness of `phone` is checked
      for a phone that passed them. (The model's uniqueness of `email` never fires:
      `clean_email` already refused every case-insensitive duplicate.) */
  function SupplierFormErrors(suppliers: seq<Supplier>, f: SupplierInput): (errs: seq<FieldError>)
    ensures errs == [] <==>
              && f.name != "" && |f.name| <= 100
              && f.email != "" && |f.email| <= 254 && !EmailTakenBy(suppliers, f.email)
              && |f.phone| == 10 && IsDigits(f.phone) && !PhoneTaken(suppliers, f.phone)
              && f.address != ""
  {
    var emailErrs := TextFieldErrors("email", f.email, Some(254));
    var phoneFieldErrs := TextFieldErrors("phone", f.phone, Some(10));
    var phoneErrs := if phoneFieldErrs != [] then phoneFieldErrs else Reported("phone", CleanPhone(f.phone));
    TextFieldErrors("name", f.name, Some(100))
    + (if emailErrs != [] then emailErrs else Reported("email", CleanEmail(suppliers, f.email)))
    + phoneErrs
    + TextFieldErrors("address", f.address, None)
    + (if phoneErrs == [] && PhoneTaken(suppliers, f.phone) then [FieldError("phone", Duplicate)] else [])
  }

  /** Django's check of the `movement_type` choice field. */
  function MovementTypeErrors(movementType: string): (errs: seq<FieldError>)
    ensures errs == [] <==> ParseMovementType(movementType).Some?
  {
    if movementType == "" then [FieldError("movement_type", Required)]
    else if ParseMovementType(movementType).None? then [FieldError("movement_type", InvalidChoice)]
    else []
  }

  /** `StockMovementForm.is_valid()`: fields product, movement_type, quantity, notes
      (blank notes are allowed). */
  function StockMovementFormErrors(products: seq<Product>, product: Option<int>, movementType: string, quantity: Option<int>)
    : (errs: seq<FieldError>)
    ensures errs == [] <==>
              && product.Some? && IsRef(|products|, product.value)
              && (movementType == "In" || movementType == "Out")
              && quantity.Some? && quantity.value > 0
              && (movementType == "Out" ==> quantity.value <= products[product.value - 1].stockQuantity)
  {
    ChoiceErrors("product", |products|, product)
    + MovementTypeErrors(movementType)
    + match quantity
      case None => [FieldError("quantity", Required)]
      case Some(q) => Reported("quantity", MovementCleanQuantity(q, ParseMovementType(movementType), ChosenProduct(products, product)))
  }

  /** `SaleOrderForm.is_valid()`: fields product and quantity. */
  function SaleOrderFormErrors(products: seq<Product>, product: Option<int>, quantity: Option<int>)
    : (errs: seq<FieldError>)
    ensures errs == [] <==> product.Some? && IsRef(|products|, product.value) && quantity.Some? && quantity.value >= 1
  {
    ChoiceErrors("product", |products|, product)
    + match quantity
      case None => [FieldError("quantity", Required)]
      case Some(q) => Reported("quantity", SaleOrderCleanQuantity(q))
  }

  // ----- StockLevelFilterForm -----

  /** What the stock-level form submits; every field is optional. */
  datatype StockLevelFilter = StockLevelFilter(name: string, supplier: Option<int>, minStock: Option<int>)

  /** `StockLevelFilterForm.is_valid()`: a supplier, when given, must be stored, and
      `min_stock`, when given, is bounded below by 0. */
  function StockLevelFormErrors(suppliers: seq<Supplier>, f: StockLevelFilter): (errs: seq<FieldError>)
    ensures errs == [] <==>
              (f.supplier.Some? ==> IsRef(|suppliers|, f.supplier.value)) && (f.minStock.Some? ==> f.minStock.value >= 0)
  {
    (if f.supplier.Some? && !IsRef(|suppliers|, f.supplier.value) then [FieldError("supplier", InvalidChoice)] else [])
    + (if f.minStock.Some? && f.minStock.value < 0 then [FieldError("min_stock", BelowMinimum(0))] else [])
  }
}

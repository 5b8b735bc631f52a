# Stock ledger of the inventory and sales application

This project models the bookkeeping core of a small inventory and sales web application.
The application keeps four tables:

- suppliers;
- products, each with a price, a supplier and a cached `stock_quantity`;
- an append-only ledger of stock movements ("In" or "Out" of a quantity of a product);
- sale orders, which move from Pending to Completed or Cancelled.

The HTTP handlers are modelled as one class, `Views.Store`, whose methods update these
tables in place. The model covers:

- recording a movement;
- creating, cancelling and completing an order;
- adding a supplier or a product (these two handlers are the callers of the product and
  supplier form validators).

Each of the four form handlers (adding a product, a supplier or a stock movement, and
creating a sale order) is gated by the form validators Django runs before it; cancelling
and completing a sale order take only the order key from the URL and use no form. Those
validators are pure functions in `Forms`, and the read-only list filters and the
stock-level check are pure functions in `Queries`.

The store invariant, `Views.Store.Valid`, says:

- every product references a supplier, and every order and every ledger entry references
  a product;
- product names are unique, ignoring case;
- supplier emails are unique, ignoring case, and supplier phones are unique and are ten
  digits;
- prices are non-negative and fit ten digits with two decimals (held as integer cents
  below 10^10);
- no stock level is negative;
- every order carries `price * quantity` as its total;
- for every product, `stock_quantity` minus the net ledger sum (In minus Out) equals the
  stock the product was created with (the ghost field `opening`).

Every handler preserves `Valid`. The three stock-changing handlers also keep that
difference (`Drift`) unchanged for every product.

Modules and files:

- `results.dfy`: `Results`, with Option and Result.
- `text.dfy`: `Text`, with ASCII case folding, substring search and decimal rendering of
  integers.
- `models.dfy`: `Models`, with the records of `backend/core/models.py`, the ledger sum
  `Net` and the store invariants.
- `forms.dfy`: `Forms`, with `backend/core/forms.py`.
- `queries.dfy`: `Queries`, with the filters of `backend/core/views.py`.
- `views.dfy`: `Views`, with the handlers of `backend/core/views.py`.

Conventions:

- Tables are sequences, and the row with primary key `k` is element `k - 1`. This key
  scheme is an assumption of the model, not a fact about the database: keys run 1, 2, …
  with no gaps, because no handler deletes a row or fails an insert.
- Money is integer cents.
- Text comparison is over ASCII.

Two facts about the code shape the invariant and the stock-level query:

- A product starts with the stock its form gives, and no ledger entry is written for it.
  So `stock_quantity` is not the net sum of its ledger entries. What every handler keeps is
  the difference between the two: stock minus the net ledger sum equals the product's
  opening stock.
- `stock_level_check` ANDs all of its criteria. `Queries.StockLevelCheck` states exactly
  that, and `Queries.MinStockAlone` states the minimum-stock criterion given on its own.

## Model

| member | source | states |
|---|---|---|
| `Views.Store.AddStockMovement` | backend/core/views.py:121-148 | When the movement form is rejected, the store is unchanged and the form's errors come back. When it is accepted, that product's stock changes by +quantity for "In" or −quantity for "Out", exactly one movement is appended, and no other product, order or supplier changes. Stock minus net ledger sum is unchanged for every product, and the invariant (stock never negative) holds. |
| `Views.Store.CreateSaleOrder` | backend/core/views.py:193-230 | Form errors leave the store unchanged. A quantity above stock is refused with "Insufficient stock for this product." on `quantity` and changes nothing; a quantity equal to stock is accepted. On success it appends one Pending order with total `price * quantity`, lowers stock by the quantity, and appends one "Out" movement whose note is "Sale Order #id". The drift per product is unchanged. |
| `Views.Store.CancelSaleOrder` | backend/core/views.py:244-267 | An unknown key gives NotFound (404) and a non-Pending order gives NotPending. In both cases nothing changes. A Pending order becomes Cancelled, its quantity goes back into its product's stock, and one matching "In" movement is appended. The drift per product is unchanged. |
| `Views.Store.CompleteSaleOrder` | backend/core/views.py:270-279 | A Pending order becomes Completed. Products and ledger are never touched. An unknown key or a non-Pending order changes nothing. |
| `Views.Store.AddProduct` | backend/core/views.py:27-45 | An accepted product form appends the product, with its opening stock recorded. A rejected one changes nothing. The invariant (unique names, supplier key, non-negative stock and price) is preserved. |
| `Views.Store.AddSupplier` | backend/core/views.py:77-91 | An accepted supplier form appends the supplier. A rejected one changes nothing. Email and phone uniqueness are preserved. |
| `Views.Store.Record` | backend/core/views.py:139-148 | The shared step of the three stock-changing handlers: apply the signed quantity to one product and append the entry. Only that product changes, and stock minus net ledger sum is unchanged. |
| `Views.CreateThenCancel` | backend/core/tests.py:257-269 | Creating an order and then cancelling it is accepted exactly when creation is. It returns the new order's key, restores every product's stock, leaves that order Cancelled, and adds one "Out" entry and one matching "In" entry to the ledger. Suppliers and the opening stock are unchanged in every case. |
| `Views.SaleOrderNoteNamesOrder` | backend/core/views.py:225-230 | The note of a new order's "Out" movement is "Sale Order #" followed by digits that read back as the new order's key. |
| `Views.CancelledNoteNamesOrder` | backend/core/views.py:256-261 | The note of a cancellation's "In" movement is "Cancelled Sale Order #" followed by digits that read back as the cancelled order's key. |
| `Views.SaleOrderNotesDistinct` | backend/core/views.py:229 | Different orders get different creation notes. |
| `Models.NetAppend` | backend/core/views.py:139-148 | Appending a ledger entry changes a product's net ledger sum by exactly that entry's signed quantity, and only for the product it names. |
| `Models.NetUnreferenced` | backend/core/views.py:30-31 | A product no entry names has a net ledger sum of zero, so a new product's drift is its opening stock. |
| `Models.ParseMovementType` | backend/core/models.py:53-56 | A submitted movement type is a choice exactly when it is "In" or "Out". |
| `Models.MovementTypeName` | backend/core/models.py:53-56 | Each movement type's stored name parses back to it, and fits the 3-character column. |
| `Models.ParseStatus` | backend/core/models.py:35-39 | A status string names a status exactly when it is "Pending", "Completed" or "Cancelled". |
| `Models.StatusName` | backend/core/models.py:35-46 | Each status's stored name parses back to that status, so distinct statuses have distinct names, and fits the 10-character column. |
| `Forms.CleanName` | backend/core/forms.py:24-34 | Rejects, with "A product with this name already exists.", exactly the names equal to a stored product's name ignoring case. Otherwise it returns the name unchanged. |
| `Forms.CleanNameKeepsNamesUnique` | backend/core/forms.py:24-34 | Storing a product whose name `clean_name` accepted keeps product names unique ignoring case. |
| `Forms.CleanPrice` | backend/core/forms.py:36-40 | Rejects exactly the negative prices. Zero and an absent value pass unchanged. |
| `Forms.CleanStockQuantity` | backend/core/forms.py:42-46 | Rejects exactly the negative quantities. Zero and an absent value pass unchanged. |
| `Forms.CleanPhone` | backend/core/forms.py:60-74 | Accepts exactly the strings of 10 characters that are all digits. A wrong length is reported before a non-digit. |
| `Forms.CleanEmail` | backend/core/forms.py:76-85 | Rejects exactly the emails equal to a stored supplier's email ignoring case. Otherwise it returns the email unchanged. |
| `Forms.MovementCleanQuantity` | backend/core/forms.py:99-117 | Accepted exactly when the quantity is positive and, for an "Out" movement of a chosen product, at most that product's stock. "In" is never bounded. The stock message quotes the current stock. |
| `Forms.SaleOrderCleanQuantity` | backend/core/forms.py:126-130 | Rejects exactly the quantities below 1. |
| `Forms.ProductFormErrors` | backend/core/forms.py:6-46 | The product form is accepted exactly when name, description and category are present, name and category are within 100 characters, the name is not taken, the price is present, non-negative and fits ten digits, the stock is present and non-negative, and the supplier is stored. |
| `Forms.SupplierFormErrors` | backend/core/forms.py:49-85 | The supplier form is accepted exactly when name, email and address are present, within their lengths, the email is not taken, and the phone is 10 digits not already stored. |
| `Forms.StockMovementFormErrors` | backend/core/forms.py:88-117 | The movement form is accepted exactly when a stored product is chosen, the type is "In" or "Out", and the quantity is positive and, for "Out", at most that product's stock. |
| `Forms.SaleOrderFormErrors` | backend/core/forms.py:120-130 | The order form is accepted exactly when a stored product is chosen and the quantity is at least 1. |
| `Forms.StockLevelFormErrors` | backend/core/forms.py:142-166 | The stock-level form is valid exactly when a given supplier is stored and a given `min_stock` is at least 0. |
| `Queries.ListProducts` | backend/core/views.py:48-60 | Returns the keys, in order, of the products whose name contains the search ignoring case. An empty search returns every product. |
| `Queries.ListSuppliers` | backend/core/views.py:94-104 | Returns the suppliers whose name OR email contains the search ignoring case. An empty search returns every supplier. |
| `Queries.ListStockMovements` | backend/core/views.py:163-173 | Returns the movements whose product's name contains the search ignoring case. An empty search returns every movement. |
| `Queries.ListSaleOrders` | backend/core/views.py:282-291 | "All" returns every order. Any other value returns exactly the orders whose status is that value. |
| `Queries.StockLevelCheck` | backend/core/views.py:308-338 | A GET or an invalid form returns every product. A valid form returns exactly the products meeting every given criterion, ANDed together: name contains ignoring case, same supplier, stock at least `min_stock`. An omitted criterion is ignored. |
| `Queries.MinStockAlone` | backend/core/views.py:334-336 | With only `min_stock = n` given, the check returns exactly the products with stock at least n. |
| `Queries.Select` | backend/core/views.py:55-57 | A filter returns, in increasing key order, exactly the keys of the rows meeting its condition. |
| `Queries.AllIds` | backend/core/views.py:60 | An unfiltered listing returns every key once, in order. |
| `Text.ContainsIffOccurs` | backend/core/views.py:56 | The substring search succeeds exactly when the needle occurs at some offset of the text. |
| `Text.DecimalRoundTrip` | backend/core/views.py:229 | The decimal rendering of a key used in ledger notes reads back as that key. |
| `Text.IntToDecimal` | backend/core/forms.py:114 | The stock figure in the "Insufficient stock" message is a digit string, with no leading zero, that reads back as the stock; a negative stock is "-" followed by digits that read back as its magnitude. |
| `Text.NatToDecimal` | backend/core/views.py:229 | Rendering a key in decimal gives a non-empty string of digits with no leading zero, as `str` does. |

## Left out

- HTTP plumbing is not modelled: `render`, `redirect`, the `messages` texts, templates,
  `home` and the URL routing. A handler's result (`Submission`, `Transition`) stands for
  which page and message it produces.
- The GET branches of the form handlers only render an empty form and change nothing, so
  they are not modelled. The GET branch of the stock-level check is modelled.
- Pagination (`Paginator.get_page`) is Django library behaviour and is left out. The
  queries return the whole filtered list.
- The order of a listing is not modelled. No queryset in the source is ordered (no
  `order_by`, no `Meta.ordering`), so the source shows rows in whatever order the database
  returns. The increasing key order the queries promise is a choice of this model.
- `CustomDecimalField` and the BSON `Decimal128` conversion are replaced by integer cents.
- Django's decimal-digit rules are abstracted. A price is refused with `TooManyDigits` when
  its cents reach 10^10. Input with more than two decimal places cannot be expressed.
- `Views.Store.CreateSaleOrder` does not check that `price * quantity` fits the 10-digit
  `total_price` column, because the handler does not check it. So the invariant does not
  bound `totalPrice`. The product is exact; the 28-digit precision of Python's default
  decimal context is not modelled.
- Unicode case folding and Unicode digits are not modelled. Text comparison and
  `isdigit` cover ASCII only.
- Django's texts for its own field errors are not modelled. These errors are kinds:
  `Required`, `InvalidChoice`, `TooLong`, `TooManyDigits`, `BelowMinimum`, `Duplicate`.
- Input the field layer cannot parse is not modelled. A non-integer quantity, or an
  unknown key given as text, is treated as an absent or unstored choice.
- A non-integer `min_stock` cannot be expressed either. In the source it makes the
  stock-level form invalid, so every product is listed. It must not be read as an absent
  `min_stock` (`None`), which would still apply the other criteria.
- Whitespace stripping by `CharField`, `EmailField` format validation, and the database
  range checks on integer columns are library behaviour and are not modelled.
- `Forms.MovementCleanQuantity` and `Forms.SaleOrderCleanQuantity` take the quantity as an
  integer. The field is required, so the method runs only after the field check passed.
  The `quantity is not None` guard therefore never fails.
- `SaleOrderForm.clean_product` returns its input unchanged, so it has nothing to model.
- The model's exact uniqueness check on supplier `email` and product `name` is not
  modelled. The case-insensitive `clean_email` and `clean_name` already refuse every
  duplicate it could catch. The exact uniqueness of `phone` is modelled.
- Transactions and concurrency: each handler is one atomic step.
- `auto_now_add` dates come from the clock, and cascade deletion never happens because no
  handler deletes. Both are left out.
- `__str__` methods are presentation and are left out.
- Only rows added through the handlers are modelled. Rows created in other ways (the
  admin, direct ORM calls as in the tests) are outside the invariant.
- `backend/sample_tests/tests.py` reads files and prints, so it is left out.

# Green_Burn shop models in Dafny

This project models the data layer of the Green_Burn shop: the catalog
(categories, manufacturers, products), per-user carts and their lines, and
the business rules written on those records. It also proves properties of
that model.

Prices are integer cents. `DecimalField(max_digits=10, decimal_places=2)`
becomes an integer whose absolute value is below 10^10. Cost arithmetic is
exact integer arithmetic. It agrees with the source's `Decimal` arithmetic
as long as every line cost and every cart total fits in 28 significant
digits (see "## Left out").

Every table is a sequence of rows in storage order. Each row carries its
primary key. Saving under a key updates that row in place, or appends a new
row when the key is absent. Deleting removes the rows whose keys were
collected, the way the framework's delete collector does.

Modules:

- `Wrappers` (wrappers.dfy): `Option` and `Outcome`.
- `Tables` (tables.dfy): keyed tables, with lookup (`Find`), save (`Upsert`)
  and delete by key (`DropIds`). The primary-key constraint is `UniqueIds`.
- `Models` (models.dfy): the five records and the rules. These are
  `Product.clean` (`Clean`), what `full_clean` checks for a product and for a
  cart line (`ProductErrors`, `CartItemErrors`), `item_cost` (`ItemCost`),
  `availability` (`Availability`) and `total_cost` (`TotalCost`).
- `Store` (store.dfy): the `Shop` class, holding the five tables. It has one
  save method per model, the cascade deletes declared by `on_delete=CASCADE`,
  and the invariant `Valid()`. `Valid()` says:
  - primary keys are unique;
  - every foreign key names an existing row;
  - every stored product passed validation;
  - no stored line has a negative quantity;
  - no user owns two carts.

  Every method preserves it.

Behaviour of the code that is easy to miss:

- `Category`, `Manufacturer` and `Cart` do not override `save`, so saving
  one of them runs no field validation. `Product` and `CartItem` override
  `save` to call `full_clean` first. A second cart for a user is rejected by the unique key on
  `Cart.user` at the database, not by validation.
- `CartItem.quantities` is a `PositiveIntegerField`, and that field accepts
  0. The model requires `quantities >= 0`, even though the field's name
  suggests `>= 1`.
- `CartItem.save` never calls `availability`, so a line asking for more than
  the product's stock is stored (`OverstockedItemPassesValidation`). The
  stock check exists only as the separate `Availability` rule.
- `full_clean` always runs `clean()`, even after a field check has failed.
  The clean error therefore comes after the field errors.

## Model

| member | source | states |
|---|---|---|
| `Models.Clean` | Green_Burn/shop/models.py:51-55 | Fails exactly when price < 0 or stock < 0, so price 0 and stock 0 pass. A negative price reports the price error, even when stock is also negative. Stock is reported only when the price is not negative. |
| `Models.ProductErrors` | Green_Burn/shop/models.py:36-59 | Product validation reports nothing exactly when all of these hold: name non-empty and at most 200 characters; description and photo non-empty; price within 10 digits; price and stock non-negative; category and manufacturer exist. The price error, when present, is the last one reported. The stock error appears only when the price is non-negative. |
| `Models.ProductFieldErrors` | Green_Burn/shop/models.py:36-45 | The field checks report nothing exactly when all of these hold: name non-empty and at most 200 characters; description and photo non-empty; price within 10 digits; both foreign keys name existing rows. They never report a `clean` error. |
| `Store.Shop.SaveProduct` | Green_Burn/shop/models.py:58-60 | Returns the validation errors. When there are errors, the product table is unchanged. Otherwise the product is stored under its key. Every other key's product is unchanged, and the store invariant is kept. |
| `Models.CartItemErrors` | Green_Burn/shop/models.py:83-85 | Cart-line validation reports nothing exactly when the cart exists, the product exists and the quantity is at least 0. It never reports insufficient stock. |
| `Store.Shop.SaveCartItem` | Green_Burn/shop/models.py:97-99 | When validation fails, nothing is written. Otherwise the line is stored, whatever the stock. A new line raises its own cart's total by exactly its cost and leaves every other cart's total unchanged. |
| `Models.ItemCost` | Green_Burn/shop/models.py:90-91 | A line costs zero exactly when its price or its quantity is zero. It is non-negative when both are non-negative. |
| `Models.ItemCostPerUnit` | Green_Burn/shop/models.py:90-91 | One more unit adds exactly one unit price, in exact integer arithmetic. |
| `Models.ItemCostExample` | Green_Burn/shop/models.py:90-91 | 1999 cents times 3 is 5997 cents. |
| `Models.Availability` | Green_Burn/shop/models.py:93-95 | Fails exactly when the quantity exceeds the product's stock, so quantity equal to stock passes. The failure carries the stock count. |
| `Models.OverstockedItemPassesValidation` | Green_Burn/shop/models.py:93-99 | 5 units of a product with 3 in stock pass cart-line validation. The availability check on the same line fails and names 3. |
| `Models.ItemsOfCart` | Green_Burn/shop/models.py:83 | A cart's lines (`related_name='items'`) are exactly the table rows whose cart is that cart. |
| `Models.TotalCost` | Green_Burn/shop/models.py:74-75 | The sum of `item_cost` over the cart's lines. When every line's product exists, it equals the whole-table sum in which other carts' lines count zero (`CartSum`). A cart with no lines totals 0. |
| `Models.SumOfCartLines` | Green_Burn/shop/models.py:74-75 | Summing the costs of exactly the cart's lines gives the same amount as the whole-table sum in which every other cart's line adds zero. |
| `Models.TotalCostOfEmptyCart` | Green_Burn/shop/models.py:74-75 | A cart with no lines totals 0. |
| `Models.TotalCostAppend` | Green_Burn/shop/models.py:74-75 | Adding a line raises its own cart's total by exactly its cost. Every other cart's total is unchanged. |
| `Models.TotalCostNonNegative` | Green_Burn/shop/models.py:74-75 | When all prices and quantities are non-negative, every cart total is non-negative. |
| `Store.StoredTotalsNonNegative` | Green_Burn/shop/models.py:74-75 | In a store that satisfies its invariant, every cart total is non-negative. |
| `Store.Shop.SaveCategory` | Green_Burn/shop/models.py:6-11 | The category is written under its key without validation. The invariant is kept. |
| `Store.Shop.SaveManufacturer` | Green_Burn/shop/models.py:22-25 | The manufacturer is written under its key without validation. The invariant is kept. |
| `Store.Shop.SaveCart` | Green_Burn/shop/models.py:67-69 | The write succeeds exactly when no cart under another key has the same user; otherwise nothing changes. A new cart gets the creation time `now`; an update keeps the given value. At most one cart per user is kept. |
| `Store.OneCartPerUserUpsert` | Green_Burn/shop/models.py:68 | Saving a cart whose user owns no cart under another key keeps at most one cart per user. |
| `Store.CartsOfUser` | Green_Burn/shop/models.py:68 | The keys of exactly the carts owned by the user: every such row's key is in the set, and every key in the set belongs to such a row. |
| `Store.ProductsOfCategory` | Green_Burn/shop/models.py:44 | The keys of exactly the products of the category (`related_name='products'`): every such row's key is in the set, and every key in the set belongs to such a row. |
| `Store.ProductsOfManufacturer` | Green_Burn/shop/models.py:45 | The keys of exactly the products of the manufacturer: every such row's key is in the set, and every key in the set belongs to such a row. |
| `Store.ItemsOfProducts` | Green_Burn/shop/models.py:84 | The keys of exactly the lines that name one of the given products: every such row's key is in the set, and every key in the set belongs to such a row. |
| `Store.ItemsOfCarts` | Green_Burn/shop/models.py:83 | The keys of exactly the lines that belong to one of the given carts: every such row's key is in the set, and every key in the set belongs to such a row. |
| `Store.Shop.DeleteCategory` | Green_Burn/shop/models.py:44 | Removes the category, exactly the products referencing it, and exactly the lines naming those products. Nothing else changes. |
| `Store.Shop.DeleteManufacturer` | Green_Burn/shop/models.py:45 | Removes the manufacturer, exactly its products, and exactly the lines naming those products. Nothing else changes. |
| `Store.Shop.DeleteProduct` | Green_Burn/shop/models.py:84 | Removes the product and exactly the lines naming it. |
| `Store.Shop.CascadeProducts` | Green_Burn/shop/models.py:84 | Removing a set of products removes exactly the lines naming one of them. |
| `Store.Shop.DeleteCart` | Green_Burn/shop/models.py:83 | Removes the cart and exactly its lines. Its total is then 0. |
| `Store.Shop.CascadeCarts` | Green_Burn/shop/models.py:83 | Removing a set of carts removes exactly their lines. |
| `Store.Shop.DeleteUser` | Green_Burn/shop/models.py:68 | Removing a user removes exactly that user's cart and exactly that cart's lines. |
| `Store.Shop.DeleteCartItem` | Green_Burn/shop/models.py:82-85 | Removes the line under that key and nothing else. |

## Left out

- Green_Burn/shop/admin.py: the admin screens' list, search, filter and read-only configuration. It is declaration only.
- `__str__` methods and `Meta` verbose names: display text only.
- Photo storage and the `upload_to` path: file I/O. The model keeps the photo as its stored reference, so the only check on it is the required-field check.
- The `created_at` clock: a new cart receives it as the parameter `now`.
- The User entity and authentication. A user is an opaque key, and the foreign key from a cart to a user is not checked.
- Integer range validators that depend on the database backend (`IntegerField`, `PositiveIntegerField` upper bounds): backend-specific.
- Column length limits that a backend might enforce on `Category` and `Manufacturer` names: their `save` runs no validation, and any such limit is backend-specific.
- Prices with more than two decimal places and `None` values: integer cents cannot represent them, and every field holds a value.
- Primary-key allocation: the caller supplies the key. Saving a new instance under a key that is already taken therefore writes that row, where `full_clean` would report a duplicate key for an instance that was never saved.
- The text of validation messages: each error is a `Violation` constructor, and the insufficient-stock error carries the stock count. Field errors come as a sequence in field order rather than as a dictionary keyed by field.
- The extra arguments that `Product.save` and `CartItem.save` pass through to the framework's save (`force_insert`, `force_update`, `update_fields`, `using`): the save methods take only the key and the record, and always write the whole row to the one database.
- Transactions, concurrency and the database engine: one synchronous write at a time.
- Number types: a cart total is the integer sum in cents. Python returns the integer 0 for an empty cart and a `Decimal` otherwise. These are the same amount only within the precision limit below.
- `Decimal` precision: `price * quantities` and the sum in `total_cost` run in Python's default decimal context, which keeps 28 significant digits and rounds beyond that. `ItemCost` and `TotalCost` are exact integers. They match the source only while each line cost and each cart total fits in 28 significant digits. A line cost always does when the quantity is at most 2147483647. A quantity near 2^63 with a price of 99999999.99 gives a rounded line cost in Python but not in the model.

/**
 * The shop's records and the business rules written on them: product
 * validation, the cost of a cart line, the stock-sufficiency check and the
 * cart total. Prices are integer cents and every amount is an exact
 * integer. This agrees with `Decimal` arithmetic in its default 28-digit
 * context while amounts fit in 28 significant digits.
 */
module Models {
  import opened Wrappers
  import opened Tables

  /** An opaque key of a user of the external authentication subsystem. */
  type UserId = nat

  datatype Category = Category(name: string, description: Option<string>)

  datatype Manufacturer = Manufacturer(name: string, country: string, description: Option<string>)

  /**
   * A catalog product. `photo` is the stored file reference; `price` is in
   * cents; `category` and `manufacturer` are the foreign keys.
   */
  datatype Product = Product(
    name: string,
    description: string,
    photo: string,
    price: int,
    quantitiesStock: int,
    category: Id,
    manufacturer: Id)

  /** A user's cart; `createdAt` is an opaque clock reading. */
  datatype Cart = Cart(user: UserId, createdAt: int)

  /** A line of a cart: `quantities` units of one product. */
  datatype CartItem = CartItem(cart: Id, product: Id, quantities: int)

  /** The model fields that validation can report on. */
  datatype Field =
    | ProductName | ProductDescription | ProductPhoto | ProductPrice
    | ProductCategory | ProductManufacturer
    | ItemCart | ItemProduct | ItemQuantities

  /** The validation errors the model's checks raise. */
  datatype Violation =
    | Blank(field: Field)               // a required field holds the empty value
    | TooLong(field: Field, limit: nat) // longer than the field's max_length
    | TooManyDigits(field: Field)       // more digits than the decimal field admits
    | MissingReference(field: Field)    // a foreign key names no existing row
    | BelowMinimum(field: Field)        // a positive-integer field below zero
    | NegativePrice                     // Product.clean, first check
    | NegativeStock                     // Product.clean, second check
    | InsufficientStock(available: int) // CartItem.availability, carrying the stock count

  /** max_length of Product.name. */
  const PRODUCT_NAME_MAX: nat := 200

  /**
   * A price with max_digits 10 and 2 decimal places has at most 8 whole
   * digits; in cents that is an absolute value below 10^10.
   */
  const PRICE_CENTS_BOUND: int := 10_000_000_000

  // ---------------------------------------------------------------- Product

  /** Product.clean: the price is checked before the stock count. */
  function Clean(p: Product): (r: Outcome<Violation>)
    ensures r.Fail? <==> p.price < 0 || p.quantitiesStock < 0
    ensures p.price < 0 ==> r == Fail(NegativePrice)
    ensures p.price >= 0 && p.quantitiesStock < 0 ==> r == Fail(NegativeStock)
  {
    if p.price < 0 then Fail(NegativePrice)
    else if p.quantitiesStock < 0 then Fail(NegativeStock)
    else Pass
  }

  /** Every declared constraint on the product's own fields holds. */
  predicate FieldsAcceptable(p: Product)
  {
    && p.name != [] && |p.name| <= PRODUCT_NAME_MAX
    && p.description != []
    && p.photo != []
    && -PRICE_CENTS_BOUND < p.price < PRICE_CENTS_BOUND
  }

  /**
   * The per-field checks of full_clean for a product, in field declaration
   * order, at most one error per field: required text fields must not be
   * empty, the name fits its max_length, the price fits its digit bound and
   * both foreign keys name existing rows.
   */
  function ProductFieldErrors(p: Product, categories: set<Id>, manufacturers: set<Id>): (r: seq<Violation>)
    ensures r == [] <==> FieldsAcceptable(p) && p.category in categories && p.manufacturer in manufacturers
    ensures NegativePrice !in r && NegativeStock !in r
  {
    var name :=
      if p.name == [] then [Blank(ProductName)]
      else if |p.name| > PRODUCT_NAME_MAX then [TooLong(ProductName, PRODUCT_NAME_MAX)]
      else [];
    var description := if p.description == [] then [Blank(ProductDescription)] else [];
    var photo := if p.photo == [] then [Blank(ProductPhoto)] else [];
    var price := if !(-PRICE_CENTS_BOUND < p.price < PRICE_CENTS_BOUND) then [TooManyDigits(ProductPrice)] else [];
    var category := if p.category !in categories then [MissingReference(ProductCategory)] else [];
    var manufacturer := if p.manufacturer !in manufacturers then [MissingReference(ProductManufacturer)] else [];
    name + description + photo + price + category + manufacturer
  }

  /** Every declared field constraint and every rule of Product.clean holds. */
  predicate ProductAcceptable(p: Product)
  {
    FieldsAcceptable(p) && p.price >= 0 && p.quantitiesStock >= 0
  }

  /**
   * Product.full_clean: the field errors, then the error of clean(), which
   * runs even when a field check failed.
   */
  function ProductErrors(p: Product, categories: set<Id>, manufacturers: set<Id>): (r: seq<Violation>)
    ensures r == [] <==> ProductAcceptable(p) && p.category in categories && p.manufacturer in manufacturers
    ensures NegativePrice in r <==> p.price < 0
    ensures NegativeStock in r <==> p.price >= 0 && p.quantitiesStock < 0
    ensures p.price < 0 ==> r[|r| - 1] == NegativePrice
  {
    ProductFieldErrors(p, categories, manufacturers)
    + match Clean(p)
      case Fail(e) => [e]
      case Pass => []
  }

  // --------------------------------------------------------------- CartItem

  /**
   * CartItem.full_clean: both foreign keys name existing rows and the
   * quantity is not negative. Stock is not consulted.
   */
  function CartItemErrors(it: CartItem, carts: set<Id>, products: set<Id>): (r: seq<Violation>)
    ensures r == [] <==> it.cart in carts && it.product in products && it.quantities >= 0
    ensures forall v | v in r :: !v.InsufficientStock?
  {
    (if it.cart !in carts then [MissingReference(ItemCart)] else [])
    + (if it.product !in products then [MissingReference(ItemProduct)] else [])
    + (if it.quantities < 0 then [BelowMinimum(ItemQuantities)] else [])
  }

  /**
   * CartItem.item_cost, in cents, where `p` is the line's product. In exact
   * integer arithmetic a line costs nothing only when its price or its
   * quantity is zero.
   */
  function ItemCost(it: CartItem, p: Product): (r: int)
    ensures r == 0 <==> p.price == 0 || it.quantities == 0
    ensures p.price >= 0 && it.quantities >= 0 ==> r >= 0
  {
    p.price * it.quantities
  }

  /** One more unit on a line adds exactly one unit price. */
  lemma ItemCostPerUnit(it: CartItem, p: Product)
    ensures ItemCost(it.(quantities := it.quantities + 1), p) == ItemCost(it, p) + p.price
  {
  }

  /** 19.99 three times is 59.97. */
  lemma ItemCostExample()
    ensures ItemCost(CartItem(0, 0, 3), Product("n", "d", "f", 1999, 10, 0, 0)) == 5997
  {
  }

  /**
   * CartItem.availability, where `p` is the line's product: it fails, naming
   * the stock count, exactly when more units are asked for than are in stock.
   */
  function Availability(it: CartItem, p: Product): (r: Outcome<Violation>)
    ensures r.Fail? <==> it.quantities > p.quantitiesStock
    ensures r.Fail? ==> r.error == InsufficientStock(p.quantitiesStock)
  {
    if it.quantities > p.quantitiesStock then Fail(InsufficientStock(p.quantitiesStock))
    else Pass
  }

  /**
   * Saving a line does not run the availability check: five units of a
   * product with three in stock pass validation, while availability fails
   * and names 3.
   */
  lemma OverstockedItemPassesValidation()
    ensures CartItemErrors(CartItem(1, 2, 5), {1}, {2}) == []
    ensures Availability(CartItem(1, 2, 5), Product("n", "d", "f", 100, 3, 0, 0)) == Fail(InsufficientStock(3))
  {
  }

  // ------------------------------------------------------------------- Cart

  /** Every listed line's product is a row of `products`. */
  ghost predicate ProductsPresent(rows: Table<CartItem>, products: Table<Product>)
  {
    forall r | r in rows :: r.rec.product in Ids(products)
  }

  /** Cart.items: the lines whose cart is `cart`, in storage order. */
  function ItemsOfCart(items: Table<CartItem>, cart: Id): (r: Table<CartItem>)
    ensures forall x | x in r :: x in items && x.rec.cart == cart
    ensures forall x | x in items && x.rec.cart == cart :: x in r
  {
    if |items| == 0 then []
    else
      HeadTail(items);
      (if items[0].rec.cart == cart then [items[0]] else []) + ItemsOfCart(items[1..], cart)
  }

  /** The sum of the costs of the listed lines, each priced by its product. */
  function SumCosts(rows: Table<CartItem>, products: Table<Product>): (r: int)
    requires ProductsPresent(rows, products)
  {
    if |rows| == 0 then 0
    else
      HeadTail(rows);
      ItemCost(rows[0].rec, Find(products, rows[0].rec.product).value) + SumCosts(rows[1..], products)
  }

  /** The cost a line contributes to the total of `cart`. */
  function ContributionTo(x: Row<CartItem>, products: Table<Product>, cart: Id): (r: int)
    requires x.rec.product in Ids(products)
  {
    if x.rec.cart == cart then ItemCost(x.rec, Find(products, x.rec.product).value) else 0
  }

  /**
   * The total of `cart` computed over the whole table: every line adds its
   * cost when it belongs to the cart and nothing otherwise.
   */
  function CartSum(items: Table<CartItem>, products: Table<Product>, cart: Id): (r: int)
    requires ProductsPresent(items, products)
  {
    if |items| == 0 then 0
    else
      HeadTail(items);
      ContributionTo(items[0], products, cart) + CartSum(items[1..], products, cart)
  }

  /**
   * Summing the costs of exactly the lines whose cart is `cart` agrees with
   * the sum over the whole table in which every other cart's lines count zero.
   */
  lemma {:induction false} SumOfCartLines(items: Table<CartItem>, products: Table<Product>, cart: Id)
    ensures ProductsPresent(items, products) ==>
      && ProductsPresent(ItemsOfCart(items, cart), products)
      && SumCosts(ItemsOfCart(items, cart), products) == CartSum(items, products, cart)
  {
    if ProductsPresent(items, products) && |items| > 0 {
      HeadTail(items);
      SumOfCartLines(items[1..], products, cart);
      var rest := ItemsOfCart(items[1..], cart);
      if items[0].rec.cart == cart {
        var own := [items[0]] + rest;
        assert ItemsOfCart(items, cart) == own;
        assert own[0] == items[0] && own[1..] == rest;
        assert SumCosts(own, products) == ContributionTo(items[0], products, cart) + SumCosts(rest, products);
      } else {
        assert ItemsOfCart(items, cart) == rest;
      }
    }
  }

  /** Cart.total_cost: the sum of item_cost over the cart's lines. */
  function TotalCost(items: Table<CartItem>, products: Table<Product>, cart: Id): (r: int)
    requires ProductsPresent(ItemsOfCart(items, cart), products)
    ensures ProductsPresent(items, products) ==> r == CartSum(items, products, cart)
    ensures (forall x | x in items :: x.rec.cart != cart) ==> r == 0
  {
    SumOfCartLines(items, products, cart);
    SumCosts(ItemsOfCart(items, cart), products)
  }

  lemma {:induction false} ItemsOfCartAppend(items: Table<CartItem>, x: Row<CartItem>, cart: Id)
    ensures ItemsOfCart(items + [x], cart)
         == ItemsOfCart(items, cart) + (if x.rec.cart == cart then [x] else [])
  {
    if |items| > 0 {
      assert (items + [x])[1..] == items[1..] + [x];
      ItemsOfCartAppend(items[1..], x, cart);
    }
  }

  lemma {:induction false} SumCostsAppend(rows: Table<CartItem>, x: Row<CartItem>, products: Table<Product>)
    requires ProductsPresent(rows, products) && x.rec.product in Ids(products)
    ensures ProductsPresent(rows + [x], products)
    ensures SumCosts(rows + [x], products)
         == SumCosts(rows, products) + ItemCost(x.rec, Find(products, x.rec.product).value)
  {
    if |rows| == 0 {
      assert [x][1..] == [];
    } else {
      assert (rows + [x])[1..] == rows[1..] + [x];
      HeadTail(rows);
      SumCostsAppend(rows[1..], x, products);
    }
  }

  /** A cart with no lines costs nothing. */
  lemma TotalCostOfEmptyCart(items: Table<CartItem>, products: Table<Product>, cart: Id)
    requires forall x | x in items :: x.rec.cart != cart
    ensures ProductsPresent(ItemsOfCart(items, cart), products)
    ensures TotalCost(items, products, cart) == 0
  {
  }

  /**
   * Adding a line raises the total of its own cart by exactly the line's
   * cost and leaves the total of every other cart as it was.
   */
  lemma TotalCostAppend(items: Table<CartItem>, x: Row<CartItem>, products: Table<Product>, cart: Id)
    requires ProductsPresent(ItemsOfCart(items, cart), products) && x.rec.product in Ids(products)
    ensures ProductsPresent(ItemsOfCart(items + [x], cart), products)
    ensures TotalCost(items + [x], products, cart)
         == TotalCost(items, products, cart) + ContributionTo(x, products, cart)
  {
    ItemsOfCartAppend(items, x, cart);
    if x.rec.cart == cart {
      SumCostsAppend(ItemsOfCart(items, cart), x, products);
    } else {
      assert ItemsOfCart(items + [x], cart) == ItemsOfCart(items, cart);
    }
  }

  /** Non-negative prices and quantities give a non-negative sum. */
  lemma {:induction false} SumCostsNonNegative(rows: Table<CartItem>, products: Table<Product>)
    requires ProductsPresent(rows, products)
    requires forall r | r in products :: r.rec.price >= 0
    requires forall r | r in rows :: r.rec.quantities >= 0
    ensures SumCosts(rows, products) >= 0
  {
    if |rows| > 0 {
      HeadTail(rows);
      SumCostsNonNegative(rows[1..], products);
    }
  }

  /** When every stored price and quantity is non-negative, so is every cart total. */
  lemma TotalCostNonNegative(items: Table<CartItem>, products: Table<Product>, cart: Id)
    requires ProductsPresent(items, products)
    requires forall r | r in products :: r.rec.price >= 0
    requires forall r | r in items :: r.rec.quantities >= 0
    ensures ProductsPresent(ItemsOfCart(items, cart), products)
    ensures TotalCost(items, products, cart) >= 0
  {
    SumCostsNonNegative(ItemsOfCart(items, cart), products);
  }
}

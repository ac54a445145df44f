/**
 * The persistence layer for the shop's five tables: saving runs the
 * validation each model's save() runs before writing, the unique key on
 * Cart.user rejects a second cart for a user, and deleting a row deletes,
 * in cascade, every row whose foreign key names a deleted row.
 */
module Store {
  import opened Wrappers
  import opened Tables
  import opened Models

  /** Keys of the products of category `c`. */
  function ProductsOfCategory(products: Table<Product>, c: Id): (s: set<Id>)
    ensures forall r | r in products && r.rec.category == c :: r.id in s
    ensures UniqueIds(products) ==> forall r | r in products && r.id in s :: r.rec.category == c
    ensures forall k | k in s :: exists r | r in products :: r.id == k && r.rec.category == c
  {
    KeyIdentifiesRow(products);
    set r | r in products && r.rec.category == c :: r.id
  }

  /** Keys of the products of manufacturer `m`. */
  function ProductsOfManufacturer(products: Table<Product>, m: Id): (s: set<Id>)
    ensures forall r | r in products && r.rec.manufacturer == m :: r.id in s
    ensures UniqueIds(products) ==> forall r | r in products && r.id in s :: r.rec.manufacturer == m
    ensures forall k | k in s :: exists r | r in products :: r.id == k && r.rec.manufacturer == m
  {
    KeyIdentifiesRow(products);
    set r | r in products && r.rec.manufacturer == m :: r.id
  }

  /** Keys of the cart lines whose product is one of `gone`. */
  function ItemsOfProducts(items: Table<CartItem>, gone: set<Id>): (s: set<Id>)
    ensures forall r | r in items && r.rec.product in gone :: r.id in s
    ensures UniqueIds(items) ==> forall r | r in items && r.id in s :: r.rec.product in gone
    ensures forall k | k in s :: exists r | r in items :: r.id == k && r.rec.product in gone
  {
    KeyIdentifiesRow(items);
    set r | r in items && r.rec.product in gone :: r.id
  }

  /** Keys of the cart lines whose cart is one of `gone`. */
  function ItemsOfCarts(items: Table<CartItem>, gone: set<Id>): (s: set<Id>)
    ensures forall r | r in items && r.rec.cart in gone :: r.id in s
    ensures UniqueIds(items) ==> forall r | r in items && r.id in s :: r.rec.cart in gone
    ensures forall k | k in s :: exists r | r in items :: r.id == k && r.rec.cart in gone
  {
    KeyIdentifiesRow(items);
    set r | r in items && r.rec.cart in gone :: r.id
  }

  /** Keys of the carts owned by user `u`. */
  function CartsOfUser(carts: Table<Cart>, u: UserId): (s: set<Id>)
    ensures forall r | r in carts && r.rec.user == u :: r.id in s
    ensures UniqueIds(carts) ==> forall r | r in carts && r.id in s :: r.rec.user == u
    ensures forall k | k in s :: exists r | r in carts :: r.id == k && r.rec.user == u
  {
    KeyIdentifiesRow(carts);
    set r | r in carts && r.rec.user == u :: r.id
  }

  /** The unique key on Cart.user: two carts of one user are one row. */
  ghost predicate OneCartPerUser(carts: Table<Cart>)
  {
    forall a, b | a in carts && b in carts && a.rec.user == b.rec.user :: a.id == b.id
  }

  /** Every stored product passed validation and names an existing category and manufacturer. */
  ghost predicate ProductsConsistent(products: Table<Product>, categories: set<Id>, manufacturers: set<Id>)
  {
    forall r | r in products ::
      ProductAcceptable(r.rec) && r.rec.category in categories && r.rec.manufacturer in manufacturers
  }

  /** Every stored line names an existing cart and product and has a quantity of at least 0. */
  ghost predicate ItemsConsistent(items: Table<CartItem>, carts: set<Id>, products: set<Id>)
  {
    forall r | r in items :: r.rec.cart in carts && r.rec.product in products && r.rec.quantities >= 0
  }

  /** Adding keys to the referenced tables keeps every line's references valid. */
  lemma ItemsConsistentGrow(items: Table<CartItem>, carts: set<Id>, carts': set<Id>, products: set<Id>, products': set<Id>)
    requires ItemsConsistent(items, carts, products) && carts <= carts' && products <= products'
    ensures ItemsConsistent(items, carts', products')
  {
  }

  /**
   * Saving a cart under `id` keeps one cart per user when no cart under
   * another key already belongs to the saved cart's user.
   */
  lemma OneCartPerUserUpsert(carts: Table<Cart>, id: Id, v: Cart)
    requires OneCartPerUser(carts)
    requires forall r | r in carts && r.id != id :: r.rec.user != v.user
    ensures OneCartPerUser(Upsert(carts, id, v))
  {
  }

  class Shop {
    var categories: Table<Category>
    var manufacturers: Table<Manufacturer>
    var products: Table<Product>
    var carts: Table<Cart>
    var items: Table<CartItem>

    /**
     * The database's invariant: primary keys are unique, every foreign key
     * names an existing row, every stored product passed validation, no
     * stored line has a negative quantity, and no user owns two carts.
     */
    ghost predicate Valid()
      reads this
    {
      && UniqueIds(categories) && UniqueIds(manufacturers) && UniqueIds(products)
      && UniqueIds(carts) && UniqueIds(items)
      && ProductsConsistent(products, Ids(categories), Ids(manufacturers))
      && ItemsConsistent(items, Ids(carts), Ids(products))
      && OneCartPerUser(carts)
    }

    /** An empty database. */
    constructor ()
      ensures Valid()
      ensures categories == [] && manufacturers == [] && products == []
      ensures carts == [] && items == []
    {
      categories, manufacturers, products := [], [], [];
      carts, items := [], [];
    }

    /** Category.save: the model runs no validation, so the write always happens. */
    method SaveCategory(id: Id, c: Category)
      requires Valid()
      modifies this`categories
      ensures Valid()
      ensures categories == Upsert(old(categories), id, c)
    {
      categories := Upsert(categories, id, c);
    }

    /** Manufacturer.save: the model runs no validation, so the write always happens. */
    method SaveManufacturer(id: Id, m: Manufacturer)
      requires Valid()
      modifies this`manufacturers
      ensures Valid()
      ensures manufacturers == Upsert(old(manufacturers), id, m)
    {
      manufacturers := Upsert(manufacturers, id, m);
    }

    /**
     * Product.save: full_clean first; the row under `id` is written only
     * when it reports nothing, and no other product's row changes.
     */
    method SaveProduct(id: Id, p: Product) returns (errors: seq<Violation>)
      requires Valid()
      modifies this`products
      ensures Valid()
      ensures errors == ProductErrors(p, Ids(categories), Ids(manufacturers))
      ensures errors != [] ==> products == old(products)
      ensures errors == [] ==> products == Upsert(old(products), id, p)
      ensures errors == [] ==> Find(products, id) == Some(p)
      ensures forall k | k != id :: Find(products, k) == Find(old(products), k)
    {
      errors := ProductErrors(p, Ids(categories), Ids(manufacturers));
      if errors == [] {
        products := Upsert(products, id, p);
      }
    }

    /**
     * Cart.save: the model runs no validation; the unique key on the user
     * rejects the write when another cart belongs to the same user. A new
     * cart's creation time is set to `now`; an update writes `c` as given.
     */
    method SaveCart(id: Id, c: Cart, now: int) returns (ok: bool)
      requires Valid()
      modifies this`carts
      ensures Valid()
      ensures ok <==> forall r | r in old(carts) && r.id != id :: r.rec.user != c.user
      ensures !ok ==> carts == old(carts)
      ensures ok ==> carts == Upsert(old(carts), id, if id in Ids(old(carts)) then c else c.(createdAt := now))
    {
      ok := forall r | r in carts && r.id != id :: r.rec.user != c.user;
      if ok {
        var stored := if id in Ids(carts) then c else c.(createdAt := now);
        var next := Upsert(carts, id, stored);
        OneCartPerUserUpsert(carts, id, stored);
        ItemsConsistentGrow(items, Ids(carts), Ids(next), Ids(products), Ids(products));
        carts := next;
      }
    }

    /**
     * CartItem.save: full_clean checks the foreign keys and the quantity but
     * not the stock, so a line asking for more than is in stock is stored.
     * A new line raises its cart's total by exactly its cost.
     */
    method SaveCartItem(id: Id, it: CartItem) returns (errors: seq<Violation>)
      requires Valid()
      modifies this`items
      ensures Valid()
      ensures errors == CartItemErrors(it, Ids(carts), Ids(products))
      ensures errors != [] ==> items == old(items)
      ensures errors == [] ==> items == Upsert(old(items), id, it)
      ensures errors == [] ==> Find(items, id) == Some(it)
      ensures forall k | k != id :: Find(items, k) == Find(old(items), k)
      ensures errors == [] && id !in Ids(old(items)) ==>
        forall c ::
          TotalCost(items, products, c) == TotalCost(old(items), products, c)
            + (if c == it.cart then ItemCost(it, Find(products, it.product).value) else 0)
    {
      errors := CartItemErrors(it, Ids(carts), Ids(products));
      if errors == [] {
        ghost var before := items;
        items := Upsert(items, id, it);
        if id !in Ids(before) {
          forall c
            ensures TotalCost(items, products, c) == TotalCost(before, products, c)
              + (if c == it.cart then ItemCost(it, Find(products, it.product).value) else 0)
          {
            TotalCostAppend(before, Row(id, it), products, c);
          }
        }
      }
    }

    /** Deleting a category deletes its products and, in turn, their cart lines. */
    method DeleteCategory(id: Id)
      requires Valid()
      modifies this`categories, this`products, this`items
      ensures Valid()
      ensures categories == DropIds(old(categories), {id})
      ensures products == DropIds(old(products), ProductsOfCategory(old(products), id))
      ensures items == DropIds(old(items), ItemsOfProducts(old(items), ProductsOfCategory(old(products), id)))
      ensures forall r | r in products :: r in old(products)
      ensures forall r | r in old(products) :: r in products <==> r.rec.category != id
      ensures forall r | r in items :: r in old(items)
      ensures forall r | r in old(items) :: r in items <==> Find(old(products), r.rec.product).value.category != id
    {
      var gone := ProductsOfCategory(products, id);
      CascadeProducts(gone);
      categories := DropIds(categories, {id});
    }

    /** Deleting a manufacturer deletes its products and, in turn, their cart lines. */
    method DeleteManufacturer(id: Id)
      requires Valid()
      modifies this`manufacturers, this`products, this`items
      ensures Valid()
      ensures manufacturers == DropIds(old(manufacturers), {id})
      ensures products == DropIds(old(products), ProductsOfManufacturer(old(products), id))
      ensures items == DropIds(old(items), ItemsOfProducts(old(items), ProductsOfManufacturer(old(products), id)))
      ensures forall r | r in products :: r in old(products)
      ensures forall r | r in old(products) :: r in products <==> r.rec.manufacturer != id
      ensures forall r | r in items :: r in old(items)
      ensures forall r | r in old(items) :: r in items <==> Find(old(products), r.rec.product).value.manufacturer != id
    {
      var gone := ProductsOfManufacturer(products, id);
      CascadeProducts(gone);
      manufacturers := DropIds(manufacturers, {id});
    }

    /** Deleting a product deletes the cart lines that name it. */
    method DeleteProduct(id: Id)
      requires Valid()
      modifies this`products, this`items
      ensures Valid()
      ensures products == DropIds(old(products), {id})
      ensures items == DropIds(old(items), ItemsOfProducts(old(items), {id}))
      ensures forall r | r in items :: r in old(items)
      ensures forall r | r in old(items) :: r in items <==> r.rec.product != id
    {
      CascadeProducts({id});
    }

    /**
     * The products whose keys are `gone` are deleted together with every
     * cart line naming one of them.
     */
    method CascadeProducts(gone: set<Id>)
      requires Valid()
      modifies this`products, this`items
      ensures Valid()
      ensures products == DropIds(old(products), gone)
      ensures items == DropIds(old(items), ItemsOfProducts(old(items), gone))
      ensures forall r | r in products :: r in old(products)
      ensures forall r | r in old(products) :: r in products <==> r.id !in gone
      ensures forall r | r in items :: r in old(items)
      ensures forall r | r in old(items) :: r in items <==> r.rec.product !in gone
    {
      items := DropIds(items, ItemsOfProducts(items, gone));
      products := DropIds(products, gone);
    }

    /** Deleting a cart deletes its lines; nothing is then left in its total. */
    method DeleteCart(id: Id)
      requires Valid()
      modifies this`carts, this`items
      ensures Valid()
      ensures carts == DropIds(old(carts), {id})
      ensures items == DropIds(old(items), ItemsOfCarts(old(items), {id}))
      ensures forall r | r in items :: r in old(items)
      ensures forall r | r in old(items) :: r in items <==> r.rec.cart != id
      ensures TotalCost(items, products, id) == 0
    {
      CascadeCarts({id});
      forall r | r in old(items) ensures r in items <==> r.rec.cart != id {
        assert r.rec.cart in {id} <==> r.rec.cart == id;
      }
      EmptiedCartTotal(items, products, id);
    }

    /**
     * Deleting a user of the authentication subsystem deletes the user's
     * cart and, in turn, its lines.
     */
    method DeleteUser(u: UserId)
      requires Valid()
      modifies this`carts, this`items
      ensures Valid()
      ensures carts == DropIds(old(carts), CartsOfUser(old(carts), u))
      ensures items == DropIds(old(items), ItemsOfCarts(old(items), CartsOfUser(old(carts), u)))
      ensures forall r | r in carts :: r in old(carts)
      ensures forall r | r in old(carts) :: r in carts <==> r.rec.user != u
      ensures forall r | r in items :: r in old(items)
      ensures forall r | r in old(items) :: r in items <==> Find(old(carts), r.rec.cart).value.user != u
    {
      var gone := CartsOfUser(carts, u);
      CascadeCarts(gone);
    }

    /** The carts whose keys are `gone` are deleted together with their lines. */
    method CascadeCarts(gone: set<Id>)
      requires Valid()
      modifies this`carts, this`items
      ensures Valid()
      ensures carts == DropIds(old(carts), gone)
      ensures items == DropIds(old(items), ItemsOfCarts(old(items), gone))
      ensures forall r | r in carts :: r in old(carts)
      ensures forall r | r in old(carts) :: r in carts <==> r.id !in gone
      ensures forall r | r in items :: r in old(items)
      ensures forall r | r in old(items) :: r in items <==> r.rec.cart !in gone
    {
      items := DropIds(items, ItemsOfCarts(items, gone));
      carts := DropIds(carts, gone);
    }

    /** Deleting a cart line; nothing refers to a line, so nothing else goes. */
    method DeleteCartItem(id: Id)
      requires Valid()
      modifies this`items
      ensures Valid()
      ensures items == DropIds(old(items), {id})
    {
      items := DropIds(items, {id});
    }
  }

  /** Once no line belongs to `cart`, its total is 0. */
  lemma EmptiedCartTotal(items: Table<CartItem>, products: Table<Product>, cart: Id)
    requires forall r | r in items :: r.rec.cart != cart
    ensures ItemsOfCart(items, cart) == []
    ensures ProductsPresent(ItemsOfCart(items, cart), products)
    ensures TotalCost(items, products, cart) == 0
  {
    TotalCostOfEmptyCart(items, products, cart);
  }

  /** In a consistent database every cart's total is non-negative. */
  lemma StoredTotalsNonNegative(s: Shop, cart: Id)
    requires s.Valid()
    ensures ProductsPresent(ItemsOfCart(s.items, cart), s.products)
    ensures TotalCost(s.items, s.products, cart) >= 0
  {
    TotalCostNonNegative(s.items, s.products, cart);
  }
}

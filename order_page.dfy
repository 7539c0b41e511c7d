/**
 * The storage effects of the order page (src/pages/Order.tsx): loading the cart on mount
 * (the minimal key first, else a one-time migration of the legacy key), persisting the
 * minimal cart whenever it changes, and hydrating the loaded cart against the product list.
 * A failing `localStorage.setItem` (quota exceeded) is a parameter.
 */
module OrderPage {
  import opened Wrappers
  import opened Catalog
  import opened Cart
  import opened Storage
  import DataService

  /** The minimal key holds valid JSON, so loading stops there. */
  predicate MinimalKeyParses(c: Option<Stored<StoredItem>>)
  {
    c.Some? && (c.value.List? || c.value.NotList?)
  }

  /** `Array.isArray(parsed) ? parsed : []` for a key that parses. */
  function ArrayOrEmpty<T>(s: Stored<T>): (r: seq<T>)
    ensures s.List? ==> r == s.items
    ensures !s.List? ==> r == []
  {
    if s.List? then s.items else []
  }

  /** The legacy key holds valid JSON, so it is migrated. */
  predicate LegacyKeyParses(c: Option<Stored<LegacyEntry>>)
  {
    c.Some? && (c.value.List? || c.value.NotList?)
  }

  /**
   * The cart-loading effect. A minimal cart that parses becomes placeholders and nothing
   * is written. Otherwise a legacy cart that parses is migrated: the migrated entries are
   * written to the minimal key (or, if that write fails, the legacy key is removed) and
   * become placeholders. Anything else leaves the cart empty and storage untouched.
   */
  method LoadCart(ls: LocalStorage, quotaExceeded: bool) returns (cart: seq<CartItem>)
    modifies ls`cart, ls`legacyCart
    ensures MinimalKeyParses(old(ls.cart)) ==>
      cart == Placeholders(ArrayOrEmpty(old(ls.cart).value)) &&
      ls.cart == old(ls.cart) && ls.legacyCart == old(ls.legacyCart)
    ensures !MinimalKeyParses(old(ls.cart)) && LegacyKeyParses(old(ls.legacyCart)) ==>
      var migrated := Migrate(ArrayOrEmpty(old(ls.legacyCart).value));
      cart == Placeholders(migrated) &&
      ls.cart == (if quotaExceeded then old(ls.cart) else Some(List(migrated))) &&
      ls.legacyCart == (if quotaExceeded then None else old(ls.legacyCart))
    ensures !MinimalKeyParses(old(ls.cart)) && !LegacyKeyParses(old(ls.legacyCart)) ==>
      cart == [] && ls.cart == old(ls.cart) && ls.legacyCart == old(ls.legacyCart)
  {
    cart := [];
    if ls.cart.Some? && ls.cart.value != Blank {
      match ls.cart.value
      case List(items) =>
        return Placeholders(items);
      case NotList =>
        return Placeholders([]);
      case Malformed =>
        // JSON.parse threw: fall through to the legacy key
    }
    if ls.legacyCart.None? || ls.legacyCart == Some(Blank) {
      return;
    }
    match ls.legacyCart.value
    case Malformed =>
      return;
    case NotList =>
      cart := MigrateAndStore(ls, [], quotaExceeded);
    case List(entries) =>
      cart := MigrateAndStore(ls, entries, quotaExceeded);
  }

  /** The migration step of the cart-loading effect. */
  method MigrateAndStore(ls: LocalStorage, entries: seq<LegacyEntry>, quotaExceeded: bool) returns (cart: seq<CartItem>)
    modifies ls`cart, ls`legacyCart
    ensures cart == Placeholders(Migrate(entries))
    ensures ls.cart == if quotaExceeded then old(ls.cart) else Some(List(Migrate(entries)))
    ensures ls.legacyCart == if quotaExceeded then None else old(ls.legacyCart)
  {
    var minimal := Migrate(entries);
    if quotaExceeded {
      ls.legacyCart := None;
    } else {
      ls.cart := Some(List(minimal));
    }
    cart := Placeholders(minimal);
  }

  /** The persist effect: the minimal form of the cart is written, unless the write fails. */
  method PersistCart(ls: LocalStorage, cart: seq<CartItem>, quotaExceeded: bool)
    modifies ls`cart
    ensures ls.cart == if quotaExceeded then old(ls.cart) else Some(List(Minimal(cart)))
  {
    if !quotaExceeded {
      ls.cart := Some(List(Minimal(cart)));
    }
  }

  /**
   * The product-loading effect: the products come from the data service, and the cart
   * keeps only items whose product was loaded, now carrying that product's fields.
   */
  method LoadProducts(ls: LocalStorage, remote: DataService.Reply<seq<Product>>, prev: seq<CartItem>)
    returns (products: seq<Product>, cart: seq<CartItem>)
    ensures remote.Returned? ==> products == remote.value
    ensures remote.Threw? ==> products == ListOrEmpty(ls.products)
    ensures Minimal(cart) == Seqs.Filter(Listed(products), Minimal(prev))
    ensures forall item :: item in cart ==> item.product in products
  {
    products := DataService.GetProducts(ls, remote);
    cart := Hydrate(prev, products);
    HydrateKeepsListedEntries(prev, products);
  }

  /**
   * Persisting a cart and loading the page again restores the same cart, when the product
   * list (with unique ids) still holds every product in it.
   */
  method ReloadRestoresCart(ls: LocalStorage, cart: seq<CartItem>, loaded: seq<Product>) returns (restored: seq<CartItem>)
    requires UniqueProductIds(loaded)
    requires forall item :: item in cart ==> item.product in loaded
    modifies ls`cart, ls`legacyCart
    ensures restored == cart
  {
    PersistCart(ls, cart, false);
    var placeholders := LoadCart(ls, false);
    restored := Hydrate(placeholders, loaded);
    PersistHydrateRoundTrip(cart, loaded);
  }
}

/**
 * The shopping-cart rules of the order page (src/pages/Order.tsx): adding, changing and
 * removing items, pricing, the minimal form the cart is persisted in, rehydration of that
 * form against the product list, and the migration of the legacy cart format.
 * Each React state update `setCart(prev => ...)` is a function from the old cart to the new.
 */
module Cart {
  import opened Wrappers
  import opened Seqs
  import opened Catalog
  import opened Storage

  /** `CartItem extends Product { quantity }`: a product snapshot with a quantity. */
  datatype CartItem = CartItem(product: Product, quantity: int)

  /** The outcome of the checks at the start of the receipt handler. */
  datatype Gate = CartEmpty | ContactMissing | Proceed

  /** No two items of the cart are for the same product id. */
  predicate UniqueIds(cart: seq<CartItem>)
  {
    forall i, j :: 0 <= i < j < |cart| ==> cart[i].product.id != cart[j].product.id
  }

  /** Every item has a quantity of at least one. */
  predicate PositiveQuantities(cart: seq<CartItem>)
  {
    forall i :: 0 <= i < |cart| ==> cart[i].quantity >= 1
  }

  /** `prev.find(item => item.id === id)` finds something. */
  predicate InCart(cart: seq<CartItem>, id: string)
  {
    exists item :: item in cart && item.product.id == id
  }

  function Increment(id: string): CartItem -> CartItem
  {
    (item: CartItem) => if item.product.id == id then item.(quantity := item.quantity + 1) else item
  }

  /**
   * `addToCart(product)`: when an item for the product's id exists, every such item's quantity
   * goes up by one and nothing else changes; otherwise the product is appended with quantity 1.
   */
  function AddToCart(cart: seq<CartItem>, p: Product): (r: seq<CartItem>)
    ensures InCart(cart, p.id) ==> |r| == |cart|
    ensures InCart(cart, p.id) ==>
      forall i :: 0 <= i < |cart| ==>
        r[i] == if cart[i].product.id == p.id then cart[i].(quantity := cart[i].quantity + 1) else cart[i]
    ensures !InCart(cart, p.id) ==> r == cart + [CartItem(p, 1)]
  {
    if InCart(cart, p.id) then Map(Increment(p.id), cart) else cart + [CartItem(p, 1)]
  }

  function SetQuantity(id: string, delta: int): CartItem -> CartItem
  {
    (item: CartItem) =>
      if item.product.id == id then item.(quantity := Max(1, item.quantity + delta)) else item
  }

  function HasPositiveQuantity(): CartItem -> bool
  {
    (item: CartItem) => item.quantity > 0
  }

  /** `Math.max(a, b)` on integers. */
  function Max(a: int, b: int): int
  {
    if a < b then b else a
  }

  /**
   * `updateQuantity(id, delta)`: every item for `id` now has quantity `max(1, q + delta)` and
   * stays; any other item stays unchanged if its quantity is positive and is dropped otherwise;
   * no item of the result has a quantity below one.
   */
  function UpdateQuantity(cart: seq<CartItem>, id: string, delta: int): (r: seq<CartItem>)
    ensures forall i :: 0 <= i < |cart| && cart[i].product.id == id ==>
      cart[i].(quantity := Max(1, cart[i].quantity + delta)) in r
    ensures forall i :: 0 <= i < |cart| && cart[i].product.id != id && cart[i].quantity > 0 ==>
      cart[i] in r
    ensures forall item :: item in r ==> item.quantity >= 1
    ensures |r| <= |cart|
  {
    var mapped := Map(SetQuantity(id, delta), cart);
    assert forall i :: 0 <= i < |cart| ==> mapped[i] in mapped;
    Filter(HasPositiveQuantity(), mapped)
  }

  /** When every quantity is already positive, `updateQuantity` keeps every item in place. */
  lemma UpdateQuantityKeepsItems(cart: seq<CartItem>, id: string, delta: int)
    requires PositiveQuantities(cart)
    ensures UpdateQuantity(cart, id, delta) == Map(SetQuantity(id, delta), cart)
  {
    var mapped := Map(SetQuantity(id, delta), cart);
    assert forall item :: item in mapped ==> HasPositiveQuantity()(item);
    FilterKeepsAll(HasPositiveQuantity(), mapped);
  }

  function OtherItem(id: string): CartItem -> bool
  {
    (item: CartItem) => item.product.id != id
  }

  /** `removeFromCart(id)`: no item for `id` is left; all other items stay, as often as they occurred, in order. */
  function RemoveFromCart(cart: seq<CartItem>, id: string): (r: seq<CartItem>)
    ensures forall item :: item in r ==> item.product.id != id
    ensures forall item :: item in cart && item.product.id != id ==> item in r
    ensures forall item :: multiset(r)[item] == if item.product.id != id then multiset(cart)[item] else 0
    ensures IsSubsequence(r, cart)
  {
    FilterIsSubsequence(OtherItem(id), cart);
    Filter(OtherItem(id), cart)
  }

  /** Adding a product and then removing its id leaves the cart as removing the id alone would. */
  lemma {:induction false} AddThenRemove(cart: seq<CartItem>, p: Product)
    ensures RemoveFromCart(AddToCart(cart, p), p.id) == RemoveFromCart(cart, p.id)
  {
    if InCart(cart, p.id) {
      RemoveIgnoresIncrement(cart, p.id);
    } else {
      FilterAppend(OtherItem(p.id), cart, [CartItem(p, 1)]);
      assert Filter(OtherItem(p.id), [CartItem(p, 1)]) == [];
    }
  }

  lemma {:induction false} RemoveIgnoresIncrement(cart: seq<CartItem>, id: string)
    ensures Filter(OtherItem(id), Map(Increment(id), cart)) == Filter(OtherItem(id), cart)
  {
    if cart != [] {
      RemoveIgnoresIncrement(cart[1..], id);
      assert Map(Increment(id), cart)[1..] == Map(Increment(id), cart[1..]);
    }
  }

  /** `addToCart` never creates a second item for the same product id. */
  lemma AddToCartKeepsIdsUnique(cart: seq<CartItem>, p: Product)
    requires UniqueIds(cart)
    ensures UniqueIds(AddToCart(cart, p))
  {
    var r := AddToCart(cart, p);
    if !InCart(cart, p.id) {
      forall i, j | 0 <= i < j < |r| ensures r[i].product.id != r[j].product.id {
        if j == |cart| {
          assert cart[i] in cart;
        }
      }
    }
  }

  /** `addToCart` keeps every quantity at least one. */
  lemma AddToCartKeepsQuantitiesPositive(cart: seq<CartItem>, p: Product)
    requires PositiveQuantities(cart)
    ensures PositiveQuantities(AddToCart(cart, p))
  {
  }

  /** The unit price an item is charged: wholesale from `minWholesaleQty` upwards (inclusive), retail below. */
  function UnitPrice(item: CartItem): (price: int)
    ensures item.quantity >= item.product.minWholesaleQty ==> price == item.product.wholesalePrice
    ensures item.quantity < item.product.minWholesaleQty ==> price == item.product.retailPrice
  {
    if item.quantity >= item.product.minWholesaleQty then item.product.wholesalePrice
    else item.product.retailPrice
  }

  /** Prices and quantities are not negative. */
  predicate NonNegative(cart: seq<CartItem>)
  {
    forall i :: 0 <= i < |cart| ==>
      cart[i].quantity >= 0 && cart[i].product.retailPrice >= 0 && cart[i].product.wholesalePrice >= 0
  }

  /**
   * `getTotal()`: `cart.reduce((sum, item) => sum + unitPrice(item) * item.quantity, 0)`,
   * folded from the left; it is never negative when no price or quantity is.
   */
  function Total(cart: seq<CartItem>): (total: int)
    ensures NonNegative(cart) ==> total >= 0
  {
    if cart == [] then 0
    else
      var last := cart[|cart| - 1];
      Total(cart[..|cart| - 1]) + UnitPrice(last) * last.quantity
  }

  /** The total of two carts placed one after the other is the sum of their totals. */
  lemma {:induction false} TotalAppend(a: seq<CartItem>, b: seq<CartItem>)
    ensures Total(a + b) == Total(a) + Total(b)
    decreases |b|
  {
    if b == [] {
      assert a + b == a;
    } else {
      var b' := b[..|b| - 1];
      assert (a + b)[..|a + b| - 1] == a + b';
      TotalAppend(a, b');
    }
  }

  /**
   * The threshold is inclusive: a product at retail 59, wholesale 45, minimum 10 costs
   * 5 x 59 = 295 for five pieces and 10 x 45 = 450 for ten.
   */
  lemma WholesaleThresholdExample(p: Product)
    requires p.retailPrice == 59 && p.wholesalePrice == 45 && p.minWholesaleQty == 10
    ensures Total([CartItem(p, 5)]) == 295
    ensures Total([CartItem(p, 10)]) == 450
  {
    assert [CartItem(p, 5)][..0] == [];
    assert [CartItem(p, 10)][..0] == [];
  }

  /** The persisted form of an item. */
  function ToStored(): CartItem -> StoredItem
  {
    (item: CartItem) => StoredItem(item.product.id, item.quantity)
  }

  /** `cart.map(i => ({ id: i.id, quantity: i.quantity }))`: one entry per item, same id and quantity. */
  function Minimal(cart: seq<CartItem>): (r: seq<StoredItem>)
    ensures |r| == |cart|
    ensures forall i :: 0 <= i < |cart| ==>
      r[i].id == cart[i].product.id && r[i].quantity == cart[i].quantity
  {
    Map(ToStored(), cart)
  }

  /** The item the cart-loading effect creates from a stored entry before products are loaded. */
  function Placeholder(s: StoredItem): (item: CartItem)
    ensures item.product.id == s.id && item.quantity == s.quantity
  {
    CartItem(Product(s.id, "", "", 0, 0, 0, None, None, None, NoStamp), s.quantity)
  }

  function Placeholders(stored: seq<StoredItem>): (r: seq<CartItem>)
    ensures Minimal(r) == stored
  {
    var r := Map((s: StoredItem) => Placeholder(s), stored);
    assert forall i :: 0 <= i < |stored| ==> Minimal(r)[i] == stored[i];
    r
  }

  /** `loaded.find(x => x.id === id)`: a product with that id, if the list has one. */
  function FindById(ps: seq<Product>, id: string): (r: Option<Product>)
    ensures r.None? <==> forall p :: p in ps ==> p.id != id
    ensures r.Some? ==> r.value in ps && r.value.id == id
  {
    if ps == [] then None
    else if ps[0].id == id then Some(ps[0])
    else FindById(ps[1..], id)
  }

  /** No two products share an id. */
  predicate UniqueProductIds(ps: seq<Product>)
  {
    forall i, j :: 0 <= i < j < |ps| ==> ps[i].id != ps[j].id
  }

  /** With unique ids, looking a listed product up by its id finds that product. */
  lemma FindListedProduct(ps: seq<Product>, p: Product)
    requires UniqueProductIds(ps) && p in ps
    ensures FindById(ps, p.id) == Some(p)
  {
    var r := FindById(ps, p.id);
    var k :| 0 <= k < |ps| && ps[k] == p;
    var i :| 0 <= i < |ps| && ps[i] == r.value;
    if i != k {
      assert ps[i].id == ps[k].id;
    }
  }

  /**
   * The hydration step after products load: each item whose id occurs in `loaded` becomes
   * that product with the item's quantity; items whose id does not occur are dropped.
   */
  function Hydrate(prev: seq<CartItem>, loaded: seq<Product>): (r: seq<CartItem>)
    ensures |r| <= |prev|
    ensures forall item :: item in r ==> item.product in loaded
  {
    if prev == [] then []
    else
      var head := match FindById(loaded, prev[0].product.id)
        case None => []
        case Some(p) => [CartItem(p, prev[0].quantity)];
      head + Hydrate(prev[1..], loaded)
  }

  function Listed(loaded: seq<Product>): StoredItem -> bool
  {
    (s: StoredItem) => exists p :: p in loaded && p.id == s.id
  }

  /**
   * Hydration keeps exactly the entries whose id occurs in the loaded list, in their order
   * and with their quantity.
   */
  lemma {:induction false} HydrateKeepsListedEntries(prev: seq<CartItem>, loaded: seq<Product>)
    ensures Minimal(Hydrate(prev, loaded)) == Filter(Listed(loaded), Minimal(prev))
  {
    if prev != [] {
      HydrateKeepsListedEntries(prev[1..], loaded);
      var found := FindById(loaded, prev[0].product.id);
      var head := if found.None? then [] else [CartItem(found.value, prev[0].quantity)];
      assert Hydrate(prev, loaded) == head + Hydrate(prev[1..], loaded);
      MinimalAppend(head, Hydrate(prev[1..], loaded));
      assert Minimal(prev)[1..] == Minimal(prev[1..]);
      if found.Some? {
        assert Listed(loaded)(Minimal(prev)[0]) by { assert found.value in loaded; }
      }
    }
  }

  lemma MinimalAppend(a: seq<CartItem>, b: seq<CartItem>)
    ensures Minimal(a + b) == Minimal(a) + Minimal(b)
  {
    assert forall i :: 0 <= i < |a + b| ==> Minimal(a + b)[i] == (Minimal(a) + Minimal(b))[i];
  }

  /** Hydration looks only at ids and quantities, which is what the minimal persisted form keeps. */
  lemma {:induction false} HydrateSeesOnlyMinimal(a: seq<CartItem>, b: seq<CartItem>, loaded: seq<Product>)
    requires Minimal(a) == Minimal(b)
    ensures Hydrate(a, loaded) == Hydrate(b, loaded)
  {
    if a != [] {
      assert Minimal(a)[0] == Minimal(b)[0];
      assert Minimal(a[1..]) == Minimal(a)[1..];
      assert Minimal(b[1..]) == Minimal(b)[1..];
      HydrateSeesOnlyMinimal(a[1..], b[1..], loaded);
    }
  }

  /**
   * Round trip: persisting a cart as `{ id, quantity }` pairs, loading them back as
   * placeholders and hydrating against a product list (with unique ids) that holds every
   * product of the cart gives back the original cart.
   */
  lemma {:induction false} PersistHydrateRoundTrip(cart: seq<CartItem>, loaded: seq<Product>)
    requires UniqueProductIds(loaded)
    requires forall item :: item in cart ==> item.product in loaded
    ensures Hydrate(Placeholders(Minimal(cart)), loaded) == cart
  {
    HydrateSeesOnlyMinimal(Placeholders(Minimal(cart)), cart, loaded);
    HydrateListedCart(cart, loaded);
  }

  lemma {:induction false} HydrateListedCart(cart: seq<CartItem>, loaded: seq<Product>)
    requires UniqueProductIds(loaded)
    requires forall item :: item in cart ==> item.product in loaded
    ensures Hydrate(cart, loaded) == cart
  {
    if cart != [] {
      assert cart[0] in cart;
      FindListedProduct(loaded, cart[0].product);
      assert forall item :: item in cart[1..] ==> item in cart;
      HydrateListedCart(cart[1..], loaded);
    }
  }

  /** JavaScript truthiness of a legacy id: a non-empty string or a non-zero number. */
  predicate Truthy(id: LegacyId)
  {
    match id
    case NoId => false
    case IdText(s) => s != ""
    case IdNumber(n) => n != 0
  }

  /** `String(id)` for a truthy id: the text itself, or the number in decimal. */
  function IdString(id: LegacyId): (s: string)
    requires Truthy(id)
    ensures s != ""
    ensures id.IdText? ==> s == id.text
    ensures id.IdNumber? ==> s == DecimalString(id.n)
  {
    match id
    case IdText(s) => s
    case IdNumber(n) => DecimalString(n)
  }

  /**
   * The decimal notation of an integer: its digits, with a leading '-' when it is negative,
   * and no leading zero except for zero itself.
   */
  function DecimalString(n: int): (s: string)
    ensures |s| > 0
    ensures n < 0 <==> s[0] == '-'
    ensures n >= 0 ==> IsDigits(s) && DigitsValue(s) == n
    ensures n > 0 ==> s[0] != '0'
    ensures n < 0 ==> IsDigits(s[1..]) && DigitsValue(s[1..]) == -n && s[1] != '0'
  {
    if n < 0 then
      var d := Digits(-n);
      assert ("-" + d)[1..] == d;
      "-" + d
    else Digits(n)
  }

  /** A non-empty string of decimal digits. */
  predicate IsDigits(s: string)
  {
    |s| > 0 && forall i :: 0 <= i < |s| ==> '0' <= s[i] <= '9'
  }

  /** The number a string of decimal digits denotes, most significant digit first. */
  function DigitsValue(s: string): nat
    requires forall i :: 0 <= i < |s| ==> '0' <= s[i] <= '9'
  {
    if s == [] then 0
    else DigitsValue(s[..|s| - 1]) * 10 + (s[|s| - 1] as int - '0' as int)
  }

  /** The digits of a natural number: they denote it, and only zero starts with '0'. */
  function Digits(n: nat): (s: string)
    ensures IsDigits(s) && DigitsValue(s) == n
    ensures s[0] == '0' <==> n == 0
  {
    if n < 10 then [Digit(n)]
    else
      var prefix := Digits(n / 10);
      var s := prefix + [Digit(n % 10)];
      assert s[..|s| - 1] == prefix;
      s
  }

  /** The character of a single decimal digit. */
  function Digit(d: nat): (c: char)
    requires d < 10
    ensures '0' <= c <= '9' && c as int - '0' as int == d
  {
    ['0', '1', '2', '3', '4', '5', '6', '7', '8', '9'][d]
  }

  /**
   * Legacy migration: keep only object entries with a truthy id, in order; the id becomes a
   * string and a missing quantity becomes 1.
   */
  function Migrate(entries: seq<LegacyEntry>): (r: seq<StoredItem>)
    ensures |r| <= |entries|
    ensures forall s :: s in r ==> s.id != ""
  {
    if entries == [] then [] else MigrateEntry(entries[0]) + Migrate(entries[1..])
  }

  /** What one legacy entry migrates to: nothing, or one `{ id, quantity }` with a non-empty id. */
  function MigrateEntry(e: LegacyEntry): (r: seq<StoredItem>)
    ensures |r| <= 1
    ensures forall s :: s in r ==> s.id != ""
  {
    match e
    case NotObject => []
    case Entry(id, q) => if Truthy(id) then [StoredItem(IdString(id), q.GetOr(1))] else []
  }

  /** Entries that are objects with a non-empty string id all survive migration, one for one. */
  lemma {:induction false} MigrateWellFormed(entries: seq<LegacyEntry>)
    requires forall i :: 0 <= i < |entries| ==>
      entries[i].Entry? && entries[i].id.IdText? && entries[i].id.text != ""
    ensures |Migrate(entries)| == |entries|
    ensures forall i :: 0 <= i < |entries| ==>
      Migrate(entries)[i] == StoredItem(entries[i].id.text, entries[i].quantity.GetOr(1))
  {
    if entries != [] {
      MigrateWellFormed(entries[1..]);
    }
  }

  /**
   * Migrating one entry: a non-object or an entry with a falsy id is dropped; any other
   * entry becomes its id as a string and its quantity, 1 when missing.
   */
  lemma MigrateOne(e: LegacyEntry)
    ensures e.NotObject? || !Truthy(e.id) ==> Migrate([e]) == []
    ensures e.Entry? && Truthy(e.id) ==> Migrate([e]) == [StoredItem(IdString(e.id), e.quantity.GetOr(1))]
  {
    assert [e][1..] == [];
  }

  /** Migration works entry by entry: migrating a concatenation concatenates the migrations. */
  lemma {:induction false} MigrateAppend(a: seq<LegacyEntry>, b: seq<LegacyEntry>)
    ensures Migrate(a + b) == Migrate(a) + Migrate(b)
  {
    if a == [] {
      assert a + b == b;
    } else {
      assert (a + b)[0] == a[0];
      assert (a + b)[1..] == a[1..] + b;
      MigrateAppend(a[1..], b);
      assert Migrate(a + b) == MigrateEntry(a[0]) + (Migrate(a[1..]) + Migrate(b));
    }
  }

  /**
   * The checks before a receipt is drawn: refused with an empty cart, then refused while the
   * customer name or phone is empty; otherwise drawing proceeds.
   */
  function ReceiptGate(cart: seq<CartItem>, name: string, phone: string): (g: Gate)
    ensures g == Proceed <==> |cart| > 0 && name != "" && phone != ""
    ensures |cart| == 0 ==> g == CartEmpty
  {
    if |cart| == 0 then CartEmpty
    else if name == "" || phone == "" then ContactMissing
    else Proceed
  }
}

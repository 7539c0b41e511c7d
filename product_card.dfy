/**
 * src/components/ProductCard.tsx: the card's "add to cart" button, which works directly on
 * the stored minimal cart: it bumps the first entry for the product, or appends a new entry
 * with quantity 1, and writes the array back.
 */
module ProductCard {
  import opened Wrappers
  import opened Catalog
  import opened Cart
  import opened Storage

  /** No entry of `items` before index `k` is for `id`. */
  predicate NoneBefore(items: seq<StoredItem>, id: string, k: int)
    requires 0 <= k <= |items|
  {
    forall j :: 0 <= j < k ==> items[j].id != id
  }

  /**
   * The stored cart after one "add to cart": the first entry for `id` has its quantity
   * raised by exactly one and every other entry is as it was; without such an entry,
   * `{ id, quantity: 1 }` is appended at the end.
   */
  function Bumped(items: seq<StoredItem>, id: string): (r: seq<StoredItem>)
    ensures NoneBefore(items, id, |items|) ==> r == items + [StoredItem(id, 1)]
    ensures forall k :: 0 <= k < |items| && items[k].id == id && NoneBefore(items, id, k) ==>
      r == items[k := items[k].(quantity := items[k].quantity + 1)]
  {
    if items == [] then [StoredItem(id, 1)]
    else if items[0].id == id then [items[0].(quantity := items[0].quantity + 1)] + items[1..]
    else
      var rest := Bumped(items[1..], id);
      assert forall k :: 1 <= k <= |items| && NoneBefore(items, id, k) ==> NoneBefore(items[1..], id, k - 1);
      [items[0]] + rest
  }

  /**
   * `handleAddToCart()`. An absent or empty key counts as an empty cart. Content that does
   * not parse, or parses to something other than an array, takes the error path and nothing
   * is written; otherwise the bumped array is written back.
   */
  method HandleAddToCart(ls: LocalStorage, id: string) returns (ok: bool)
    modifies ls`cart
    ensures ok <==> old(ls.cart) != Some(Malformed) && old(ls.cart) != Some(NotList)
    ensures !ok ==> ls.cart == old(ls.cart)
    ensures ok && (old(ls.cart).None? || old(ls.cart) == Some(Blank)) ==> ls.cart == Some(List([StoredItem(id, 1)]))
    ensures ok && old(ls.cart).Some? && old(ls.cart).value.List? ==>
      ls.cart == Some(List(Bumped(old(ls.cart).value.items, id)))
  {
    var items: seq<StoredItem>;
    match ls.cart {
      case None => items := [];
      case Some(Blank) => items := [];
      case Some(List(xs)) => items := xs;
      case Some(Malformed) => return false;
      case Some(NotList) => return false;
    }
    var i := 0;
    while i < |items| && items[i].id != id
      invariant 0 <= i <= |items|
      invariant NoneBefore(items, id, i)
    {
      i := i + 1;
    }
    if i < |items| {
      items := items[i := items[i].(quantity := items[i].quantity + 1)];
    } else {
      assert items == [] ==> items + [StoredItem(id, 1)] == [StoredItem(id, 1)];
      items := items + [StoredItem(id, 1)];
    }
    ls.cart := Some(List(items));
    ok := true;
  }

  /**
   * On the `{ id, quantity }` projection the card's update agrees with the order page's
   * `addToCart`, for a cart without duplicate ids (which `addToCart` preserves).
   */
  lemma AgreesWithAddToCart(cart: seq<CartItem>, p: Product)
    requires UniqueIds(cart)
    ensures Minimal(AddToCart(cart, p)) == Bumped(Minimal(cart), p.id)
  {
    var m := Minimal(cart);
    if InCart(cart, p.id) {
      var k := FirstWithId(cart, p.id);
      IncrementOnlyAt(cart, p, k);
    } else {
      assert NoneBefore(m, p.id, |m|) by {
        forall j | 0 <= j < |m| ensures m[j].id != p.id {
          assert cart[j] in cart;
        }
      }
      MinimalAppend(cart, [CartItem(p, 1)]);
    }
  }

  /** The position of the first item for `id` in a cart that has one. */
  lemma FirstWithId(cart: seq<CartItem>, id: string) returns (k: nat)
    requires InCart(cart, id)
    ensures k < |cart| && cart[k].product.id == id
    ensures NoneBefore(Minimal(cart), id, k)
  {
    var item :| item in cart && item.product.id == id;
    var i :| 0 <= i < |cart| && cart[i] == item;
    k := 0;
    while cart[k].product.id != id
      invariant k <= i
      invariant NoneBefore(Minimal(cart), id, k)
      decreases i - k
    {
      k := k + 1;
    }
  }

  /** With unique ids, `addToCart` of a product already in the cart touches only the item at its one position. */
  lemma IncrementOnlyAt(cart: seq<CartItem>, p: Product, k: nat)
    requires UniqueIds(cart) && InCart(cart, p.id)
    requires k < |cart| && cart[k].product.id == p.id
    ensures var m := Minimal(cart);
      Minimal(AddToCart(cart, p)) == m[k := m[k].(quantity := m[k].quantity + 1)]
  {
    var m := Minimal(cart);
    var after := Minimal(AddToCart(cart, p));
    var expected := m[k := m[k].(quantity := m[k].quantity + 1)];
    assert |after| == |expected|;
    forall i | 0 <= i < |after| ensures after[i] == expected[i] {
      if i != k {
        assert cart[i].product.id != p.id;
      }
    }
  }
}

/**
 * The product and category records of the storefront and the list operations that both
 * local catalog stores (src/lib/products-db.ts and src/lib/products.ts) perform on them.
 * Prices are whole baht, so they are integers.
 */
module Catalog {
  import opened Wrappers
  import opened Seqs

  /** A product's `pinnedAt`: `undefined`, `null`, or a millisecond timestamp. */
  datatype Stamp = NoStamp | NullStamp | At(ms: int)

  /**
   * A stored product. `description`, `category` and `pinned` are optional properties
   * (None is `undefined`); `image` is always a string, possibly empty.
   */
  datatype Product = Product(
    id: string,
    name: string,
    image: string,
    retailPrice: int,
    wholesalePrice: int,
    minWholesaleQty: int,
    description: Option<string>,
    category: Option<string>,
    pinned: Option<bool>,
    pinnedAt: Stamp)
  {
    /** The product without its id: `Omit<Product, 'id'>`. */
    function Fields(): Draft {
      Draft(name, image, retailPrice, wholesalePrice, minWholesaleQty,
            description, category, pinned, pinnedAt)
    }
  }

  /** What a caller supplies to create a product: every field except the id. */
  datatype Draft = Draft(
    name: string,
    image: string,
    retailPrice: int,
    wholesalePrice: int,
    minWholesaleQty: int,
    description: Option<string>,
    category: Option<string>,
    pinned: Option<bool>,
    pinnedAt: Stamp)
  {
    /** `{ ...draft, id }` */
    function WithId(id: string): (p: Product)
      ensures p.id == id && p.Fields() == this
    {
      Product(id, name, image, retailPrice, wholesalePrice, minWholesaleQty,
              description, category, pinned, pinnedAt)
    }
  }

  /**
   * `Partial<Product>`: each field is Some exactly when the key is present in the update
   * object. For the optional fields the supplied value may itself be `undefined`
   * (None, or NoStamp for `pinnedAt`), which the object spread still copies.
   */
  datatype Patch = Patch(
    id: Option<string>,
    name: Option<string>,
    image: Option<string>,
    retailPrice: Option<int>,
    wholesalePrice: Option<int>,
    minWholesaleQty: Option<int>,
    description: Option<Option<string>>,
    category: Option<Option<string>>,
    pinned: Option<Option<bool>>,
    pinnedAt: Option<Stamp>)

  /** The update object `{}`. */
  const NoChange := Patch(None, None, None, None, None, None, None, None, None, None)

  /**
   * `{ ...p, ...u }`: each field the update object carries replaces the product's own;
   * every other field is kept.
   */
  function Merge(p: Product, u: Patch): (r: Product)
    ensures u.id.None? ==> r.id == p.id
    ensures u.id.Some? ==> r.id == u.id.value
    ensures u.name.None? ==> r.name == p.name
    ensures u.name.Some? ==> r.name == u.name.value
    ensures u.image.None? ==> r.image == p.image
    ensures u.image.Some? ==> r.image == u.image.value
    ensures u.retailPrice.None? ==> r.retailPrice == p.retailPrice
    ensures u.retailPrice.Some? ==> r.retailPrice == u.retailPrice.value
    ensures u.wholesalePrice.None? ==> r.wholesalePrice == p.wholesalePrice
    ensures u.wholesalePrice.Some? ==> r.wholesalePrice == u.wholesalePrice.value
    ensures u.minWholesaleQty.None? ==> r.minWholesaleQty == p.minWholesaleQty
    ensures u.minWholesaleQty.Some? ==> r.minWholesaleQty == u.minWholesaleQty.value
    ensures u.description.None? ==> r.description == p.description
    ensures u.description.Some? ==> r.description == u.description.value
    ensures u.category.None? ==> r.category == p.category
    ensures u.category.Some? ==> r.category == u.category.value
    ensures u.pinned.None? ==> r.pinned == p.pinned
    ensures u.pinned.Some? ==> r.pinned == u.pinned.value
    ensures u.pinnedAt.None? ==> r.pinnedAt == p.pinnedAt
    ensures u.pinnedAt.Some? ==> r.pinnedAt == u.pinnedAt.value
  {
    Product(
      u.id.GetOr(p.id),
      u.name.GetOr(p.name),
      u.image.GetOr(p.image),
      u.retailPrice.GetOr(p.retailPrice),
      u.wholesalePrice.GetOr(p.wholesalePrice),
      u.minWholesaleQty.GetOr(p.minWholesaleQty),
      u.description.GetOr(p.description),
      u.category.GetOr(p.category),
      u.pinned.GetOr(p.pinned),
      u.pinnedAt.GetOr(p.pinnedAt))
  }

  /** Merging the empty update object changes nothing, and merging the same update twice is merging it once. */
  lemma MergeNoChangeAndIdempotent(p: Product, u: Patch)
    ensures Merge(p, NoChange) == p
    ensures Merge(Merge(p, u), u) == Merge(p, u)
  {
  }

  /** The predicate of `products.filter(p => p.id !== id)`. */
  function OtherId(id: string): Product -> bool
  {
    (p: Product) => p.id != id
  }

  /** The callback of `products.map(p => p.id === id ? { ...p, ...u } : p)`. */
  function PatchIfId(id: string, u: Patch): Product -> Product
  {
    (p: Product) => if p.id == id then Merge(p, u) else p
  }

  /** The predicate of `categories.filter(c => c !== name)`. */
  function OtherName(name: string): string -> bool
  {
    (c: string) => c != name
  }

  /**
   * The product list after deleting `id`: no product keeps that id; every other product
   * stays, as often as it occurred, in order.
   */
  function WithoutId(ps: seq<Product>, id: string): (r: seq<Product>)
    ensures forall p :: p in r ==> p.id != id
    ensures forall p :: p in ps && p.id != id ==> p in r
    ensures forall p :: multiset(r)[p] == if p.id != id then multiset(ps)[p] else 0
    ensures IsSubsequence(r, ps)
  {
    FilterIsSubsequence(OtherId(id), ps);
    Filter(OtherId(id), ps)
  }

  /**
   * The product list after updating `id` with `u`: same length; each product with that id
   * becomes its merge with `u`, every other product is left as it was.
   */
  function Patched(ps: seq<Product>, id: string, u: Patch): (r: seq<Product>)
    ensures |r| == |ps|
    ensures forall i :: 0 <= i < |ps| && ps[i].id == id ==> r[i] == Merge(ps[i], u)
    ensures forall i :: 0 <= i < |ps| && ps[i].id != id ==> r[i] == ps[i]
  {
    Map(PatchIfId(id, u), ps)
  }

  /**
   * The category list after deleting `name`: no occurrence is left; every other name stays,
   * as often as it occurred, in order.
   */
  function WithoutName(cs: seq<string>, name: string): (r: seq<string>)
    ensures name !in r
    ensures forall c :: c in cs && c != name ==> c in r
    ensures forall c :: multiset(r)[c] == if c != name then multiset(cs)[c] else 0
    ensures IsSubsequence(r, cs)
    ensures Distinct(cs) ==> Distinct(r)
  {
    FilterIsSubsequence(OtherName(name), cs);
    if Distinct(cs) then
      FilterKeepsDistinct(OtherName(name), cs);
      Filter(OtherName(name), cs)
    else
      Filter(OtherName(name), cs)
  }

  /**
   * The category list after adding `name`: unchanged when it is already there, otherwise
   * `name` appended at the end. It never introduces a duplicate.
   */
  function WithCategory(cs: seq<string>, name: string): (r: seq<string>)
    ensures name in cs ==> r == cs
    ensures name !in cs ==> |r| == |cs| + 1 && r[..|cs|] == cs && r[|cs|] == name
    ensures Distinct(cs) ==> Distinct(r)
  {
    if name in cs then cs else cs + [name]
  }

  /** Adding a new category and deleting it again restores the original list. */
  lemma AddThenDeleteCategory(cs: seq<string>, name: string)
    requires name !in cs
    ensures WithoutName(WithCategory(cs, name), name) == cs
  {
    FilterAppend(OtherName(name), cs, [name]);
    FilterKeepsAll(OtherName(name), cs);
    assert Filter(OtherName(name), [name]) == [];
  }

  /** Deleting an id no product has leaves the list as it was. */
  lemma DeleteAbsentId(ps: seq<Product>, id: string)
    requires forall p :: p in ps ==> p.id != id
    ensures WithoutId(ps, id) == ps
  {
    FilterKeepsAll(OtherId(id), ps);
  }
}

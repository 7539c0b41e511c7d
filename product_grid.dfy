/** src/components/ProductGrid.tsx: the category filter applied to the loaded product list. */
module ProductGrid {
  import opened Wrappers
  import opened Seqs
  import opened Catalog

  function InCategory(c: string): Product -> bool
  {
    (p: Product) => p.category == Some(c)
  }

  /**
   * `filtered`: with no active category (null or the empty string, both falsy) the whole
   * list; otherwise exactly the products in that category, in their original order.
   */
  function Filtered(products: seq<Product>, active: Option<string>): (r: seq<Product>)
    ensures active.None? || active == Some("") ==> r == products
    ensures active.Some? && active.value != "" ==>
      forall p :: p in r ==> p.category == Some(active.value)
    ensures active.Some? ==> forall p :: p in products && p.category == Some(active.value) ==> p in r
    ensures active.Some? && active.value != "" ==>
      forall p :: multiset(r)[p] == if p.category == Some(active.value) then multiset(products)[p] else 0
    ensures IsSubsequence(r, products)
  {
    if active.None? || active.value == "" then
      IdentityIsSubsequence(products);
      products
    else
      FilterIsSubsequence(InCategory(active.value), products);
      Filter(InCategory(active.value), products)
  }

  lemma {:induction false} IdentityIsSubsequence(s: seq<Product>)
    ensures IsSubsequence(s, s)
  {
    if s != [] {
      IdentityIsSubsequence(s[1..]);
    }
  }
}

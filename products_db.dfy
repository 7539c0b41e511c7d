/**
 * src/lib/products-db.ts: the local product and category store. Every mutator reads the
 * whole list from its key, changes it and writes the whole list back. Product ids come
 * from `Date.now().toString()`, which the model takes as a parameter.
 */
module ProductsDb {
  import opened Wrappers
  import opened Seqs
  import opened Catalog
  import opened Storage

  /** `getProducts()`: the stored list; the empty list when the key is absent, empty or unparsable. */
  method GetProducts(ls: LocalStorage) returns (ps: seq<Product>)
    ensures ls.products.None? || ls.products == Some(Blank) || ls.products == Some(Malformed) ==> ps == []
    ensures ls.products.Some? && ls.products.value.List? ==> ps == ls.products.value.items
  {
    match ls.products
    case None => ps := [];
    case Some(Blank) => ps := [];
    case Some(Malformed) => ps := [];
    case Some(List(items)) => ps := items;
  }

  /** `saveProducts(ps)`: the key now holds exactly `ps`, so the next read returns `ps`. */
  method SaveProducts(ls: LocalStorage, ps: seq<Product>)
    modifies ls`products
    ensures ls.products == Some(List(ps))
  {
    ls.products := Some(List(ps));
  }

  /**
   * `addProduct(draft)`: the new product is the draft with the generated id, and it is
   * appended after all the products that were stored.
   */
  method AddProduct(ls: LocalStorage, draft: Draft, newId: string) returns (p: Product)
    modifies ls`products
    ensures p == draft.WithId(newId)
    ensures ls.products == Some(List(ListOrEmpty(old(ls.products)) + [p]))
  {
    var products := GetProducts(ls);
    p := draft.WithId(newId);
    products := products + [p];
    SaveProducts(ls, products);
  }

  /** `deleteProduct(id)`: the stored list loses every product with that id and keeps the rest in order. */
  method DeleteProduct(ls: LocalStorage, id: string)
    modifies ls`products
    ensures ls.products == Some(List(WithoutId(ListOrEmpty(old(ls.products)), id)))
  {
    var products := GetProducts(ls);
    SaveProducts(ls, WithoutId(products, id));
  }

  /** `updateProduct(id, u)`: the stored list with `u` merged into every product with that id. */
  method UpdateProduct(ls: LocalStorage, id: string, u: Patch)
    modifies ls`products
    ensures ls.products == Some(List(Patched(ListOrEmpty(old(ls.products)), id, u)))
  {
    var products := GetProducts(ls);
    SaveProducts(ls, Patched(products, id, u));
  }

  /** `getCategories()`: the stored list; the empty list when the key is absent, empty or unparsable. */
  method GetCategories(ls: LocalStorage) returns (cs: seq<string>)
    ensures ls.categories.None? || ls.categories == Some(Blank) || ls.categories == Some(Malformed) ==> cs == []
    ensures ls.categories.Some? && ls.categories.value.List? ==> cs == ls.categories.value.items
  {
    match ls.categories
    case None => cs := [];
    case Some(Blank) => cs := [];
    case Some(Malformed) => cs := [];
    case Some(List(items)) => cs := items;
  }

  /** `saveCategories(cs)`: the key now holds exactly `cs`. */
  method SaveCategories(ls: LocalStorage, cs: seq<string>)
    modifies ls`categories
    ensures ls.categories == Some(List(cs))
  {
    ls.categories := Some(List(cs));
  }

  /**
   * `addCategory(name)`: when the name is already stored, nothing is written and the list is
   * returned as it was; otherwise the name is appended and the longer list written and returned.
   */
  method AddCategory(ls: LocalStorage, name: string) returns (cs: seq<string>)
    modifies ls`categories
    ensures cs == WithCategory(ListOrEmpty(old(ls.categories)), name)
    ensures name in ListOrEmpty(old(ls.categories)) ==> ls.categories == old(ls.categories)
    ensures name !in ListOrEmpty(old(ls.categories)) ==> ls.categories == Some(List(cs))
  {
    cs := GetCategories(ls);
    if name !in cs {
      cs := cs + [name];
      SaveCategories(ls, cs);
    }
  }

  /** `deleteCategory(name)`: every occurrence of the name is removed; the result is written and returned. */
  method DeleteCategory(ls: LocalStorage, name: string) returns (cs: seq<string>)
    modifies ls`categories
    ensures cs == WithoutName(ListOrEmpty(old(ls.categories)), name)
    ensures ls.categories == Some(List(cs))
  {
    cs := GetCategories(ls);
    cs := WithoutName(cs, name);
    SaveCategories(ls, cs);
  }
}

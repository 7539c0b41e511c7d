/**
 * src/lib/data-service.ts: `DataService` tries the remote database first and falls back to
 * the local store (src/lib/products-db.ts) when the remote call throws; when the remote call
 * succeeds, writes are mirrored into the local store as a backup.
 *
 * The remote is an oracle: each method receives the outcome its remote call would have.
 * `isDatabaseAvailable` always returns true, so the branches for an unavailable database
 * are never taken, and the database module shipped with the storefront (src/lib/database.ts)
 * throws from every call, which is the `Threw` outcome.
 */
module DataService {
  import opened Wrappers
  import opened Catalog
  import opened Storage
  import ProductsDb

  /** What an awaited remote call did: returned a value or threw. */
  datatype Reply<T> = Returned(value: T) | Threw

  /** `getProducts()`: the remote list when the remote call returns, the local list when it throws. */
  method GetProducts(ls: LocalStorage, remote: Reply<seq<Product>>) returns (ps: seq<Product>)
    ensures remote.Returned? ==> ps == remote.value
    ensures remote.Threw? ==> ps == ListOrEmpty(ls.products)
  {
    match remote
    case Returned(v) => ps := v;
    case Threw => ps := ProductsDb.GetProducts(ls);
  }

  /** `saveProducts(ps)`: the local store holds exactly `ps` afterwards, whatever the remote did. */
  method SaveProducts(ls: LocalStorage, ps: seq<Product>, remote: Reply<()>)
    modifies ls`products
    ensures ls.products == Some(List(ps))
  {
    match remote
    case Returned(_) => ProductsDb.SaveProducts(ls, ps);
    case Threw => ProductsDb.SaveProducts(ls, ps);
  }

  /**
   * `addProduct(draft)`: returns the remote's product when the remote call returns and the
   * locally created one when it throws. Either way the local store gains one product, with
   * an id generated separately from the remote's.
   */
  method AddProduct(ls: LocalStorage, draft: Draft, remote: Reply<Product>, localId: string) returns (p: Product)
    modifies ls`products
    ensures remote.Returned? ==> p == remote.value
    ensures remote.Threw? ==> p == draft.WithId(localId)
    ensures ls.products == Some(List(ListOrEmpty(old(ls.products)) + [draft.WithId(localId)]))
  {
    match remote
    case Returned(v) =>
      var _ := ProductsDb.AddProduct(ls, draft, localId);
      p := v;
    case Threw =>
      p := ProductsDb.AddProduct(ls, draft, localId);
  }

  /** `deleteProduct(id)`: the local store loses the products with that id, whatever the remote did. */
  method DeleteProduct(ls: LocalStorage, id: string, remote: Reply<()>)
    modifies ls`products
    ensures ls.products == Some(List(WithoutId(ListOrEmpty(old(ls.products)), id)))
  {
    match remote
    case Returned(_) => ProductsDb.DeleteProduct(ls, id);
    case Threw => ProductsDb.DeleteProduct(ls, id);
  }

  /**
   * `updateProduct(id, u)`: the local store gets the plain local merge of `u`, whatever the
   * remote did; no field is normalised on the way.
   */
  method UpdateProduct(ls: LocalStorage, id: string, u: Patch, remote: Reply<()>)
    modifies ls`products
    ensures ls.products == Some(List(Patched(ListOrEmpty(old(ls.products)), id, u)))
  {
    match remote
    case Returned(_) => ProductsDb.UpdateProduct(ls, id, u);
    case Threw => ProductsDb.UpdateProduct(ls, id, u);
  }

  /** `getCategories()`: the remote list when the remote call returns, the local list when it throws. */
  method GetCategories(ls: LocalStorage, remote: Reply<seq<string>>) returns (cs: seq<string>)
    ensures remote.Returned? ==> cs == remote.value
    ensures remote.Threw? ==> cs == ListOrEmpty(ls.categories)
  {
    match remote
    case Returned(v) => cs := v;
    case Threw => cs := ProductsDb.GetCategories(ls);
  }

  /**
   * `addCategory(name)`: the local category store takes the local add either way (nothing
   * is written for a name it already holds); the result is the remote's list when the
   * remote call returns and the local list when it throws.
   */
  method AddCategory(ls: LocalStorage, name: string, remote: Reply<seq<string>>) returns (cs: seq<string>)
    modifies ls`categories
    ensures remote.Returned? ==> cs == remote.value
    ensures remote.Threw? ==> cs == WithCategory(ListOrEmpty(old(ls.categories)), name)
    ensures name in ListOrEmpty(old(ls.categories)) ==> ls.categories == old(ls.categories)
    ensures name !in ListOrEmpty(old(ls.categories)) ==>
      ls.categories == Some(List(WithCategory(ListOrEmpty(old(ls.categories)), name)))
  {
    match remote
    case Returned(v) =>
      var _ := ProductsDb.AddCategory(ls, name);
      cs := v;
    case Threw =>
      cs := ProductsDb.AddCategory(ls, name);
  }

  /**
   * `deleteCategory(name)`: the local category list loses the name either way; the result
   * is the remote's list when the remote call returns and the local list when it throws.
   */
  method DeleteCategory(ls: LocalStorage, name: string, remote: Reply<seq<string>>) returns (cs: seq<string>)
    modifies ls`categories
    ensures remote.Returned? ==> cs == remote.value
    ensures remote.Threw? ==> cs == WithoutName(ListOrEmpty(old(ls.categories)), name)
    ensures ls.categories == Some(List(WithoutName(ListOrEmpty(old(ls.categories)), name)))
  {
    match remote
    case Returned(v) =>
      var _ := ProductsDb.DeleteCategory(ls, name);
      cs := v;
    case Threw =>
      cs := ProductsDb.DeleteCategory(ls, name);
  }

  /*
   * With the remote shipped with the storefront, which throws from every call, each method
   * is indistinguishable from the local store's own operation: run on two storages with the
   * same contents, the two give the same result and leave the same contents.
   */

  method ThrowingGetProductsIsLocal(a: LocalStorage, b: LocalStorage) returns (viaService: seq<Product>, local: seq<Product>)
    requires a.products == b.products
    ensures viaService == local
  {
    viaService := GetProducts(a, Threw);
    local := ProductsDb.GetProducts(b);
  }

  method ThrowingSaveProductsIsLocal(a: LocalStorage, b: LocalStorage, ps: seq<Product>)
    requires a != b
    modifies a`products, b`products
    ensures a.products == b.products
  {
    SaveProducts(a, ps, Threw);
    ProductsDb.SaveProducts(b, ps);
  }

  method ThrowingAddProductIsLocal(a: LocalStorage, b: LocalStorage, draft: Draft, newId: string)
    returns (viaService: Product, local: Product)
    requires a != b && a.products == b.products
    modifies a`products, b`products
    ensures viaService == local && a.products == b.products
  {
    viaService := AddProduct(a, draft, Threw, newId);
    local := ProductsDb.AddProduct(b, draft, newId);
  }

  method ThrowingDeleteProductIsLocal(a: LocalStorage, b: LocalStorage, id: string)
    requires a != b && a.products == b.products
    modifies a`products, b`products
    ensures a.products == b.products
  {
    DeleteProduct(a, id, Threw);
    ProductsDb.DeleteProduct(b, id);
  }

  method ThrowingUpdateProductIsLocal(a: LocalStorage, b: LocalStorage, id: string, u: Patch)
    requires a != b && a.products == b.products
    modifies a`products, b`products
    ensures a.products == b.products
  {
    UpdateProduct(a, id, u, Threw);
    ProductsDb.UpdateProduct(b, id, u);
  }

  method ThrowingGetCategoriesIsLocal(a: LocalStorage, b: LocalStorage) returns (viaService: seq<string>, local: seq<string>)
    requires a.categories == b.categories
    ensures viaService == local
  {
    viaService := GetCategories(a, Threw);
    local := ProductsDb.GetCategories(b);
  }

  method ThrowingAddCategoryIsLocal(a: LocalStorage, b: LocalStorage, name: string)
    returns (viaService: seq<string>, local: seq<string>)
    requires a != b && a.categories == b.categories
    modifies a`categories, b`categories
    ensures viaService == local && a.categories == b.categories
  {
    viaService := AddCategory(a, name, Threw);
    local := ProductsDb.AddCategory(b, name);
  }

  method ThrowingDeleteCategoryIsLocal(a: LocalStorage, b: LocalStorage, name: string)
    returns (viaService: seq<string>, local: seq<string>)
    requires a != b && a.categories == b.categories
    modifies a`categories, b`categories
    ensures viaService == local && a.categories == b.categories
  {
    viaService := DeleteCategory(a, name, Threw);
    local := ProductsDb.DeleteCategory(b, name);
  }
}

/**
 * src/lib/products.ts: the local product and category store with default seeding. It keeps
 * its default product and category arrays as module state; `getProducts` and `getCategories`
 * return those very arrays when the key holds no list, and `addProduct` and `addCategory`
 * push onto whatever array they were given, so the defaults themselves can grow.
 */
module SeededProducts {
  import opened Wrappers
  import opened Catalog
  import opened Cart
  import opened Storage
  import ProductsDb

  /** A JavaScript array object: callers holding the same reference see each other's pushes. */
  class ListRef<T> {
    var items: seq<T>

    constructor(items: seq<T>)
      ensures this.items == items
    {
      this.items := items;
    }

    /** `array.push(x)` */
    method Push(x: T)
      modifies this
      ensures items == old(items) + [x]
    {
      items := items + [x];
    }
  }

  const Fried := "ของทอด"
  const Shrimp := "กุ้ง"
  const Chicken := "ไก่"
  const Other := "อื่นๆ"

  /** The initial contents of `defaultCategories`. */
  const InitialCategories: seq<string> := [Fried, Shrimp, Chicken, Other]

  /** The initial contents of `defaultProducts`. */
  const InitialProducts: seq<Product> := [
    Product("1", "ปอเปี๊ยะทอดกรอบ", "", 59, 45, 10,
            Some("ปอเปี๊ยะทอดกรอบ ไส้แน่น อร่อยสดใหม่ทุกวัน"), Some(Fried), None, NoStamp),
    Product("2", "ไก่ทอดกรอบ", "", 79, 60, 10,
            Some("ไก่ทอดกรอบนอกนุ่มใน หอมเครื่องเทศ"), Some(Chicken), None, NoStamp),
    Product("3", "กุ้งทอดกรอบ", "", 99, 75, 10,
            Some("กุ้งทอดกรอบ ตัวใหญ่ เนื้อแน่น"), Some(Shrimp), None, NoStamp)
  ]

  /** The default products have distinct ids, and each one's category is a default category. */
  lemma DefaultsAreConsistent()
    ensures |InitialProducts| == 3 && |InitialCategories| == 4
    ensures UniqueProductIds(InitialProducts)
    ensures forall p :: p in InitialProducts ==> p.category.Some? && p.category.value in InitialCategories
    ensures Seqs.Distinct(InitialCategories)
  {
  }

  /** The key holds no list, so a read hands back the module's default array. */
  predicate ReadsDefaults<T>(c: CatalogCell<T>)
  {
    !(c.Some? && c.value.List?)
  }

  /** The key is absent or empty, so a read also writes the defaults to it. */
  predicate SeedsKey<T>(c: CatalogCell<T>)
  {
    c.None? || c == Some(Blank)
  }

  /** The list a read yields: the stored list, or the current defaults. */
  function Seeded<T>(c: CatalogCell<T>, defaults: seq<T>): (r: seq<T>)
    ensures ReadsDefaults(c) ==> r == defaults
    ensures !ReadsDefaults(c) ==> r == c.value.items
  {
    if c.Some? && c.value.List? then c.value.items else defaults
  }

  class ProductsModule {
    const defaultProducts: ListRef<Product>
    const defaultCategories: ListRef<string>

    constructor()
      ensures fresh(defaultProducts) && fresh(defaultCategories)
      ensures defaultProducts.items == InitialProducts
      ensures defaultCategories.items == InitialCategories
    {
      defaultProducts := new ListRef(InitialProducts);
      defaultCategories := new ListRef(InitialCategories);
    }

    /**
     * `getProducts()`: with the key absent or empty it writes the defaults and returns the
     * default array; with unparsable content it returns the default array and writes nothing;
     * otherwise it returns a fresh array with the stored list.
     */
    method GetProducts(ls: LocalStorage) returns (ps: ListRef<Product>)
      modifies ls`products
      ensures SeedsKey(old(ls.products)) ==> ps == defaultProducts && ls.products == Some(List(defaultProducts.items))
      ensures old(ls.products) == Some(Malformed) ==> ps == defaultProducts && ls.products == old(ls.products)
      ensures !ReadsDefaults(old(ls.products)) ==>
        fresh(ps) && ps.items == old(ls.products).value.items && ls.products == old(ls.products)
    {
      match ls.products
      case None =>
        ls.products := Some(List(defaultProducts.items));
        ps := defaultProducts;
      case Some(Blank) =>
        ls.products := Some(List(defaultProducts.items));
        ps := defaultProducts;
      case Some(Malformed) =>
        ps := defaultProducts;
      case Some(List(items)) =>
        ps := new ListRef(items);
    }

    /**
     * `addProduct(draft)`: the draft with the generated id is appended to the list a read
     * yields and written back. When that list was the default array, the push also lands in
     * the defaults.
     */
    method AddProduct(ls: LocalStorage, draft: Draft, newId: string) returns (p: Product)
      modifies ls`products, defaultProducts
      ensures p == draft.WithId(newId)
      ensures ls.products == Some(List(Seeded(old(ls.products), old(defaultProducts.items)) + [p]))
      ensures ReadsDefaults(old(ls.products)) ==> defaultProducts.items == old(defaultProducts.items) + [p]
      ensures !ReadsDefaults(old(ls.products)) ==> defaultProducts.items == old(defaultProducts.items)
    {
      var products := GetProducts(ls);
      p := draft.WithId(newId);
      products.Push(p);
      ProductsDb.SaveProducts(ls, products.items);
    }

    /** `deleteProduct(id)`: the list a read yields, without the products with that id, is written back. */
    method DeleteProduct(ls: LocalStorage, id: string)
      modifies ls`products
      ensures ls.products == Some(List(WithoutId(Seeded(old(ls.products), defaultProducts.items), id)))
    {
      var products := GetProducts(ls);
      ProductsDb.SaveProducts(ls, WithoutId(products.items, id));
    }

    /** `updateProduct(id, u)`: the list a read yields, with `u` merged into the products with that id, is written back. */
    method UpdateProduct(ls: LocalStorage, id: string, u: Patch)
      modifies ls`products
      ensures ls.products == Some(List(Patched(Seeded(old(ls.products), defaultProducts.items), id, u)))
    {
      var products := GetProducts(ls);
      ProductsDb.SaveProducts(ls, Patched(products.items, id, u));
    }

    /** `getCategories()`: as `getProducts`, with the default category array. */
    method GetCategories(ls: LocalStorage) returns (cs: ListRef<string>)
      modifies ls`categories
      ensures SeedsKey(old(ls.categories)) ==> cs == defaultCategories && ls.categories == Some(List(defaultCategories.items))
      ensures old(ls.categories) == Some(Malformed) ==> cs == defaultCategories && ls.categories == old(ls.categories)
      ensures !ReadsDefaults(old(ls.categories)) ==>
        fresh(cs) && cs.items == old(ls.categories).value.items && ls.categories == old(ls.categories)
    {
      match ls.categories
      case None =>
        ls.categories := Some(List(defaultCategories.items));
        cs := defaultCategories;
      case Some(Blank) =>
        ls.categories := Some(List(defaultCategories.items));
        cs := defaultCategories;
      case Some(Malformed) =>
        cs := defaultCategories;
      case Some(List(items)) =>
        cs := new ListRef(items);
    }

    /**
     * `addCategory(name)`: a name already in the list a read yields changes nothing beyond
     * that read's own seeding; a new name is pushed (onto the defaults, when the read returned
     * them) and the list written back. The result never holds a new duplicate.
     */
    method AddCategory(ls: LocalStorage, name: string) returns (cs: seq<string>)
      modifies ls`categories, defaultCategories
      ensures cs == WithCategory(Seeded(old(ls.categories), old(defaultCategories.items)), name)
      ensures name in Seeded(old(ls.categories), old(defaultCategories.items)) ==>
        ls.categories == (if SeedsKey(old(ls.categories)) then Some(List(old(defaultCategories.items)))
                          else old(ls.categories))
      ensures name !in Seeded(old(ls.categories), old(defaultCategories.items)) ==> ls.categories == Some(List(cs))
      ensures defaultCategories.items ==
        if ReadsDefaults(old(ls.categories)) && name !in old(defaultCategories.items)
        then old(defaultCategories.items) + [name] else old(defaultCategories.items)
    {
      var categories := GetCategories(ls);
      if name !in categories.items {
        categories.Push(name);
        ProductsDb.SaveCategories(ls, categories.items);
      }
      cs := categories.items;
    }

    /** `deleteCategory(name)`: the list a read yields, without that name, is written back and returned. */
    method DeleteCategory(ls: LocalStorage, name: string) returns (cs: seq<string>)
      modifies ls`categories
      ensures cs == WithoutName(Seeded(old(ls.categories), defaultCategories.items), name)
      ensures ls.categories == Some(List(cs))
    {
      var categories := GetCategories(ls);
      cs := WithoutName(categories.items, name);
      ProductsDb.SaveCategories(ls, cs);
    }
  }

  /**
   * The aliasing made visible: on a fresh module with no stored products, adding a product
   * and then corrupting the key makes the next read return four products, not the three
   * defaults.
   */
  method DefaultsGrowAfterFirstAdd(ls: LocalStorage, draft: Draft, newId: string) returns (read: seq<Product>)
    requires ls.products.None?
    modifies ls`products
    ensures read == InitialProducts + [draft.WithId(newId)]
  {
    var m := new ProductsModule();
    var p := m.AddProduct(ls, draft, newId);
    ls.products := Some(Malformed);
    var ps := m.GetProducts(ls);
    read := ps.items;
  }
}

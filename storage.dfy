/**
 * The browser's `localStorage` as the storefront uses it. Each key the core reads or writes
 * always holds JSON of one shape, so the model gives each key a field of its own type;
 * a field that is None is a key that is absent (`getItem` returns null).
 */
module Storage {
  import opened Wrappers
  import opened Catalog

  /** The minimal persisted entry `{ id, quantity }`. */
  datatype StoredItem = StoredItem(id: string, quantity: int)

  /** The `id` property of a legacy cart entry: missing or null, a string, or a number. */
  datatype LegacyId = NoId | IdText(text: string) | IdNumber(n: int)

  /**
   * An element of the legacy cart array: something that is not a non-null object, or an
   * object with an `id` and a `quantity` that may be missing or null (None).
   */
  datatype LegacyEntry = NotObject | Entry(id: LegacyId, quantity: Option<int>)

  /**
   * The text stored under a key: the empty string (which is falsy, so the code treats it
   * like an absent key), text `JSON.parse` rejects, valid JSON that is not an array, or an array.
   */
  datatype Stored<T> = Blank | Malformed | NotList | List(items: seq<T>)

  /** A catalog key: only the catalog code writes it, and it only ever writes arrays there. */
  type CatalogCell<T> = c: Option<Stored<T>> | !(c.Some? && c.value.NotList?) witness None

  /** The list a catalog key holds, or the empty list when it holds none. */
  function ListOrEmpty<T>(c: CatalogCell<T>): (r: seq<T>)
    ensures c.Some? && c.value.List? ==> r == c.value.items
    ensures !(c.Some? && c.value.List?) ==> r == []
  {
    if c.Some? && c.value.List? then c.value.items else []
  }

  class LocalStorage {
    /** 'krungkring_products' */
    var products: CatalogCell<Product>
    /** 'krungkring_categories' */
    var categories: CatalogCell<string>
    /** 'sunny_cart_v2': the minimal cart. */
    var cart: Option<Stored<StoredItem>>
    /** 'sunny_cart': the legacy cart. */
    var legacyCart: Option<Stored<LegacyEntry>>

    constructor(products: CatalogCell<Product>, categories: CatalogCell<string>,
                cart: Option<Stored<StoredItem>>, legacyCart: Option<Stored<LegacyEntry>>)
      ensures this.products == products && this.categories == categories
      ensures this.cart == cart && this.legacyCart == legacyCart
    {
      this.products := products;
      this.categories := categories;
      this.cart := cart;
      this.legacyCart := legacyCart;
    }
  }
}

/**
 * src/lib/cloud-database.ts: the adapter for the hosted table store. It maps table rows to
 * products and products to rows, builds the column payload of a partial update, and turns
 * every error the store reports into a thrown error, except that of the bulk delete which
 * clears the table before `saveProductsToCloud` inserts.
 *
 * The store itself is an oracle: each function receives the response its call would get.
 * Numeric columns are taken to be numbers already, so `Number(...)` is the identity.
 */
module CloudDatabase {
  import opened Wrappers
  import opened Seqs
  import opened Catalog

  /** An error the store reports. */
  datatype StoreError = StoreError(message: string)

  /** A query response `{ data, error }`; `data` may be null. */
  datatype Response<T> = Response(data: Option<T>, error: Option<StoreError>)

  /**
   * A row of the `products` table. Nullable columns are Options; `pinned_at` holds a
   * millisecond timestamp.
   */
  datatype Row = Row(
    id: string,
    name: string,
    image: Option<string>,
    retailPrice: int,
    wholesalePrice: int,
    minWholesaleQty: int,
    description: Option<string>,
    category: Option<string>,
    pinned: Option<bool>,
    pinnedAt: Option<int>)

  /** A column value in an update payload. */
  datatype Value = Text(text: string) | Number(n: int) | Flag(b: bool) | Null

  /**
   * The columns of the `products` table an update can set: `name`, `image`, `retail_price`,
   * `wholesale_price`, `min_wholesale_qty`, `description`, `category`, `pinned`, `pinned_at`
   * and `updated_at`, in the order `updateProductInCloud` assigns them.
   */
  datatype Column =
    | NameColumn | ImageColumn | RetailPriceColumn | WholesalePriceColumn | MinWholesaleQtyColumn
    | DescriptionColumn | CategoryColumn | PinnedColumn | PinnedAtColumn | UpdatedAtColumn

  /** The call `update(columns).eq('id', matchId)`. */
  datatype UpdateRequest = UpdateRequest(matchId: string, columns: map<Column, Value>)

  /** `s || ''` for a nullable text column. */
  function OrEmpty(s: Option<string>): string
  {
    s.GetOr("")
  }

  /** `!!v` for an optional flag. */
  function Truthy(b: Option<bool>): bool
  {
    b == Some(true)
  }

  /**
   * The row-to-product mapping of `getProductsFromCloud`: missing text becomes `''`,
   * `pinned` is always a boolean, and a falsy `pinned_at` (null or 0) becomes `undefined`.
   */
  function FromRow(row: Row): (p: Product)
    ensures p.id == row.id && p.name == row.name
    ensures p.retailPrice == row.retailPrice && p.wholesalePrice == row.wholesalePrice
    ensures p.minWholesaleQty == row.minWholesaleQty
    ensures row.image.None? ==> p.image == ""
    ensures row.image.Some? ==> p.image == row.image.value
    ensures p.description.Some? && (row.description.None? ==> p.description == Some(""))
    ensures row.description.Some? ==> p.description == row.description
    ensures p.category.Some? && (row.category.None? ==> p.category == Some(""))
    ensures row.category.Some? ==> p.category == row.category
    ensures p.pinned == Some(row.pinned == Some(true))
    ensures row.pinnedAt.None? || row.pinnedAt == Some(0) ==> p.pinnedAt == NoStamp
    ensures row.pinnedAt.Some? && row.pinnedAt.value != 0 ==> p.pinnedAt == At(row.pinnedAt.value)
  {
    Product(
      row.id, row.name, OrEmpty(row.image),
      row.retailPrice, row.wholesalePrice, row.minWholesaleQty,
      Some(OrEmpty(row.description)), Some(OrEmpty(row.category)),
      Some(Truthy(row.pinned)),
      if row.pinnedAt.None? || row.pinnedAt.value == 0 then NoStamp else At(row.pinnedAt.value))
  }

  /** `pinnedAt ?? null` as a column value. */
  function StampColumn(s: Stamp): (c: Option<int>)
    ensures s.At? <==> c.Some?
    ensures s.At? ==> c == Some(s.ms)
  {
    if s.At? then Some(s.ms) else None
  }

  /**
   * The product-to-row mapping of `addProductToCloud` and `saveProductsToCloud`: same id,
   * `pinned` coerced to a boolean, and `pinned_at` null unless a timestamp is set.
   */
  function ToRow(p: Product): (row: Row)
    ensures row.id == p.id && row.name == p.name && row.image == Some(p.image)
    ensures row.retailPrice == p.retailPrice && row.wholesalePrice == p.wholesalePrice
    ensures row.minWholesaleQty == p.minWholesaleQty
    ensures row.description == p.description && row.category == p.category
    ensures row.pinned == Some(Truthy(p.pinned))
    ensures !p.pinnedAt.At? ==> row.pinnedAt.None?
    ensures p.pinnedAt.At? ==> row.pinnedAt == Some(p.pinnedAt.ms)
  {
    Row(p.id, p.name, Some(p.image), p.retailPrice, p.wholesalePrice, p.minWholesaleQty,
        p.description, p.category, Some(Truthy(p.pinned)), StampColumn(p.pinnedAt))
  }

  /**
   * The normal form a product takes after a trip through the table: description and
   * category are strings, `pinned` is a boolean, and `pinnedAt` is a non-zero timestamp or
   * `undefined`.
   */
  function Normalised(p: Product): (q: Product)
    ensures q.id == p.id && q.name == p.name && q.image == p.image
    ensures q.retailPrice == p.retailPrice && q.wholesalePrice == p.wholesalePrice
    ensures q.minWholesaleQty == p.minWholesaleQty
  {
    p.(description := Some(p.description.GetOr("")),
       category := Some(p.category.GetOr("")),
       pinned := Some(p.pinned == Some(true)),
       pinnedAt := if p.pinnedAt.At? && p.pinnedAt.ms != 0 then p.pinnedAt else NoStamp)
  }

  /** Writing a product as a row and reading the row back yields its normal form. */
  lemma RowRoundTrip(p: Product)
    ensures FromRow(ToRow(p)) == Normalised(p)
  {
  }

  /** A product already in normal form survives the trip through the table unchanged. */
  lemma NormalFormIsFixed(p: Product)
    requires p.description.Some? && p.category.Some? && p.pinned.Some?
    requires p.pinnedAt == NoStamp || (p.pinnedAt.At? && p.pinnedAt.ms != 0)
    ensures FromRow(ToRow(p)) == p
  {
    RowRoundTrip(p);
    var q := Normalised(p);
    assert q.description == p.description && q.category == p.category;
    assert q.pinned == p.pinned by {
      if p.pinned.value { assert q.pinned == Some(true); } else { assert q.pinned == Some(false); }
    }
    assert q.pinnedAt == p.pinnedAt;
  }

  /**
   * `getProductsFromCloud()`: a reported error is thrown; otherwise every row (none when
   * `data` is null) becomes a product, in the order the store returned them.
   */
  function GetProductsFromCloud(response: Response<seq<Row>>): (r: Result<seq<Product>, StoreError>)
    ensures response.error.Some? ==> r == Failure(response.error.value)
    ensures response.error.None? && response.data.None? ==> r == Success([])
    ensures response.error.None? && response.data.Some? ==>
      r.Success? && |r.value| == |response.data.value| &&
      forall i :: 0 <= i < |r.value| ==> r.value[i] == FromRow(response.data.value[i])
  {
    if response.error.Some? then Failure(response.error.value)
    else Success(Map(FromRow, response.data.GetOr([])))
  }

  /**
   * `addProductToCloud(draft)`: the row inserted for the draft under the generated id, and
   * the outcome: the insert's error is thrown, otherwise the draft's own fields with the id
   * are returned.
   */
  function AddProductToCloud(draft: Draft, newId: string, insertError: Option<StoreError>)
    : (r: (Row, Result<Product, StoreError>))
    ensures r.0 == ToRow(draft.WithId(newId))
    ensures r.0.id == newId && r.0.pinned.Some?
    ensures !draft.pinnedAt.At? ==> r.0.pinnedAt.None?
    ensures insertError.Some? ==> r.1 == Failure(insertError.value)
    ensures insertError.None? ==> r.1.Success? && r.1.value.id == newId && r.1.value.Fields() == draft
  {
    var p := draft.WithId(newId);
    (ToRow(p), if insertError.Some? then Failure(insertError.value) else Success(p))
  }

  /** `deleteProductFromCloud(id)`: the delete's error is thrown. */
  function DeleteProductFromCloud(deleteError: Option<StoreError>): (r: Result<(), StoreError>)
    ensures r.Failure? <==> deleteError.Some?
    ensures deleteError.Some? ==> r.error == deleteError.value
  {
    if deleteError.Some? then Failure(deleteError.value) else Success(())
  }

  const AllColumns: set<Column> := {
    NameColumn, ImageColumn, RetailPriceColumn, WholesalePriceColumn, MinWholesaleQtyColumn,
    DescriptionColumn, CategoryColumn, PinnedColumn, PinnedAtColumn, UpdatedAtColumn}

  /**
   * Whether `updateProductInCloud` sets a column: it does for each field the update supplies
   * with a defined value (`!== undefined`), and always for `updated_at`.
   */
  predicate Sets(u: Patch, c: Column)
  {
    match c
    case NameColumn => u.name.Some?
    case ImageColumn => u.image.Some?
    case RetailPriceColumn => u.retailPrice.Some?
    case WholesalePriceColumn => u.wholesalePrice.Some?
    case MinWholesaleQtyColumn => u.minWholesaleQty.Some?
    case DescriptionColumn => u.description.Some? && u.description.value.Some?
    case CategoryColumn => u.category.Some? && u.category.value.Some?
    case PinnedColumn => u.pinned.Some? && u.pinned.value.Some?
    case PinnedAtColumn => u.pinnedAt.Some? && !u.pinnedAt.value.NoStamp?
    case UpdatedAtColumn => true
  }

  /** The value `updateProductInCloud` puts in a column it sets. */
  function ColumnValue(u: Patch, now: string, c: Column): Value
  {
    match c
    case NameColumn => Text(u.name.GetOr(""))
    case ImageColumn => Text(u.image.GetOr(""))
    case RetailPriceColumn => Number(u.retailPrice.GetOr(0))
    case WholesalePriceColumn => Number(u.wholesalePrice.GetOr(0))
    case MinWholesaleQtyColumn => Number(u.minWholesaleQty.GetOr(0))
    case DescriptionColumn => Text(u.description.GetOr(None).GetOr(""))
    case CategoryColumn => Text(u.category.GetOr(None).GetOr(""))
    case PinnedColumn => Flag(Truthy(u.pinned.GetOr(None)))
    case PinnedAtColumn => if u.pinnedAt.GetOr(NoStamp).At? then Number(u.pinnedAt.value.ms) else Null
    case UpdatedAtColumn => Text(now)
  }

  /**
   * The payload of a partial update: a column for exactly the supplied fields plus
   * `updated_at`; `pinned` coerced to a boolean, a null `pinnedAt` sent as null. There is no
   * id column, so an id in the update is never sent.
   */
  function Payload(u: Patch, now: string): (m: map<Column, Value>)
    ensures forall c :: c in m <==> Sets(u, c)
    ensures UpdatedAtColumn in m && m[UpdatedAtColumn] == Text(now)
    ensures u.name.Some? ==> NameColumn in m && m[NameColumn] == Text(u.name.value)
    ensures u.image.Some? ==> ImageColumn in m && m[ImageColumn] == Text(u.image.value)
    ensures u.retailPrice.Some? ==>
      RetailPriceColumn in m && m[RetailPriceColumn] == Number(u.retailPrice.value)
    ensures u.wholesalePrice.Some? ==>
      WholesalePriceColumn in m && m[WholesalePriceColumn] == Number(u.wholesalePrice.value)
    ensures u.minWholesaleQty.Some? ==>
      MinWholesaleQtyColumn in m && m[MinWholesaleQtyColumn] == Number(u.minWholesaleQty.value)
    ensures u.description.Some? && u.description.value.Some? ==>
      DescriptionColumn in m && m[DescriptionColumn] == Text(u.description.value.value)
    ensures u.category.Some? && u.category.value.Some? ==>
      CategoryColumn in m && m[CategoryColumn] == Text(u.category.value.value)
    ensures u.pinned.Some? && u.pinned.value.Some? ==>
      PinnedColumn in m && m[PinnedColumn] == Flag(u.pinned.value.value)
    ensures u.pinnedAt == Some(NullStamp) ==> PinnedAtColumn in m && m[PinnedAtColumn] == Null
    ensures u.pinnedAt.Some? && u.pinnedAt.value.At? ==>
      PinnedAtColumn in m && m[PinnedAtColumn] == Number(u.pinnedAt.value.ms)
  {
    AllColumnsComplete();
    map c | c in AllColumns && Sets(u, c) :: ColumnValue(u, now, c)
  }

  lemma AllColumnsComplete()
    ensures forall c: Column :: c in AllColumns
  {
    forall c: Column ensures c in AllColumns {
      match c
      case NameColumn =>
      case ImageColumn =>
      case RetailPriceColumn =>
      case WholesalePriceColumn =>
      case MinWholesaleQtyColumn =>
      case DescriptionColumn =>
      case CategoryColumn =>
      case PinnedColumn =>
      case PinnedAtColumn =>
      case UpdatedAtColumn =>
    }
  }

  /** The position of a column's assignment in `updateProductInCloud`. */
  function Position(c: Column): nat
  {
    match c
    case NameColumn => 0
    case ImageColumn => 1
    case RetailPriceColumn => 2
    case WholesalePriceColumn => 3
    case MinWholesaleQtyColumn => 4
    case DescriptionColumn => 5
    case CategoryColumn => 6
    case PinnedColumn => 7
    case PinnedAtColumn => 8
    case UpdatedAtColumn => 9
  }

  /** `m` holds exactly the payload columns assigned before step `k`, with their payload values. */
  ghost predicate Built(m: map<Column, Value>, u: Patch, now: string, k: nat)
  {
    forall c :: (c in m <==> Position(c) < k && Sets(u, c)) && (c in m ==> m[c] == ColumnValue(u, now, c))
  }

  /** A map built through every step is the payload. */
  lemma BuiltIsPayload(m: map<Column, Value>, u: Patch, now: string)
    requires Built(m, u, now, 10)
    ensures m == Payload(u, now)
  {
    var p := Payload(u, now);
    AllColumnsComplete();
    forall c ensures (c in m <==> c in p) && (c in m ==> m[c] == p[c]) {
      assert c in AllColumns;
    }
  }

  /**
   * `updateProductInCloud(id, u)`: builds the payload, sends it for the row with that id,
   * and throws the store's error.
   */
  method UpdateProductInCloud(id: string, u: Patch, now: string, updateError: Option<StoreError>)
    returns (request: UpdateRequest, outcome: Result<(), StoreError>)
    ensures request == UpdateRequest(id, Payload(u, now))
    ensures outcome.Failure? <==> updateError.Some?
    ensures updateError.Some? ==> outcome.error == updateError.value
  {
    var mapped := BuildPayload(u, now);
    BuiltIsPayload(mapped, u, now);
    request := UpdateRequest(id, mapped);
    outcome := if updateError.Some? then Failure(updateError.value) else Success(());
  }

  /** The payload built by one conditional assignment per field, then `updated_at`. */
  method BuildPayload(u: Patch, now: string) returns (mapped: map<Column, Value>)
    ensures Built(mapped, u, now, 10)
  {
    mapped := map[];
    mapped := SetIf(mapped, u, now, NameColumn);
    mapped := SetIf(mapped, u, now, ImageColumn);
    mapped := SetIf(mapped, u, now, RetailPriceColumn);
    mapped := SetIf(mapped, u, now, WholesalePriceColumn);
    mapped := SetIf(mapped, u, now, MinWholesaleQtyColumn);
    mapped := SetIf(mapped, u, now, DescriptionColumn);
    mapped := SetIf(mapped, u, now, CategoryColumn);
    mapped := SetIf(mapped, u, now, PinnedColumn);
    mapped := SetIf(mapped, u, now, PinnedAtColumn);
    mapped := SetIf(mapped, u, now, UpdatedAtColumn);
  }

  /** `if (updates.field !== undefined) mapped.column = value`, the assignment at `Position(c)`. */
  method SetIf(m: map<Column, Value>, u: Patch, now: string, c: Column)
    returns (m': map<Column, Value>)
    requires Built(m, u, now, Position(c))
    ensures Built(m', u, now, Position(c) + 1)
  {
    m' := m;
    if Sets(u, c) {
      m' := m'[c := ColumnValue(u, now, c)];
    }
  }

  /**
   * `saveProductsToCloud(ps)`: the table is cleared (that delete's error is ignored); with
   * no products nothing is inserted and the call succeeds, otherwise one row per product is
   * inserted, in order and with the same ids, and the insert's error is thrown.
   */
  function SaveProductsToCloud(ps: seq<Product>, insertError: Option<StoreError>)
    : (r: (Option<seq<Row>>, Result<(), StoreError>))
    ensures |ps| == 0 ==> r.0.None? && r.1.Success?
    ensures |ps| > 0 ==> r.0.Some? && |r.0.value| == |ps|
    ensures |ps| > 0 ==> forall i :: 0 <= i < |ps| ==> r.0.value[i].id == ps[i].id
    ensures |ps| > 0 ==> forall i :: 0 <= i < |ps| ==> r.0.value[i] == ToRow(ps[i])
    ensures r.1.Failure? <==> |ps| > 0 && insertError.Some?
    ensures r.1.Failure? ==> r.1.error == insertError.value
  {
    if |ps| == 0 then (None, Success(()))
    else (Some(Map(ToRow, ps)), if insertError.Some? then Failure(insertError.value) else Success(()))
  }

  /**
   * Saving a list of products and reading the table back without errors yields each
   * product's normal form, in the same order.
   */
  lemma SaveThenReadBack(ps: seq<Product>, insertError: Option<StoreError>)
    requires |ps| > 0
    ensures var rows := SaveProductsToCloud(ps, insertError).0.value;
      GetProductsFromCloud(Response(Some(rows), None)) == Success(Map(Normalised, ps))
  {
    var rows := SaveProductsToCloud(ps, insertError).0.value;
    var read := GetProductsFromCloud(Response(Some(rows), None)).value;
    forall i | 0 <= i < |ps| ensures read[i] == Normalised(ps[i]) {
      RowRoundTrip(ps[i]);
    }
  }

  /** `getCategoriesFromCloud()`: the names of the rows, or the store's error thrown. */
  function GetCategoriesFromCloud(response: Response<seq<string>>): (r: Result<seq<string>, StoreError>)
    ensures response.error.Some? ==> r == Failure(response.error.value)
    ensures response.error.None? ==> r == Success(response.data.GetOr([]))
  {
    if response.error.Some? then Failure(response.error.value) else Success(response.data.GetOr([]))
  }

  /** `addCategoryToCloud(name)`: the insert's error is thrown; otherwise the table is read again. */
  function AddCategoryToCloud(insertError: Option<StoreError>, reread: Response<seq<string>>)
    : (r: Result<seq<string>, StoreError>)
    ensures insertError.Some? ==> r == Failure(insertError.value)
    ensures insertError.None? ==> r == GetCategoriesFromCloud(reread)
  {
    if insertError.Some? then Failure(insertError.value) else GetCategoriesFromCloud(reread)
  }

  /** `deleteCategoryFromCloud(name)`: the delete's error is thrown; otherwise the table is read again. */
  function DeleteCategoryFromCloud(deleteError: Option<StoreError>, reread: Response<seq<string>>)
    : (r: Result<seq<string>, StoreError>)
    ensures deleteError.Some? ==> r == Failure(deleteError.value)
    ensures deleteError.None? ==> r == GetCategoriesFromCloud(reread)
  {
    if deleteError.Some? then Failure(deleteError.value) else GetCategoriesFromCloud(reread)
  }
}

# Sunny style shop: catalog store, data service and cart rules in Dafny

The storefront sells fried snacks in Thai baht. Its core logic covers four areas:

- **Catalog stores.** `src/lib/products-db.ts` and `src/lib/products.ts` keep the product list and the category list in the browser's `localStorage`. Each list sits under a fixed key. Every mutator reads the whole list, changes it and writes it back. `products.ts` also seeds the default products and categories on the first read.
- **Data service.** `DataService` (`src/lib/data-service.ts`) tries a remote database first. When that call throws, it falls back to the local store. When the call succeeds, writes are mirrored into the local store.
- **Cloud adapter.** `src/lib/cloud-database.ts` maps rows of the hosted `products` table to products and back. It builds the column payload of a partial update and rethrows every store error except the one from the bulk delete.
- **Cart.** The order page (`src/pages/Order.tsx`) holds the cart rules:
  - add, change quantity, remove;
  - the total with an inclusive wholesale threshold;
  - persisting the cart in a minimal `{ id, quantity }` form, and hydrating that form against the loaded product list;
  - a one-time migration of the legacy cart key;
  - the checks before a receipt is drawn.

  The product card (`src/components/ProductCard.tsx`) repeats the add directly on the stored minimal cart. The product grid (`src/components/ProductGrid.tsx`) filters by category.

## How the model is organised

| file | module | what it holds |
|---|---|---|
| `wrappers.dfy` | `Wrappers` | `Option` and `Result` |
| `seqs.dfy` | `Seqs` | `Array.prototype.filter` and `map` as functions, plus subsequence lemmas |
| `catalog.dfy` | `Catalog` | `Product`, the id-less `Draft`, the partial update `Patch`, the object spread `Merge`, and the list operations both catalog stores share |
| `storage.dfy` | `Storage` | a `LocalStorage` class with one field per key the core touches |
| `products_db.dfy` | `ProductsDb` | `src/lib/products-db.ts` as methods that read and write the products and categories fields |
| `products.dfy` | `SeededProducts` | `src/lib/products.ts`, see below |
| `data_service.dfy` | `DataService` | the fallback and mirroring of each `DataService` method |
| `cart.dfy` | `Cart` | the pure cart functions of the order page |
| `order_page.dfy` | `OrderPage` | the order page's storage effects: load or migrate, persist, hydrate |
| `product_card.dfy` | `ProductCard` | `handleAddToCart` |
| `product_grid.dfy` | `ProductGrid` | the category filter |
| `cloud_database.dfy` | `CloudDatabase` | the cloud adapter |

Some details of how the source maps to the model:

- **Storage keys.** Each key holds JSON of one shape, so each key is a typed field: `Stored<T>`, which is `Blank | Malformed | NotList | List(items)`, wrapped in an `Option` for the absent key.
  - `Blank` is the empty string, which the code treats like an absent key because it is falsy.
  - `Malformed` is text that `JSON.parse` rejects.
- **Default arrays in `products.ts`.** `getProducts` and `getCategories` return the module's default arrays themselves when the key holds no list. `addProduct` and `addCategory` then push onto whatever array they received. So `SeededProducts` models JavaScript arrays as `ListRef` objects. The push really does reach the defaults: after the first product is added on an empty store, a later fallback read returns four products, not three (`DefaultsGrowAfterFirstAdd`).
- **The remote.** The remote database is an oracle: each `DataService` method receives the `Reply` its remote call would produce.
  - The module shipped with the storefront (`src/lib/database.ts`) throws from every call, which is `Threw`. Under `Threw` every `DataService` method gives the same result and leaves the same local store as the matching `ProductsDb` method. The `Throwing…IsLocal` methods prove this on two storages with equal contents.
  - `isDatabaseAvailable` always returns true, so the "database unavailable" branches are never taken and are not modelled.
- **The cloud adapter.** Each store call is given the response or error it would get.
- **Ids and the clock.** Generated ids (`Date.now().toString()`) and the clock (`new Date().toISOString()`) are parameters.
- **Storage writes.** `setItem` failing for lack of quota on the order page is a boolean parameter.
- **Prices** are whole baht, so they are integers.
- **The `Product` type.** In `src/lib/products.ts`, `Product` declares neither `pinned` nor `pinnedAt`. The cloud adapter reads and writes both, and the object spreads copy them along, so the model's `Product` carries them as optional fields.

## Model

| member | source | states |
|---|---|---|
| Catalog.Draft.WithId | src/lib/products-db.ts:22 | the new product has the generated id and exactly the draft's fields |
| Catalog.Merge | src/lib/products-db.ts:34 | `{ ...p, ...u }`: each field present in the update replaces the product's, every absent field is kept (id included) |
| Catalog.MergeNoChangeAndIdempotent | src/lib/products-db.ts:34 | merging `{}` changes nothing; merging the same update twice equals merging it once |
| Catalog.WithoutId | src/lib/products-db.ts:29 | no product with the id remains; every other product remains exactly as often as it occurred; the result is an order-preserving subsequence |
| Catalog.Patched | src/lib/products-db.ts:34 | same length; products with the id become their merge with the update, all others are unchanged at their index |
| Catalog.WithoutName | src/lib/products-db.ts:64 | the name no longer occurs; every other name remains exactly as often as it occurred, in order; a duplicate-free list stays duplicate-free |
| Catalog.WithCategory | src/lib/products-db.ts:55-60 | an existing name leaves the list unchanged, a new one is appended at the end; a duplicate-free list stays duplicate-free |
| Catalog.AddThenDeleteCategory | src/lib/products-db.ts:54-67 | for a name not yet present, adding and then deleting it restores the original list |
| Catalog.DeleteAbsentId | src/lib/products-db.ts:28-31 | deleting an id no product has leaves the list unchanged |
| Storage.ListOrEmpty | src/lib/products-db.ts:4-14 | the stored list when the key holds one, the empty list otherwise |
| ProductsDb.GetProducts | src/lib/products-db.ts:4-14 | absent, empty or unparsable content reads as `[]`; a stored list reads as itself; no error escapes |
| ProductsDb.SaveProducts | src/lib/products-db.ts:16-18 | the key holds exactly the given list, so the next read returns it |
| ProductsDb.AddProduct | src/lib/products-db.ts:20-26 | returns the draft with the new id; the stored list is the old one with that product appended |
| ProductsDb.DeleteProduct | src/lib/products-db.ts:28-31 | the stored list becomes the old list without the id |
| ProductsDb.UpdateProduct | src/lib/products-db.ts:33-36 | the stored list becomes the old list patched at the id |
| ProductsDb.GetCategories | src/lib/products-db.ts:38-48 | absent, empty or unparsable content reads as `[]`; a stored list reads as itself |
| ProductsDb.SaveCategories | src/lib/products-db.ts:50-52 | the key holds exactly the given list |
| ProductsDb.AddCategory | src/lib/products-db.ts:54-61 | the result is the list with the name added if absent; a present name writes nothing, a new one writes the result |
| ProductsDb.DeleteCategory | src/lib/products-db.ts:63-67 | the result, also written, is the old list without the name |
| SeededProducts.ListRef.Push | src/lib/products.ts:70 | `push` appends the element to the array object every holder of the reference sees |
| SeededProducts.DefaultsAreConsistent | src/lib/products.ts:15-48 | three default products with distinct ids, four distinct default categories, every product's category among them |
| SeededProducts.Seeded | src/lib/products.ts:50-61 | a read yields the stored list, or the current default array when the key holds no list |
| SeededProducts.ProductsModule.constructor | src/lib/products.ts:15-48 | the default arrays start as the three products and the four categories |
| SeededProducts.ProductsModule.GetProducts | src/lib/products.ts:50-61 | an absent or empty key is seeded and the default array returned; unparsable content returns the default array and writes nothing; a stored list returns a fresh array with it |
| SeededProducts.ProductsModule.AddProduct | src/lib/products.ts:67-73 | the list read grows by exactly the draft with the new id, and is written back; the default array grows too exactly when the read returned it |
| SeededProducts.ProductsModule.DeleteProduct | src/lib/products.ts:75-78 | the list read, without the id, is written back |
| SeededProducts.ProductsModule.UpdateProduct | src/lib/products.ts:80-83 | the list read, patched at the id, is written back |
| SeededProducts.ProductsModule.GetCategories | src/lib/products.ts:86-97 | as for products, with the default category array |
| SeededProducts.ProductsModule.AddCategory | src/lib/products.ts:103-110 | the result is the list read with the name added if absent; nothing beyond the read's seeding is written for a present name; the default array grows exactly when it was read and the name is new |
| SeededProducts.ProductsModule.DeleteCategory | src/lib/products.ts:112-116 | the result, also written, is the list read without the name |
| SeededProducts.DefaultsGrowAfterFirstAdd | src/lib/products.ts:59-70 | with the key absent, adding a product and then corrupting the key makes the next read return the three defaults plus the new product |
| DataService.GetProducts | src/lib/data-service.ts:15-25 | the remote list when the remote returns, the local list when it throws |
| DataService.SaveProducts | src/lib/data-service.ts:27-40 | the local store holds exactly the list whatever the remote does |
| DataService.AddProduct | src/lib/data-service.ts:42-55 | the remote's product when it returns, the local product when it throws; either way the local list gains the draft under the local id |
| DataService.DeleteProduct | src/lib/data-service.ts:57-70 | the local list loses the id whatever the remote does |
| DataService.UpdateProduct | src/lib/data-service.ts:72-85 | the local list gets the plain local patch whatever the remote does |
| DataService.GetCategories | src/lib/data-service.ts:87-97 | the remote list when the remote returns, the local list when it throws |
| DataService.AddCategory | src/lib/data-service.ts:99-112 | the local store always takes the local add (nothing written for a present name, the extended list for a new one); the result is the remote's list or, on a throw, the local one |
| DataService.DeleteCategory | src/lib/data-service.ts:114-127 | the local list always loses the name; the result is the remote's list or, on a throw, the local one |
| DataService.ThrowingGetProductsIsLocal | src/lib/data-service.ts:17-22 | with a remote that throws, the result equals the local store's read |
| DataService.ThrowingSaveProductsIsLocal | src/lib/data-service.ts:29-36 | with a remote that throws, the local store ends as the local save leaves it |
| DataService.ThrowingAddProductIsLocal | src/lib/data-service.ts:44-52 | with a remote that throws, result and local store equal those of the local add |
| DataService.ThrowingDeleteProductIsLocal | src/lib/data-service.ts:59-66 | with a remote that throws, the local store ends as the local delete leaves it |
| DataService.ThrowingUpdateProductIsLocal | src/lib/data-service.ts:74-81 | with a remote that throws, the local store ends as the local update leaves it |
| DataService.ThrowingGetCategoriesIsLocal | src/lib/data-service.ts:89-94 | with a remote that throws, the result equals the local store's read |
| DataService.ThrowingAddCategoryIsLocal | src/lib/data-service.ts:101-109 | with a remote that throws, result and local store equal those of the local add |
| DataService.ThrowingDeleteCategoryIsLocal | src/lib/data-service.ts:116-124 | with a remote that throws, result and local store equal those of the local delete |
| Cart.AddToCart | src/pages/Order.tsx:203-214 | with the id in the cart, same length and exactly the items with that id gain one; otherwise the product is appended with quantity 1 |
| Cart.AddToCartKeepsIdsUnique | src/pages/Order.tsx:203-214 | adding never creates a second item for an id |
| Cart.AddToCartKeepsQuantitiesPositive | src/pages/Order.tsx:203-214 | adding keeps every quantity at least 1 |
| Cart.UpdateQuantity | src/pages/Order.tsx:218-228 | items for the id get `max(1, q + delta)`; other items with positive quantity stay; nothing below 1 remains; never longer |
| Cart.UpdateQuantityKeepsItems | src/pages/Order.tsx:218-228 | on a cart of positive quantities, the update is exactly the pointwise clamp, nothing dropped |
| Cart.RemoveFromCart | src/pages/Order.tsx:230-231 | no item for the id remains; every other item remains exactly as often as it occurred, in order |
| Cart.AddThenRemove | src/pages/Order.tsx:203-231 | adding a product and then removing its id equals removing the id alone |
| Cart.RemoveIgnoresIncrement | src/pages/Order.tsx:207-211 | removing an id erases any increment made to it |
| Cart.UnitPrice | src/pages/Order.tsx:239-241 | wholesale price from `minWholesaleQty` upwards (inclusive), retail below |
| Cart.Total | src/pages/Order.tsx:235-245 | the left fold of unit price times quantity; never negative for non-negative prices and quantities |
| Cart.TotalAppend | src/pages/Order.tsx:235-245 | the total of two carts one after the other is the sum of their totals |
| Cart.WholesaleThresholdExample | src/pages/Order.tsx:235-245 | at 59/45/min 10, five pieces cost 295 and ten cost 450 |
| Cart.Minimal | src/pages/Order.tsx:162 | one `{ id, quantity }` per item, same order |
| Cart.Placeholder | src/pages/Order.tsx:114-122 | a placeholder item keeps the stored id and quantity |
| Cart.Placeholders | src/pages/Order.tsx:114-122 | the minimal form of the placeholders is the stored list itself |
| Cart.FindById | src/pages/Order.tsx:190 | nothing is found exactly when no product has the id; what is found is a listed product with that id |
| Cart.FindListedProduct | src/pages/Order.tsx:190 | with unique ids, looking a listed product up by its id finds it |
| Cart.Hydrate | src/pages/Order.tsx:186-195 | never longer than the cart; every item carries a loaded product |
| Cart.HydrateKeepsListedEntries | src/pages/Order.tsx:186-195 | the minimal form after hydration is exactly the stored entries whose id is listed, in order, with their quantity |
| Cart.MinimalAppend | src/pages/Order.tsx:162 | the minimal form distributes over concatenation |
| Cart.HydrateSeesOnlyMinimal | src/pages/Order.tsx:186-195 | hydration depends only on ids and quantities |
| Cart.HydrateListedCart | src/pages/Order.tsx:186-195 | a cart whose products are all listed (unique ids) hydrates to itself |
| Cart.PersistHydrateRoundTrip | src/pages/Order.tsx:160-195 | persisting the cart, reloading placeholders and hydrating against a list holding its products gives back the cart |
| Cart.IdString | src/pages/Order.tsx:137 | `String(id)` of a truthy id is non-empty; the text itself for a string id, the decimal notation for a number id |
| Cart.DecimalString | src/pages/Order.tsx:137 | the decimal form starts with '-' exactly for negatives, and its digits denote the absolute value with no leading zero |
| Cart.Digits | src/pages/Order.tsx:137 | the digits of a natural number denote it, and only zero's start with '0' |
| Cart.Migrate | src/pages/Order.tsx:133-138 | never longer than the legacy list; every migrated id is non-empty |
| Cart.MigrateOne | src/pages/Order.tsx:136-137 | a non-object entry or one with a falsy id migrates to nothing; any other entry to its id as a string with its quantity, 1 when missing |
| Cart.MigrateAppend | src/pages/Order.tsx:134-138 | migration works entry by entry: it distributes over concatenation |
| Cart.MigrateWellFormed | src/pages/Order.tsx:133-138 | object entries with non-empty string ids all survive, one for one, with a missing quantity defaulting to 1 |
| Cart.ReceiptGate | src/pages/Order.tsx:266-273 | drawing proceeds exactly when the cart is non-empty and name and phone are both non-empty; an empty cart is refused first |
| OrderPage.ArrayOrEmpty | src/pages/Order.tsx:112 | `Array.isArray(parsed) ? parsed : []` |
| OrderPage.LoadCart | src/pages/Order.tsx:107-158 | a parsable minimal key becomes placeholders with nothing written; otherwise a parsable legacy key is migrated, written to the minimal key or, when that write fails, the legacy key removed; otherwise the cart is empty and storage untouched |
| OrderPage.MigrateAndStore | src/pages/Order.tsx:133-154 | placeholders of the migrated entries; the minimal key written, or the legacy key removed when the write fails |
| OrderPage.PersistCart | src/pages/Order.tsx:160-170 | the minimal form of the cart is written unless the write fails |
| OrderPage.LoadProducts | src/pages/Order.tsx:180-201 | products come from the data service; the cart keeps exactly the listed entries in order with their quantity, each carrying a loaded product |
| OrderPage.ReloadRestoresCart | src/pages/Order.tsx:107-195 | persist, reload and hydrate restores the same cart when the product list still holds its products |
| ProductCard.Bumped | src/components/ProductCard.tsx:22-27 | the first entry for the id gains exactly one and nothing else changes; without one, `{ id, quantity: 1 }` is appended |
| ProductCard.HandleAddToCart | src/components/ProductCard.tsx:17-34 | an absent or empty key gives a single entry of quantity 1; unparsable or non-array content takes the error path and writes nothing; otherwise the bumped list is written |
| ProductCard.AgreesWithAddToCart | src/components/ProductCard.tsx:22-27 | on `{ id, quantity }` pairs the card's update equals the order page's `addToCart`, for carts with unique ids |
| ProductCard.FirstWithId | src/components/ProductCard.tsx:22 | a cart holding the id has a first position for it |
| ProductCard.IncrementOnlyAt | src/pages/Order.tsx:207-211 | with unique ids, `addToCart` of a listed product changes only its one position, by one |
| ProductGrid.Filtered | src/components/ProductGrid.tsx:32-34 | no active category gives the whole list; otherwise every kept product has the category, each product with it is kept exactly as often as it occurs, and order is kept |
| CloudDatabase.FromRow | src/lib/cloud-database.ts:14-25 | id, name and prices are copied; a present image, description or category is kept and a missing one becomes `''`; `pinned` is a boolean; a falsy `pinned_at` becomes undefined and any other becomes that timestamp |
| CloudDatabase.StampColumn | src/lib/cloud-database.ts:40 | `pinnedAt ?? null` is the timestamp when one is set and null otherwise |
| CloudDatabase.ToRow | src/lib/cloud-database.ts:71-82 | id, name, image, prices, description and category are copied; `pinned` coerced to a boolean; `pinned_at` is the timestamp, or null when none is set |
| CloudDatabase.Normalised | src/lib/cloud-database.ts:14-25 | the normal form keeps id, name, image and prices |
| CloudDatabase.RowRoundTrip | src/lib/cloud-database.ts:14-25 | writing a product as a row and reading it back yields its normal form |
| CloudDatabase.NormalFormIsFixed | src/lib/cloud-database.ts:14-25 | a product already in normal form survives the round trip unchanged |
| CloudDatabase.GetProductsFromCloud | src/lib/cloud-database.ts:6-26 | an error is thrown; otherwise one product per row in order (none for null data) |
| CloudDatabase.AddProductToCloud | src/lib/cloud-database.ts:28-44 | the inserted row is the draft with the new id mapped to a row: the new id, a boolean `pinned` and null `pinned_at` without a timestamp; the insert error is thrown, otherwise the draft's fields with the id are returned |
| CloudDatabase.DeleteProductFromCloud | src/lib/cloud-database.ts:46-49 | fails exactly when the delete reports an error, with that error |
| CloudDatabase.Payload | src/lib/cloud-database.ts:52-62 | a column for exactly the supplied defined fields plus `updated_at`; supplied values are sent, `pinned` as a boolean, a null `pinnedAt` as null |
| CloudDatabase.BuiltIsPayload | src/lib/cloud-database.ts:52-62 | a map built through every conditional assignment equals the payload |
| CloudDatabase.SetIf | src/lib/cloud-database.ts:53-61 | one conditional assignment extends the map built so far by that column exactly when it is set |
| CloudDatabase.BuildPayload | src/lib/cloud-database.ts:52-62 | the sequence of assignments builds every column of the payload |
| CloudDatabase.UpdateProductInCloud | src/lib/cloud-database.ts:51-66 | the request is the payload for the id; the outcome fails exactly when the update reports an error |
| CloudDatabase.SaveProductsToCloud | src/lib/cloud-database.ts:68-85 | no rows and success for an empty list; otherwise the inserted rows are the write mapping of each product, in order; fails exactly on an insert error and then with that error (the bulk delete's error is ignored) |
| CloudDatabase.SaveThenReadBack | src/lib/cloud-database.ts:71-82 | the inserted rows, mapped back by the read mapping, are the products' normal forms, in insertion order |
| CloudDatabase.GetCategoriesFromCloud | src/lib/cloud-database.ts:87-94 | the error is thrown, otherwise the names (none for null data) |
| CloudDatabase.AddCategoryToCloud | src/lib/cloud-database.ts:96-100 | the insert error is thrown, otherwise the table is read again |
| CloudDatabase.DeleteCategoryFromCloud | src/lib/cloud-database.ts:102-106 | the delete error is thrown, otherwise the table is read again |

## Left out

- JSON serialisation is left out. Each key holds either parsed content or a parse failure (`Malformed`).
- Catalog keys holding valid JSON that is not an array are left out. The catalog code only ever writes arrays there. `JSON.parse` would return such content unchanged, and the callers would then fail on it.
- An explicit `undefined` for a required product field in a `Partial<Product>` is not representable. `Patch` can express it only for the optional fields.
- The `Number(...)` conversions in the cloud adapter and in the legacy migration are taken as the identity, because the values are taken to be integers already. Fractional, non-numeric, boolean and object ids are left out.
- Cart.IdString: a number id is written in plain decimal. JavaScript's `String` switches to exponent notation from 1e21 upwards, so ids that large are not modelled faithfully.
- Product lists are `seq` values. `ProductsDb` and the `DataService` methods read, change and write whole values, so only the `products.ts` default arrays model reference aliasing.
- `setItem` failing for lack of quota is modelled only on the order page. In the catalog stores, and in the product card, where it takes the error path, such a write is taken to succeed.
- React effect scheduling is left out. On mount, the persist effect first writes the still-empty cart and then the loaded one. The model runs each effect on its own.
- The customer-info load and persist effects are left out, as are the order summary text and `formatTHB`. The summary only formats strings, and `formatTHB` uses the locale library.
- Receipt canvas drawing, clipboard, Messenger/LINE navigation and toasts are browser I/O and are left out. Only the checks that gate the receipt are modelled.
- `DataService.initializeDatabase` only logs, and its database call does nothing, so it is left out.
- The "database unavailable" branches of `DataService` are left out because `isDatabaseAvailable` always returns true.
- `src/lib/database.ts` is not part of this model. It is represented by the `Threw` reply.
- The hosted store's queries are left out: ordering by `created_at` or by `name`, row filtering by id, and the storage of rows. Each store call is given the response it would return.
- `src/lib/image-compress.ts` uses floating point and canvas APIs, and the `sync-from-neon` edge function is HTTP plus an upsert. Both are not part of this model.
- Admin and the other pages are UI over the modelled functions and are not part of this model.
- Cart.FindById: does not state that the FIRST product with the id is returned, only some listed product with it. `FindListedProduct` pins the result down when ids are unique.
- Cart.UpdateQuantity: states membership of the kept items, not their positions. `UpdateQuantityKeepsItems` gives the exact pointwise result when every quantity is positive.
- Cart.Migrate: its own contract gives only the bounds and non-empty ids. The full result is stated by `MigrateOne` for each entry and `MigrateAppend` for lists.
- Cart.Hydrate: its own contract gives only the bounds and provenance. `HydrateKeepsListedEntries` and `HydrateListedCart` state what it keeps.

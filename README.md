# Product catalog model

A Dafny model of `ProductCatalog`, the front-end data model of a small web shop.
A catalog holds two pieces of state:

- `items`: the ordered list of all products;
- `preview`: the one product chosen for detailed display, or none.

Its operations are the constructor, `setItems`, `getItems`, `getProduct`,
`setPreview` and `getPreview`. In the model, `Models.ProductCatalog` is a class
with a `seq<Product>` field and an `Option<Product>` field. The setters are
methods with `modifies this`; the getters and the lookup are methods without a
`modifies` clause, so they change no state.

The lookup is a `while` loop. It is proved equal to `Models.Find`, a recursive
reference definition. The properties of that definition are proved once, in its
contract and in lemmas:

- a result, when there is one, has the identifier asked for;
- it is the earliest product with that identifier, so the first match wins on duplicates;
- the result is none exactly when no product has that identifier.

A product record (`IProduct`) is defined outside this model, in `src/types`,
which is not part of this model. `Types.Product` carries the identifier `id`
and keeps every other attribute in an opaque `Details` value.

`setItems` receives a mutable array. The model takes it as an `array<Product>`
and stores the sequence of its current elements (`a[..]`), which is the shallow
copy `[...items]` makes. `Models.SetItemsCopies` overwrites the caller's array
afterwards and shows that the stored items keep the old contents.

## Model

| member | source | states |
|---|---|---|
| `Models.Find` | src/models/ProductCatalog.ts:41-43 | The lookup result is none exactly when no product has identifier `id`. Otherwise it is one of the stored products, and its identifier is `id`. |
| `Models.FindEarliest` | src/models/ProductCatalog.ts:41-43 | If position `k` is the earliest product with identifier `id`, the lookup returns exactly `items[k]`, so the first match wins on duplicates. |
| `Models.FindUnique` | src/models/ProductCatalog.ts:36-43 | A product whose identifier occurs only once in the list is what a lookup by that identifier returns. |
| `Models.ProductCatalog.constructor` | src/models/ProductCatalog.ts:8-18 | A new catalog has an empty item list and no preview. |
| `Models.ProductCatalog.SetItems` | src/models/ProductCatalog.ts:24-26 | The stored items become the elements the caller's array holds at the call, in order; the preview is unchanged. |
| `Models.ProductCatalog.GetItems` | src/models/ProductCatalog.ts:32-34 | Returns the stored items and changes no state. |
| `Models.ProductCatalog.GetProduct` | src/models/ProductCatalog.ts:41-43 | The linear search returns none exactly when no stored product has identifier `id`, the empty list included; otherwise it returns the first product with that identifier. Its result equals `Models.Find` on the stored items, and it changes no state. |
| `Models.ProductCatalog.SetPreview` | src/models/ProductCatalog.ts:49-51 | The preview becomes the given product, with no check that it is among the items; the items are unchanged. |
| `Models.ProductCatalog.GetPreview` | src/models/ProductCatalog.ts:57-59 | Returns the stored preview, or none if none was set, and changes no state. |
| `Models.NewCatalogIsEmpty` | src/models/ProductCatalog.ts:15-18 | On a fresh catalog, `getItems` is empty, `getPreview` is none and the lookup of any identifier `id` is none. |
| `Models.SetItemsThenGetItems` | src/models/ProductCatalog.ts:24-34 | After `setItems(a)`, `getItems` returns a sequence of the same length as `a`, equal to it element by element and in the same order. |
| `Models.SetItemsCopies` | src/models/ProductCatalog.ts:25 | Overwriting an element of the caller's array after `setItems` leaves the stored items equal to the array's old contents. |
| `Models.SetPreviewThenGetPreview` | src/models/ProductCatalog.ts:49-59 | `setPreview(p)` followed by `getPreview` yields `p`, whether or not `p` is among the items, and the items stay as they were. |
| `Models.TwoProductScenario` | src/models/ProductCatalog.ts:24-59 | With products "a" and "b" stored, looking up "b" finds the b product, looking up "c" finds none, and after choosing b for display `getPreview` returns b. |

## Left out

- Aliasing of references. `getItems` returns the internal array itself, and `setPreview` stores the product object it is given. Callers can therefore mutate the stored state through these references. The model keeps items as an immutable `seq` and products as values, so this mutation cannot be expressed.
- The `|| null` after `Array.find` is modelled as "found or none". Products are objects, so a found product is never falsy.
- Attributes of a product other than `id`. They are defined in `src/types`, which is not part of this model, and the catalog never reads them.
- Identifiers are Dafny strings of Unicode scalar values. JavaScript strings are UTF-16 code units, so an `id` holding a lone surrogate cannot be represented. Equality of identifiers agrees on every string the model can represent, and nothing else in the catalog depends on the encoding.
- Rendering, fetching, persistence and concurrency. None of them take place in this component.

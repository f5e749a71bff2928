# Shopping-cart state of the storefront's cart hook

This project models the cart state that the storefront's `CartProvider` keeps (`src/hooks/useCart.tsx`). The cart is a list of entries keyed by product id, each with an amount. It is loaded once from the browser storage key `@RocketShoes:cart`, and it changes through three operations:

- `addProduct` checks the stock endpoint and then either appends a new entry with amount 1 or adds one unit to the existing entry.
- `removeProduct` deletes the first entry with the id, or raises a notice when there is none.
- `updateProductAmount` ignores non-positive amounts, refuses amounts above the stock, and otherwise sets the amount of every entry with the id.

Every successful change writes the new cart to storage and publishes it.

Everything is in `use_cart.dfy`, module `UseCart`:

- The pure part has the cart entries and the array operations the hook uses: `findIndex` as `FindIndex`, `splice` as `RemoveAt`, and the `map` of `updateProductAmount` as `SetAmount`. It also has lemmas about these operations.
- Class `CartProvider` holds the in-memory cart (`cart`) and the stored cart (`storage`). Its methods are the three operations.
- `Valid()` says a reload from storage would give back the in-memory cart.
- The HTTP answers are parameters of type `Fetch` (`Received(data)` or `Rejected`). `Rejected` stands for the request failing and the `catch` block running.
- The toasts become `Outcome.Failed(notice)`. `Message` gives each notice's text.

Details of the source that the model keeps:

- The `!stock.id` test treats a missing id and the id `0` alike, because both are falsy (`HasId`).
- The out-of-stock test for a new product is `stock.amount === 0` only. A negative stock amount therefore lets a new product in with amount 1. The stock bound that `AddProduct` promises is stated for non-negative stock amounts.
- The new entry's id comes from the product endpoint's record (`...data`), not from the id that was asked for. Well-formedness after an add (unique ids, amounts of at least 1) is therefore promised when the product record's id is the one asked for.
- `updateProductAmount` does not check the stock record's id. It does not check whether the product is in the cart either. For an absent id it writes the unchanged cart back to storage.

## Model

| member | source | states |
|---|---|---|
| `UseCart.FindIndex` | src/hooks/useCart.tsx:44 | the result is -1 exactly when no entry has the id; otherwise it is the first position holding the id |
| `UseCart.RemoveAt` | src/hooks/useCart.tsx:84 | `splice(i, 1)` shortens the cart by one; entries before `i` stay in place and later ones move down one, in their old order |
| `UseCart.SetAmount` | src/hooks/useCart.tsx:107-111 | the mapped cart keeps its length, ids and product fields; every entry with the id gets the new amount; every other entry is identical |
| `UseCart.FindIndexSameIds` | src/hooks/useCart.tsx:66 | two carts with the same ids in the same order give the same `findIndex`, so changing an amount never moves an entry |
| `UseCart.AppendAbsentFound` | src/hooks/useCart.tsx:55-58 | after pushing an entry whose id was absent, `findIndex` finds it at the new last position |
| `UseCart.AppendAbsentKeepsWellFormed` | src/hooks/useCart.tsx:44-58 | pushing an entry with amount 1 only when `findIndex` returned -1 keeps ids unique and amounts at least 1 |
| `UseCart.IncrementKeepsWellFormed` | src/hooks/useCart.tsx:66 | adding one unit to an entry keeps ids unique and amounts at least 1 |
| `UseCart.RemoveAtKeepsWellFormed` | src/hooks/useCart.tsx:84 | deleting one entry keeps ids unique and amounts at least 1 |
| `UseCart.RemoveFoundLeavesAbsent` | src/hooks/useCart.tsx:78-84 | with unique ids, deleting the entry `findIndex` found leaves no entry with that id |
| `UseCart.AppendThenRemove` | src/hooks/useCart.tsx:55-84 | appending an entry for an absent id and then removing that id gives back the original cart |
| `UseCart.SetAmountKeepsWellFormed` | src/hooks/useCart.tsx:107-111 | setting a positive amount keeps ids unique and amounts at least 1 |
| `UseCart.SetAmountAbsent` | src/hooks/useCart.tsx:107-111 | mapping over a cart that lacks the id gives back the same cart |
| `UseCart.SetAmountAtFound` | src/hooks/useCart.tsx:107-111 | with unique ids, the map changes exactly the one entry that `findIndex` reports |
| `UseCart.SetAmountIdempotent` | src/hooks/useCart.tsx:107-111 | setting the same amount twice gives the same cart as setting it once |
| `UseCart.CartProvider.constructor` | src/hooks/useCart.tsx:25-33 | the initial cart is the stored cart when storage holds one, and empty otherwise |
| `UseCart.CartProvider.FindProduct` | src/hooks/useCart.tsx:78 | the linear scan over the current cart returns what `FindIndex` specifies |
| `UseCart.CartProvider.AddProduct` | src/hooks/useCart.tsx:35-74 | it fails with AddFailed on a failed request and with OutOfStock when the stock record has no id, when a new product has stock 0, or when one more unit exceeds the stock; in those cases cart and storage are unchanged; otherwise it appends one entry with amount 1 at the end, or adds exactly 1 to the existing entry and leaves the rest unchanged; storage then equals the cart; well-formedness is kept; the product's amount is within the stock checked |
| `UseCart.CartProvider.RemoveProduct` | src/hooks/useCart.tsx:76-91 | an absent id fails with RemoveFailed and changes nothing; otherwise exactly the first entry with the id is deleted, order is kept, storage equals the cart, and with unique ids the id is gone |
| `UseCart.CartProvider.UpdateProductAmount` | src/hooks/useCart.tsx:93-118 | an amount of 0 or less does nothing; a failed request gives UpdateFailed; an amount above the stock gives OutOfStock, with nothing changed; otherwise the cart is the mapped cart, storage equals the cart, with unique ids one entry changes, an absent id leaves the cart as it was, well-formedness is kept, and the product's entries are within the stock checked |

## Left out

- The React context, the provider component, `useState`, re-rendering and the `useCart` hook are not modelled. The model keeps only the state they carry: the cart and the stored cart.
- The HTTP calls and `async`/`await` are not modelled. Their answers are parameters. A request that fails is `Rejected` and takes the source's `catch` path.
- `localStorage` and JSON serialisation are not modelled. Storage is `Option<seq<Entry>>`, where `None` means the key was never written. A stored value that is not valid JSON, or a stored empty string, cannot be expressed.
- A failing `localStorage.setItem` is not modelled. In the source, it runs after the in-place `push` or increment, so the state array would already be mutated when the `catch` runs.
- Aliasing is not modelled. The source mutates the current state array and its entry objects in place and then publishes a copy. The model reassigns the `cart` field with the new sequence, which gives the same resulting cart.
- Product fields other than `id` and `amount` are not modelled. They are the opaque type parameter `D`. `../types` is not part of this model.
- Stock and cart amounts are mathematical integers. JavaScript numbers that are fractional, `NaN` or missing (`undefined < amount` is false) are not modelled.
- `UseCart.CartProvider.AddProduct`: the promise that the added product's amount is at most the stock amount is stated only for a non-negative stock amount. The source tests `stock.amount === 0`, so a negative stock amount lets a new product in with amount 1.
- Toasts are the `Failed` outcome and `Message`. Nothing is displayed.

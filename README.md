# GoMarketplace cart store, modelled in Dafny

This project models the shopping-cart store of the GoMarketplace app
(`src/hooks/cart.tsx`). The store keeps a list of cart lines (`Product`: an id,
display attributes and a quantity) in memory. It mirrors that list into one
storage slot, `@GoMarketplace:car`, so that the next session can reload it. It
offers three commands, `addToCart`, `increment` and `decrement`, and a hook,
`useCart`, that fails outside a provider.

- `wrappers.dfy` (module `Wrappers`): `Option` and `Result`.
- `cart_lines.dfy` (module `CartLines`): the line datatype and the pure list computations.
  - `Find` is `find`, the index of the first line with an id.
  - `Without` is `filter(p => p.id !== id)`.
  - `Added`, `Incremented` and `Decremented` are the lists the three commands build.
  - `Quantities` views the cart as a map from id to the quantity of the line `find` returns.
  - Lemmas state what each command does to that map, the exact line order when ids are unique, and that the invariants hold.
- `cart_store.dfy` (module `CartStore`): the store itself.
  - Class `Cart` has the fields `products` (the list) and `saved` (the storage slot).
  - Its methods are `Hydrate` (`loadProducts`), `AddToCart`, `Increment` and `Decrement`. Each is written as the source's find / filter / append steps, followed by the assignments to `products` and `saved`.
  - The function `UseCart` models the hook.

The store's invariants:
- I1: every quantity is at least 1 (`PositiveQuantities`).
- I2: ids are unique (`UniqueIds`).
- I3: the stored snapshot equals the in-memory list (`Cart.Synced`).

Each command keeps I1 and I2. `Increment`, `Decrement` on a present id, and
`AddToCart` of a new id re-establish I3. `AddToCart` of an id already in the
cart does not (see Findings).

Four behaviours of the code are easy to misread, and the model follows the code on each:
- **`addToCart` on an id already present.** One might expect the same effect as `increment`: the line's quantity goes up and the new list is saved, so I3 holds. The code instead bumps the first matching line's quantity where it stands. It does not move the line to the end, does not reassign `products` and does not write the slot (`src/hooks/cart.tsx:48-49`).
- **What hydration adopts.** A stored value that parses is adopted without any check (`src/hooks/cart.tsx:38`). There is no fallback to an empty cart. On data that does not parse, `JSON.parse` throws inside the unawaited `loadProducts`. `setProducts` is then never called, so the list keeps its initial `[]` and the slot keeps the bad data until the next write. The model's slot always holds a list of lines, so only the adopt-what-is-stored path is modelled (see Left out).
- **Line order.** The code moves an incremented, or decremented but kept, line to the end of the list. The model keeps that order exactly.
- **Repeated ids.** `find` picks the first matching line. `filter` drops every line with that id. So on a list with a repeated id (possible only through stored data), `increment` and `decrement` also remove the later duplicates.

## Model

| member | source | states |
|---|---|---|
| `CartLines.NewLine` | src/hooks/cart.tsx:51 | the appended line carries the item's id, title, image and price, with quantity 1 |
| `CartLines.Find` | src/hooks/cart.tsx:47 | the result is the index of the first line carrying the id, and it is absent exactly when no line carries it |
| `CartLines.Without` | src/hooks/cart.tsx:67 | no line of the result carries the id, and a list without the id comes back unchanged |
| `CartLines.WithoutConcat` | src/hooks/cart.tsx:92 | filtering a concatenation filters each part and keeps the parts in order |
| `CartLines.WithoutMembers` | src/hooks/cart.tsx:84 | a line is kept by the filter exactly when it was in the list and its id differs |
| `CartLines.WithoutValid` | src/hooks/cart.tsx:92 | filtering an id out of a cart with unique ids and quantities at least 1 keeps both properties |
| `CartLines.WithoutSingle` | src/hooks/cart.tsx:84 | when the first line with the id is also the only one, the filter cuts out exactly that line and keeps the others in their order |
| `CartLines.WithoutUnique` | src/hooks/cart.tsx:67 | with unique ids, the filter cuts out exactly the one matching line and keeps the other lines in their order, so the length drops by one |
| `CartLines.Added` | src/hooks/cart.tsx:45-60 | after addToCart the id is in the cart; for a present id the length is unchanged; for a new id the old lines stay as they were and one line with quantity 1 is appended at the end |
| `CartLines.AddedExistingInPlace` | src/hooks/cart.tsx:47-49 | for a present id the length is unchanged, every line other than the first match is unchanged, and the first match differs only in a quantity one higher |
| `CartLines.Incremented` | src/hooks/cart.tsx:62-77 | an absent id leaves the list unchanged; for a present id the result begins with the lines of other ids, in their order |
| `CartLines.Decremented` | src/hooks/cart.tsx:79-103 | an absent id leaves the list unchanged; for a present id the lines of other ids come first, in their order |
| `CartLines.QuantitiesOfFirstMatch` | src/hooks/cart.tsx:64 | an id is a key of the cart's quantity map exactly when some line carries it, and its value is the quantity of the line `find` returns |
| `CartLines.QuantitiesAppend` | src/hooks/cart.tsx:51 | appending a line with a new id adds that id with the line's quantity; appending a line whose id is already present changes nothing in the map |
| `CartLines.QuantitiesWithout` | src/hooks/cart.tsx:92 | filtering out an id removes exactly that key from the quantity map |
| `CartLines.QuantitiesSetFirst` | src/hooks/cart.tsx:49 | changing the quantity of the first line of an id in place changes that key's quantity and no other |
| `CartLines.QuantitiesMoveToEnd` | src/hooks/cart.tsx:67-68 | filtering an id out and appending one line with it sets that id's quantity to the line's and leaves every other id alone |
| `CartLines.AddedQuantities` | src/hooks/cart.tsx:47-56 | addToCart raises the item's quantity by exactly one (from 0 when it is new) and leaves every other id's quantity as it was |
| `CartLines.IncrementedQuantities` | src/hooks/cart.tsx:64-68 | increment raises a present id's quantity by exactly one and changes no other id; an absent id changes nothing |
| `CartLines.DecrementedQuantities` | src/hooks/cart.tsx:81-93 | decrement removes a present id whose quantity is 1, lowers any other present id's quantity by one, changes no other id, and leaves the cart alone for an absent id |
| `CartLines.DecrementedRemovesAtOne` | src/hooks/cart.tsx:83-93 | after decrementing an id with quantity 1 the id is absent; with quantities at least 1, an id of higher quantity stays, one lower and still at least 1 |
| `CartLines.AddedExistingIsIncrement` | src/hooks/cart.tsx:47-49 | for an id already present, the in-place bump of addToCart gives the same id-to-quantity map as increment; with unique ids the two lists also hold the same lines (equal multisets), in a different order |
| `CartLines.AddedExistingSameLines` | src/hooks/cart.tsx:47-49 | with unique ids and the item's line found at `i`, addToCart and increment leave the same multiset of lines |
| `CartLines.IncrementedUnique` | src/hooks/cart.tsx:64-68 | with unique ids, increment gives the other lines in their original order followed by the matching line with quantity + 1, at the same length |
| `CartLines.DecrementedUnique` | src/hooks/cart.tsx:83-93 | with unique ids, decrement at quantity 1 cuts the line out and the length drops by one; otherwise the other lines in their order are followed by the line with quantity - 1, at the same length |
| `CartLines.AddedValid` | src/hooks/cart.tsx:47-51 | addToCart keeps ids unique and every quantity at least 1 |
| `CartLines.IncrementedValid` | src/hooks/cart.tsx:66-68 | increment keeps ids unique and every quantity at least 1 |
| `CartLines.DecrementedValid` | src/hooks/cart.tsx:83-93 | decrement keeps ids unique and every quantity at least 1 |
| `CartLines.AppendFreshIdValid` | src/hooks/cart.tsx:93 | appending a line with a new id and a quantity of at least 1 keeps a valid cart valid |
| `CartStore.Cart.constructor` | src/hooks/cart.tsx:29 | a mounted store starts with an empty list, whatever the slot holds |
| `CartStore.Cart.Hydrate` | src/hooks/cart.tsx:31-43 | an empty slot gives an empty list and the slot then holds an empty list; a stored list is adopted exactly and the slot is left as it was; either way the snapshot equals the list afterwards |
| `CartStore.Cart.AddToCart` | src/hooks/cart.tsx:45-60 | the list becomes `Added` of the old list; a new id's list is written to the slot; for an id already present the slot keeps its earlier value; a valid cart stays valid |
| `CartStore.Cart.Increment` | src/hooks/cart.tsx:62-77 | the list becomes `Incremented` of the old list and is written to the slot when the id was present; an absent id leaves the list and the slot unchanged; a valid cart stays valid |
| `CartStore.Cart.Decrement` | src/hooks/cart.tsx:79-103 | the list becomes `Decremented` of the old list and is written to the slot when the id was present; an absent id leaves the list and the slot unchanged; a valid cart stays valid |
| `CartStore.Cart.AddToCartWriteThrough` | src/hooks/cart.tsx:47-49 | corrected addToCart: an existing id is incremented, a new one appended, and in both cases the snapshot equals the new list |
| `CartStore.UseCart` | src/hooks/cart.tsx:113-121 | the hook succeeds exactly when a provider's store is present and then returns that store; otherwise it fails with the "must be used within a CartProvider" message |
| `CartStore.StaleSnapshotAfterAdd` | src/hooks/cart.tsx:48-49 | on an empty slot, adding the same product twice as written leaves the list at quantity 2 and the slot at quantity 1 |
| `CartStore.CurrentSnapshotAfterAdd` | src/hooks/cart.tsx:52-56 | the same two additions through the corrected command leave the slot equal to the list at quantity 2 |

## Left out

- React machinery is not modelled: the context object, `useState`, `useCallback`, `useMemo`, `useEffect` and re-rendering. Assigning `products` stands for `setProducts`. So the model does not capture that the in-place bump of `addToCart` triggers no re-render.
- AsyncStorage is one synchronous field, `saved`. `getItem` is a read of it and `setItem` an assignment. Asynchrony, `await` ordering, failed or overlapping writes and the unawaited write in `loadProducts` are I/O and concurrency concerns outside the model.
- `JSON.stringify` and `JSON.parse` are foreign calls. The slot holds the list of lines itself. So the model cannot represent three things. A stored empty string is falsy and is hydrated like a missing value. A stored value that parses to something other than a list of lines, such as `{}`, is adopted unchecked. Undecodable data makes `JSON.parse` throw, and the unhandled rejection leaves the list at `[]` and the slot unchanged.
- `title`, `image_url` and `price` are carried as opaque fields and never read. `price` is a JavaScript float; the model holds it as a `real` that no operation uses.
- Object identity and aliasing are not modelled. The source changes the quantity of the found `Product` object in place, and that object is shared by the old and the new arrays. The model works on values, so only the new list is tracked.
- Quantities are unbounded integers. JavaScript numbers lose integer precision above 2^53, which the model does not capture.

## Findings

| source | as written | input that shows it | evidently intended | confidence | as-written member | corrected member |
|---|---|---|---|---|---|---|
| src/hooks/cart.tsx:48-49 | adding a product already in the cart bumps the found line's quantity in place; it neither reassigns `products` nor writes the slot | empty slot; `addToCart` of the same product twice: the list holds quantity 2, the slot still quantity 1, so the next session reloads quantity 1 | write the new list through, as `increment` does, so the snapshot equals the list (I3) | high; not executed | `CartStore.StaleSnapshotAfterAdd` | `CartStore.Cart.AddToCartWriteThrough` |

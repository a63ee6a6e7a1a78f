# XCart storefront bookkeeping, modelled in Dafny

This project models the bookkeeping core of the XCart storefront (a Next.js app that uses
Firebase and Razorpay). The core keeps four per-user collections consistent:

- **Cart** (`contexts/CartContext.jsx`, `components/CartSidebar.jsx`). Each signed-in user
  has a remote collection of cart lines keyed by product id. The context mirrors it in
  `cartItems`, which every snapshot rebuilds. `addToCart` merges repeat adds into one line.
  `updateQuantity` deletes the line on `n <= 0` and otherwise overwrites the quantity.
  `removeFromCart` and `clearCart` delete lines. The totals are sums over the mirror. The
  sidebar routes its quantity buttons to remove or update.
- **Favorites** (`contexts/FavoritesContext.jsx`). An upsert and a delete keyed by product id,
  a membership test over the mirror, and a toggle that picks between the two.
- **Address book** (`app/profile/page.jsx`). An ordered list of addresses with an `isDefault`
  flag, written back to local storage after every change. It supports delete, set-default
  and save (add or edit).
- **Checkout and the order ledger** (`app/checkout/page.jsx`). Default-address pre-selection,
  address validation and `createOrder`. The order is appended to the ledger in local storage
  with status `processing` before the payment widget opens. Then come the widget's success,
  failure and dismiss callbacks.

Modules: `Wrappers` (Option, Result), `Collection` (a remote collection as a map, its
snapshot mirror as a list, lookups and sums over both), `Cart`, `CartSidebar`, `Favorites`,
`AddressBook` and `Checkout`.

Stateful parts are classes: `Cart.CartProvider`, `Favorites.FavoritesProvider`,
`AddressBook.ProfilePage` and `Checkout.CheckoutPage`. Their methods are specified by pure
functions on the store (`Cart.AddWrite`, `Cart.SetQuantity`, `AddressBook.DeleteAt`,
`Checkout.RecordPayment`, ...), and the lemmas state what those functions guarantee.

Modelling choices:

- Each remote collection is a `map` from user id to a `map` from document id to fields.
  A context's mirror is a separate list. Only `OnSnapshot`, which receives the snapshot's
  document order, and signing out (`SetUser(None)`, which empties it) change the mirror. The operations decide what to write from the mirror,
  as the source does, so the mirror may be stale. Lemmas about a *synced* mirror (one that
  lists the collection faithfully) give the intended behaviour.
- An `updateDoc` on a missing document throws, and the source's `catch` swallows it. So
  `updateQuantity` on a line that is not in the cart changes nothing. The same holds for a
  merge-add whose document has been deleted since the last snapshot.
- Money is integer paise. The source computes in floating-point rupees. `Checkout.MinorUnits`
  models `Math.round(total * 100)`, and `Checkout.MinorUnitsExact` proves that this conversion
  is exact for a whole number of paise.
- The clock, the random order id, `Date.now()` address ids, the gateway script's load result
  and the presence of the Razorpay key are all method parameters.
- A mirror entry is `{id: doc.id, ...doc.data()}`, whose `id` comes from the stored product.
  Both contexts store a product under its own id. The models keep that as an invariant
  (`Cart.WellFormed`, `Favorites.WellFormed`), so the entry's id is the document key.
- The checkout page's signed-in user is the cart context's `user`, since both come from the
  same auth context.

Behaviour of the code that the model keeps:

- Local storage uses fixed keys (`userAddresses`, `userOrders`, `userAddress`). The same keys
  serve every signed-in user, so the model has one address list and one ledger.
- `setDefaultAddress` with an index outside the list clears every flag
  (`AddressBook.SetDefaultOutOfRange`).
- The success callback sets `payment_id` and `payment_status` on the order and leaves its
  `status` at `processing`.
- Saving picks the add or the edit branch by `editingIndex` alone. The edit branch
  replaces the entry as typed and does not re-normalise default flags. The model therefore
  claims "exactly one default when non-empty" (`AddressBook.SingleDefault`) for add, delete
  and in-range set-default only. `AddressBook.EditPreservesIff` shows that an edit keeps the
  invariant exactly when the edited entry keeps its flag, and
  `AddressBook.EditCanBreakSingleDefault` gives an edit that breaks it.

## Model

| member | source | states |
|---|---|---|
| Collection.BuildListing | contexts/CartContext.jsx:34-41 | The snapshot handler's push loop yields one entry per document, in snapshot order, and the result is a faithful mirror of the collection (each document once, with its current fields) |
| Collection.Find | contexts/CartContext.jsx:54 | `find` by id returns an entry iff some entry has that id; the entry returned is the first entry with that id |
| Collection.FindListed | contexts/CartContext.jsx:54 | On a faithful mirror, finding an id is the same as the collection holding it, and the found entry carries the stored fields |
| Collection.ListedSum | contexts/CartContext.jsx:122-128 | A sum over any faithful mirror equals the order-independent sum over the collection |
| Cart.TotalItems | contexts/CartContext.jsx:126-128 | The item count of an empty cart is 0 |
| Cart.TotalPrice | contexts/CartContext.jsx:122-124 | The price of an empty cart is 0 |
| Cart.TotalsOfListing | contexts/CartContext.jsx:122-128 | getTotalItems is the sum of the quantities and getTotalPrice the sum of price times quantity over the stored lines |
| Cart.TotalsIndependentOfOrder | contexts/CartContext.jsx:34-41 | Two snapshots of the same cart delivered in different orders show the same totals |
| Cart.AddWrite | contexts/CartContext.jsx:53-66 | addToCart writes only the document of the product's id; every other line is unchanged |
| Cart.AddWriteSynced | contexts/CartContext.jsx:53-66 | With an up-to-date mirror, addToCart's write is the merge-or-create of `Added` |
| Cart.AddCreatesLine | contexts/CartContext.jsx:61-66 | Adding an absent product creates exactly one new line under its id with quantity 1 |
| Cart.AddMergesLine | contexts/CartContext.jsx:54-59 | Adding a present product raises that line's quantity by exactly 1, adds no line and changes nothing else |
| Cart.MergeCount | contexts/CartContext.jsx:53-66 | n adds of a product absent from the cart leave a single line of quantity n (the merge property) |
| Cart.ZeroThenAdd | contexts/CartContext.jsx:93-94 | Setting a quantity to 0 and then adding the product gives a fresh line of quantity 1 |
| Cart.SetQuantityOverwrites | contexts/CartContext.jsx:95-99 | A positive quantity on a present line sets that line's quantity to exactly n, keeps its product, and leaves the other lines alone |
| Cart.SetQuantityDeletes | contexts/CartContext.jsx:93-99 | A quantity of 0 or less deletes the line; a positive quantity for an absent line changes nothing (the update fails) |
| Cart.SetQuantityIdempotent | contexts/CartContext.jsx:93-99 | Repeating updateQuantity changes nothing more, and setting a line to its current quantity is a no-op |
| Cart.RemoveOnlyThatLine | contexts/CartContext.jsx:79-80 | removeFromCart deletes only that line; removing an absent id leaves the cart unchanged |
| Cart.AddWritePreservesWellFormed | contexts/CartContext.jsx:53-66 | addToCart keeps each line under its product id with a quantity of at least 1, so there is never more than one line per product |
| Cart.SetQuantityPreservesWellFormed | contexts/CartContext.jsx:93-99 | updateQuantity never leaves a line with a quantity below 1: it deletes instead |
| Cart.RemovePreservesWellFormed | contexts/CartContext.jsx:79-80 | removeFromCart keeps the cart well formed |
| Cart.AddedTotals | contexts/CartContext.jsx:54-66 | An add raises the item count by 1 and the total price by that line's unit price |
| Cart.QuantityChangeTotals | contexts/CartContext.jsx:79-99 | Overwriting a quantity changes the item count by the difference; removing a line subtracts its quantity and its line total |
| Cart.CartProvider.constructor | contexts/CartContext.jsx:22-31 | A new context has no user and an empty mirror |
| Cart.CartProvider.SetUser | contexts/CartContext.jsx:26-31 | Signing out empties the mirror; signing in keeps it until the first snapshot arrives |
| Cart.CartProvider.OnSnapshot | contexts/CartContext.jsx:33-41 | The mirror becomes the listing of the signed-in user's cart in snapshot order |
| Cart.CartProvider.AddToCart | contexts/CartContext.jsx:46-73 | Signed out: nothing changes. Signed in: only this user's cart changes, by the write the mirror dictates, and it is merge-or-create when the mirror is synced |
| Cart.CartProvider.RemoveFromCart | contexts/CartContext.jsx:75-86 | Signed out: nothing changes; signed in: the line is deleted from this user's cart only |
| Cart.CartProvider.UpdateQuantity | contexts/CartContext.jsx:88-104 | Signed out: nothing changes; signed in: this user's cart becomes SetQuantity of it |
| Cart.CartProvider.ClearCart | contexts/CartContext.jsx:106-120 | Signed in: this user's cart becomes empty; signed out: nothing changes |
| Favorites.IsFavoriteListed | contexts/FavoritesContext.jsx:77-87 | On a synced mirror, isFavorite holds iff the collection has the id, and toggling writes the remove-or-add of `Toggled` |
| Favorites.UpsertIdempotent | contexts/FavoritesContext.jsx:52-56 | Adding the same product twice leaves one entry under its id; other entries are untouched |
| Favorites.DeleteOnlyThatEntry | contexts/FavoritesContext.jsx:68-69 | removeFromFavorites deletes only that entry; an absent id is a no-op |
| Favorites.UpsertPreservesWellFormed | contexts/FavoritesContext.jsx:52-56 | addToFavorites stores each favorite under its product's id |
| Favorites.DeletePreservesWellFormed | contexts/FavoritesContext.jsx:68-69 | removeFromFavorites keeps every favorite under its product's id |
| Favorites.ListingWellFormed | contexts/FavoritesContext.jsx:33-37 | A snapshot entry's id, which the spread `{id: doc.id, ...doc.data()}` takes from the stored product, equals its document key on a well-formed store |
| Favorites.ToggleFlips | contexts/FavoritesContext.jsx:81-87 | A toggle removes the product if present and adds it otherwise, leaving every other entry |
| Favorites.ToggleTwice | contexts/FavoritesContext.jsx:81-87 | Toggling twice restores the product's membership and all other entries; an absent product's collection is restored exactly |
| Favorites.FavoritesProvider.constructor | contexts/FavoritesContext.jsx:21-29 | A new context over well-formed stores (each favorite under its product's id) has no user and no favorites, and keeps that invariant |
| Favorites.FavoritesProvider.SetUser | contexts/FavoritesContext.jsx:25-30 | Signing out empties the mirror |
| Favorites.FavoritesProvider.OnSnapshot | contexts/FavoritesContext.jsx:32-40 | The mirror becomes the listing of the user's favorites in snapshot order, and each entry's id is its product's id |
| Favorites.FavoritesProvider.AddToFavorites | contexts/FavoritesContext.jsx:45-62 | Signed out: nothing changes; signed in: an upsert under the product's id in this user's collection; every favorite stays under its product's id |
| Favorites.FavoritesProvider.RemoveFromFavorites | contexts/FavoritesContext.jsx:64-75 | Signed out: nothing changes; signed in: a delete in this user's collection |
| Favorites.FavoritesProvider.ToggleFavorite | contexts/FavoritesContext.jsx:81-87 | Dispatches on the mirror's isFavorite; with a synced mirror the write is remove-if-present, add-otherwise |
| CartSidebar.QuantityChange | components/CartSidebar.jsx:17-23 | A requested quantity of 0 or less becomes removeFromCart of that product; a positive one becomes updateQuantity with exactly that value |
| CartSidebar.RoutingAgreesWithUpdate | components/CartSidebar.jsx:17-23 | Whichever way it is routed, a quantity change writes the same as updateQuantity would |
| CartSidebar.MinusButton | components/CartSidebar.jsx:105 | Minus on a line of quantity 1 removes it; on a larger quantity it lowers that line by one |
| CartSidebar.PlusButton | components/CartSidebar.jsx:116 | Plus requests quantity + 1, raises the line by one and the unit count by one |
| CartSidebar.HeaderCount | components/CartSidebar.jsx:51 | The header's count is at least the number of lines, and equals it iff every line has quantity 1 (it counts units, not lines) |
| CartSidebar.CheckoutHref | components/CartSidebar.jsx:148 | Checkout leads to /checkout iff a user is signed in, otherwise to /auth |
| CartSidebar.HandleQuantityChange | components/CartSidebar.jsx:17-23 | Applied to the cart context, the dispatch leaves the signed-in user's cart as SetQuantity of it |
| AddressBook.SetDefaultSole | app/profile/page.jsx:121-125 | An in-range index becomes the only default; length, order and all other fields are unchanged |
| AddressBook.SetDefaultOutOfRange | app/profile/page.jsx:121-125 | An index outside the list leaves no address flagged default |
| AddressBook.DeleteKeepsOrder | app/profile/page.jsx:103-105 | Deleting shortens the list by one and keeps the survivors' relative order; deleting a non-default changes no flag |
| AddressBook.DeleteDefaultPromotes | app/profile/page.jsx:107-110 | Deleting the default while others remain makes the first survivor default and leaves the other survivors as they were |
| AddressBook.DeletePreservesSingleDefault | app/profile/page.jsx:103-110 | Deleting keeps "exactly one default when non-empty" |
| AddressBook.SaveNewAppends | app/profile/page.jsx:167 | A new address is appended at the end; earlier entries keep their order and fields |
| AddressBook.SaveNewSole | app/profile/page.jsx:156-163 | A new address saved into an empty list, or saved as default, is the sole default because all others are demoted |
| AddressBook.SaveNewKeepsFlags | app/profile/page.jsx:163-165 | A new non-default address added to a non-empty list leaves every existing entry unchanged |
| AddressBook.SaveNewPreservesSingleDefault | app/profile/page.jsx:154-167 | Adding keeps "exactly one default when non-empty" |
| AddressBook.SaveEditOnlyIndex | app/profile/page.jsx:149-153 | Editing replaces only the entry at editingIndex, and an index past the end changes nothing |
| AddressBook.EditPreservesIff | app/profile/page.jsx:149-153 | An edit keeps the invariant iff the edited entry keeps its default flag (the edit branch does not re-normalise) |
| AddressBook.EditCanBreakSingleDefault | app/profile/page.jsx:149-153 | Some edit of a list that satisfies the invariant breaks it |
| AddressBook.SavedIdNonEmpty | app/profile/page.jsx:141-145 | A saved address always has a non-empty id: a form with an id is saved as typed, a form without one gets the fresh id and keeps every other field |
| AddressBook.NatToString | app/profile/page.jsx:92 | The number in a new address's name is a non-empty string of decimal digits, without a leading zero, that denotes exactly n |
| AddressBook.ProfilePage.Load | app/profile/page.jsx:52-72 | The list is loaded from storage; if none is stored, or it is empty, the form opens for a first default address named Home |
| AddressBook.ProfilePage.AddNewAddress | app/profile/page.jsx:86-95 | Opens a blank form in add mode with a fresh id and the name "Address n+1" |
| AddressBook.ProfilePage.EditAddress | app/profile/page.jsx:97-101 | Opens the form in edit mode on a copy of the chosen entry |
| AddressBook.ProfilePage.ChangeForm | app/profile/page.jsx:77-84 | The form holds the user's edits to its inputs; the id, which has no input, is kept |
| AddressBook.ProfilePage.Cancel | app/profile/page.jsx:400-406 | Cancel only hides the form; the list, the draft and the edit mode are unchanged |
| AddressBook.ProfilePage.Submit | app/profile/page.jsx:136-186 | The list becomes the saved list (edit or add), is persisted, and the form is cleared and closed; in add mode the invariant is kept |
| AddressBook.ProfilePage.DeleteAddress | app/profile/page.jsx:103-119 | The list becomes DeleteAt of it, is persisted, and keeps the invariant |
| AddressBook.ProfilePage.SetDefaultAddress | app/profile/page.jsx:121-134 | The list becomes WithDefaultAt of it, is persisted, and satisfies the invariant for an in-range index |
| Checkout.FirstDefault | app/checkout/page.jsx:69 | find returns the first address flagged default, and nothing iff none is flagged |
| Checkout.PreselectFirstDefault | app/checkout/page.jsx:63-80 | With a stored list, pre-selection picks the first default address and fills the form from it |
| Checkout.PreselectNoDefault | app/checkout/page.jsx:69-80 | With no default in a non-empty stored list, the first address is picked |
| Checkout.PreselectSingleDefault | app/checkout/page.jsx:63-80 | On a list that keeps the address-book invariant, checkout starts from its one default address |
| Checkout.PreselectLegacyOnlyWithoutList | app/checkout/page.jsx:63-87 | The legacy single address is used only when no list is stored; a stored empty list leaves the form as it was |
| Checkout.MinorUnitsExact | app/checkout/page.jsx:141 | The widget amount `Math.round(total*100)` is exactly the total in paise |
| Checkout.ItemsTotalIsCartTotal | app/checkout/page.jsx:130-152 | The order items' totals add up to the cart's total price |
| Checkout.CreateOrder | app/checkout/page.jsx:121-158 | Fails with EmptyCart on an empty cart and InvalidAmount on a total of 0 or less, and succeeds otherwise. The order has the given id, receipt `receipt_` + id, the given creation time and currency INR. It has one item per line in cart order, copying the line's id, name, price and quantity, with total price×quantity. `total_amount` is the items' sum, the cart total, and the amount is that total in paise |
| Checkout.ExampleOrder | app/checkout/page.jsx:121-158 | One line of two units at 100 rupees makes an order of 200 rupees with one item |
| Checkout.FindOrder | app/checkout/page.jsx:207 | findIndex gives the first order with the id, or -1 iff none has it |
| Checkout.RecordPaymentEffect | app/checkout/page.jsx:206-213 | The success write sets payment id and status `completed` on the matching order only; status and other fields stay; an unknown id leaves the ledger unchanged |
| Checkout.RecordPaymentUniqueIds | app/checkout/page.jsx:206-213 | With distinct ids, exactly the order with that id is marked paid |
| Checkout.WidgetFor | app/checkout/page.jsx:185-239 | The widget gets the order's amount and currency; for a complete address the later prefill entry gives the address's name and phone |
| Checkout.CheckoutPage.constructor | app/checkout/page.jsx:26-40 | The page starts with an empty form, no selection, not loading and no widget |
| Checkout.CheckoutPage.LoadProfile | app/checkout/page.jsx:60-95 | When signed in, stores the saved list and applies pre-selection; when signed out, does nothing |
| Checkout.CheckoutPage.SelectAddress | app/checkout/page.jsx:386-396 | Picking a saved address selects its id and fills the form from it |
| Checkout.CheckoutPage.EditForm | app/checkout/page.jsx:42-47 | The form holds the user's edits; the selected id is kept |
| Checkout.CheckoutPage.HandlePayment | app/checkout/page.jsx:160-297 | An incomplete address is refused with nothing recorded. Otherwise the legacy address is saved; a missing gateway or refused order records nothing. A created order is appended at the end with status processing and the form's address before the key check, and the widget opens only with a key |
| Checkout.CheckoutPage.OnPaymentSuccess | app/checkout/page.jsx:200-224 | The ledger becomes RecordPayment of the open order's id, and the cart is cleared whether or not the order was found |
| Checkout.CheckoutPage.OnPaymentFailed | app/checkout/page.jsx:243-247 | Only the loading flag changes; the ledger is untouched |
| Checkout.CheckoutPage.OnDismiss | app/checkout/page.jsx:233-237 | Only the loading flag changes; the ledger is untouched |

## Left out

- The Firestore client (`onSnapshot`, `setDoc`, `updateDoc`, `deleteDoc`, `getDocs`), local storage and JSON parsing. Each store is an in-memory map or list. Store failures are not modelled, except `updateDoc` on a missing document, which changes nothing.
- Asynchrony: every operation is atomic, including `clearCart`'s unawaited per-document deletes (contexts/CartContext.jsx:112-114). A snapshot arrives only when `OnSnapshot` is called.
- Toasts, alerts, `console` logging, the contexts' `loading` flags, the profile page's `saveSuccess` timers and the checkout's `orderProcessing` and selector visibility. These are presentation only.
- Floating-point prices. Money is integer paise, so float rounding in totals is not modelled.
- `Date.now()`, `Math.random()` and `new Date()` become parameters. Nothing proves that generated order ids are unique; `Checkout.RecordPaymentUniqueIds` assumes it.
- Loading the Razorpay script, `window.Razorpay` throwing on construction (app/checkout/page.jsx:250-253), the environment-key lookup and page redirects. The model keeps only their outcome and the fact that the ledger append comes first.
- The checkout page's redirect effect (app/checkout/page.jsx:52-57) and the unreachable code after the `finally` return (app/checkout/page.jsx:299-305).
- Missing address fields read from storage are defaulted with `|| ''` in the source. Here fields are always strings.
- `deleteAddress` sets the promoted flag on an object shared with the previous state (a shallow copy). The model works on values, so this aliasing is not captured. The component replaces its state right away, so it is not observable.
- `AddressBook.ProfilePage.Submit`: guarantees the single-default invariant only in add mode, because the source's edit branch does not keep it.
- contexts/AuthContext.jsx, contexts/ThemeContext.jsx, the layout, the config and the presentation pages are not part of this model.

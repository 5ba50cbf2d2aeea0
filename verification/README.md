# Restaurant menu page: the order cart

The menu page of this restaurant site (`app/menu/page.tsx`) lets a guest build
an order in memory. The order is a list of lines, each a menu item with a
quantity. It is kept in insertion order. Four updaters change it:
`addToCart`, `updateQuantity`, `removeFromCart`, and `handleCheckout`, which
reports the total and empties the list. `calculateTotal` sums price times
quantity, and the cart badge sums the quantities. There is no backend. This
project models that cart as immutable Dafny values and proves what each
operation does to the list, to the invariants the page relies on, and to the
two sums.

Layout:

- `menu.dfy` (module `Menu`): the `MenuItem` record and an `Option` for its optional fields.
- `cart.dfy` (module `CartManager`): `CartLine`, `Cart = seq<CartLine>`, the invariants (`IdsUnique`, `QuantitiesPositive`, `Valid`), the lookup, the updaters, and the left fold behind both sums. It also holds the loop that computes the total.
- `cart_laws.dfy` (module `CartLaws`): exactly how each updater changes the list, preservation of the invariants, and how each updater moves the total and the badge count.
- `order.dfy` (module `Order`): checkout over the page state (cart plus whether the order sheet is open), and whole sessions of user actions.
- `catalog.dfy` (module `Catalog`): the sixteen hard-coded menu items, facts about carts built from them, and a worked order.

Each `setCart(prev => …)` updater is modelled as a pure function from the old
list to the new one. Each user action is one atomic transition.

`addToCart`'s "present" branch maps over every line that carries the id
(`MapMatching`). It does not touch just the first match. The claim that exactly
one line is bumped is proved under the invariant that ids are unique
(`CartLaws.AddToCartExisting`). `Order.RunPreservesValid` shows that this
invariant survives any sequence of actions.

## Model

| member | source | states |
|---|---|---|
| CartManager.Find | app/menu/page.tsx:83 | The lookup finds nothing exactly when no line has the id. Otherwise it gives the position of the first line that has the id. |
| CartManager.FindUnique | app/menu/page.tsx:83 | When ids are unique, the lookup for a line's id finds that same line. |
| CartManager.MapMatching | app/menu/page.tsx:86-88 | The map keeps the length and every item record. Lines with other ids are untouched. Every line with the id gets its new quantity. |
| CartManager.AddToCart | app/menu/page.tsx:81-92 | Afterwards the id is always in the cart. A new id appends one line of quantity 1 at the end. A present id keeps the length and bumps each matching line by 1. Lines with other ids are untouched. |
| CartManager.RemoveFromCart | app/menu/page.tsx:110-112 | Afterwards the id is gone, and the cart is no longer than before. An absent id is a no-op. A present id shortens the cart. |
| CartLaws.RemoveKeepsOthers | app/menu/page.tsx:111 | A line is in the result of removal exactly when it was in the cart with another id. |
| CartManager.UpdateQuantity | app/menu/page.tsx:101-108 | An absent id is a no-op. The id stays exactly when it was there and the new quantity is at least 1. For a quantity of at least 1, the length is kept, lines with the id take that quantity, and every other line is unchanged. |
| CartManager.Total | app/menu/page.tsx:114-116 | The total is never negative when every quantity is at least 1. |
| CartManager.ItemCount | app/menu/page.tsx:382 | When every quantity is at least 1, the badge count is at least the number of lines. |
| CartManager.CalculateTotal | app/menu/page.tsx:114-116 | The accumulating loop returns the left-fold total. |
| CartManager.ReduceAppend | app/menu/page.tsx:115 | A sum over a concatenation is the sum of the two sums. |
| CartLaws.AddToCartExisting | app/menu/page.tsx:83-88 | With unique ids, adding an item already present gives the old cart with only that line's quantity one higher. |
| CartLaws.UpdateQuantitySetsLine | app/menu/page.tsx:107 | With unique ids and n ≥ 1, the result is the old cart with only that line's quantity replaced by n. |
| CartLaws.UpdateBelowOneRemoves | app/menu/page.tsx:101-105 | A quantity below 1 gives the same cart as removal, so the id is gone. |
| CartLaws.RemoveSplicesLine | app/menu/page.tsx:111 | With unique ids, removing line k's id gives exactly the lines before k followed by the lines after k. |
| CartLaws.RemoveDistributes | app/menu/page.tsx:111 | Removal distributes over concatenation, so the survivors keep their relative order. |
| CartLaws.RemoveIdempotent | app/menu/page.tsx:111 | Removing an id twice is the same as removing it once. |
| CartLaws.MinusOnLastUnitRemovesLine | app/menu/page.tsx:414 | The minus button on a line of quantity 1 splices that line out. |
| CartLaws.PlusIsAddAgain | app/menu/page.tsx:423 | The plus button on a line gives the same cart as adding its item again. |
| CartLaws.AddToCartPreservesValid | app/menu/page.tsx:83-91 | Adding keeps ids unique and quantities at least 1. |
| CartLaws.UpdateQuantityPreservesValid | app/menu/page.tsx:101-108 | Updating keeps ids unique and quantities at least 1, for any requested quantity. |
| CartLaws.RemovePreservesValid | app/menu/page.tsx:111 | Removing keeps ids unique and quantities at least 1. |
| CartLaws.TotalAppend | app/menu/page.tsx:115 | The empty cart totals 0. The total of a concatenation is the sum of the totals. |
| CartLaws.TotalIsLineSum | app/menu/page.tsx:115 | The left fold equals the plain sum of price × quantity over the lines. |
| CartLaws.AddToCartTotals | app/menu/page.tsx:83-91 | Take unique ids, where any line already holding the id carries the same item. Adding then raises the total by the item's price and the badge by 1. |
| CartLaws.UpdateQuantityTotals | app/menu/page.tsx:107 | Setting line k to n ≥ 1 moves the total by price × (n − old quantity). It moves the badge by n − old quantity. |
| CartLaws.RemoveTotals | app/menu/page.tsx:111 | Removing line k lowers the total by its price × quantity and the badge by its quantity. |
| Order.Checkout | app/menu/page.tsx:118-132 | Checkout reports an empty order exactly when the cart is empty, and then leaves the state unchanged. Otherwise it reports the pre-clear total, never negative for positive quantities, and leaves an empty cart with the sheet closed. |
| Order.CheckoutTwiceIsEmpty | app/menu/page.tsx:119-130 | After a placed order, a second checkout reports an empty order and changes nothing. |
| Order.StepPreservesValid | app/menu/page.tsx:81-132 | Each user action keeps the cart valid. |
| Order.RunPreservesValid | app/menu/page.tsx:81-132 | Any sequence of actions keeps the cart valid, so rows keyed by id (line 404) never collide. |
| Catalog.ItemIdsDistinct | app/menu/page.tsx:162-351 | The sixteen catalog items have pairwise distinct ids. |
| Catalog.FromMenuAgrees | app/menu/page.tsx:162-351 | In a cart built from catalog items, a line with a catalog item's id carries exactly that item. |
| Catalog.AddFromMenu | app/menu/page.tsx:81-99 | Adding a catalog item to a cart of catalog items raises the total by exactly its price. Every line stays a catalog item. |
| Catalog.OrderScenario | app/menu/page.tsx:81-132 | Squid (850) added twice gives one line of quantity 2 totalling 1700. Adding cake (450) gives two lines totalling 2150. Removing the squid leaves the cake at 450. Checkout then places an order for 450 and empties the cart. |

## Left out

- JSX rendering, layout, images, navigation, the order-notes text area and the sheet's own open/close control are presentation. Checkout's closing of the sheet is the one exception and is modelled.
- Toast and alert notifications and `toLocaleString` formatting are not modelled. Checkout's result is a `CheckoutOutcome` value instead of an alert.
- The reservation modal and its submit handler only show an alert and reset form fields, so they are not modelled. The QR-code generation and download use a foreign library and the DOM, and the `useEffect` that builds the menu URL reads the environment and `window`.
- `priceValue` is a JavaScript floating-point number. It is modelled as `nat` because every catalog price is a whole number of shillings. Quantities are modelled as `int`: the page only ever passes whole numbers (a line's quantity ± 1), so fractional quantities are out of scope.
- React's batching of state updates and the closure that reads `cart` are not modelled. Each operation is one atomic transition on the current list.
- Catalog images: each catalog entry's `image` is `None` here. The source gives every item an image URL, which only the page's rendering uses.

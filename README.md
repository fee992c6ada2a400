# Shopping cart and chat counter of a jewellery storefront

This project models the client-side shopping cart of the storefront front end,
`features/cart.js`, and the character counter and action buttons of its chat widget,
`features/home.js`, in Dafny, and proves what the handlers do to the page state.

The cart lives under the localStorage key `"cart"`. That key is either absent or an
ordered list of `{ "id", "quantity" }` records. `addToCart` and `removeFromCart` parse the
record and work on the parsed copy. `removeFromCart` writes its copy back only when
it finds the id. When `addToCart` brings a quantity to zero or below, it drops its
own copy and calls `removeFromCart`, which re-reads the record and writes its own.
`clearCart` just deletes the key. `addToCart` throws before writing anything for an
id not yet in the cart. The badge is reloaded on every completed call.
`loadCartCounter` and `loadCartTable` only read the record.

- Module `CartSpec` gives each handler's effect on the record as a function.
  - `AddRecord` is `addToCart` and `RemoveRecord` is `removeFromCart`.
  - `ClickRecord` is `clickCartAction`.
  - `Counter` is the badge, `Total` and `View` are the rendered table.
  - `IntendedAddRecord` is the repaired `addToCart`.
  - `QuantityOf` is a reference reading of the cart as a map from id to quantity.
- Module `Cart` holds the class `CartStore`. Its fields are:
  - `stored`: the localStorage key, as `Option<seq<Item>>`;
  - `counter`: the badge;
  - `view`: the cart table;
  - `purchaseDisabled`: the purchase button.

  Each method runs the handler's steps and is proved to leave the state the
  `CartSpec` function describes. The loops of `loadCartCounter` and `loadCartTable`
  are the methods `SumQuantities` and `RenderLines`.
- Module `CartProperties` proves the properties of those functions:
  - the effect of each handler on the list;
  - the store invariant (positive quantities, unique ids), which every handler keeps;
  - the change of the badge and of the total;
  - the behaviour of the repaired `addToCart`.
- Module `Chat` models:
  - the `"NNN / MAX"` counter text, `padStart` over the decimal rendering, proved
    to read back to both numbers;
  - the `ChatWidget` class holding the input value and the counter text;
  - `clickChatAction`, whose `"cart-add"` button calls `addToCart(id, 1)`.
- Module `Session` folds sequences of cart and chat button presses over the record.

A throwing handler is modelled by the status `TypeError`. Such a handler has written
nothing, and the caller does not go on: `clickCartAction` does not re-render the table.

Product prices come from a stub lookup that returns random mock data. Every method
that needs prices takes them as a parameter `price: string -> int`, for example the
price in cents. All totals are integers.

## Model

| member | source | states |
|---|---|---|
| `CartSpec.AddRecord` | features/cart.js:118-135 | `addToCart` as written: TypeError with the record unchanged for a new id; for a present id the old quantity plus the delta is written in place, or the record is spliced out when that is zero or below. It never deletes the key and never lengthens the list |
| `CartSpec.RemoveRecord` | features/cart.js:142-152 | `removeFromCart`: the first record with the id is spliced out, one line fewer; an absent key or a list without the id is left as it is, and the key is never created or deleted |
| `CartSpec.IntendedAddRecord` | features/cart.js:111-135 | the repaired `addToCart`: a new id with a positive quantity is appended, at most one line more; otherwise as `AddRecord`; the key is never deleted |
| `CartSpec.ClickRecord` | features/cart.js:190-203 | `clickCartAction`: "increase" and "decrease" are `addToCart` by +1 and -1, "remove" removes the id, or deletes the key for the total row's empty id; other actions leave the record. Only "increase" and "decrease" can throw, and then the record is unchanged; the list never grows |
| `CartSpec.Counter` | features/cart.js:168-179 | the badge value: the sum of the stored quantities, 0 for an absent key; on a well-formed cart at least the number of lines, and 0 exactly when the cart is empty |
| `CartSpec.View` | features/cart.js:21-109 | the rendered table: the empty notice exactly for an empty list; otherwise one cost cell per line, quantity times price, and a total row equal to the sum of the cost cells |
| `CartSpec.FindIndex` | features/cart.js:123 | the result is -1 exactly when no record has the id; otherwise the record there has the id and no earlier record has it |
| `Cart.SumQuantities` | features/cart.js:172-175 | the loop's total is the sum of the quantities of the list |
| `Cart.RenderLines` | features/cart.js:52-75 | one cost per line, in order, each quantity times the price of that line's id; the running total is the cart total |
| `Cart.CartStore.LoadCartCounter` | features/cart.js:168-180 | the badge becomes the sum of the stored quantities, 0 when the record is absent |
| `Cart.CartStore.RemoveFromCart` | features/cart.js:142-152 | the record becomes `RemoveRecord` of the old one; the badge is reloaded; the store invariant is kept |
| `Cart.CartStore.ClearCart` | features/cart.js:158-161 | the record is absent afterwards, not an empty list; the badge shows 0; calling it again changes nothing |
| `Cart.CartStore.AddToCart` | features/cart.js:118-135 | the status and record are `AddRecord` of the old record; on a TypeError the badge is untouched, otherwise it is reloaded; the store invariant is kept |
| `Cart.CartStore.AddToCartIntended` | features/cart.js:111-135 | the record becomes `IntendedAddRecord` of the old one, the badge is reloaded and the store invariant is kept |
| `Cart.CartStore.LoadCartTable` | features/cart.js:21-109 | an absent record renders as the empty list; a non-empty list renders its line costs and total; purchase is disabled exactly when the list is empty |
| `Cart.CartStore.ClickCartAction` | features/cart.js:190-205 | the record follows `ClickRecord`; after a TypeError nothing (badge, table, button) changes; otherwise the table is re-rendered; unknown actions leave the badge alone |
| `CartProperties.RemoveFirstMatch` | features/cart.js:143-148 | when the id is present, exactly its first record is taken out and the others keep their relative order |
| `CartProperties.RemoveNoMatch` | features/cart.js:143-150 | an absent record, or a list without the id, is left exactly as it was |
| `CartProperties.RemoveKeepsWellFormed` | features/cart.js:142-150 | removal keeps quantities positive and ids unique |
| `CartProperties.RemoveQuantities` | features/cart.js:145-148 | on a well-formed cart the removed product holds nothing afterwards and every other product keeps its quantity |
| `CartProperties.RemoveCounter` | features/cart.js:147-151 | the badge drops by exactly the quantity of the removed record |
| `CartProperties.AddThrowsIffAbsent` | features/cart.js:123-129 | `addToCart` throws exactly when the id is not in the cart, and then the record is unchanged |
| `CartProperties.AddUpdatesExisting` | features/cart.js:123-132 | for a stored id whose new quantity is positive, only that record changes, to the old quantity plus the delta, in place; length and order are kept |
| `CartProperties.AddRemovesWhenNonPositive` | features/cart.js:129-130 | when the new quantity is zero or below, the record is taken out of the stored list rather than stored, and nothing else changes |
| `CartProperties.AddKeepsWellFormed` | features/cart.js:118-133 | `addToCart` keeps quantities positive and ids unique |
| `CartProperties.AddIdsWithin` | features/cart.js:123-133 | every id after `addToCart` was already in the cart, so it never introduces a duplicate |
| `CartProperties.AddQuantities` | features/cart.js:123-133 | on a well-formed cart a completed `addToCart` sets the product to old quantity plus delta, or to nothing when that is not positive; every other product is unchanged |
| `CartProperties.AddCounter` | features/cart.js:127-134 | the badge moves by exactly the change of the product's quantity |
| `CartProperties.AddTotal` | features/cart.js:123-133 | the cart total moves by the change of the product's quantity times its price |
| `CartProperties.ClickThrowsIff` | features/cart.js:190-198 | a cart button throws exactly when it is "increase" or "decrease" on a product not in the cart, and then the record is unchanged |
| `CartProperties.ClickKeepsWellFormed` | features/cart.js:190-203 | every cart button keeps quantities positive and ids unique |
| `CartProperties.ClickIdsWithin` | features/cart.js:190-203 | no cart button brings in an id that was not in the cart |
| `CartProperties.ClickRespectsItems` | features/cart.js:119-122 | an absent record and a stored list with the same items give the same status and the same items after any button |
| `CartProperties.IntendedAddQuantities` | features/cart.js:111-113 | with the new-item path repaired, the product's quantity becomes old (0 if absent) plus delta, or nothing when that is not positive; other products are unchanged |
| `CartProperties.IntendedAddKeepsWellFormed` | features/cart.js:111-125 | the repaired `addToCart` keeps quantities positive and ids unique, including when it appends a new product |
| `CartProperties.WrittenFirstAddThrows` | features/cart.js:123-129 | as written, `addToCart("P1", 2)` on an absent or empty cart throws and stores nothing |
| `CartProperties.IntendedScenario` | features/cart.js:111-113 | repaired: adding P1×2 then P2×1 to an empty cart gives `[P1×2, P2×1]` with badge 3; decreasing P1 by 2 then leaves `[P2×1]` |
| `Session.RunIdsWithin` | features/cart.js:118-135 | after any sequence of cart and chat presses, every id in the cart was there at the start |
| `Session.EmptyCartStaysEmpty` | features/cart.js:123-129 | a cart that starts absent or empty stays empty whatever is pressed |
| `Session.RunKeepsWellFormed` | features/cart.js:118-152 | quantities stay positive and ids unique after any sequence of presses |
| `Session.RunRespectsItems` | features/cart.js:119-122 | an absent record and an empty list cannot be told apart by any sequence of presses |
| `Chat.ChatCounterText` | features/home.js:159 | the counter text: `String(length)` padded on the left with '0' to the width of `String(maxLength)`, then " / ", then `String(maxLength)`; it ends in " / " and maxLength, and its field is at least as wide as maxLength's |
| `Chat.DecimalRoundTrip` | features/home.js:159 | the decimal rendering of a number is a non-empty digit string without a leading zero (unless the number is 0) that reads back to the same number |
| `Chat.ParseLeadingZeros` | features/home.js:159 | zero padding on the left does not change the number a digit string denotes |
| `Chat.ChatCounterLayout` | features/home.js:159 | the counter is the length field, then " / ", then maxLength in decimal; the field is as wide as the wider number and is leading '0's followed by the decimal of the length |
| `Chat.ChatCounterReadBack` | features/home.js:159 | the field before " / " is all digits and reads back to the input length; what follows reads back to maxLength |
| `Chat.ClearedChatCounter` | features/home.js:143-146 | once cleared, the field is all '0's, as wide as maxLength's decimal |
| `Chat.ChatCounterExamples` | features/home.js:149-159 | length 5 with maxLength 100 shows "005 / 100"; after clearing it shows "000 / 100" |
| `Chat.ChatWidget.LoadChatCounter` | features/home.js:156-160 | the counter text is the padded length of the current value over maxLength |
| `Chat.ChatWidget.ChangeChatInput` | features/home.js:167-169 | after the input changes, the counter shows the new length |
| `Chat.ChatWidget.ClearChatInput` | features/home.js:143-147 | the input becomes empty and the counter shows a zero length |
| `Chat.ChatClickRecord` | features/home.js:197-207 | `clickChatAction`'s effect on the cart: it throws exactly for "cart-add" of a product not in the cart; when it throws, or for any other action, the record is unchanged |
| `Chat.ChatClickKeepsWellFormed` | features/home.js:197-207 | a chat answer's button keeps quantities positive and ids unique |
| `Chat.ChatClickIdsWithin` | features/home.js:197-207 | a chat answer's button brings no id into the cart that was not there |
| `Chat.ChatClickRespectsItems` | features/home.js:197-207 | an absent record and a stored list with the same items give the same status and items after a chat answer's button |
| `Chat.ClickChatAction` | features/home.js:197-208 | only "cart-add" touches the cart, as `addToCart(id, 1)`; "navigate", "share" and other actions leave the record and badge unchanged |

## Left out

- DOM construction in `loadCartTable` and `addChatBubble`, and the menus of
  features/navigation.js. These are view glue. The table is modelled only as its
  line costs, its total and the purchase-button state.
- `toFixed(2)` formatting with `CURRENCY`, and floating-point prices. Prices and
  totals are integers given by the parameter `price`.
- JavaScript numbers for quantities. A quantity is an unbounded integer in the
  model, so doubles beyond 2^53, fractional quantities and `NaN` are not covered.
- `getProduct`, the price lookup. It is the parameter `price`, a total function,
  so a failing lookup is not modelled.
  - The mock in features/database.js never fails, and its price is random.
  - The draft `getProduct` in features/main.js throws on an HTTP error.
  - Whichever of the two scripts loads last defines the global.
  - A throwing lookup at the `await` in `loadCartTable` (features/cart.js:54) stops the
    render part-way. The total row is then never added, and the purchase button is
    never updated (line 108).
- `JSON.parse`/`JSON.stringify` and localStorage itself. The record is the field
  `stored`. A record that does not parse, or has records without an `"id"`, is not
  modelled.
- The seed data written by `main` in features/main.js. It uses `"reference"` keys,
  which the cart handlers never match, and is scaffolding.
- async/await in `loadCartTable` and `chat`. Handlers run one after another; no
  interleaving is modelled.
- `chat`, its XML parsing, and the hard-coded answer; `submitChatInput`,
  `clickChatClear`, `showConversation`, `hideConversation`. These are a stub and
  library-backed view code. `submitChatInput` and `clickChatClear` end with
  `clearChatInput`, which is modelled.
- `navigateObject` and `shareObject`, called by `clickChatAction`. They are not part
  of this model, and none of the repository's front-end files defines them. Their
  outcome is not modelled, including the ReferenceError the "navigate" and "share"
  buttons would raise (features/home.js:202, 204). The model reports `Completed` for
  them and records only that they leave the cart alone.
- `clickCartPurchase`: its body is a TODO.
- Chat.ChatWidget.LoadChatCounter: `maxLength` is a `nat`. The input reports -1 when
  no limit is set, which this does not cover. Lengths count `char`s, not UTF-16
  code units.
- features/language.js, login.js, signup.js and all Python code (the RAG, database
  and route modules): string tables, TODO stubs and server wrappers with no cart logic.

## Findings

| source | as written | input that shows it | evidently intended | confidence | as-written member | corrected member |
|---|---|---|---|---|---|---|
| features/cart.js:123-129 | for an id not yet in the cart, the record is pushed onto the local copy but `index` stays -1, so `products[-1]["quantity"]` throws a TypeError before `setItem` and `loadCartCounter`; nothing is stored | `addToCart("P1", 2)` on an empty cart | the doc comment (lines 111-113) says the product is added: append `{id, quantity}` and persist | not executed | `CartProperties.WrittenFirstAddThrows` | `CartProperties.IntendedAddQuantities` |

The handlers of this model (`Cart.CartStore.AddToCart`, `ClickCartAction` and
`Chat.ClickChatAction`) follow the code as written. `Session.EmptyCartStaysEmpty`
proves the consequence: the handlers alone can never put a first product into the
cart. The repaired operation is `IntendedAddRecord` and its method
`Cart.CartStore.AddToCartIntended`. For them the doc comment's promise is proved:
`IntendedAddQuantities`, `IntendedAddKeepsWellFormed` and `IntendedScenario`.

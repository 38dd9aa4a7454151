# Lomaro Pizza WhatsApp ordering bot — a Dafny model

This project models the ordering core of a WhatsApp bot for a pizza
restaurant, in four parts.

- **The chat state machine** (`handlers.py`, module `Chat`). It handles one
  inbound text against the customer's stored session. The session holds the
  state, the cart, the line being built, and the customer's name and address.
  The states run idle → show_menu → pick_deal | pick_item → pick_size →
  pick_qty → add_more → ask_name → ask_address → confirm_order.
  - A cart line is a dish line or a deal line (module `Cart`).
  - The catalog (menu documents and deals) is a `Snapshot` value (module `Menu`).
  - Each database save of the session is returned as `write: Option<Session>`.
  - The inserted order is returned as `order`.
  - The printer ticket totals (`BuildPrinterPayload`) are computed from the
    order.
- **The form backend** (`flow_handlers.py`, module `FlowHandlers`). It covers
  the fixed category list, item titles, size and add-on options, promo-code
  validation, the order total, and the order document with its id. Money is
  exact `real`, and `round(x, 2)` is `Round2`.
- **The form screen router** (`flow_manager.py`, module `FlowManager`). It has
  eight screens, WELCOME … SUCCESS. Each takes form data to the next screen
  and its data. The two database writes (insert order, mark confirmed) are
  returned as an `Effect`.
- **The webhook** (`webhook.py`, module `Webhook`). It covers the subscription
  handshake (400 / 403 / challenge). It also covers the receiver, which takes
  the first message out of entry → changes → value → messages, and then
  ignores the notification, sends the "text only" reply, sends the apology,
  or runs the chat state machine on the sender's stored session.

Python built-ins are modelled in `PyText`: `strip`, `lower`, `upper`,
`replace`, `s[-n:]`, `int()` and `str()`. Optional values (`None` or a
missing key) are `Option` in `Wrappers`.

`handle_user_message` is split by state into three dispatch groups
(`HandleChoosing`, `HandleDish`, `HandleCheckout`) so that each proof stays
small. Each state's rule is a named predicate (`IdleRule` …
`ConfirmOrderRule`), and the groups pass these rules up unchanged to
`HandleUserMessage`, whose contract holds them all (`StateRule`).

## Model

| member | source | states |
|---|---|---|
| `PyText.Strip` | handlers.py:16 | `strip()` gives a text with no white space at either end, and is empty exactly when the text is all white space |
| `PyText.StripIsSlice` | handlers.py:16 | `strip()` is the slice of the text left after removing only white space from its two ends |
| `PyText.StripIdempotent` | handlers.py:16 | stripping twice is stripping once |
| `PyText.ParseIntToString` | handlers.py:374 | `int(str(n)) == n` for every integer `n` |
| `Chat.Normalize` | handlers.py:15-16 | the normalised text is empty exactly when the stripped input is empty |
| `Chat.NormalizeIdempotent` | handlers.py:15-16 | normalising a normalised text changes nothing |
| `Menu.Categories` | handlers.py:19-33 | every non-empty category appears exactly once (no duplicate names), each keyed by its lower-cased, underscored name; a name is listed iff some document carries it |
| `Menu.CategoriesInFirstSeenOrder` | handlers.py:25-31 | categories come in the order of their first documents |
| `Menu.GetAllCategories` | handlers.py:19-33 | the seen-set loop over the first 1000 documents computes exactly `Categories` of them |
| `Menu.InCategory` | handlers.py:619-626 | the category filter keeps exactly the documents of that category, and only those |
| `Menu.InCategoryInOrder` | handlers.py:619-626 | the filter keeps each matching document once, in collection order, so the chat numbers the dishes in that order |
| `Cart.SubtotalConcat` | handlers.py:649-657 | the subtotal of two carts joined is the sum of their subtotals |
| `Cart.SubtotalAppend` | handlers.py:390 | appending a line adds exactly its total to the subtotal |
| `Cart.TotalItemsAtLeastLines` | handlers.py:88 | in a well-formed cart the ticket's item count is at least the number of lines |
| `Cart.BuildPrinterPayload` | handlers.py:45-113 | one ticket row per order line with its quantity, rate and amount (a deal row named by its code, quantity 1; a dish row named "<item name> (<size>)"); total items = sum of quantities; total amount = net amount = cart subtotal; customer fields default to "" |
| `Chat.LoadSession` | handlers.py:158-170 | a phone with no stored session starts idle with an empty cart and no line in progress |
| `Chat.ShowMainMenu` | handlers.py:530-550 | categories are numbered 1..n in order and the deals entry is n + 1 |
| `Chat.MainMenuReply` | handlers.py:530-550 | the main menu lists the current categories numbered, then deals |
| `Chat.ShowAddMoreMenu` | handlers.py:646-664 | the add-more reply shows the cart with subtotal = sum of line totals |
| `Chat.ShowOrderSummary` | handlers.py:667-698 | the summary shows the cart, contact details and total = sum of line totals |
| `Chat.HandleIdle` | handlers.py:187-200 | in idle, empty input greets without saving; any other input opens the menu with an empty cart and no line in progress, keeping name and address |
| `Chat.HandleShowMenu` | handlers.py:203-240 | ordinal k in 1..n goes to pick_item with only the k-th category remembered; k = n + 1 goes to pick_deal; any other number or non-number is refused (with n + 1 options) and nothing is saved |
| `Chat.HandlePickDeal` | handlers.py:243-280 | ordinal k in 1..|deals| appends deal k as one line (code or "Deal k", price or 0) and goes to add_more; otherwise refused, nothing saved |
| `Chat.HandlePickItem` | handlers.py:283-332 | the k-th dish goes to pick_size exactly when it has a non-empty size dict, otherwise to pick_qty with its flat price (0 when missing); out-of-range or non-numeric input is refused, nothing saved |
| `Chat.HandlePickSize` | handlers.py:335-363 | ordinal k picks the k-th size in dict order and its price; otherwise refused with the number of sizes, nothing saved |
| `Chat.HandlePickQty` | handlers.py:366-404 | a quantity in 1..100 appends exactly one line (unit price or 0, size or "N/A", total = unit × qty), clears the line in progress and goes to add_more; ≤ 0, > 100 and non-numbers each get their own refusal and nothing is saved |
| `Chat.HandleAddMore` | handlers.py:407-430 | a yes-word goes back to the menu keeping the cart; a no-word goes to ask_name; anything else re-shows the cart, nothing saved |
| `Chat.HandleAskName` | handlers.py:433-448 | blank input re-prompts and saves nothing; otherwise the name is the raw input stripped (case kept) and the state is ask_address |
| `Chat.HandleAskAddress` | handlers.py:451-462 | blank input re-prompts; otherwise the address is the raw input stripped, the state is confirm_order and the summary total is the cart subtotal |
| `Chat.HandleConfirmOrder` | handlers.py:465-524 | a yes-word writes one order (phone, name, address, the cart, total = subtotal, status "new", source "whatsapp") and resets to idle with an empty cart; a no-word resets without an order; anything else re-shows the summary and saves nothing |
| `Chat.HandleChoosing` | handlers.py:186-280 | in idle, show_menu and pick_deal the state's own rule holds (as for `HandleIdle`, `HandleShowMenu`, `HandlePickDeal`), and every saved session satisfies the cart and contact rules |
| `Chat.HandleDish` | handlers.py:282-404 | in pick_item, pick_size and pick_qty the state's own rule holds (as for `HandlePickItem`, `HandlePickSize`, `HandlePickQty`), and every saved session satisfies the cart and contact rules |
| `Chat.HandleCheckout` | handlers.py:406-524 | in add_more … confirm_order the state's own rule holds (as for `HandleAddMore` … `HandleConfirmOrder`); an order is written iff the state is confirm_order and the text is a yes-word |
| `Chat.HandleUserMessage` | handlers.py:146-527 | a restart word from any state opens the menu with an empty cart; an order is written iff confirm_order receives a yes-word, priced at the cart subtotal; a saved cart is unchanged, emptied (only by restart, idle start, confirm or cancel) or grown by one line at the end (only in pick_deal or pick_qty); well-formed carts stay well-formed; name and address change only in their own step, to the stripped non-blank input; any other text follows the rule of the session's state, as stated for `HandleIdle` … `HandleConfirmOrder`; an unknown state gets the greeting and saves nothing |
| `FlowHandlers.Round2` | flow_handlers.py:273 | `round(x, 2)` is a whole number of hundredths within half a hundredth of `x` |
| `FlowHandlers.Round2OfCents` | flow_handlers.py:206 | rounding leaves whole hundredths unchanged |
| `FlowHandlers.Round2Monotone` | flow_handlers.py:273 | rounding preserves order |
| `FlowHandlers.GetCategoriesForFlow` | flow_handlers.py:18-51 | exactly the 16 fixed categories as {id, title}, in declaration order |
| `FlowHandlers.ItemTitleOf` | flow_handlers.py:72-82 | a size dict gives "from <first size price>", else a price gives "<price>", else the name alone; the name defaults to "Unknown" |
| `FlowHandlers.GetItemsForFlow` | flow_handlers.py:54-95 | one item per document of the category (first 100), in order, titled by the title rule; an empty size dict makes the whole answer [] |
| `FlowHandlers.Addons` | flow_handlers.py:137-157 | every add-on comes from a topping with a non-empty size dict and is priced at its first size; never more add-ons than toppings |
| `FlowHandlers.AddonsInOrder` | flow_handlers.py:137-157 | the add-ons are, in order and each once, those of every topping with a size dict before the first topping whose size dict is empty (its error ends the loop), and nothing else |
| `FlowHandlers.GetCustomizeOptions` | flow_handlers.py:115-163 | no item gives no options; otherwise every size in order with id = lower-cased, underscored name, and the add-ons of the first 50 toppings |
| `FlowHandlers.FindPromo` | flow_handlers.py:230-231 | the promo found carries exactly the code looked up; none found means no promo has that code |
| `FlowHandlers.ValidatePromoCode` | flow_handlers.py:221-291 | valid iff a promo is stored under the upper-cased code, `now` is inside its window and the subtotal reaches its minimum (equality passes); the rejections come in the order not found, not yet valid, expired, minimum order, each with discount 0 and each stated as an iff; the result is valid iff its message is the applied one; a percentage discount is the rounded percentage of the subtotal, any other type gives the value itself |
| `FlowHandlers.PromoLookupIgnoresCase` | flow_handlers.py:231 | a code and its upper-cased form validate alike |
| `FlowHandlers.PercentageDiscountBounded` | flow_handlers.py:269-273 | a percentage between 0 and 100 discounts between 0 and the subtotal |
| `FlowHandlers.CalculateOrderTotal` | flow_handlers.py:166-206 | subtotal = sum of line totals (missing = 0); tax 0; without a code no discount and an empty message; with one the discount is applied only when valid; total = round(subtotal − discount + tax, 2) |
| `FlowHandlers.TotalNotClamped` | flow_handlers.py:198-206 | when the promo code grants a discount at least one hundredth above the lines' subtotal, the order total is negative (not clamped at 0) |
| `FlowHandlers.OrderId` | flow_handlers.py:306-307 | "LOM-" + timestamp + "-" + the last (up to) 4 characters of the phone with '+' and ' ' removed, so none of them is '+' or ' ' |
| `FlowHandlers.OrderIdOfInternationalNumber` | flow_handlers.py:306-307 | for "+" followed by at least four digits the id ends with the last four digits |
| `FlowHandlers.CreateOrderFromFlow` | flow_handlers.py:294-343 | the answer carries the document's id; status "new", source "whatsapp_flow", language "en", payment "cod" by default; phone, name, address, delivery notes, promo code, cart items and totals as given ("" or 0 when missing) |
| `FlowManager.GetScreenHandler` | flow_manager.py:468-488 | a screen is found exactly when the name is one of the eight registered names |
| `FlowManager.ScreenNameRoundTrip` | flow_manager.py:473-482 | every screen is found under its own name |
| `FlowManager.CategoryChoices` | flow_manager.py:14-29 | the first 100 category documents as choices (name default "Unknown"), or the five defaults when there are none |
| `FlowManager.GetAllCategories` | flow_manager.py:14-29 | the fetch loop computes `CategoryChoices` |
| `FlowManager.ItemsIn` | flow_manager.py:35 | the category query keeps exactly the items of that category |
| `FlowManager.ItemsInInOrder` | flow_manager.py:35-36 | the query keeps each matching item once, in collection order |
| `FlowManager.ItemChoices` | flow_manager.py:31-47 | the first 20 items of the category (all items for an empty category) as choices, or the three defaults when there are none |
| `FlowManager.GetItemsForCategory` | flow_manager.py:31-47 | the fetch loop computes `ItemChoices` |
| `FlowManager.ParseObjectId` | flow_manager.py:52-54 | `ObjectId(text)` accepts exactly 24 hex digits in either case and reads them in lower case |
| `FlowManager.ObjectIdIgnoresCase` | flow_manager.py:54 | an upper-cased id parses to the same object id |
| `FlowManager.GetItemDetails` | flow_manager.py:49-66 | an id that is not an object id finds nothing; the item found is stored under the parsed id; none found means no item has it |
| `FlowManager.ItemDetailsIgnoreCase` | flow_manager.py:54-66 | the item found for an id does not depend on the case of its hex digits |
| `FlowManager.AddonPrice` | flow_manager.py:224-230 | an add-on costs between 0 and 150, unknown ones 0 |
| `FlowManager.AddonPricesMatchChoices` | flow_manager.py:86-94 | every listed add-on is charged the price its title shows |
| `FlowManager.AddonTotal` | flow_manager.py:232 | the add-on total is between 0 and 150 per selected add-on |
| `FlowManager.AddonTotalConcat` | flow_manager.py:232 | add-on totals add up over joined selections |
| `FlowManager.HandleWelcomeScreen` | flow_manager.py:106-119 | WELCOME always leads to CATEGORY |
| `FlowManager.HandleCategoryScreen` | flow_manager.py:121-156 | no category stays on CATEGORY with the category list; a category goes to ITEMS echoing it with its items |
| `FlowManager.HandleItemsScreen` | flow_manager.py:168-192 | ITEMS leads to CUSTOMIZE with the item's name and price ("Item" and 0 when not found), the category (default "pizzas") and the fixed sizes and add-ons |
| `FlowManager.Truncate` | flow_manager.py:219 | `int()` of a number keeps its whole part, rounding toward zero on both sides |
| `FlowManager.TruncateOdd` | flow_manager.py:219 | truncating −x gives minus the truncation of x |
| `FlowManager.Quantity` | flow_manager.py:219 | no quantity gives 1; a text gives `int()` of the text (nothing when it is not an integer); a number, whole or not, gives its truncation toward zero (2.5 → 2, −2.5 → −2) |
| `FlowManager.HandleCustomizeScreen` | flow_manager.py:209-267 | item total = (item price as given, whole or not, default 550, + add-on prices) × quantity; exactly one entry appended at the end; cart total grows by the item total; a quantity text `int()` refuses keeps the cart total; PROMO always next |
| `FlowManager.CustomizeKeepsCartTotal` | flow_manager.py:238-247 | if the cart total was the sum of the entries' prices, it still is after CUSTOMIZE |
| `FlowManager.FindPromoRecord` | flow_manager.py:285-286 | the promo found carries exactly the stripped code |
| `FlowManager.HandlePromoScreen` | flow_manager.py:269-318 | a promo found under the stripped code and active gives discount = cart total × percent / 100; otherwise discount 0; final total + discount = cart total; PAYMENT always next |
| `FlowManager.PromoFinalWithinCart` | flow_manager.py:288-290 | with percentages in 0..100 and a non-negative cart the final total lies between 0 and the cart total |
| `FlowManager.HandlePaymentScreen` | flow_manager.py:331-351 | payment method defaults to "cod"; final total falls back to the cart total, then 0; CONFIRMATION next |
| `FlowManager.ScreenOrderId` | flow_manager.py:386 | "LOM-" + timestamp + "-" + the last (up to) 4 characters of the stripped phone |
| `FlowManager.ScreenOrderIdAgrees` | flow_manager.py:386 | for "+" and at least four digits both order-id constructions agree |
| `FlowManager.HandleConfirmationScreen` | flow_manager.py:360-419 | a blank name, phone or address (after stripping) stays on CONFIRMATION with an error and inserts nothing; otherwise one order is inserted (stripped name, phone, address and delivery notes; cart items, cart total, discount and promo code as given; final total falling back to the cart total; status "new", source "whatsapp_flow") and SUCCESS is next |
| `FlowManager.HandleSuccessScreen` | flow_manager.py:431-458 | SUCCESS ends the flow and marks the order confirmed exactly when an order id is given |
| `FlowManager.ProcessFlowScreen` | flow_manager.py:490-524 | an unknown screen ends with an error; a known screen's result is its handler's result; each known screen moves along the screen graph; only CONFIRMATION inserts an order and only SUCCESS marks one confirmed |
| `Webhook.VerifyWebhook` | webhook.py:20-47 | mode ≠ "subscribe" gives 400 whatever the token; otherwise a wrong token gives 403; otherwise the challenge comes back verbatim |
| `Webhook.ExtractMessage` | webhook.py:68-90 | no message iff entry, changes or messages is empty; otherwise the first message's sender, and its text body only for type "text" ("" otherwise or when missing) |
| `Webhook.Saved` | handlers.py:178-183 | saving a session changes only that phone's entry |
| `Webhook.ReceiveWebhook` | webhook.py:50-162 | no message: ignored, no reply, nothing saved; otherwise status ok with a reply — the apology when the database is unavailable, the "text only" reply for non-text, else the chat reply; only the sender's entry of the session store changes, to what the chat step saves; for a text, the reply, the saved session and the order obey the same restart rule, order iff and per-state rule (`StateRule`) as `HandleUserMessage` on the sender's stored session; an order is the sender's cart at its subtotal |

## Left out

- Database access is left out: MongoDB reads and writes, upserts, and the
  `messages` log with its file fallback (webhook.py:98-132). Reads are
  parameters and writes are returned values. Database failures inside the
  form handlers (their `except` branches) are not modelled.
- Network and notification I/O is left out: the printer and restaurant
  notifications and the outbound WhatsApp send. `client.py`, `config.py`,
  `db.py`, `main.py`, `seed_menu.py` and `inspect_messages.py` are not part of
  this model.
- Clock readings are parameters: `now`, `timestamp` and `createdAt`. Promo
  validity instants are integers on one clock.
- Concurrency is not modelled, including two deliveries of the same message
  racing on one session.
- Reply texts are not modelled character for character. Each reply is a
  `Reply` value carrying the facts the text shows (numbering, lists, totals).
- The restaurant header block of the printer ticket is not modelled.
- handlers.py:356 has a mismatched bracket inside an f-string, so that reply
  cannot be read literally. Only the state update at handlers.py:347-349 is
  modelled, and its reply is `SizeChosen`.
- `PyText.ParseInt` accepts only ASCII digits with an optional sign. Python's
  `int()` also accepts underscores between digits and non-ASCII digits.
- `PyText.Strip`, `Lower` and `Upper` treat only ASCII white space (space,
  tab to carriage return, and the separators 0x1C to 0x1F) and ASCII
  letters. Python's versions are Unicode-aware: `strip()` also removes
  characters such as U+0085, U+00A0 and U+2028.
- `FlowManager.ParseObjectId` refuses a 24-character text with white space
  between hex pairs, which `bytes.fromhex` would read as a shorter id. Such
  an id matches no stored item either way.
- `FlowHandlers.Round2` rounds halves up on exact reals. Python's `round`
  works on binary floats and rounds halves to even.
- Chat money is whole rupees (`int`). `float(...)` in the printer ticket
  is not modelled.
- A key holding JSON `null` is not told apart from a missing key: both are
  `None`. For example, `item.get("price", 0)` on a `null` price is read as
  missing.
- Values of the wrong JSON type (a non-dict session, a non-numeric price)
  and the exceptions they raise are not modelled. The one exception that is
  modelled is a quantity text that `int()` refuses on the CUSTOMIZE screen.
  A JSON `true`/`false` quantity, which `int()` reads as 1/0, is not modelled.
- A message without a `from` field cannot be represented.
  `Webhook.Message.sender` is always present.
- `Webhook.ReceiveWebhook` models only an unavailable database handle as the
  cause of the apology reply. Other exceptions inside the chat handler are
  not modelled.
- `FlowManager.HandleCustomizeScreen` returns a new cart list. The source
  appends to the incoming `cart_items` list in place, so the caller's form
  data also changes. That aliasing is not captured.
- The chat order's `_id` is assigned by the database and is not modelled.
  `serial_no` on the ticket is always 0 for chat orders.
- The order id suffix follows the code (`phone[-4:]`): a phone shorter than
  four characters gives a shorter suffix, with no zero padding.
- The size surcharges shown on the CUSTOMIZE screen (Large +150, XL +300)
  are not charged by the line-price formula, which ignores the size. The
  model keeps this behaviour as written.
- The encrypted transport of form payloads is not part of the modelled
  sources.

# Puchka Das WhatsApp bot: the conversation handler

This project models the heart of the bot in `index.js`: the loop of the POST
`/webhook` route that answers each inbound WhatsApp message. For each message
the handler looks at the sender's session and at the normalised input. It then
updates the process-wide tables and sends exactly one reply. The tables are:

- `usersSession`: the sender's stage and cart;
- `orders`: the sender's last confirmed cart;
- `adminOrders`: the log of every confirmation;
- `loyaltyPoints`: the sender's balance.

The model also covers the menu renderer `getMenuMessage` over the static
`MENU_ITEMS` catalog, and the cart and order-summary loops that render the
lines and add up the total.

The modules are:

- `Text` (`text.dfy`): the JavaScript string operations the handler relies on.
  These are the rendering of an integer inside a template literal, `toLowerCase`
  of ASCII capitals and KELVIN SIGN, and `trim` with ECMAScript's exact set of white-space and
  line-terminator characters.
- `Cart` (`cart.dfy`): cart lines, the total, and the `forEach` loop that
  renders the lines (`RenderLines`), proved against `LinesText` and
  `CartTotal`.
- `Catalog` (`catalog.dfy`): `MENU_ITEMS`, and the nested loop of
  `getMenuMessage` (`MenuMessage`), proved against `MenuText`.
- `Webhook` (`webhook.dfy`):
  - the tables as a value `BotState`;
  - `Step`, which specifies one message;
  - `Run`, which specifies a batch;
  - the class `Bot`, whose fields are the tables.
  `Bot.Handle`, `Bot.Respond` and `Bot.HandleBatch` change those fields in
  place and are proved to do what `Step`, `Dispatch` and `Run` say.
  `sendMessage` becomes `Bot.Send`, an append to `outbox`.
- `WebhookProperties` (`webhook_properties.dfy`): what the handler promises,
  stated about `Step` and `Run`. It covers:
  - the effect of each command;
  - where each reply button leads;
  - one reply per message;
  - the consistency of orders, admin log and balances over any batch;
  - the fact that carts stay empty.

Three behaviours of the code are easy to miss, and the model proves each:

- "confirm" deletes the session. The next message from that sender is
  therefore a first contact and gets the welcome, and that includes a press of
  the "Track Order" button sent with the confirmation
  (`TrackRightAfterConfirmWelcomes`). The order is reported from the second
  message after the confirmation on: the first one reopens a session, and a
  "track order" after it finds the order (`TrackAfterReopenReports`).
- No branch adds a line to a cart, so every cart reachable from the start is
  empty (`CartsStayEmpty`). "checkout" therefore always answers that the cart
  is empty (`CheckoutAlwaysEmpty`). "confirm" does not check the cart, so it
  stores and logs an empty order, still credits 10 points and deletes the
  session (`ConfirmEmptyCart`).
- Button ids are labels lower-cased. "Add to Cart", "View Cart", "Confirm
  Order", "Modify Order" and "Cancel" match no keyword and get the fallback
  (`MenuButtonsRouteNowhere`, `CartButtonsRouteNowhere`,
  `SummaryButtonsRoute`).

## Model

| member | source | states |
|---|---|---|
| Text.NatToString | index.js:100 | a non-negative number renders as a non-empty string of decimal digits with no leading zero |
| Text.IntToStringRoundTrip | index.js:100-103 | the rendering of any integer, the sign included, reads back as that integer |
| Text.IntToStringInjective | index.js:145 | two different amounts never render as the same text |
| Text.JoinAt | index.js:99-102 | in text built by appending pieces, piece `i` comes after pieces `0..i-1` and before the rest |
| Text.IntToString | index.js:100 | reference definition of `${n}` for an integer: a minus sign for negatives, then the numeral of the magnitude; `IntToStringRoundTrip` states what it means |
| Text.Lower | index.js:79 | lower-casing keeps the length and maps each character to its lower-case form (ASCII capitals, and KELVIN SIGN to `k`) |
| Text.Trim | index.js:79 | `trim` removes a run of white space at each end and nothing else, so the result starts and ends with non-space |
| Text.Normalize | index.js:79 | reference definition of `toLowerCase().trim()`: `Trim` of `Lower`, whose contracts state what each does |
| Cart.CartTotal | index.js:98-102 | reference definition of the total, the sum of price times quantity over the lines in order; `RenderLines` is proved against it |
| Cart.LineText | index.js:100 | reference definition of one rendered cart entry; `LineTextIsOneLine` states that it is one line |
| Cart.RenderLines | index.js:97-103 | the `forEach` loop produces one rendered line per cart entry, in cart order, and the sum of price times quantity |
| Cart.CartTotalAppend | index.js:98-102 | the total of two carts laid end to end is the sum of their totals |
| Cart.CartTotalPermutation | index.js:98-102 | the total does not depend on the order of the cart's lines |
| Cart.LineTextIsOneLine | index.js:100 | a rendered cart entry is exactly one line when its name and variation have no line feed |
| Cart.OneLinePerEntry | index.js:99-102 | the rendered cart has exactly as many lines as entries, when no name or variation holds a line feed |
| Catalog.MENU_ITEMS | index.js:18-23 | the catalog: four items in ascending key order, each with its two priced variations in the written order |
| Catalog.MenuText | index.js:53-62 | reference definition of the menu text: header, one block per item, footer; `MenuMessage` is proved against it |
| Catalog.MenuMessage | index.js:53-62 | the loop over `MENU_ITEMS` produces the header, one block per item in catalog order, and the footer |
| Catalog.MenuItemAt | index.js:55-56 | item `i`'s block comes after the blocks of the items before it and before those after it and the footer |
| Catalog.VariationAt | index.js:57-59 | within an item's block, variation `j`'s priced line comes after the item line and the earlier variations |
| Webhook.ButtonId | index.js:37 | reference definition of the id a reply button carries: its label lower-cased; the button-routing lemmas state where each id leads |
| Webhook.UserInput | index.js:79-82 | reference definition of the input a message carries: a non-empty button id, otherwise the normalised body, otherwise nothing; see `ButtonTakesPrecedence` and `TextIsNormalised` |
| Webhook.Classify | index.js:90-143 | reference definition of the keyword chain: the first keyword equal to the input names the branch; `ClassifyIsExactMatch` states it |
| Webhook.Greet | index.js:84-88 | reference definition of first contact; `FirstContact` states its effect |
| Webhook.OpenMenu | index.js:90-94 | reference definition of the "menu" branch; `MenuCommand` states its effect |
| Webhook.CheckoutReply | index.js:108-122 | reference definition of the "checkout" branch; `CheckoutEmptyCart` and `CheckoutAgreesWithCart` state its effect |
| Webhook.ConfirmOrder | index.js:124-131 | reference definition of the "confirm" branch; `ConfirmCommand` and `ConfirmKeepsLedger` state its effect |
| Webhook.Dispatch | index.js:90-149 | reference definition of the branch a command selects for a sender with a session; `Bot.Respond` is proved against it and `DispatchFrame` states what every branch keeps |
| Webhook.Step | index.js:78-149 | reference definition of handling one message; `Bot.Handle` is proved against it and the one-message lemmas state its effect |
| Webhook.Run | index.js:77 | reference definition of handling a batch, message after message; `Bot.HandleBatch` is proved against it |
| Webhook.Bot.constructor | index.js:11-15 | the process starts with all tables and the outbox empty |
| Webhook.Bot.Send | index.js:27 | `sendMessage` appends exactly one message to the outbox and changes nothing else |
| Webhook.Bot.Handle | index.js:78-88 | handling one message changes the tables and the outbox exactly as `Step` says |
| Webhook.Bot.Respond | index.js:90-149 | the keyword chain changes the tables and the outbox exactly as `Dispatch` says for the selected branch |
| Webhook.Bot.HandleBatch | index.js:77-150 | the batch loop handles every message in order: the state is `Run` of the batch |
| WebhookProperties.ClassifyIsExactMatch | index.js:90-143 | each branch is reached by exactly its keyword and by nothing else |
| WebhookProperties.ButtonTakesPrecedence | index.js:82 | a non-empty button id is the input, whatever text comes with it |
| WebhookProperties.TextIsNormalised | index.js:79-82 | without a button id the input is the text lower-cased and then trimmed |
| WebhookProperties.WelcomeButtonsRoute | index.js:37 | pressing "Menu", "Cart" or "Loyalty Points" reaches the menu, cart or points branch |
| WebhookProperties.MenuButtonsRouteNowhere | index.js:37 | pressing "Add to Cart" or "View Cart" reaches no branch |
| WebhookProperties.CartButtonsRouteNowhere | index.js:37 | pressing "Confirm Order" or "Modify Order" reaches no branch |
| WebhookProperties.SummaryButtonsRoute | index.js:37 | pressing "Confirm" confirms; pressing "Cancel" reaches no branch |
| WebhookProperties.ConfirmedButtonRoutes | index.js:37 | pressing "Track Order" reaches the track-order branch |
| WebhookProperties.FirstContact | index.js:84-88 | a sender without a session gets a fresh greeting session with an empty cart and the welcome with its three buttons, whatever the input; nothing else changes |
| WebhookProperties.MenuCommand | index.js:90-94 | "menu" sets the stage to ordering, keeps the cart and the other tables, and sends the menu text with its two buttons |
| WebhookProperties.CartCommand | index.js:96-106 | "cart" sends the cart's lines in order and their total, and changes no table |
| WebhookProperties.CheckoutEmptyCart | index.js:108-112 | "checkout" on an empty cart sends only the empty-cart notice and changes no table |
| WebhookProperties.CheckoutAgreesWithCart | index.js:108-122 | on a cart with lines, "checkout" reports the same lines and total as "cart", then asks to confirm; no table or stage changes |
| WebhookProperties.ConfirmCommand | index.js:124-131 | "confirm" stores the cart as the order, logs it once, adds 10 points (from 0 if absent), leaves other balances alone, and deletes the session |
| WebhookProperties.ConfirmEmptyCart | index.js:124-131 | an empty cart is confirmed like any other: it is stored and logged as the sender's order, 10 points are credited and the session is deleted |
| WebhookProperties.TrackOrderCommand | index.js:134-141 | "track order" says the order is being prepared exactly when the sender has an order, otherwise that there is none; no table changes |
| WebhookProperties.LoyaltyPointsCommand | index.js:143-147 | "loyalty points" reports the balance, or 0 if there is none; no table changes |
| WebhookProperties.Fallback | index.js:149 | any other input, an absent one included, gets the help reply with its two buttons; no table changes |
| WebhookProperties.DispatchFrame | index.js:90-149 | every branch sends exactly one reply to the sender; only "confirm" changes the orders, the log or the balances |
| WebhookProperties.StepFrame | index.js:78-149 | every message gets exactly one reply, to its sender, after the earlier ones; only "confirm" changes the orders, the log or the balances |
| WebhookProperties.RunAppend | index.js:77 | handling two batches one after the other is handling their concatenation |
| WebhookProperties.RunTwo | index.js:77 | a batch of two messages is handled as the first and then the second |
| WebhookProperties.TrackRightAfterConfirmWelcomes | index.js:124-135 | right after "confirm" the sender has an order, yet the next message, "track order" included, gets the welcome: the two replies are the confirmation and then the welcome |
| WebhookProperties.TrackAfterReopenReports | index.js:84-141 | after "confirm" and one more message from the sender, "track order" reports the order as being prepared |
| WebhookProperties.TwoConfirmsGiveTwenty | index.js:124-131 | two confirmations by the same sender, with one message between them, credit 20 points and log two orders |
| WebhookProperties.OneReplyPerMessage | index.js:77-150 | a batch adds exactly one reply per message, the `i`-th to the `i`-th sender, and keeps the earlier replies |
| WebhookProperties.PointsNeverDecrease | index.js:128 | no batch lowers anyone's balance |
| WebhookProperties.AdminLogOnlyGrows | index.js:126 | the admin log is only appended to |
| WebhookProperties.LogAppend | index.js:126 | a new log record adds one confirmation for its user and becomes that user's last order |
| WebhookProperties.ConfirmKeepsLedger | index.js:124-131 | "confirm" keeps the ledger consistent: the sender gets exactly one more logged confirmation, that order becomes the sender's last logged order, and every other user's log is unchanged |
| WebhookProperties.StepKeepsLedger | index.js:124-131 | every message preserves the ledger: a sender has an order exactly when the log has one, it is the last logged one, and the balance is 10 per logged order |
| WebhookProperties.RunKeepsLedger | index.js:77-150 | the ledger holds after any batch that starts from a consistent state |
| WebhookProperties.TrackReplyFromLedger | index.js:134-141 | in a consistent state, "track order" replies "being prepared" exactly when the log holds an order of the sender's, and "no active orders" otherwise |
| WebhookProperties.PointsReplyFromLedger | index.js:143-146 | in a consistent state, "loyalty points" reports ten points per logged order of the sender's |
| WebhookProperties.RepliesMatchLedger | index.js:134-147 | from the start, "track order" replies "being prepared" exactly when the sender has confirmed before, and "loyalty points" reports 10 per confirmation |
| WebhookProperties.DispatchKeepsCarts | index.js:90-149 | no branch adds a line to a cart or logs anything but the sender's cart |
| WebhookProperties.CartsStayEmpty | index.js:84-131 | from the start every session's cart and every logged order is empty |
| WebhookProperties.CheckoutAlwaysEmpty | index.js:108-112 | from the start "checkout" always answers that the cart is empty |

## Left out

- The Express, cors and body-parser setup, `app.listen` and the GET `/webhook` token check (index.js:1-9, 64-70, 157) are transport plumbing, not conversation logic.
- The body of `sendMessage` is not modelled: the WhatsApp payload, the HTTP POST and the logging and swallowing of errors (index.js:27-51). A send is an append to the outbox. Only the id a reply button carries, its label lower-cased (index.js:37), is kept, as `ButtonId`.
- The navigation of the JSON payload (index.js:73-76) is not modelled. A batch is a sequence of already-extracted messages: a sender, an optional text body and an optional button id.
- `async`/`await` is not modelled. Within one delivery each send completes before the next line runs, as in the strictly sequential loop. Separate webhook deliveries, however, can interleave at every `await`: in "confirm" the session is deleted (index.js:130) only after the awaited send (index.js:129). `Step` is therefore atomic only within one delivery, and interleavings of concurrent deliveries are not modelled.
- `userProfiles` (index.js:12) is declared but never used.
- The tables are modelled as values, so JavaScript aliasing is not. On "confirm" the same cart array becomes the order, the log record's order and the session's cart, but since no code mutates a cart afterwards, copies behave the same.
- Senders whose id is an `Object.prototype` property name (such as `constructor`) are not modelled. For them `usersSession[from]` is truthy without a session. Senders are phone numbers.
- Amounts and balances are unbounded integers. JavaScript numbers are doubles, which agree with them below 2^53, and the template literal rendering of non-integers is not modelled.
- Strings are sequences of Unicode characters, while JavaScript strings are UTF-16 code units, so a lone surrogate in an inbound body cannot be represented. This cannot change routing: a surrogate is neither white space nor a character of any keyword.
- Text.Lower: lower-cases only the ASCII capitals and KELVIN SIGN (U+212A, which `toLowerCase` maps to `k`). Other characters are left unchanged, though JavaScript lower-cases other scripts too and turns U+0130 into two characters. Every other character `toLowerCase` changes is outside ASCII and so is at least one character of what it becomes, so neither text can equal a keyword, and routing is the same as in the source.
- Catalog.MenuMessage: gathers the item and variation lines in local strings before joining the header, where `getMenuMessage` appends each line to the message directly. The text produced is the same.
- Webhook.Bot.Handle: evaluates the keyword chain once, as `Classify`, before branching (in `Respond`). The source compares the input with each keyword in turn. The first match selects the same branch, and no comparison has a side effect.

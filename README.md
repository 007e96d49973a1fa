# Voucher bot: store, purchase conversation and admin input

A Telegram bot sells gift vouchers of three denominations (₹1000, ₹2000 and ₹4000).
This project models the three pieces of sequential logic behind it and proves properties of them.

- **The store** (`data_store.py`, module `DataStore`, class `DataStore.Store`). It holds:
  - a first-in-first-out queue of voucher codes per denomination;
  - a price table that reads 0 for a denomination without an entry;
  - the order records, appended and then updated field by field by `order_id`;
  - the ids of the users seen, without repetitions.

  It also covers the key normalisation `load_data` applies to a document read from disk.
- **The purchase conversation** (`main.py`, module `Bot`, class `Bot.Conversation`).
  - One user's session holds four fields: `state`, `denom`, `qty` and `total`.
  - The text handler recognises the three menu texts, then a ticket description, then a quantity in [1, 20].
  - The button handler handles "cancel", a denomination button, "agree" and "disagree".
- **The admin handlers** (`Admin.py`, module `Admin`, class `Admin.AdminPanel` over a `Store`):
  - the admin-id gate;
  - the `admin_add_<d>` state that waits for voucher codes;
  - the parsing of codes from a message: newlines become commas, then split at commas, strip, and drop empties;
  - `/setprice` argument checking;
  - the broadcast success count.
- **Python string operations** the handlers rely on (module `Text`):
  - `strip`, `split` on one character, `replace` of one character and `startswith`;
  - `isdigit` on ASCII digits, `int` of a decimal numeral, and a money-amount reading of `float`.

Conventions:
- Prices and totals are integers in paise (hundredths of a rupee), so `qty * price` is exact.
- Denomination keys are integers. The file stores them as `str(d)`, which is injective.
- A session key that is absent and one holding `None` are both `None`.
- A handler's reply is a value of a `Reply` datatype that names what the user is shown.

## Model

| member | source | states |
|---|---|---|
| DataStore.DefaultData | data_store.py:16-22 | exactly the three default denominations, each with an empty queue and its default price; no orders, no users |
| DataStore.Normalize | data_store.py:35-43 | after normalisation every default denomination has a queue and a price; values already present are kept; only missing top-level keys and missing default denominations are filled, with their defaults |
| DataStore.WithUser | data_store.py:59-62 | the id is present afterwards; earlier entries keep their order as a prefix; nothing changes when the id was already there; nothing but the id is added |
| DataStore.WithUserNoDuplicates | data_store.py:59-62 | adding an id keeps the list free of repetitions, and the id then occurs exactly once |
| DataStore.WithUserIdempotent | data_store.py:59-62 | a second `add_user` of the same id changes nothing |
| DataStore.Store.AddUser | data_store.py:59-62 | the user list becomes `WithUser` of the old list, and the store's defaults are kept |
| DataStore.PriceOf | data_store.py:71-72 | the stored price, or 0 for a denomination without an entry |
| DataStore.Store.GetPrice | data_store.py:71-72 | the store's price for a denomination, 0 when it has none |
| DataStore.SetPriceThenGet | data_store.py:71-77 | after setting a price, reading it back gives that price, and every other denomination reads as before |
| DataStore.SetPriceIdempotent | data_store.py:75-77 | setting the same price twice leaves the same table as setting it once |
| DataStore.Store.SetPrice | data_store.py:75-77 | the price table is updated at that denomination only; reading it back gives the new price and every other price is unchanged |
| DataStore.Queue | data_store.py:82-83 | a denomination's queue, empty when it has none |
| DataStore.Store.VouchersFor | data_store.py:82-83 | the store's queue for a denomination, empty when it has none |
| DataStore.Enqueue | data_store.py:86-90 | the codes are appended to the back of that queue in order; every other queue is unchanged |
| DataStore.Store.AddVouchers | data_store.py:86-90 | the queues become `Enqueue` of the old queues; the denomination's queue is the old one followed by the codes |
| DataStore.Dequeue | data_store.py:93-100 | an empty or missing queue gives None and changes nothing; otherwise the head comes out and exactly the tail stays; other queues are unchanged |
| DataStore.Store.PopVoucher | data_store.py:93-100 | the returned code and the new queues are those of `Dequeue` on the old queues |
| DataStore.DequeueManyTakesPrefix | data_store.py:93-100 | `n` pops return the first `min(n, length)` codes in queue order and leave the rest; other queues are unchanged |
| DataStore.DequeueMany | data_store.py:93-100 | `n` pops return at most `n` codes and keep the set of denominations |
| DataStore.FifoOrder | data_store.py:86-100 | after adding codes, popping everything returns the old queue followed by the added codes, in that order, and leaves the queue empty |
| DataStore.DequeueRemovesCode | data_store.py:93-100 | while no code is stocked twice, a popped code is in no queue any more and codes stay distinct |
| DataStore.EnqueueAcceptsDuplicate | data_store.py:86-90 | `add_vouchers` does not check codes: a code already stocked under another denomination can be queued again |
| DataStore.StockLevels | data_store.py:103-109 | one entry per default denomination, in order |
| DataStore.Store.StockText | data_store.py:103-109 | the entry for each default denomination is the length of its queue |
| DataStore.StockAfterEnqueue | data_store.py:86-109 | adding codes raises the shown stock of that denomination by their number and changes no other |
| DataStore.StockAfterDequeue | data_store.py:93-109 | a successful pop lowers the shown stock of that denomination by one and changes no other |
| DataStore.Store.AddOrder | data_store.py:114-116 | the order is appended at the end, and the store's defaults are kept |
| DataStore.UpdateFirst | data_store.py:119-124 | the number of orders never changes |
| DataStore.UpdateFirstAt | data_store.py:119-124 | when record k is the first whose `order_id` matches, exactly that record gets the fields merged in |
| DataStore.UpdateFirstNone | data_store.py:119-124 | when no record matches, the orders are unchanged |
| DataStore.UpdateKeepsMatch | data_store.py:121-122 | merging fields that do not set `order_id` keeps the record findable by its id |
| DataStore.Store.UpdateOrder | data_store.py:119-124 | the loop leaves the orders equal to `UpdateFirst` of the old orders, with the same length, and keeps the store's defaults |
| DataStore.Matches | data_store.py:121 | a record matches an id only when it has an `order_id` field |
| DataStore.LastN | data_store.py:127-128 | Python's `[-limit:]`: the last `min(limit, n)` records for limit ≥ 1, all of them for 0, and a suffix in original order in every case |
| DataStore.Store.ListOrders | data_store.py:127-128 | the result is `LastN` of the orders: the last `min(limit, n)` for limit ≥ 1, all of them for 0; at most `limit` records, and always a suffix in original order |
| DataStore.ListOrdersShowsNewest | data_store.py:114-128 | the order just added is the last one listed, for every positive limit |
| DataStore.Store.FromData | data_store.py:46 | the store starts from a normalised document |
| Bot.IsMenuText | main.py:140-152 | the three menu-button texts are tested before the quantity, and none of them is a numeral |
| Bot.MenuTextsDistinct | main.py:51-52 | the three menu texts are different |
| Bot.CheckQuantity | main.py:173-181 | a non-numeral is rejected as not a number; a numeral is accepted exactly when its value `int(text)` lies in [1, 20], and the accepted quantity is that value; a numeral outside the range is reported with its value |
| Bot.CheckQuantityLeadingZero | main.py:174-178 | a leading zero does not change the outcome: "05" is read as quantity 5 |
| Bot.CheckQuantityOfNumeral | main.py:174-181 | a quantity typed as its numeral is accepted exactly when it lies in [1, 20] |
| Bot.Total | main.py:184-185 | the total is a multiple of the unit price whose quotient is the quantity, between one and twenty unit prices |
| Bot.DenomTag | main.py:60-62 | a denomination button's tag is `denom_` followed by a digit string that reads back as the denomination |
| Bot.DenomTagRoundTrip | main.py:60-62 | the tag of every denomination button starts with `denom_` and `int(tag.split("_")[1])` reads it back as that denomination |
| Bot.DenomTagIsNoOtherButton | main.py:60-63 | a denomination tag is none of the cancel, agree and disagree tags |
| Bot.ButtonsDistinct | main.py:226-280 | the fixed tags are distinct and none starts with `denom_` |
| Bot.TagDenom | main.py:235-240 | the denomination read from a tag has a price and a stock entry |
| Bot.Truthy | main.py:257 | Python truthiness of an optional number: a missing value and 0 are both false |
| Bot.AdminView | main.py:118-133 | a user is refused exactly when they are not the admin; the admin always gets the stock view, listing the available counts of ₹1000, ₹2000 and ₹4000 in that order |
| Bot.Conversation.constructor | main.py:95 | a new session is empty |
| Bot.Conversation.Start | main.py:82-95 | `/start` greets the user and clears the session |
| Bot.Conversation.RaiseTicket | main.py:108-115 | the state becomes "ticket"; nothing else changes |
| Bot.Conversation.HandleText | main.py:136-218 | the menu texts come first, whatever the state: "Buy" and "Stock" leave the session unchanged, "Raise Ticket" sets "ticket". In "ticket", a text is forwarded stripped to the admin; when that send succeeds the state is cleared and the user gets a confirmation, and when it fails the state stays "ticket" and the user gets no reply. In "wait_quantity", a non-numeral or out-of-range number changes nothing, and a valid quantity stores it with `total = qty * PRICES[denom]` and moves to "tnc". Anything else changes nothing. The session invariant is kept |
| Bot.Conversation.CallbackButtons | main.py:221-288 | "cancel" and "disagree" clear the session. A denomination tag stores it, sets "wait_quantity", and keeps qty and total. "agree" without a truthy denom and qty clears the session; otherwise it shows the stored total and clears only the state. Any other tag changes nothing |
| Bot.PurchaseExample | main.py:234-273 | the ₹2000 button, the quantity "3" and "I Agree" give a payment summary of 3 × 70.00 = 210.00 |
| Bot.StaleTotalExample | main.py:252-273 | "I Agree" after choosing another denomination shows the new unit price with the total computed for the earlier one, which is not quantity × unit price |
| Text.IsWhitespace | main.py:137 | space, tab, newline and carriage return are whitespace to `strip`, and no digit is |
| Text.StripLeft | main.py:137 | `lstrip` is no longer than its input and leaves no whitespace at the front |
| Text.StripRight | Admin.py:107 | `rstrip` is no longer than its input and leaves no whitespace at the end |
| Text.Strip | main.py:137 | the result has no whitespace at either end and is no longer than the input |
| Text.StripLeftDropsWhitespace | main.py:137 | `lstrip` keeps a suffix and drops only whitespace |
| Text.StripRightDropsWhitespace | main.py:137 | `rstrip` keeps a prefix and drops only whitespace |
| Text.StripKeepsMiddle | Admin.py:107 | every character kept by `strip` comes from the input, and the result is empty exactly when the input is all whitespace |
| Text.StripOfStripped | Admin.py:113 | a string without whitespace at its ends is left alone |
| Text.StripIdempotent | Admin.py:113 | `strip` is idempotent |
| Text.StartsWith | Admin.py:88 | a string starts only with prefixes no longer than itself, and always with the empty string and with itself |
| Text.ReplaceChar | Admin.py:112 | the length is kept, and the replaced character no longer occurs |
| Text.Split | Admin.py:113 | `s.split(sep)` always has at least one piece; its meaning is pinned by `Text.JoinSplit` and `Text.SplitJoin` |
| Text.Join | Admin.py:113 | `sep.join(parts)` starts with the first part and is at least as long as the number of parts minus one; its meaning is pinned by `Text.SplitJoin` and `Text.JoinSplit` |
| Text.SplitPieces | Admin.py:113 | no piece of `split` holds the separator, and every character of a piece comes from the input |
| Text.JoinSplit | Admin.py:113 | joining the pieces with the separator gives the input back |
| Text.SplitNoSep | Admin.py:113 | a string without the separator splits into itself alone |
| Text.SplitAtSep | Admin.py:113 | splitting at a separator splits the two sides independently |
| Text.SplitJoin | Admin.py:113 | `split` undoes `join` when no piece holds the separator |
| Text.LastSegment | Admin.py:89 | `s.split(sep)[-1]` holds no separator, and is `s` itself when `s` has none |
| Text.LastSegmentAfterSep | Admin.py:89 | `s.split("_")[-1]` is what follows the last `_` |
| Text.ShowNat | Admin.py:90 | `str(n)` is a non-empty string of digits without a leading zero |
| Text.IsDigits | main.py:174 | `isdigit()` holds only for a non-empty string that begins with a digit, never with whitespace |
| Text.DigitsValue | main.py:178 | `int(s)` of a string of k digits is below 10^k |
| Text.DigitsValueLeadingZero | main.py:178 | a leading zero does not change the value of a numeral |
| Text.NumeralIsOnePiece | Admin.py:89 | a numeral does not split at a non-digit separator |
| Text.DigitsValueShowNat | main.py:178 | `int(str(n)) == n` on digit strings |
| Text.ShowNatPlain | Admin.py:89-90 | a numeral holds only digits: no whitespace, `_`, `,` or newline |
| Text.ParseInt | Admin.py:138 | `int` succeeds exactly on a digit string, optionally preceded by `+` or `-`; a digit string reads as its value, and a sign negates it or leaves it |
| Text.ParseIntShowNat | Admin.py:138 | `int(str(n)) == n` and `int("-" + str(n)) == -n` |
| Text.ParseAmount | Admin.py:139 | `float` of a price in paise: an amount is negative only with a leading `-`, and a digit string reads as 100 times its value |
| Text.ParseUnsignedAmount | Admin.py:139 | an unsigned amount is non-empty, and a digit string reads as 100 times its value |
| Text.ParseAmountWhole | Admin.py:139 | a whole amount `str(n)` reads as n × 100 paise |
| Text.ParseAmountCents | Admin.py:139 | `str(n) + "." + two digits` reads as 100 n plus those two digits, in paise |
| Admin.StrippedNonEmpty | Admin.py:113 | no more codes than pieces; its meaning is pinned by `Admin.StrippedNonEmptyConcat` |
| Admin.StrippedNonEmptyConcat | Admin.py:113 | the strip-and-drop step works piece by piece: on a concatenation it is the concatenation of the results, so the kept codes are the non-empty stripped pieces in their original order |
| Admin.ParseCodes | Admin.py:112-113 | an empty message yields no codes; its meaning is pinned by the lemmas below |
| Admin.ParseCodesOfJoin | Admin.py:112-113 | any pieces without separators, sent one per line or comma separated, parse to exactly their non-empty stripped forms, in order |
| Admin.ParseCodesSpaceAfterComma | Admin.py:112-113 | "A, B" yields the codes A and B, for any well-formed codes |
| Admin.ParseCodesBlankLine | Admin.py:112-113 | "A\n\nB" yields the codes A and B, for any well-formed codes |
| Admin.StrippedNonEmptyWellFormed | Admin.py:113 | pieces without separators give only well-formed codes |
| Admin.ParseCodesWellFormed | Admin.py:112-113 | every parsed code is non-empty, holds no comma and no newline, and has no whitespace at either end |
| Admin.StrippedNonEmptyKeeps | Admin.py:113 | well-formed codes pass the strip-and-drop step unchanged, in order |
| Admin.JoinStripped | Admin.py:107-113 | well-formed codes joined by a separator form a non-empty text with no whitespace at its ends |
| Admin.NewlinesAsCommas | Admin.py:112 | newlines between pieces without separators read the same as commas |
| Admin.CodesRoundTrip | Admin.py:107-113 | well-formed codes sent one per line, or comma separated, are read back as exactly those codes, in that order |
| Admin.BlankMessageHasNoCodes | Admin.py:113-116 | a message of only whitespace and commas yields no codes |
| Admin.AllBlankDropped | Admin.py:113 | pieces that strip to nothing are all dropped |
| Admin.AddState | Admin.py:90 | the state written for a denomination is `admin_add_` followed by `str(denom)`, a non-empty string of digits |
| Admin.AddDenom | Admin.py:89 | for `admin_add_` followed by digits, `int(s.split("_")[-1])` is the value of those digits |
| Admin.InAddFlow | Admin.py:110 | the add flow is active only when a state is stored, at least as long as `admin_add_`; the state `admin_add_` itself counts |
| Admin.AddStateRoundTrip | Admin.py:88-90 | the state written for denomination d starts with `admin_add_`, and its last `_` segment reads back as d |
| Admin.AdminPanel.constructor | Admin.py:7 | the panel starts with the given admin id and store, outside any flow |
| Admin.AdminPanel.AdminCommand | Admin.py:38-55 | a non-admin is refused and nothing changes; the admin gets the panel and leaves any flow |
| Admin.AdminPanel.AdminCallback | Admin.py:58-98 | a non-admin is alerted and the state is untouched. "admin_stock" shows the queue lengths. "admin_orders" shows the last at most 10 orders. `admin_add_<d>` sets the state `admin_add_<d>`. Any other tag changes nothing |
| Admin.AdminPanel.AdminText | Admin.py:101-125 | a non-admin, or an admin outside the add flow, changes nothing. With no codes in the message, the state is kept and nothing is added. Otherwise the parsed codes are appended once, in order, to the queue of the state's denomination, and the state is reset |
| Admin.AdminPanel.SetPriceCmd | Admin.py:128-151 | a non-admin, an argument count other than 2, or an argument that does not parse leaves the prices unchanged; otherwise exactly that denomination's price is set, and the reply lists the three current prices, each the stored price since the store always holds the three default denominations |
| Admin.AdminPanel.BroadcastCmd | Admin.py:154-173 | a non-admin or an empty message sends nothing. Otherwise every user is attempted in order, a failure does not stop the loop, and the count shown is the number of successful sends, never more than the number of users |

`PRICES` and `STOCK` of main.py are constants of module `Bot`. No handler can write them, which is how the model shows that main.py only reads them.

## Left out

- The Telegram framework: updates, handler registration, keyboards, message editing and the Markdown wording of every reply. Replies are values of a `Reply` datatype.
- The ticket text forwarded to the admin. It carries the user's name, id and username; the model forwards the stripped message only. Whether the send succeeds is an input of `Bot.Conversation.HandleText`.
- `send_message` in `broadcast_cmd`. Each send's success is an input sequence, one outcome per user; the broadcast text itself is not modelled.
- File I/O: `save_data` and reading JSON in `load_data`. `Normalize` starts from an already decoded document, and a file that fails to decode is the document with every key missing.
- `Text.ParseAmount`: models `float()` of a price only for an optional sign, digits and at most two fraction digits, in paise. Exponents, `inf`, `nan`, surrounding whitespace, underscores and more fraction digits are rejected, although `float()` accepts them.
- `Text.ParseInt`: models `int()` without surrounding whitespace or underscore digit separators.
- `Bot.CheckQuantity`: `isdigit` is ASCII digits only. Other Unicode digits, which pass `isdigit` and then make `int` fail or succeed, are not modelled.
- `Bot.Conversation.CallbackButtons` requires a `denom_` tag to hold digits naming a denomination of `PRICES`. For an unknown denomination, main.py stores `denom` and the "wait_quantity" state before the lookup at main.py:239 raises, so the session is left waiting for a quantity that raises again at main.py:184; that path is not modelled.
- `Admin.AdminPanel.AdminCallback` requires an `admin_add_` tag whose last `_` segment is a plain digit string. The bot only emits such tags (Admin.py:24-28). Tags whose segment is signed or padded with whitespace, which `int` would still accept, are not modelled. Any digit denomination is accepted, known or not: "admin_add_5000" sets the state "admin_add_5000", and the next message queues its codes under 5000, as Admin.py:89-90, 111 and 118 do.
- The order records' contents, status progression and the payment gateway. That code is not part of this model; orders appear only through `add_order` and `update_order`.
- Order records are values: `update_order`'s in-place `o.update` is a replacement of the record in the list, so aliasing of an order dict held elsewhere is not modelled.
- A code being in at most one queue is not enforced by `add_vouchers`. The model follows the code (`DataStore.EnqueueAcceptsDuplicate`), and `DataStore.DequeueRemovesCode` takes distinct codes as a hypothesis.
- The reservation of vouchers "for 5 minutes": no code enforces it, so there is no timer.
- `msin.py`, which builds the application and registers handlers, and `user's.py`, a second, store-backed purchase flow: it creates orders with `add_order`, calls a payment gateway, polls payment status, updates orders and pops vouchers (user's.py:163-440). Neither is part of this model; the store operations that flow calls are.
- Concurrency between handlers and lost updates to the shared store: the model is sequential.
- `get_users` is a read of `DataStore.Store.users` and has no member of its own.

# Payment verification and order reservation, modelled in Dafny

This project models the core of a Django shop for digital goods (games, gift
cards, Steam items):

- **Card allow-list check** (`Payment`, from `base/interface_payment.py`). A
  callback carries a masked card and the hex SHA-256 digest of the full
  number. The check accepts it only if some allow-listed card has the same
  first 6 and last 4 characters and hashes to that digest.
- **Sep gateway protocol** (`SepApi`, from `base/third_party_api/sep.py`):
  - the tiered fee `_calcWage` and the token request body;
  - the payment URL;
  - the decision table for an untrusted callback;
  - `verifyPayment`. It is idempotent: it refuses a reference number
    (refnum) already stored in the unique `SepPayment.refnum` column. It
    stores a refnum only after the gateway confirmed a fresh transaction. It
    never reports a payment whose refnum it could not store.
  - the store-free `inquiryPayment`.
- **Order submission** (`OrderHandling`, from `base/shop/order_handler.py`):
  - replacing the unpaid order and carrying its entered requirement values
    forward;
  - checking cart lines in order, where the first error wins;
  - the all-or-nothing transaction that reserves stock and records
    requirement titles;
  - requirement submission, checkout details and the type-tag handler table.

Every HTTP reply is an input value (`HttpReply`): a transport error, a
non-200 status, a non-JSON body, or the fields read from the JSON, each key
optional. These are inputs too:

- the clock (`nowMicros`, UTC microseconds);
- the date parser for `"%Y-%m-%d %H:%M:%S"` (`parseLocalTime`, giving the
  wall-clock reading in seconds);
- SHA-256 (`sha256`);
- whether each database write succeeds.

The database is state:

- the `SepPayment` table is `Sep.payments`, which maps each refnum to its
  UTC payment time, so a refnum can appear only once;
- the catalogue and the unpaid orders are the fields of `OrderHandler`.

Commit-or-rollback is modelled by having the transaction work on local copies
and assign the fields only when every step has succeeded.

`PyText` holds the Python string semantics the core relies on:

- `str(int)`;
- `int(str)` for digit strings;
- `isdigit` on ASCII digits;
- the clamping slices `s[:n]` and `s[-n:]`.

The middle fee band `int(amount * .0002)` is modelled as `amount / 5000`.
For integer amounts in [600000, 20000000) these agree. The double nearest
0.0002 lies slightly above it, so the rounded product is never below an exact
integer quotient. A non-integer quotient is at least 1/5000 away from the
next integer, which is far more than the rounding error.

## Model

| member | source | states |
|---|---|---|
| `Payment.CheckCardAuthorized` | base/interface_payment.py:52-82 | Returns true iff the masked card has length 16, the hash decodes as hex, and some allow-listed card's decimal form shares the first 6 and last 4 characters and has exactly that SHA-256 digest. |
| `Payment.ScanAllowList` | base/interface_payment.py:64-82 | The loop over the allow-list, which skips cards whose digit groups differ and stops at the first digest match, returns true iff some allow-listed card accounts for the masked card and the decoded digest. |
| `Payment.FromHex` | base/interface_payment.py:58-62 | `bytes.fromhex` decodes the empty string to no bytes. A successful decode uses only hex digits and whitespace, and yields at most one byte per two characters. |
| `Payment.FromHexOfToHex` | base/interface_payment.py:58-62 | `bytes.fromhex` inverts a digest's lower-case hex form. |
| `Payment.FromHexRejectsStrayChar` | base/interface_payment.py:58-62 | A character that is neither a hex digit nor ASCII whitespace makes decoding fail, so the check returns false. |
| `Payment.WrongLengthNeverAuthorized` | base/interface_payment.py:55-56 | A masked card whose length is not 16 is never authorized, whatever the hash and allow-list. |
| `Payment.UndecodableHashNeverAuthorized` | base/interface_payment.py:58-62 | A hash that is not valid hex is never authorized. |
| `Payment.EmptyAllowListNeverAuthorized` | base/interface_payment.py:67-82 | An empty allow-list authorizes nothing. |
| `Payment.DigitMatchWithWrongHashRejected` | base/interface_payment.py:70-77 | A card whose digit groups match but whose digest differs does not authorize. |
| `Payment.OwnDigestAuthorizes` | base/interface_payment.py:67-77 | An allow-listed card with matching groups is authorized by the hex of its own digest. |
| `Payment.OnlyVisibleDigitsMatter` | base/interface_payment.py:64-70 | Two masked cards with the same first 6 and last 4 characters get the same decision; the middle is ignored. |
| `Payment.AllowListOrderIrrelevant` | base/interface_payment.py:67-77 | Allow-lists with the same members give the same decision, whatever the order and repetitions. |
| `SepApi.CalcWage` | base/third_party_api/sep.py:296-303 | The fee is 120 below 600,000 and 4000 from 20,000,000. In between it is the truncated 0.02% of the amount (`w <= 0.0002*a < w+1`). It always lies in [120, 4000]. |
| `SepApi.WageMonotone` | base/third_party_api/sep.py:296-303 | The fee never decreases as the amount grows. |
| `SepApi.WageExamples` | base/third_party_api/sep.py:296-303 | 500,000 gives 120, 19,999,999 gives 3999 and 50,000,000 gives 4000. |
| `SepApi.PaymentUrl` | base/third_party_api/sep.py:86-87 | The URL is the fixed SendToken address followed by the token. |
| `SepApi.PaymentUrlInjective` | base/third_party_api/sep.py:86-87 | The token can be read back from the URL: different tokens give different URLs. |
| `SepApi.Sep.RequestPayment` | base/third_party_api/sep.py:24-84 | The body has exactly the five keys plus `CellNumber` iff a mobile is given. `Amount` is `(amount + fee) * 10` and `CellNumber` is `"0"` + the mobile. A token is returned iff the reply is HTTP 200 with JSON, `status == 1` (Python equality) and a `token` key that is not JSON null, and it is that key's value. A null token gives None, like every failure. |
| `SepApi.Sep.IsPaymentVerifiable` | base/third_party_api/sep.py:89-113 | A missing `State` gives UNKNOWN and a `State` other than "OK" gives PAYMENTFAILED, whatever the card fields. An empty allow-list skips the card check and gives OK. Otherwise a missing card field gives UNKNOWN, and the card check decides between OK and UNAUTHORIZEDCARD. |
| `SepApi.Sep.VerifyPayment` | base/third_party_api/sep.py:115-242 | A stored refnum gives None and leaves the table unchanged. The refnum is stored, with its UTC time, iff it was new, the gateway confirmed, and the insert succeeded. A result is returned only when it was stored, and then it is exactly `ResultFromDetail`. So after malformed digits or amount the record stays but the result is None. |
| `SepApi.Sep.constructor` | base/third_party_api/sep.py:17-22 | The gateway keeps its terminal id and callback URL. |
| `SepApi.PaymentDateUtc` | base/third_party_api/sep.py:172-182 | The payment time in UTC is the gateway's Tehran wall-clock reading minus +03:30 (12,600 s). |
| `SepApi.FreshnessBoundary` | base/third_party_api/sep.py:184-192 | Exactly 3600 s after the payment is still fresh; one microsecond later is stale. |
| `SepApi.StaleNeverConfirmed` | base/third_party_api/sep.py:184-192 | A stale transaction is refused even if every other field is valid. |
| `SepApi.ResultFromDetail` | base/third_party_api/sep.py:223-242 | There is a result iff both visible digit groups are numeric and `AffectiveAmount` is an int (not a bool or float). It carries that amount and `int()` of the first six and of the last four characters, in [0, 10^6) and [0, 10^4). |
| `SepApi.ResultFromDetailAsWritten` | base/third_party_api/sep.py:223-242 | The code as written raises KeyError exactly when the digit groups are numeric and `AffectiveAmount` is missing. |
| `SepApi.MissingAmountRaises` | base/third_party_api/sep.py:227-229 | A concrete reply for which the code as written raises. |
| `SepApi.ResultFromDetailAgrees` | base/third_party_api/sep.py:223-242 | The corrected result equals the as-written one wherever that one returns, and is None where it raises. |
| `SepApi.ResultCardGroups` | base/third_party_api/sep.py:236-241 | For a card not starting with 0, `str` of the returned first group gives back the card's first six characters. |
| `SepApi.ResultIdentifiesCardEnds` | base/third_party_api/sep.py:236-241 | Two results with equal card groups come from cards with the same first six and last four characters, leading zeros included. |
| `SepApi.InquiryPayment` | base/third_party_api/sep.py:244-294 | The inquiry never touches the table. A transport error gives "Connection Error" carrying that error's own message. A non-200 status gives "HTTP Error" with the raw text, a non-JSON body gives "result isn't json" with the raw text, and otherwise the decoded body comes back. |
| `SepApi.InquiryShowsConfirmedReply` | base/third_party_api/sep.py:244-294 | A reply that verification would accept is returned in full by the inquiry. |
| `SepApi.VerifyTwice` | base/third_party_api/sep.py:115-242 | Two verifications of one refnum in a row: once the first returns a result, the second returns None. The second can return one only if the first did not and the refnum was new. The table gains at most that refnum. |
| `OrderHandling.CreateProduct` | base/shop/order_handler.py:171-184 | A product object is returned iff the type tag is present and registered. It then has that tag's class and the given id. |
| `OrderHandling.HandlerTable` | base/shop/order_handler.py:49-56 | Exactly the six tags have handlers: three game stores map to Game, `gift-card` to GiftCard, two Steam items to Steam. |
| `OrderHandling.LineError` | base/shop/order_handler.py:82-124 | A line passes iff its product exists, has a handler, has stock other than 0 and is not bounded below the count. The checks come in the source's order, each error as an iff: INVALID_ID for a missing product, NO_PRODUCT_HANDLER for an existing product without a handler, OUT_OF_STOCK for a handled product with stock 0, and LOW_STOCK for a handled product with 0 < stock < count. Every error carries the product id. The product's title is carried iff the product exists. The stock is carried iff the error is LOW_STOCK, and it is the current stock. |
| `OrderHandling.FirstCartErrorIsFirst` | base/shop/order_handler.py:82-124 | The cart's error is that of the earliest failing line, with every earlier line passing, and there is none iff every line passes. |
| `OrderHandling.UnlimitedStockNeverShort` | base/shop/order_handler.py:105-124 | Negative (unlimited) stock never yields OUT_OF_STOCK or LOW_STOCK, whatever the count. |
| `OrderHandling.LowStockExample` | base/shop/order_handler.py:115-124 | Asking 2 of a product with stock 1 gives LOW_STOCK with stock 1. |
| `OrderHandling.OutOfStockExample` | base/shop/order_handler.py:107-113 | Asking for a product with stock 0 gives OUT_OF_STOCK. |
| `OrderHandling.CarriedRequirements` | base/shop/order_handler.py:63-70 | The carried-forward requirements are exactly the previous order's entries whose value is not None, with those values. |
| `OrderHandling.RequirementMap` | base/shop/order_handler.py:224-226 | The new order's requirements are exactly the saved titles, each with its carried value or None. |
| `OrderHandling.ResubmitKeepsEnteredValues` | base/shop/order_handler.py:63-70 | Resubmitting keeps the entered value of every title the new cart still requires, and a title never entered stays None. |
| `OrderHandling.Reserve` | base/shop/order_handler.py:207-213 | One reservation, as every product kind is assumed to behave. It succeeds iff the stock is unlimited (negative) or covers the count. Unlimited stock is left as it is, and bounded stock drops by the count and stays non-negative. |
| `OrderHandling.ReserveAll` | base/shop/order_handler.py:207-213 | Reserving line after line changes stock only. Unlimited products are untouched and bounded stock never goes negative. |
| `OrderHandling.ReserveAllExact` | base/shop/order_handler.py:207-213 | For non-negative counts: reservation succeeds iff no bounded product is asked for more units in total than its stock, and then each bounded stock drops by exactly its demand. |
| `OrderHandling.DuplicateLinesFailOnlyInTransaction` | base/shop/order_handler.py:82-132 | A cart listing one product (stock 3) twice with count 2 passes every line check, but its reservation fails, which is SAVE_ERROR. |
| `OrderHandling.RequirementTitlesMembers` | base/shop/order_handler.py:215-222 | A title is saved iff it is non-empty and some line's product reports it. |
| `OrderHandling.Zip` | base/shop/order_handler.py:199-201 | The order lines pair each product object with its count, as long as the shorter list. |
| `OrderHandling.OrderHandler.CheckCart` | base/shop/order_handler.py:82-127 | The loop yields the cart's first line error, or else one product object and one count per line, in cart order. |
| `OrderHandling.OrderHandler.ReserveLines` | base/shop/order_handler.py:207-213 | The reservation loop computes exactly `ReserveAll` on the current catalogue. |
| `OrderHandling.OrderHandler.CollectRequirementTitles` | base/shop/order_handler.py:215-222 | The loop builds exactly the set of truthy requirement titles of the lines. |
| `OrderHandling.OrderHandler.SaveUserOrder` | base/shop/order_handler.py:186-234 | It returns true iff creation, attachment, every reservation and, when there are titles, the requirement save all succeed. Only then do the reserved stock and the new order persist; otherwise nothing changes. |
| `OrderHandling.OrderHandler.SubmitOrder` | base/shop/order_handler.py:58-134 | The previous unpaid order is deleted first (a failed delete is ignored), even if the cart is then rejected. The first line error rejects with nothing reserved or created. Otherwise the cart is saved with the carried requirements, or SAVE_ERROR with nothing saved. |
| `OrderHandling.OrderHandler.GetUnpaidOrderCheckoutDetails` | base/shop/order_handler.py:136-148 | None iff there is no unpaid order or its price is None; otherwise the price and the order's requirements. |
| `OrderHandling.OrderHandler.SubmitRequirement` | base/shop/order_handler.py:150-169 | None without an unpaid order. False, with nothing changed, for a name that is not a key of the order's requirements. Otherwise the save's outcome, with the value stored iff it succeeded. |
| `OrderHandling.SubmitUnlistedRequirement` | base/shop/order_handler.py:150-169 | Submitting "unknown-field" to an order whose requirements are {"steam-tradelink"} gives false and leaves the order unchanged. |

## Left out

- HTTP (`requests.post`), its timeout and `RuntimeConfig`: each gateway reply is an input value.
- The verify and inquiry request bodies (`TerminalNumber`, `RefNum`) are not modelled. Nothing depends on them once the reply is an input.
- Logging, `messenger_logger` alerts and their text have no effect on results.
- SHA-256 is the function parameter `sha256`. Its internals and the UTF-8 encoding of the card string are not modelled.
- `datetime.strptime` is the parameter `parseLocalTime`. Calendar arithmetic is not modelled.
- The `Asia/Tehran` zone database: the fixed +03:30 offset (the source's fallback) is used for both branches. Historical daylight-saving periods are not modelled.
- JSON values whose type the source does not expect are not representable in the reply types:
  - a top-level body or `TransactionDetail` that is not an object;
  - a `MaskedPan` or `StraceDate` that is not a string.

  On most of these the source raises an uncaught exception, some of them after the refnum was saved:
  - a 16-element array as `MaskedPan` fails on `.isdigit()` (sep.py:227);
  - an object with 16 keys fails at the slice (sep.py:224).

  The exception is a non-string `MaskedPan` of another length, which is refused with None (sep.py:166-170), as a short string is.
- JSON arrays and objects nested in a reply keep only their size, which is all that truthiness uses.
- `str.isdigit` is modelled on ASCII digits. Other Unicode digits, which Python also accepts, are not.
- The SHA-256 check when the allow-list holds non-int values is not modelled: allow-listed cards are ints, as annotated.
- `SepApi.Sep.VerifyPayment`: a reply without `AffectiveAmount` follows the corrected behaviour (None), not the uncaught KeyError of the code as written. See Findings.
- Concurrency is not modelled: calls run one at a time.
  - `insertSucceeds = false` stands for every failed insert, including losing the unique-constraint race and a refnum over 50 characters.
  - `reserve` is one check-and-decrement step, not row locking.
- The periodic deletion of `SepPayment` rows older than an hour is not part of the core's code.
- `getUnpaidOrderAndUpdateLastModified` also updates the order's last-modified time. Timestamps are not modelled.
- Unpaid orders are one per user (`unpaidOrders` maps each user to an order). When the delete fails, the old row stays in the database. A later successful save then replaces the map entry, so the model does not represent two unpaid rows at once.
- `order.requirements` is modelled as a map, empty when nothing was saved. The source's null value, which would make `submitRequirement` raise TypeError, is not modelled.
- ProductService, OrderService and the Game, GiftCard and Steam classes are not part of this model. Their behaviour is assumed as follows:
  - `reserve` leaves negative stock alone and otherwise checks and decrements;
  - `getRequirement` is the product's requirement field;
  - `saveRequirementTitleList` stores each title with its carried value;
  - `saveRequirmenet` stores the submitted data on success;
  - `calcOrderPrice` is the parameter `calcOrderPrice`;
  - `getProductById` (line 183) is folded into the product object's id.
- Deleting the previous unpaid order (order_handler.py:72-76) leaves the catalogue unchanged. The model thus assumes that the deleted order's reserved units do not return to stock. That behaviour is decided by the ORM cascade and `OrderService`, which are not part of this model.
- Order ids and the reservation rows linking an order to its units are not modelled. The transaction's effect on stock and on the unpaid order is.
- Cart counts are not validated by the core; that serializer is not part of this model. `OrderHandling.ReserveAllExact` assumes non-negative counts.
- The views, Telegram logger, SMS notifier, JWT middleware and model declarations are not modelled. Two facts from the models are used: `refnum` is unique and `stock` is a signed integer.

## Findings

| source | as written | input that shows it | evidently intended | confidence | as-written member | corrected member |
|---|---|---|---|---|---|---|
| base/third_party_api/sep.py:227-229 | `detail["AffectiveAmount"]` is read after the try block has closed (line 222). A missing key therefore raises KeyError out of `verifyPayment` after the refnum was saved. | A confirmed, fresh reply whose `TransactionDetail` has `MaskedPan` "6037991234561234" and no `AffectiveAmount` (`SepApi.MissingAmountRaises`). | Return None, as the handler at lines 214-217 does for every other missing key. | not executed; high | `SepApi.ResultFromDetailAsWritten` | `SepApi.ResultFromDetail` |

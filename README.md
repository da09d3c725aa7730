# Escrow order store: a Dafny model

This project models the core of a peer-to-peer escrow service for digital
collectibles. A seller creates an order, gets back a short code and a link,
and shares them with a buyer. The buyer joins the order. The parties then
move its status forward. Marking an order paid or completed notifies the
seller, and completion adds the deal to the seller's statistics. The model covers four
parts of the repository:

- `server.js` keeps users, orders and notifications in three in-memory
  arrays with three id counters. It is modelled as the class
  `MemoryStore.Store`, whose `seq` fields the handler methods reassign.
- `backend/server.js` runs the same endpoints against three PostgreSQL
  tables with SERIAL ids. It is modelled as the class `PgStore.Database`,
  with one `seq` per table and one counter per sequence. This version adds
  the code-uniqueness retry loop, the `DECIMAL(15,2)` amount column and the
  `jsonb_set` volume accumulator. It also adds `LEFT JOIN`s that attach the
  parties' telegram ids to an order.
- `script.js` holds the web client's decision logic: the order-form checks,
  the channel-to-currency mapping, labels, card buttons, list order and the
  order-link prompt. These are pure functions in module `Client`.
- `messages.py` holds `get_text`: a bilingual table lookup with fallback,
  then `str.format`. It is module `Messages`, with a model of `str.format`
  for keyword fields.

Shared pieces:

- `Basics`: nullable values, responses, statuses, requisites and partial
  updates.
- `Seqs`: first-match lookup, filter, descending sort and `LIMIT`.
- `OrderCode`: eight characters drawn from `A-Z0-9`.
- `Stats`: deal counts and per-currency volumes.

Each HTTP handler becomes one method. The method's `ensures` states every
response body, error status and error message. It also states the whole new state,
including what is left unchanged. Each class keeps its data invariant
`Valid()`:

- ids increase and stay below their counters;
- telegram ids are unique;
- on the backend, order codes are unique and well-formed;
- no order has its seller as its buyer.

The clock is a `now: int` parameter. Each random choice is a
nondeterministic pick.

The two servers differ, and the model keeps each one as written:

- The backend join requires `status = 'active'`. The in-memory join has no
  status check and replaces an attached buyer.
- The in-memory status change lets only the seller, the buyer or an admin
  act (403 otherwise). The backend status change has no authorization check.
- The in-memory completion also raises the buyer's deal count. The backend
  completion notifies the buyer but leaves the buyer's statistics alone.
- Neither server validates status transitions or guards against a repeated
  completion. Every `completed` call settles the statistics again
  (`Stats.SettleRepeatedlyAdds`).

Neither server has any of the following, and the model has none either:

- a forward-only state machine for the order status;
- role checks per transition;
- an error for joining an order that already has a buyer;
- settlement exactly once per order;
- a notification to the buyer on join;
- operator shortcuts or role administration.

## Model

| member | source | states |
|---|---|---|
| Basics.ApplyPatch | server.js:82-96 | every requisite column named in the body takes the given value (`null` included); each column not named keeps its old value |
| Basics.ApplyPatchIdempotent | server.js:82-96 | applying an empty body leaves the requisites unchanged, and applying the same body twice is the same as applying it once |
| Seqs.FirstIndex | server.js:83 | the index of the first element satisfying the predicate, as `find` picks it: it satisfies the predicate and none before it does; none when no element does |
| Seqs.Filter | server.js:99-112 | the result keeps exactly the elements that satisfy the predicate, with their multiplicities, and is no longer than the input |
| Seqs.SortDesc | server.js:252-258 | the result is sorted by key, largest first, and is a permutation of the input |
| Seqs.Take | backend/server.js:492 | the first `n` elements, or all of them when there are fewer: a prefix of length `min(n, |s|)` |
| Seqs.PrefixSubMultiset | backend/server.js:492 | a prefix holds each element at most as often as the whole sequence |
| Seqs.FilterSortDesc | backend/server.js:487-491 | exactly the elements satisfying the condition, each as often as stored, sorted by key, largest first |
| Seqs.SortedKeepsNewest | backend/server.js:487-493 | keeping the first `n` of a sequence sorted newest first drops nothing newer than anything kept |
| Seqs.TakeSorted | backend/server.js:487-493 | the first `n` of a sequence sorted newest first are elements of it, no more often than there, still newest first, and no dropped element is newer than a kept one |
| OrderCode.GenerateOrderCode | server.js:274-281 | whatever characters are drawn, the code has 8 characters, each from the 36-character alphabet; the copy at backend/server.js:115-122 is the same |
| OrderCode.AlphabetShape | server.js:275 | the alphabet has 36 characters, each an upper-case Latin letter or a digit |
| Stats.SettleSeller | server.js:237-241 | one more completed deal; the order's currency becomes a key, and its volume grows by the amount, counting from 0 when absent; every other currency's volume is unchanged |
| Stats.CountBuyerDeal | server.js:243-245 | one more completed deal; volumes unchanged |
| Stats.SettleRepeatedlyAdds | server.js:227-246 | settling the same order `n` times adds `n` deals and `n` times the amount to that currency, and changes no other currency |
| Stats.SettleKeepsNonNegative | backend/server.js:452-464 | settling a non-negative amount keeps every volume non-negative |
| MemoryStore.DisplayName | server.js:59 | a truthy username is kept; `null` or `""` becomes the default name |
| MemoryStore.FindUser | server.js:55 | the index of the first account with that telegram id, or none when no account has it |
| MemoryStore.FindOrder | server.js:202 | the index of the first order with that id, or none when no order has it |
| MemoryStore.FindOrderByCode | server.js:154 | the index of the first order with that code, or none when no order has it |
| MemoryStore.FindNotification | server.js:262 | the index of the first notification with that id, or none when there is none |
| MemoryStore.MayChangeStatus | server.js:214-216 | the seller, the buyer and any admin pass the guard; on an order with neither a known seller id nor a buyer, only an admin passes |
| MemoryStore.SettleUsers | server.js:234-245 | only statistics change; accounts not party to the order are unchanged; the seller's account is settled, and the buyer's account, when there is one, counts one more deal |
| MemoryStore.Store.constructor | server.js:36-41 | empty arrays, all three counters at 1, invariant established |
| MemoryStore.Store.Notify | server.js:283-296 | appends one unread notification with no read time, whose id is the previous counter; the counter goes up by one; nothing else changes |
| MemoryStore.Store.UpsertUser | server.js:52-79 | a known telegram id returns its account, with the store untouched; an unknown one appends exactly one account whose id is the previous counter, with no requisites, not admin, and the given initial statistics |
| MemoryStore.Store.UpdateRequisites | server.js:82-96 | an unknown account gets 404 with the store untouched; otherwise only that account's requisites change, as `ApplyPatch` says |
| MemoryStore.Store.UserOrders | server.js:99-112 | an unknown account gets `[]`; otherwise exactly the orders it sells or buys, in store order |
| MemoryStore.Store.CreateOrder | server.js:115-150 | no input is rejected; appends one active order with no buyer and a generated code, with id equal to the previous counter and the seller's id when that account exists; appends exactly one `order_created` notification to the seller |
| MemoryStore.Store.OrderByCode | server.js:153-161 | 404 exactly when no order has the code; otherwise the first order holding it |
| MemoryStore.Store.JoinOrder | server.js:164-195 | a missing order gets 404, a self-join 400, an unknown buyer 400, each changing nothing; otherwise sets buyer id and buyer telegram id (whatever the status or earlier buyer) and appends one `buyer_joined` notification to the seller |
| MemoryStore.Store.SetStatus | server.js:198-249 | a missing order gets 404, an unknown actor 400, and an actor who is neither seller, buyer nor admin 403, each changing nothing; otherwise writes any status; `paid` appends one seller notification; `completed` appends one seller notification and settles the accounts as `SettleUsers` says; other statuses notify nobody |
| MemoryStore.Store.WriteStatus | server.js:218-246 | once the guard has passed: the status and update time are written; `paid` appends one seller notification; `completed` appends one seller notification and settles the accounts; other statuses change nothing else |
| MemoryStore.Store.Settle | server.js:234-245 | the accounts become `SettleUsers` of the old ones, ids and telegram ids are unchanged, and the invariant holds |
| MemoryStore.Store.UserNotifications | server.js:252-258 | exactly the recipient's notifications, as a permutation of them, sorted by id, largest first |
| MemoryStore.Store.MarkRead | server.js:261-271 | an unknown id gets 404 with the store untouched; otherwise that record gets `read` and a read time, with message and everything else intact |
| PgStore.RoundCents | backend/server.js:84 | the nearest whole number of hundredths, with a tie going away from zero: for `x >= 0` the error lies in (-1/2, 1/2], for `x < 0` in [-1/2, 1/2) |
| PgStore.ToNumeric | backend/server.js:84 | the value is stored exactly when its rounded value is below 10^13 in magnitude, and that overflow is the only failure; a stored value is the rounded value, a whole number of hundredths within 0.005 of the input |
| PgStore.ToNumericExact | backend/server.js:84 | a value already in hundredths and in range is stored exactly |
| PgStore.ToNumericIdempotent | backend/server.js:84 | storing a stored value again changes nothing |
| PgStore.FindUser | backend/server.js:388-395 | the index of the row with that telegram id, or none when no row has it |
| PgStore.FindUserById | backend/server.js:270-276 | the index of a row with that id, or none |
| PgStore.FindOrder | backend/server.js:399-406 | the index of the order with that id, or none |
| PgStore.FindActiveOrder | backend/server.js:342-349 | the index of an order with that id and status `active`, or none when no order has both |
| PgStore.FindOrderByCode | backend/server.js:240-247 | the index of the order with that code, or none |
| PgStore.FindNotification | backend/server.js:505-508 | the index of the notification with that id, or none |
| PgStore.ViewOf | backend/server.js:266-290 | carries the order row; an existing seller row supplies the seller's telegram id and username, and an existing buyer row the buyer's; a missing row or a missing buyer gives nulls |
| PgStore.ViewsOf | backend/server.js:306-313 | one joined row per order, in the same order, each the order's `ViewOf` |
| PgStore.OrdersInvolving | backend/server.js:311-315 | exactly the orders the account sells or buys, each as often as stored, newest first |
| PgStore.NotificationsNewestFirst | backend/server.js:487-491 | exactly the account's notifications, each as often as stored, newest first |
| PgStore.RecentNotifications | backend/server.js:487-493 | a prefix of the account's notifications sorted newest first, of length 50 or all of them, whichever is fewer, so no row repeats and none is dropped below 50; none left out is newer than one kept |
| PgStore.OrdersOf | backend/server.js:292-324 | projects each joined row back to its order row, position by position |
| PgStore.SettleSellerRow | backend/server.js:452-464 | only the row with the seller's id changes: its deal count, volumes as in `SettleSeller`, and `updated_at` |
| PgStore.Database.constructor | backend/server.js:61-106 | empty tables, every sequence at 1, invariant established |
| PgStore.Database.InsertNotification | backend/server.js:419-428 | appends one unread row with the next sequence value; nothing else changes |
| PgStore.Database.UpsertUser | backend/server.js:145-163 | a known telegram id updates only `username` and `updated_at` of that row, never duplicating it; an unknown one inserts a row with no requisites and zero statistics; the id sequence advances in both cases |
| PgStore.Database.GetUser | backend/server.js:165-181 | 404 exactly when no row has the telegram id; otherwise that row |
| PgStore.Database.UpdateRequisites | backend/server.js:183-213 | an empty body gives 500 and changes nothing; an unknown account changes nothing and answers without a body; otherwise only that row's named columns and `updated_at` change |
| PgStore.Database.CreateOrder | backend/server.js:216-264 | an unknown seller gets 404 with no draw; for a known seller it fails (500) only when the amount overflows DECIMAL(15,2) or every one of the `maxDraws` drawn codes is held by a stored order; the created order carries the last code drawn, all earlier draws being taken; a created order is active, has no buyer, the seller's id, the amount as stored by DECIMAL(15,2), and a well-formed code that no stored order holds; it is appended with the next sequence value; any failure changes nothing; no notification is written |
| PgStore.DrawFreeCode | backend/server.js:238-248 | every drawn code is well-formed; each draw but the last was held by a stored order; a successful search returns the last draw, which no stored order holds; a failed one made `maxDraws` draws, all of them held |
| PgStore.Database.OrderByCode | backend/server.js:266-290 | 404 exactly when no order has the code; otherwise that order with its joined party columns |
| PgStore.Database.UserOrders | backend/server.js:292-324 | an unknown account gets `[]`; otherwise exactly the orders the account sells or buys, each once (as a multiset), newest first, each with its joined columns |
| PgStore.Database.InsertOrder | backend/server.js:250-257 | the `INSERT ... RETURNING *` of an order with the next id and a well-formed code no stored order holds: the order is appended, the order sequence advances by one, every other table and sequence is unchanged, and the invariant still holds |
| PgStore.Database.JoinOrder | backend/server.js:326-381 | an unknown buyer gets 404, a missing or non-active order 404, and the seller as buyer 400, each changing nothing; otherwise sets the buyer and appends one `buyer_joined` notification to the seller |
| PgStore.Database.ReplaceOrder | backend/server.js:357-363 | rewrites one order row keeping id, code and seller; the invariant holds; nothing else changes |
| PgStore.Database.Complete | backend/server.js:429-464 | appends the seller's then the buyer's `order_completed` notification (the buyer's id may be null) and settles only the seller's row |
| PgStore.Database.CompleteAsWritten | backend/server.js:429-471 | the completion as the statement is written: both notifications are inserted, no user row changes, and the answer is 500 |
| PgStore.SettlementLostAsWritten | backend/server.js:452-464 | whenever the seller's row exists, the intended settlement changes the users table, so the as-written completion that leaves it unchanged loses the deal |
| PgStore.Database.SetStatus | backend/server.js:383-472 | fails only for an unknown actor or a missing order (404 each, changing nothing); otherwise, with no role check, writes any status; `paid` appends one seller notification; `completed` does what `Complete` says; other statuses notify nobody |
| PgStore.Database.WriteStatus | backend/server.js:410-465 | the status write and its notifications and settlement once both lookups have succeeded |
| PgStore.Database.UserNotifications | backend/server.js:475-501 | an unknown account gets `[]`; otherwise a prefix of the account's notifications sorted newest first, 50 or all of them, whichever is fewer, each no more often than stored; none left out is newer than one returned |
| PgStore.Database.MarkRead | backend/server.js:503-515 | an unknown id changes nothing and answers without a body; otherwise only that row's `read` flag is set |
| Client.TypeText | script.js:129-136 | the label differs from the key exactly for the three known item types |
| Client.PaymentText | script.js:138-145 | the label differs from the key exactly for the three known channels |
| Client.CurrencyFor | script.js:1863-1868 | `ton` gives TON, `stars` gives STARS, and every other channel gives RUB |
| Client.LabelOf | script.js:1259-1275 | the label of `paid`, `completed` and `cancelled` stands for that status; every other string gets the active label |
| Client.LabelText | script.js:1259-1275 | the Russian text of a label; the text reads back as that label, so distinct labels have distinct texts |
| Client.LabelClass | script.js:1259-1275 | the style class of a label is `status-` followed by its status name |
| Client.LabelsDistinct | script.js:1259-1275 | distinct labels have distinct Russian texts and distinct style classes |
| Client.DisplayedCurrency | script.js:1787-1795 | the displayed currency is the channel's currency, and RUB before a channel is picked |
| Client.LabelRoundTrip | script.js:1259-1275 | each label maps back to its own status; `paid`, `completed` and `cancelled` get their own labels, and every other string is shown as active |
| Client.CardActions | script.js:1318-1345 | Pay iff active and the viewer is not the seller; I paid iff active and the viewer is the buyer; Asset transferred iff active, the viewer is the seller and a buyer is attached; Received iff paid and the viewer is the buyer; Details always, last and once |
| Client.CardActionsExclusive | script.js:1318-1345 | Pay and Asset transferred never appear together; a card with Received offers only Received and Details |
| Client.ListedOrders | script.js:1244-1251 | a permutation of the orders, sorted by creation time, newest first |
| Client.LinkPromptFor | script.js:2049-2090 | the join offer iff the order is active, has no buyer, and the viewer is not its seller; the own-order notice iff active, no buyer, viewer is seller |
| Client.JoinOfferMatchesCard | script.js:2049-2054 | a viewer offered to join sees Pay and not Asset transferred on that order's card |
| Client.TrimStartIndex | script.js:1831 | the first index from `i` on that is not JavaScript white space, or the end: everything skipped is white space |
| Client.TrimEndIndex | script.js:1831 | the end of the last character above `lo` that is not JavaScript white space: everything cut off is white space |
| Client.Trim | script.js:1831-1832 | the result is the slice of the input between its leading and its trailing white space; it neither starts nor ends with white space, and is empty iff the input is all white space |
| Client.HasRequisiteFor | script.js:1845-1861 | a channel other than `ton`, `card` and `stars` needs no requisite |
| Client.FormComplete | script.js:1831-1837 | the form is complete exactly when type and channel are picked and amount and description each contain a non-space character |
| Client.ErrorMessage | script.js:1835-1858 | the toast of each rejection; exactly the three rejections that switch to the requisites page end with "в реквизитах" |
| Client.ErrorMessagesDistinct | script.js:1835-1858 | distinct rejections show distinct toasts |
| Client.PrepareOrder | script.js:1827-1881 | rejects "fill in all fields" iff the type, channel, trimmed amount or trimmed description is missing; rejects a NaN or non-positive amount iff the form is complete; sends iff complete, positive, and the channel's requisite is on file; a `ton` order without wallet, a `card` order without card and a `stars` order without Telegram handle each get their own error, and a requisite rejection happens only when it is missing; the request carries the viewer, the picks, the amount, the channel's currency and the trimmed description |
| Client.SentCurrencyIsDisplayed | script.js:1787-1795 | the currency sent is the one the form displayed for that channel |
| Messages.Primary | messages.py:1192 | `ru` selects the Russian table; every other language selects the English table |
| Messages.TemplateFor | messages.py:1192-1204 | a non-empty primary entry is used; an empty or missing `ru` entry falls back to English, and one for `en` falls back to Russian; any other language gets no second lookup; the template is empty iff every consulted entry is empty or missing |
| Messages.Format | messages.py:1218 | Python's `str.format` with keyword arguments, left to right: a key error always names a valid keyword field that is absent from the arguments |
| Messages.CloseAt | messages.py:1218 | the position of the first closing brace from a given index, or none when there is none |
| Messages.GetText | messages.py:1190-1230 | no template gives the not-found text; a missing placeholder gives the missing-data text; any other format error gives the generic error text |
| Messages.FormatPiece | messages.py:1218 | formatting one written piece consumes exactly it: a literal character, an escaped brace, or a field whose value is substituted or whose absence is a key error |
| Messages.FormatWrite | messages.py:1218 | the template written from pieces formats to the pieces' rendering when every field is a keyword name that is supplied |
| Messages.FormatWriteMissing | messages.py:1218-1220 | a template with a field name absent from the arguments fails with a key error |
| Messages.FormatPlain | messages.py:1218 | a template with no braces formats to itself |
| Messages.GetTextSubstitutes | messages.py:1216-1218 | a found template whose placeholders are all supplied returns the substituted text |
| Messages.GetTextMissingData | messages.py:1220-1224 | a found template with a placeholder absent from the arguments returns the missing-data text for that key |

## Findings

| source | as written | input that shows it | evidently intended | confidence | as-written member | corrected member |
|---|---|---|---|---|---|---|
| backend/server.js:452-464 | `jsonb_set` gets a `numeric` third argument. PostgreSQL has no implicit `numeric`-to-`jsonb` cast, so the `UPDATE users` fails. The status write and both notifications before it stay, and the handler answers 500. | `PUT /orders/:id/status` with `completed`, for an order whose seller row exists | the seller's deal count goes up by 1 and the currency's volume by the amount | likely; not executed | PgStore.Database.CompleteAsWritten, PgStore.SettlementLostAsWritten | PgStore.Database.Complete, PgStore.SettleSellerRow |

## Left out

- Network, HTTP routing, Express middleware, rate limiting, static files,
  the connection pool and schema DDL are not modelled. Each handler is one
  method over the store.
- Success status codes are not modelled. `Ok` carries only the body, so
  the 201 that `POST /orders` answers (backend/server.js:259) is not
  distinguished from a 200.
- Path ids are `nat` parameters. server.js reads them with `parseInt`
  (server.js:165, 199, 262), so a path such as `5abc` names order 5 and a
  non-numeric one gives `NaN`, which matches no record. The model does not
  represent the path text.
- Concurrency is not modelled. The backend awaits between its reads and
  writes, so real executions can interleave (in join and status change).
  The model runs each handler as one atomic step.
- Statement failures inside a backend handler are not modelled. Every
  statement the model issues is assumed to succeed. The exceptions are the
  empty requisites body, the amount overflow and the code search, which
  fail as described.
- A handler's partial effects before a later statement fails are not
  modelled either: each backend write happens in full or not at all.
- The `jsonb_set` of a `numeric` value is modelled by its intended effect
  in `PgStore.Database.Complete`. Its likely failure is recorded under
  "## Findings" and modelled by `PgStore.Database.CompleteAsWritten`.
- `PgStore.Database.UpdateRequisites` models only the five requisite
  columns. The source builds its `SET` list from every key of the body. A
  key that names no column fails the statement, and one that names another
  column writes it.
- NOT NULL violations are not modelled: the model does not represent a
  missing `telegram_id`, `code` or `amount` in a request.
- Telegram ids are strings in the model, so an account created with no
  `telegram_id` cannot be represented. In server.js the completion looks
  up `order.buyer_telegram_id` even when the order has no buyer, and that
  lookup would match such an account; the model does no lookup for a
  missing buyer.
- `PgStore.Database.CreateOrder`: the code search is bounded by the
  parameter `maxDraws`, and running out of draws fails with 500. The
  source loops until a free code is found. That loop terminates with
  probability 1, which the model cannot state.
- Sequence values consumed by a failed INSERT are not modelled.
- The in-memory store does not check a new code against stored codes, so
  codes may collide there. Its `Valid()` therefore does not claim unique
  codes.
- Floating point is not modelled: amounts and volumes are `real`.
  - `parseFloat` in server.js and script.js is not modelled; the client
    model takes the parsed value as the input `parsedAmount` (`None` for
    NaN).
  - Nor are `formatNumber`, `formatCurrency` or the exchange rates of
    `convertToUSD`.
- Random choices are not modelled as distributions.
  - The random initial statistics of a new in-memory account are inputs,
    required to lie in the source's ranges.
  - The random code characters are nondeterministic picks.
- The test data of server.js is not modelled.
- Timestamps are the `now` parameter, as an integer. ISO strings and time
  zones are not modelled.
- The TON price endpoints of both servers are outside the store.
- `Client.TypeText` and `Client.PaymentText` do not model the object-key
  lookup reaching inherited properties such as `constructor`.
- The script.js DOM is not modelled: modals, toasts, navigation, the
  clipboard, `resetOrderForm`, `cancelOrderCreation` and `loadUserOrders`.
  For `createOrder`, only the checks before the request and the request
  body are modelled.
- In script.js, the card's fake-payment button, the worker panel and its
  calls, the fabricated live-deals ticker, the client-side admin password
  and the local statistics editors (including `addVolume`) are not
  modelled. They exist to deceive the service's users.
- translations.js is not part of this model. It does DOM text replacement
  only.
- bot.py is not part of this model.
- `Messages.Format` models only literal text, `{{` and `}}` escapes, and
  keyword fields `{name}`. Format specs (`{x:>5}`), conversions (`{x!r}`),
  and attribute or index syntax (`{x.y}`, `{x[0]}`) are not modelled. An
  empty or all-digit field is treated as an error other than a missing key,
  as Python's `IndexError` is.
- `Messages.AllDigits` counts only the ASCII digits as positional. Python
  also reads a field made of other Unicode decimal digits as positional.
- The contents of the Russian and English tables in messages.py are
  parameters of `Messages.GetText`, not copied into the model. The warning
  printed on each error path is not modelled.
- There is no role administration or status-transition validation in
  either server, so the model has none.

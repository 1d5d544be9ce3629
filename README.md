# Shopping cart of the ticket engine, modelled in Dafny

This project models the client-side shopping cart of the ticket-engine
JavaScript library. It covers three parts.

- **Order validators** (`src/OrderValidator.ts`). These are the boolean rules the cart
  checks against a snapshot of an order: its status, line items, tokens,
  payments and required payments. They become one `Validator` datatype with
  one `Validate(v, o)` function, where `o: Option<Order>` because every rule
  accepts a missing order. The two rules that loop are `RequiredPaymentMatchLineItems`
  (accumulate prices per currency, then compare with the recorded required
  payments) and `AndValidator`. They are also methods with loops, proved equal
  to `Validate`.
- **Reconciliation** (`Cart.fetchOrder`). The cart reads an order, stores it, and
  keeps reading on the cart's retry schedule until the validator accepts it.
  `Reconciliation.Reconcile` is the recursive specification. It takes the
  acceptance test as a parameter, and `Reconciliation.Verdict` turns an
  optional validator into one (no validator accepts every order).
  `Cart.Cart.FetchOrder` is the loop, proved equal to it.
- **The cart** (`src/Cart.ts`). The class `Cart.Cart` has these fields:
  - the five browser-storage slots of the source (order, customer id, sales channel, register and
    preferred language), held as `Option` fields;
  - the shared retry schedule `retryPolicy`, which every reconciliation consumes;
  - a ghost trace `waited` of the waits slept.

  The backend is a `Backend.Server` object. It answers order reads and commands
  from two scripts and logs every request. Each cart operation is a method.
  Its postcondition is stated in terms of `Reconcile` and the validators.
  For most operations it gives the requests sent, the replies and reads
  consumed, and the new state of every slot. The exceptions are listed under
  "Left out": the path of `addItems`, `addToken` and the order guard that
  first creates an order, and the part of `checkout` after the checkout
  step.

The datatypes of `src/Model.ts` are in `Model.dfy`. The cart's errors (each
`throw new Error(...)` of the source, and backend failures) are the `Err`
cases of `Result`. The queries that only read a slot (`hasOrder`,
`hasCustomerId`, `hasSalesChannelId`, `hasRegisterId`,
`hasPreferredLanguageCode`) are the predicates `Cart.Cart.HasOrder` and
the like, and `Cart.Cart.Slots` collects the slots. `Cart.Cart.RemoveCustomer`
follows the guard of `removeCustomer` as written, which is the guard of
`setCustomer`: the unassignment goes out only when an order is stored and
no customer id is. The source's test cases
for the validators are lemmas in `Examples.dfy`.

## Model

| member | source | states |
|---|---|---|
| OrderValidator.RequiredPaymentMatch | src/OrderValidator.ts:348-381 | the two loops (accumulate reserved prices per currency, stopping at a pending or awaiting-claim line, then look each currency up among the recorded required payments) return exactly `Validate(RequiredPaymentMatchLineItems, o)` |
| OrderValidator.ValidateAll | src/OrderValidator.ts:384-399 | the AndValidator loop returns `Validate(AndValidator(vs), o)`; it asks members in order and stops at the first that fails, and every member asked before it held |
| OrderValidator.LiveCount | src/OrderValidator.ts:51-67 | the number of lines neither removed nor returned is at most the number of lines |
| OrderValidator.NullOrderDefaults | src/OrderValidator.ts:51-405 | with no order, IsEmpty, NullValidator and CanPayOnline hold |
| OrderValidator.NullOrderFailsStateRules | src/OrderValidator.ts:27-111 | with no order, IsPending, IsInFinalState, HasStatus and HasToken fail |
| OrderValidator.NullOrderFailsLineRules | src/OrderValidator.ts:131-211 | with no order, HasItemsWithStatus, ItemsHaveStatus and ItemsHaveStatusOneOf fail |
| OrderValidator.NullOrderFailsSettlement | src/OrderValidator.ts:300-337 | with no order, CanReserve, CanCheckout and CanPay fail |
| OrderValidator.NullOrderFailsMatch | src/OrderValidator.ts:348-381 | with no order, RequiredPaymentMatchLineItems fails |
| OrderValidator.LiveCountZeroIff | src/OrderValidator.ts:51-67 | no live line exactly when every line is removed or returned |
| OrderValidator.IsEmptyIff | src/OrderValidator.ts:51-67 | IsEmpty holds exactly when the order has no line list or every line is removed or returned (so zero lines is empty) |
| OrderValidator.FinalStateIff | src/OrderValidator.ts:69-74 | IsInFinalState holds exactly for completed, canceled, timeout and failed |
| OrderValidator.IdsWithStatusMember | src/OrderValidator.ts:162-183 | an id is among the ids at status `s` exactly when some line has that id and status |
| OrderValidator.ItemsHaveStatusIff | src/OrderValidator.ts:162-183 | ItemsHaveStatus(ids, s) holds exactly when the order has a line list and every id is the id of some line at status `s` (with the zero-lines exception) |
| OrderValidator.AllIdsAtStatusIff | src/OrderValidator.ts:162-183 | the loop's early-return condition is equivalent to "every id names a line at status `s`", and non-empty ids with zero lines fail |
| OrderValidator.ItemsHaveStatusEdgeCases | src/OrderValidator.ts:171-175 | empty ids hold for any order with a line list; non-empty ids fail on zero lines |
| OrderValidator.Validate | src/OrderValidator.ts:9-405 | the `validate` method of every validator class, one case per class; what each rule means is stated by the lemmas below |
| OrderValidator.NamedLinesAtStatus | src/OrderValidator.ts:162-212 | with unique line ids, when every id names a line at status `s`, every named line is at status `s` |
| OrderValidator.ItemsHaveStatusImpliesOneOf | src/OrderValidator.ts:162-212 | with unique line ids, ItemsHaveStatus(ids, s) implies ItemsHaveStatusOneOf(ids, [s]) |
| OrderValidator.OneOfDoesNotImplyItemsHaveStatus | src/OrderValidator.ts:186-212 | ItemsHaveStatusOneOf accepts an id no line has, which ItemsHaveStatus rejects |
| OrderValidator.ValidateItemsStatusIsConjunction | src/OrderValidator.ts:281-298 | ValidateItemsStatus is the conjunction of the three ItemsHaveStatus rules |
| OrderValidator.ValidateItemsStatusEmpty | src/OrderValidator.ts:281-298 | with three empty lists ValidateItemsStatus holds exactly on an order with a line list |
| OrderValidator.ReserveImpliesCheckout | src/OrderValidator.ts:300-325 | CanReserve implies CanCheckout |
| OrderValidator.CheckoutImpliesPay | src/OrderValidator.ts:316-337 | CanCheckout on an unpaid order implies CanPay |
| OrderValidator.FinalStateBlocksSettlement | src/OrderValidator.ts:69-74 | on an order in a final state none of CanReserve, CanCheckout, CanPay holds |
| OrderValidator.FindCode | src/OrderValidator.ts:358 | the `findIndex` of the accumulation: the first entry with the line's currency code, or -1 when there is none |
| OrderValidator.FindRequired | src/OrderValidator.ts:373 | the `find` of the comparison: the first recorded entry with that code, or none when no entry has it or the list is missing |
| OrderValidator.UnpricedSumIsZero | src/OrderValidator.ts:356-365 | with non-negative prices, a currency without a priced reserved line sums to zero |
| OrderValidator.ReservedSumSnoc | src/OrderValidator.ts:356-365 | appending a line adds its price to its currency's reserved sum when it is reserved |
| OrderValidator.HasPricedReservedSnoc | src/OrderValidator.ts:356-365 | appending a line adds its currency to the priced currencies exactly when it is reserved and priced |
| OrderValidator.StepKeepsEntries | src/OrderValidator.ts:357-364 | a line that is not reserved, or is reserved but free with no entry, keeps the accumulation invariant |
| OrderValidator.StepAddsToEntry | src/OrderValidator.ts:360-361 | a reserved line whose currency has an entry adds its price there and keeps the invariant |
| OrderValidator.StepOpensEntry | src/OrderValidator.ts:362-363 | a reserved priced line in a new currency opens an entry and keeps the invariant |
| OrderValidator.AddReservedLineKeeps | src/OrderValidator.ts:356-365 | with non-negative prices, one step of the accumulation keeps the invariant (one entry per priced currency, distinct codes, each the reserved sum) |
| OrderValidator.CalculatedMeetsInvariant | src/OrderValidator.ts:355-369 | the accumulated list has one entry per currency that has a priced reserved line, distinct codes, each the sum of its currency's reserved prices |
| OrderValidator.RequiredPaymentMatchPerCurrency | src/OrderValidator.ts:348-381 | with non-negative prices the rule holds exactly when no line is pending or awaiting claim and, for every currency with a priced reserved line, the first recorded required payment in it equals the sum of its reserved prices |
| OrderValidator.MatchesRecordedIff | src/OrderValidator.ts:372-377 | the comparison loop over the accumulated entries is equivalent to the per-currency statement |
| OrderValidator.PendingLineDefeatsMatch | src/OrderValidator.ts:366-368 | any pending or awaiting-claim line makes the rule fail |
| OrderValidator.ActiveOfAppendInactive | src/OrderValidator.ts:229 | a refused or cancelled payment is filtered out |
| OrderValidator.InactivePaymentChangesNothing | src/OrderValidator.ts:227-278 | recording a refused or cancelled payment changes none of NeedsPaymentWithIsoCurrency, NeedsPaymentWithCustomCurrency and NeedsLoyaltyCardPayment |
| OrderValidator.OutstandingNeedsPayment | src/OrderValidator.ts:227-259 | a required payment paid less than required calls for an ISO payment (three-letter code) or a custom-currency payment (longer code) |
| OrderValidator.SettledNeedsNothing | src/OrderValidator.ts:227-259 | when every required payment is paid in full, neither payment-need rule holds |
| OrderValidator.AndValidatorConcat | src/OrderValidator.ts:384-399 | AndValidator over a concatenation is the conjunction of the two parts |
| OrderValidator.AndValidatorEmpty | src/OrderValidator.ts:384-399 | the AndValidator without members holds on every order |
| OrderValidator.AndValidatorUnit | src/OrderValidator.ts:384-405 | a NullValidator in front of an AndValidator's members changes nothing |
| ValidatorExamples.SingleCurrencyMatches | test/OrderValidator.test.ts:22-38 | reserved EUR lines of 10.5, 10.5 and 2 match a required 23 |
| ValidatorExamples.TwoCurrenciesMatch | test/OrderValidator.test.ts:41-60 | 12.5 EUR and 14 CUSTOM match their lines |
| ValidatorExamples.TwoCurrencySums | test/OrderValidator.test.ts:41-60 | the accumulation yields EUR 12.5 then CUSTOM 14 |
| ValidatorExamples.FreeLinesNeedNothing | test/OrderValidator.test.ts:63-78 | free lines need no required payment |
| ValidatorExamples.RemovedAndReturnedIgnored | test/OrderValidator.test.ts:80-98 | removed and returned lines are ignored |
| ValidatorExamples.IgnoredLinesSum | test/OrderValidator.test.ts:80-98 | the reserved, reserved, removed and returned lines of that case sum to 21 EUR |
| ValidatorExamples.MismatchFails | test/OrderValidator.test.ts:100-116 | 22.5 required against 23 fails |
| ValidatorExamples.SecondCurrencyMismatchFails | test/OrderValidator.test.ts:118-137 | 9 CUSTOM required against 14 fails |
| ValidatorExamples.MissingRequiredPaymentFails | test/OrderValidator.test.ts:139-153 | priced reserved lines without any required payment fail |
| ValidatorExamples.UnsettledLineFails | test/OrderValidator.test.ts:155-190 | a pending or awaiting-claim line fails the match |
| ValidatorExamples.AllMembersHold | test/OrderValidator.test.ts:203-217 | a completed order with no lines is completed and empty |
| ValidatorExamples.OneMemberFails | test/OrderValidator.test.ts:219-233 | the conjunction fails on a reserved order |
| Backend.Reads | src/Cart.ts:187 | `k` reads of the same order id |
| Backend.ReadsAdd | src/Cart.ts:187 | reads concatenate |
| Backend.Head | src/Cart.ts:187 | the next scripted answer; an exhausted script fails |
| Backend.Skip | src/Cart.ts:187 | the script after `k` answers |
| Backend.Server.Query | src/Cart.ts:187-188 | an order read takes the next answer and logs the read |
| Backend.Server.Send | src/Cart.ts:215 | a command takes the next reply and logs the command |
| Reconciliation.Reconcile | src/Cart.ts:193-206 | every retry takes one wait off the front of the schedule, so there is at least one read and at most one more than the schedule's length |
| Reconciliation.VerdictAccepts | src/Cart.ts:193 | a read passes a validator's verdict exactly when it succeeded and the validator holds on its order |
| Reconciliation.ReconcileStopsAtFirst | src/Cart.ts:193-200 | every read before the last was rejected: reconciliation stops at the first accepted read |
| Reconciliation.ReconcileOkAccepted | src/Cart.ts:187-200 | a success satisfies the acceptance test and the store holds it |
| Reconciliation.ReconcileOkIsLastRead | src/Cart.ts:187-200 | a success is the answer of the last read |
| Reconciliation.ReconcileOk | src/Cart.ts:187-200 | a success is the last read, it satisfies the acceptance test, and the store holds it |
| Reconciliation.ReconcileErrExhausts | src/Cart.ts:193-206 | a failure uses up the whole schedule |
| Reconciliation.ReconcileErrIsLastRead | src/Cart.ts:193-206 | a failure was decided by a rejected last read: 'Retry attempts exceeded.' with the store holding that read when the read succeeded, the read's own error when it failed |
| Reconciliation.ReconcileErr | src/Cart.ts:193-206 | a failure uses up the schedule and is decided by its last read, as above |
| Reconciliation.ReconcileFindsAccepted | src/Cart.ts:179-207 | if one of the first schedule length + 1 answers is accepted, reconciliation succeeds no later than that read |
| Reconciliation.NoValidatorFirstSuccess | src/Cart.ts:193 | without a validator the result is the first successful read |
| Reconciliation.FailedReadsKeepStore | src/Cart.ts:201-206 | when every read failed the store is unchanged |
| PaymentSort.InsertPermutes | src/Cart.ts:418 | one insertion step is a permutation |
| PaymentSort.InsertSorted | src/Cart.ts:418 | one insertion step keeps code lengths non-increasing |
| PaymentSort.InsertStable | src/Cart.ts:418 | one insertion step keeps the order of equal-length payments |
| PaymentSort.SortPermutes | src/Cart.ts:418 | the sorted payments are a permutation of the input |
| PaymentSort.SortSorted | src/Cart.ts:418 | the sorted payments have non-increasing currency-code lengths |
| PaymentSort.SortStable | src/Cart.ts:418 | payments of each code length keep their input order |
| PaymentSort.InsertAt | src/Cart.ts:418 | insertion places a payment right after the last one whose code is at least as long |
| PaymentSort.SortPayments | src/Cart.ts:418 | the in-place sort leaves the array equal to the stable sort of its old contents |
| PaymentSort.InsertLast | src/Cart.ts:418 | one in-place step inserts the next payment into the sorted prefix and leaves the rest |
| Cart.RemovedIds | src/Cart.ts:293 | the ids of the removed items, in order |
| Cart.RemovalOperationsShape | src/Cart.ts:326-332 | one RemoveItem operation per removal, in input order |
| Cart.AdditionOperationsShape | src/Cart.ts:333-347 | one add operation per item, in order: access for an item with an event id, product otherwise |
| Cart.OperationsShape | src/Cart.ts:324-350 | the batch holds all removals in order followed by all additions in order; its length is the sum |
| Cart.IsAccessCartItem | src/Cart.ts:641-643 | an item is an access item when it carries an event id |
| Cart.IsProductCartItem | src/Cart.ts:645-647 | an item is a product item when it carries a product definition id |
| Cart.MapToCartOperations | src/Cart.ts:324-350 | the loops succeed exactly when every addition is an access or a product item, fail with 'Cannot add item. Unknown item type.' otherwise, and return the batch |
| Cart.PaymentCommand | src/Cart.ts:445-485 | cash and pin payments send their own commands, every other method an online payment carrying token, method and loyalty-card fields; all carry order, currency, amount and customer |
| Cart.PaymentOutcome | src/Cart.ts:483-490 | a result exactly when a non-empty payment id came back, otherwise 'Create payment failed.'; only an online payment carries the payment page as its action |
| Cart.PaymentRequests | src/Cart.ts:419-423 | the requests creating the payments, one per payment, in order |
| Cart.ReadSlot | src/Cart.ts:564-570 | a slot getter succeeds exactly on a set, non-empty slot and otherwise raises its error |
| Cart.OptionalSlot | src/Cart.ts:212-213 | `has ? get : undefined`: nothing for an unset slot, the value for a non-empty one, the getter's error for an empty one |
| Cart.Cart.constructor | src/Cart.ts:68-71 | each option given with a non-empty value fills its slot, other slots keep what storage held; the retry schedule starts at its default |
| Cart.Cart.GetOrderId | src/Cart.ts:502-509 | 'No order found.' exactly when no order is stored, otherwise the stored order's id |
| Cart.Cart.StoredOrder | src/Cart.ts:171-175 | the stored order, or 'No order found.' |
| Cart.Cart.ClearOrder | src/Cart.ts:519-521 | empties the order slot and nothing else |
| Cart.Cart.GetCustomerId | src/Cart.ts:564-570 | the customer id, or 'No customer id found.' for an unset or empty slot |
| Cart.Cart.StoreCustomerId | src/Cart.ts:560-562 | sets the customer slot and nothing else |
| Cart.Cart.GetSalesChannelId | src/Cart.ts:579-585 | the sales channel id, or 'No sales channel id found.' |
| Cart.Cart.SetSalesChannelId | src/Cart.ts:587-589 | sets the sales-channel slot and nothing else |
| Cart.Cart.ClearSalesChannelId | src/Cart.ts:595-598 | clears the sales-channel slot and the register slot, nothing else |
| Cart.Cart.GetRegisterId | src/Cart.ts:600-606 | the register id, or 'No register id found.' |
| Cart.Cart.SetRegisterId | src/Cart.ts:608-610 | sets the register slot and nothing else |
| Cart.Cart.ClearRegisterId | src/Cart.ts:616-618 | clears the register slot and nothing else |
| Cart.Cart.GetPreferredLanguageCode | src/Cart.ts:620-626 | the language code, or 'No preferred language code found.' |
| Cart.Cart.SetPreferredLanguageCode | src/Cart.ts:628-630 | sets the language slot and nothing else |
| Cart.Cart.ClearPreferredLanguageCode | src/Cart.ts:636-638 | clears the language slot and nothing else |
| Cart.Cart.FetchOrder | src/Cart.ts:179-207 | given the validator's acceptance test (`Verdict`), the loop's result, stored order and answers consumed are those of `Reconcile`; the waits slept are the schedule's first entries and what remains of it is the rest; one read is logged per read, no command is sent and the other slots are unchanged |
| Cart.Cart.GetOrder | src/Cart.ts:166-176 | without a reload, the stored order and nothing changes; with one, the reconciliation's result, which on success is also the stored order |
| Cart.Cart.GetItemCount | src/Cart.ts:353-359 | 0 without an order; otherwise the live lines, which are at most all lines and are zero exactly when IsEmpty holds; an order without a line list fails |
| Cart.Cart.FetchUntil | src/Cart.ts:257-258 | the fetch after a command: the result, stored order, remaining schedule, waits, answers and reads are those of `Reconcile` on the shared schedule, and success means the stored order satisfies the validator |
| Cart.Cart.SendThenFetch | src/Cart.ts:252-258 | the command is sent; a failed reply is the result; otherwise the order is reconciled against the expectation on the shared schedule, and success means the stored order satisfies it |
| Cart.Cart.NewOrderCommand | src/Cart.ts:212-215 | the CreateOrder command built from the slots, or the error of the first unreadable slot in the source's order |
| Cart.Cart.CreateOrder | src/Cart.ts:210-217 | an unreadable customer or language slot fails with nothing changed; otherwise the order slot is emptied before anything else can fail, the command is sent, and the new order is reconciled until pending; success leaves a pending order stored |
| Cart.Cart.OpenOrder | src/Cart.ts:245-247 | with a live order cached, succeeds with nothing changed; when none is cached or the cached one is final, does exactly what Cart.Cart.CreateOrder does (the slot errors, the command sent, the reconciliation until pending, with every slot, the schedule, the waits, the replies, the reads and the log given), and success then means the CreateOrder command was built and one reply consumed; success leaves a non-final order stored |
| Cart.Cart.AddItems | src/Cart.ts:242-259 | creates an order exactly when needed (its CreateOrder is then the first request); with a live order, sends the batch of additions and reconciles until the reply's lines are reserved; an unknown item fails with nothing sent; on both paths, success means every item was known and the stored order has every line the batch's reply names reserved, the batch's reply being the next one after the CreateOrder reply when an order was created |
| Cart.Cart.RemoveItems | src/Cart.ts:284-295 | 'No order found.' with nothing changed, or the batch of removals sent and reconciled until the removed lines read as removed |
| Cart.Cart.ChangeItems | src/Cart.ts:306-321 | 'No order found.' first, then an unknown item, each with nothing changed; otherwise the batch is sent and reconciled until added lines are reserved and removed ones removed |
| Cart.Cart.AddToken | src/Cart.ts:362-374 | creates an order exactly when needed; with a live order, sends the token and reconciles until the order carries it; success means the stored order has the token |
| Cart.Cart.Reserve | src/Cart.ts:377-391 | without an order, 'No order found.'; when CanReserve fails, a silent success that changes nothing; otherwise the reservation is sent and reconciled until the order is reserved |
| Cart.Cart.CreatePaymentFor | src/Cart.ts:440-491 | an empty customer slot, then a missing order, fail before any request; otherwise exactly one payment command is sent and the result is the reply's failure or its outcome |
| Cart.Cart.CreateEach | src/Cart.ts:419-423 | the payments are created one after the other, stopping at the first failure; on success one result per payment, the i-th from the i-th reply |
| Cart.Cart.CreatePayments | src/Cart.ts:417-424 | the array is always sorted in place by the stable sort, before any payment can fail; no payments sends nothing; on success each payment was created in the sorted order, the i-th from the i-th reply |
| Cart.Cart.CheckOutIfAllowed | src/Cart.ts:400-412 | 'No order found.' with nothing changed when no order is stored; when CanCheckout holds, the checkout command is sent and the order is reconciled until it reads as checked out or completed, and success means it does; otherwise a success that changes nothing |
| Cart.Cart.Checkout | src/Cart.ts:395-427 | when CanCheckout holds, the checkout command is the first request and the order is reconciled until checked out or completed, with the cart's state and the requests of that step given; a failure there is the result and leaves the payments unsorted; otherwise the stored order, the schedule and the reads are untouched; the log is exactly the old log, then the checkout step's requests, then the payment requests; after the first step the payments are sorted in place, and on success each sorted payment gets one request and one result, with a payment id, and an action exactly for payments that are neither cash nor PIN |
| Cart.Cart.Cancel | src/Cart.ts:220-239 | an absent or empty id falls back to the stored order's id ('No order found.' with nothing changed when there is none); the command is sent, and on success the cached order is dropped only when its id is the one cancelled |
| Cart.Cart.CancelOrder | src/Cart.ts:220-228 | the contract of Cancel with the CancelOrder command: the id fallback, one reply consumed, the reply's failure as the result with no slot changed, and on success only the cached order dropped when it is the one cancelled; nothing else changes |
| Cart.Cart.CancelReservation | src/Cart.ts:231-239 | the same with the CancelOrderReservation command |
| Cart.Cart.SetCustomer | src/Cart.ts:541-550 | the assignment is sent exactly when an order is stored and no customer id is; the id is stored unless that command failed |
| Cart.Cart.RemoveCustomer | src/Cart.ts:552-558 | the unassignment is sent under the same guard; the slot is cleared unless that command failed |

## Left out

- Query-string construction. The GraphQL text of `fetchOrder` and the
  catalogue queries (`getEvent`, `getEventPrices`, `getProductDefinition`,
  `getProductPrices`, `getCustomer`, `getOrderMessages`) is wire encoding.
  A read is the abstract request `Read(orderId)`.
- The SDK and authentication. This covers the `WebClient` and the
  `ticketengine-sdk` transport, `login`, `isTokenExpired`, `getClient` and
  the constructor's client configuration. Each command is an abstract
  `Dispatch` answered by a scripted reply.
- The SDK's own retries. The retry arrays passed to the SDK are left out:
  the literal ones (`[0, 1000, 1000, 1000, 3000, 5000]`, `[0, 500, 1000]`,
  `[]`, `addToken`'s local array) and the cart's shared `retryPolicy` when
  it is passed to a command. Whatever the SDK does with them is not
  visible, so a command gets exactly one reply. In particular, the model
  assumes the SDK does not consume the shared schedule.
- Sleeping. `sleep` and `setTimeout` are left out. The durations slept are
  recorded in the ghost trace `Cart.Cart.waited` instead.
- The storage medium. `localStorage` and the JSON round trip of the stored
  order are plain `Option` fields.
- A read that answers a null order is not modelled. A read either fails or
  yields an order.
- Concurrency. Async interleaving and concurrent callers are not modelled;
  each operation runs to completion.
- Numbers. Prices and amounts are exact reals, not IEEE doubles, so float
  rounding in sums is not modelled. String lengths count characters, not
  UTF-16 code units.
- Unused order fields. Fields of `Order` and `LineItem` that no rule or
  operation reads (sales channel, totals, dates, events, products) are
  omitted.
- Null item fields. The source tells an access item from a product item by
  testing `eventId` and `productDefinitionId` against `undefined`, so a
  field that is `null` counts as present. The model's `Option` has one
  absent case, so a null field reads as absent (Cart.IsAccessCartItem,
  Cart.IsProductCartItem).
- The `checkout` payments argument. An omitted `payments` argument is the
  empty array.
- Cart.Cart.AddItems: when an order had to be created, the postcondition
  states that the CreateOrder command is the first request, and that
  success means the reply after the CreateOrder reply names lines that are
  all reserved in the stored order. It does not give the requests, replies
  and reads of the two reconciliations in a row. Stating them would nest
  one `Reconcile` inside the state the other leaves, on the same shared
  schedule; that composed statement is left out to keep each method's proof
  to one reconciliation. Cart.Cart.OpenOrder states the first step in full,
  and Cart.Cart.SendThenFetch the second.
- Cart.Cart.AddToken: for the same reason, when an order had to be created,
  the postcondition states only that the CreateOrder command is the first
  request, that a failure to build it is returned with nothing sent, and
  that success means the stored order carries the token. The createOrder
  reconciliation followed by the token reconciliation is not stated as one
  composed step; Cart.Cart.OpenOrder and Cart.Cart.SendThenFetch state them
  one at a time.
- Cart.Cart.Checkout: the postcondition gives the checkout step in full
  (Cart.Cart.CheckOutIfAllowed), but not the replies left after it. So it
  does not tie each payment result to the reply that answered it.
  Cart.Cart.CreatePayments states that link from the state the checkout
  step leaves.
- OrderValidator.RequiredPaymentMatchPerCurrency: the per-currency
  characterization assumes non-negative prices. With a negative price, a
  currency whose reserved prices are not all zero can still be skipped by
  the accumulation, and `OrderValidator.RequiredPaymentMatch` and
  `Validate` still model that exactly.
- The remaining single-expression validators are not restated by lemmas:
  IsCompleted, IsTimeout, IsCanceled, IsPending, IsCheckedOut, IsReserved,
  IsPaid, IsProcessingPayment, HasCustomer, HasToken, HasStatus,
  HasPaymentWithCurrencyCode, NeedsPaymentWithCurrency and CanPayOnline.
  Each one is a single case of `OrderValidator.Validate`. The guards of the
  cart operations and the lemmas above use them.

# Duffel API client: routes, query encoders and rate-limit parsing in Dafny

This project models the deterministic core of a Go client for the Duffel travel API. It covers three parts.

- **Rate-limit header parser** (`parseRateLimit`). It reads `Ratelimit-Limit` and `Ratelimit-Remaining` as integers. It reads `Ratelimit-Reset` as a date, trying two layouts in order and stopping at the first that parses. It reads `Date` in the RFC 1123 layout only (section 5.2.14 of RFC 1123; the HTTP `Date` header of section 7.1.1.2 of RFC 7231). It returns either a complete `RateLimit` or the first error met.
- **Query encoders** (`Encode(url.Values)` on the parameter types). Each writes into a caller-owned query map in place. Some use `Set` (replace with a one-element list), some use `Add` (append), and one assigns a key directly.
- **Endpoint routing and ID checks.** For each API method, the model gives what it asks of the generic request builder:
  - `Rejected(message)` when an ID check fails before any request is built;
  - `Panic` for the `id[:4]` slicing in the order-cancellation methods;
  - otherwise a `Request`: verb, path, optional body, query contributions, and the terminal call (`Single`, `Slice`, `Empty` or `Iter`).

Modules:

| module | what it holds |
|---|---|
| `Wrappers` | `Option` and `Result` |
| `Strconv` | Go's `strconv.Atoi`, `Itoa` and `FormatBool` on a signed 64-bit range |
| `Strings` | `strings.HasPrefix` |
| `Paths` | how a path reads as `/`-separated segments, and back |
| `UrlValues` | `url.Values` as a class updated in place |
| `Requests` | the request outcome |

After these comes one module per source file: `RateLimits`, `OrderChanges`, `Offers`, `OrderCancellations`, `OfferRequests`, `Orders`, `PaymentCards` and `LoyaltyProgrammes`.

The encoders are modelled in two parts:
- a method that mutates a `UrlValues.Values` object;
- a pure function `Encoded` of the old query.

The method's postcondition ties the new contents to that function. The function's contract states the frame: which keys change, to what, and that every other key is untouched.

`parseRateLimit` is an imperative method with its loop over the layout list. It is proved equal to the specification function `RateLimitOf`, whose contract states the all-or-nothing behaviour.

Each route's path is characterised by `Paths.Split`, the server's reading of the path as segments. A route's contract says which segments the fixed parts and each caller-supplied ID contribute.

The client keeps rate-limit state across calls and sleeps until the reset instant. That bookkeeping lives in request-execution code that is not part of this model. Only the parser is modelled, and it returns an error for unreadable headers. What the caller then does with the previous state is outside the model.

## Model

| member | source | states |
|---|---|---|
| RateLimits.ParseRateLimit | ratelimit.go:28-63 | The method fills the record field by field and stops at the first bad header. Its loop tries the reset layouts in order and breaks at the first that parses. The method returns exactly `RateLimitOf` of the headers. |
| RateLimits.RateLimitOf | ratelimit.go:28-63 | All-or-nothing: success exactly when Limit and Remaining are integers, some layout reads the reset header as a non-zero instant, and Date parses in RFC 1123. On success the fields equal the header values and `Period = ResetAt - Date`. Otherwise the error is the first failure in reading order: Limit's Atoi error, then Remaining's, then `ResetUnparsed` with the reset header's value (no layout parses it, or it parses as the zero instant), then `DateInvalid` with the Date header's value. |
| RateLimits.FirstParsed | ratelimit.go:44-49 | None exactly when no layout parses the value. Otherwise the result is the value of the first layout, in list order, that parses it, and every earlier layout failed. |
| RateLimits.ResetLayoutOrder | ratelimit.go:23-26 | RFC 1123 is tried first and wins whenever it parses. The single-digit-day layout is used only when RFC 1123 fails. |
| RateLimits.ZeroResetNotRescued | ratelimit.go:44-53 | A reset header that RFC 1123 reads as the zero instant fails the whole parse. The later layout is never consulted for it. |
| RateLimits.DateOnlyRfc1123 | ratelimit.go:55-58 | A Date header that RFC 1123 does not parse fails the whole parse, whatever the other layout would make of it. |
| RateLimits.HeadersRoundTrip | ratelimit.go:28-63 | Take headers written from a RateLimit (decimal Limit and Remaining, RFC 1123 dates of its instants, period equal to their difference). They read back as exactly that RateLimit. |
| RateLimits.Sub | ratelimit.go:60 | `Time.Sub`: the exact difference when it fits in a Duration, otherwise MaxInt64 above the range and MinInt64 below it. Its sign and its zero agree with the order of the two instants. |
| RateLimits.ResetErrorMessage | ratelimit.go:52 | The reset error message contains the whole header value. |
| RateLimits.RateLimitError.Message | ratelimit.go:31-57 | Each error's text, where the model fixes it. Atoi errors quote the failing count's text, and a reset error quotes the reset header's value. The Date error's text, which comes from the time package, is the one case left open. |
| RateLimits.HeaderGet | ratelimit.go:31 | `Header.Get`: the header's first value when it has one, and "" when it is absent or has no values. |
| Strconv.Atoi | ratelimit.go:31 | Success exactly when the text is an optional sign followed by at least one decimal digit, denoting a value in the 64-bit range, and the result is that value. A failure names `Atoi` and the input text. It is a range error exactly when the text is well formed, and a syntax error otherwise. |
| Strconv.NumError.Message | ratelimit.go:33 | A conversion error's text names the function and contains the input text. |
| Strconv.Itoa | orderchanges.go:259 | Every 64-bit integer written in decimal is read back by Atoi as itself. |
| Strconv.Digits | offers.go:201 | The decimal digits of a natural number: non-empty, digits only, denoting that number, with no leading zero. |
| Strconv.FormatBool | offerrequests.go:125 | The text is "true" or "false" and reads back as the flag. |
| Strings.HasPrefix | orderchanges.go:214 | `strings.HasPrefix`: true exactly when the text is the prefix followed by something. |
| Paths.JoinSplit | orderchanges.go:172 | Split loses nothing: joining a path's segments with '/' gives the path back. |
| Paths.SplitInjective | orderchanges.go:172 | Two paths with the same segments are the same path, so a route's segment contract pins its exact path. |
| Paths.ActionPath | orderchanges.go:172 | An action path `/top/collection/{id}/a/b` has the segments `top`, `collection`, the ID's segments, `a`, `b`. This is the shape of the confirm and accept routes in orderchanges.go:172, ordercancellations.go:87 and orders.go:355. |
| Requests.Guarded | orderchanges.go:142-144 | A validation error becomes the outcome; without one, the request is built. |
| Requests.Encoders | orderchanges.go:205 | Each parameter value contributes one encoder to the query, in order. |
| UrlValues.First | orderchanges.go:259 | `url.Values.Get`: the first value under the key when there is one, and "" otherwise. |
| UrlValues.SetIf | orderchanges.go:250-252 | A Set under a condition: when it holds, the key holds exactly the value; otherwise the query is unchanged. No other key changes. |
| UrlValues.Values.Set | orderchanges.go:251 | The key now holds exactly one value; every other key is unchanged. |
| UrlValues.Values.Add | orders.go:426 | The value is appended to the key's existing values; every other key is unchanged. |
| UrlValues.Values.Put | offerrequests.go:130 | The key holds exactly the given list, even an empty one; every other key is unchanged. |
| OrderChanges.ValidateID | orderchanges.go:211-219 | Accepts exactly the non-empty IDs that start with the prefix. The empty ID gets "id param is required" before any prefix check. Any other ID gets "id should begin with" followed by the prefix. |
| OrderChanges.ValidateIDIsPrefixTest | orderchanges.go:211-219 | For a non-empty prefix, acceptance is exactly the prefix test. |
| OrderChanges.ValidateIDAcceptsPrefixed | orderchanges.go:214 | Every ID made of the prefix and any suffix is accepted. |
| OrderChanges.CreateOrderChangeRequest | orderchanges.go:132-138 | POST `/air/order_change_requests` with the parameters as body, a Single terminal and no ID check. |
| OrderChanges.GetOrderChangeRequest | orderchanges.go:141-149 | An ID failing the `ocr_` check is rejected with the validation message and no request. Otherwise GET `/air/order_change_requests/{id}`. |
| OrderChanges.CreatePendingOrderChange | orderchanges.go:152-161 | An offer ID failing the `oco_` check is rejected. Otherwise POST `/air/order_changes` with a body of exactly one key, `selected_order_change_offer`, holding the offer ID. |
| OrderChanges.ConfirmOrderChange | orderchanges.go:164-175 | As written: it validates against `ocr_`, then POSTs the payment to `/air/order_changes/{id}/actions/confirm`. |
| OrderChanges.ConfirmOrderChangeIntended | orderchanges.go:164-175 | The same route validated against `oce_`, the prefix of the order change it confirms. |
| OrderChanges.ConfirmRefusesOrderChangeIDs | orderchanges.go:167 | Every `oce_` ID that GetOrderChange accepts is rejected by ConfirmOrderChange with "id should begin with ocr_". The intended version accepts it. |
| OrderChanges.ConfirmIntendedMatchesGet | orderchanges.go:179 | The intended confirm builds a request exactly when GetOrderChange does. |
| OrderChanges.GetOrderChange | orderchanges.go:177-186 | An ID failing the `oce_` check is rejected. Otherwise GET `/air/order_changes/{id}`. |
| OrderChanges.GetOrderChangeOffer | orderchanges.go:188-197 | An ID failing the `oco_` check is rejected. Otherwise GET `/air/order_change_offers/{id}`. |
| OrderChanges.ListOrderChangeOffers | orderchanges.go:199-207 | GET `/air/order_change_offers` as an iterator, with no ID check. Each parameter value is encoded in order. |
| OrderChanges.ListOrderChangeOffersParams.Encoded | orderchanges.go:249-262 | Each of `order_change_request_id`, `sort` and `max_connections` is Set to a one-element list only when its field is non-empty or non-zero. The count is written in decimal and reads back through Atoi. No other key changes. |
| OrderChanges.ListOrderChangeOffersParams.Encode | orderchanges.go:249-263 | The query becomes `Encoded` of the old query, in place. The error is always nil. |
| OrderChanges.EncodeIdempotent | orderchanges.go:249-262 | Encoding the same parameters twice gives the query that encoding them once gives. |
| Offers.ListOffersParams.Encoded | offers.go:195-205 | `sort` is Set only if non-empty. `max_connections` is Set in decimal only if non-zero, negatives included, and reads back through Atoi. No other key changes. |
| Offers.ListOffersParams.Encode | offers.go:195-205 | The query becomes `Encoded` of the old query, in place. The error is always nil. |
| Offers.GetOfferParams.Encoded | offers.go:207-212 | `return_available_services` is Set to "true" only when the flag is on. "false" is never written, and the query is unchanged when the flag is off. |
| Offers.GetOfferParams.Encode | offers.go:207-212 | The query becomes `Encoded` of the old query, in place. The error is always nil. |
| Offers.ListOffersEncodeIdempotent | offers.go:195-205 | Encoding the list parameters twice is encoding them once. |
| Offers.UpdateOfferPassenger | offers.go:161-167 | PATCH `/air/offers/{offerRequestID}/passengers/{passengerID}` with the input as body and no ID check. |
| Offers.PassengerPath | offers.go:165 | The path's segments are `air`, `offers`, the first ID's segments, `passengers`, the second ID's segments. |
| Offers.PassengerPathInjective | offers.go:165 | For IDs without '/', different ID pairs give different paths. |
| Offers.PassengerPathAmbiguous | offers.go:165 | IDs are not escaped, so an ID containing `/passengers/` gives the same path as a different ID pair. |
| Offers.ListOffers | offers.go:169-181 | An empty ID gives "offerRequestId param is required". A non-empty ID without `orq_` gives "offerRequestId should begin with orq_". Neither builds a request. Otherwise GET `/air/offers` as an iterator, with `offer_request_id` = ID followed by the options' encoders. |
| Offers.GetOffer | offers.go:183-193 | Any ID without `off_`, the empty one included, gives "offerID should begin with off_". Otherwise GET `/air/offers/{id}` with the parameters' encoders. |
| Offers.Swapped | offers.go:246-248 | The two positions exchange their elements. Every other position and the length are unchanged, and the contents are the same multiset. |
| Offers.SwappedTwice | offers.go:246-248 | Swapping the same two positions twice restores the sequence. |
| Offers.Swap | offers.go:246-248 | The array becomes `Swapped` of its old contents, in place. |
| Offers.Len | offers.go:250-252 | The number of offers in the slice. |
| OrderCancellations.RejectID | ordercancellations.go:80-84 | As written: an ID without `ore_` panics exactly when it is shorter than four bytes. Otherwise the message quotes its first four bytes. |
| OrderCancellations.RejectIDIntended | ordercancellations.go:80-84 | An error for every ID. It agrees with the as-written message whenever that does not panic. |
| OrderCancellations.CreateOrderCancellation | ordercancellations.go:67-76 | POST `/air/order_cancellations` with body `order_id` = order ID and no validation. |
| OrderCancellations.ConfirmOrderCancellation | ordercancellations.go:78-89 | An ID without `ore_` is rejected, or panics when shorter than four bytes. Otherwise POST `/air/order_cancellations/{id}/actions/confirm` with a nil body. |
| OrderCancellations.ConfirmOrderCancellationIntended | ordercancellations.go:78-89 | Never panics. It is the as-written method for `ore_` IDs and a rejection otherwise. |
| OrderCancellations.GetOrderCancellation | ordercancellations.go:91-102 | An ID without `ore_` is rejected, or panics when shorter than four bytes. Otherwise GET `/air/order_cancellations/{id}`. |
| OrderCancellations.GetOrderCancellationIntended | ordercancellations.go:91-102 | Never panics. It is the as-written method for `ore_` IDs and a rejection otherwise. |
| OrderCancellations.ShortIDsPanic | ordercancellations.go:82 | Every ID shorter than four bytes makes both Confirm and Get panic. |
| OrderCancellations.EmptyIDPanics | ordercancellations.go:95 | The empty ID makes both methods panic. |
| OrderCancellations.ListOrderCancellations | ordercancellations.go:104-112 | As written: GET `/air/orders` as an iterator with the parameters' encoders. |
| OrderCancellations.ListOrderCancellationsIntended | ordercancellations.go:104-112 | The same listing on `/air/order_cancellations`. |
| OrderCancellations.ListMissesCancellations | ordercancellations.go:109 | The as-written listing path differs from the collection that CreateOrderCancellation posts to. The intended listing uses exactly that collection. |
| OrderCancellations.ListOrderCancellationParams.Encoded | ordercancellations.go:122-127 | `order_id` is Set only when non-empty; otherwise the query is unchanged. No other key changes. |
| OrderCancellations.ListOrderCancellationParams.Encode | ordercancellations.go:122-128 | The query becomes `Encoded` of the old query, in place. The error is always nil. |
| OfferRequests.OfferRequestInput.Encoded | offerrequests.go:124-127 | `return_offers` is always Set to "true" or "false", replacing any earlier value, and reads back as the flag. Nothing else changes. In particular, `supplier_timeout` is neither added nor removed. |
| OfferRequests.OfferRequestInput.EncodedIntended | offerrequests.go:37-39 | The query the field tags describe: `return_offers` as before, plus `supplier_timeout` in decimal when non-zero, which reads back through Atoi. |
| OfferRequests.OfferRequestInput.Encode | offerrequests.go:124-127 | The query becomes `Encoded` of the old query, in place. The error is always nil. |
| OfferRequests.SupplierTimeoutNeverSent | offerrequests.go:39 | Two inputs differing only in `SupplierTimeout` give the same query, from any starting query. |
| OfferRequests.SupplierTimeoutDropped | offerrequests.go:124-127 | For a non-zero timeout, the as-written query lacks `supplier_timeout` and the intended one carries it. |
| OfferRequests.ReturnOffersFalseSent | client_test.go:14-23 | `ReturnOffers = false` is sent as `return_offers=false`. |
| OfferRequests.PartialOfferRequestInput.Encoded | offerrequests.go:129-132 | `selected_partial_offer[]` holds exactly the selected offers, in order, even when there are none. No other key changes. |
| OfferRequests.PartialOfferRequestInput.Encode | offerrequests.go:129-132 | The query becomes `Encoded` of the old query, in place. The error is always nil. |
| OfferRequests.PartialEncodeLastWins | offerrequests.go:130 | Assignment replaces: after two encodings only the last selection remains. |
| OfferRequests.CreateOfferRequest | offerrequests.go:84-89 | POST `/air/offer_requests` with the input as body and its own encoder as the query. |
| OfferRequests.CreatePartialOfferRequest | offerrequests.go:91-95 | POST `/air/partial_offer_requests` with the input as body and no query parameters. |
| OfferRequests.GetPartialOfferRequests | offerrequests.go:97-104 | GET `/air/partial_offer_requests/{id}` with the input's encoder and no ID check. |
| OfferRequests.FaresPath | offerrequests.go:110 | The fares path has the segments `air`, `partial_offer_requests`, the ID's segments, `fares`. |
| OfferRequests.GetFullPartialOfferRequest | offerrequests.go:106-113 | GET the same path followed by `/fares`, with the same query. |
| OfferRequests.FullLookupExtendsLookup | offerrequests.go:101-110 | The fares path is the lookup path plus `/fares`, with the same query contributions. |
| OfferRequests.GetOfferRequest | offerrequests.go:115-117 | GET `/air/offer_requests/{id}` with no ID check. |
| OfferRequests.ListOfferRequests | offerrequests.go:119-121 | GET `/air/offer_requests` as an iterator. |
| OfferRequests.CreateAndListShareCollection | offerrequests.go:86-120 | Creating and listing address the same path. |
| OfferRequests.GetExtendsList | offerrequests.go:116-120 | The lookup path is the list path, "/" and the ID. |
| Orders.CreateOrder | orders.go:307-310 | POST `/air/orders` with the input as body and a Single terminal. |
| Orders.UpdateOrder | orders.go:312-315 | PATCH `/air/orders/{id}` with the update as body and no ID check. |
| Orders.GetOrder | orders.go:317-320 | GET `/air/orders/{id}` with no ID check. |
| Orders.ListOrders | orders.go:322-328 | GET `/air/orders` as an iterator with the parameters' encoders. |
| Orders.OrderActionPath | orders.go:333-339 | An action path under an order has the segments `air`, `orders`, the ID's segments, the action. |
| Orders.ListOrderServices | orders.go:330-334 | GET `/air/orders/{id}/available_services` with a Slice terminal. |
| Orders.AddOrderService | orders.go:336-341 | POST `/air/orders/{id}/services` with the input as body. |
| Orders.UpdateAirlineInitiatedChange | orders.go:343-350 | PATCH `/air/airline_initiated_changes/{id}` with the input as body. |
| Orders.AcceptAirlineInitiatedChange | orders.go:352-357 | POST `/air/airline_initiated_changes/{id}/actions/accept` with a nil body. |
| Orders.ListAirlineInitiatedChanges | orders.go:359-366 | GET `/air/airline_initiated_changes` with a Slice terminal and the parameters' encoders. |
| Orders.GetOrderReachesServices | orders.go:16 | The `ord_` prefix is never checked and IDs are not escaped. GetOrder with the ID `{id}/available_services` requests exactly the path ListOrderServices uses for `{id}`. |
| Orders.ListAirlineInitiatedChangesParams.Encoded | orders.go:424-430 | The order ID is appended (Add, not Set) to any existing `order_id` values, only when non-empty; otherwise the query is unchanged. No other key changes. |
| Orders.ListAirlineInitiatedChangesParams.Encode | orders.go:424-430 | The query becomes `Encoded` of the old query, in place. The error is always nil. |
| Orders.EncodeTwiceAppendsTwice | orders.go:426 | Encoding twice appends the order ID twice, so it differs from encoding once. |
| Orders.Order.BaseAmount | orders.go:368-377 | An amount exactly when both raw fields are present and the currency library accepts them together; nil otherwise. |
| Orders.Order.TaxAmount | orders.go:379-388 | An amount exactly when both raw fields are present and the currency library accepts them together; nil otherwise. |
| Orders.Order.TotalAmount | orders.go:390-396 | The parsed total, or the zero Amount when parsing fails. |
| Orders.ChangeCondition.PenaltyAmount | orders.go:398-408 | An amount exactly when both raw fields are present and the currency library accepts them together; nil otherwise. |
| Orders.Service.TotalAmount | orders.go:410-416 | The parsed total, or the zero Amount when parsing fails. |
| Orders.TotalHidesParseFailure | orders.go:390-396 | A total that fails to parse gives the same result as a genuine zero total. |
| PaymentCards.CreatePaymentCardRecord | paymentcard.go:62-68 | POST `/vault/cards` with the payload as body (absent when the caller passes nil) and a Single terminal. |
| PaymentCards.CreateTemporaryPaymentCardRecordFromSavedPaymentCardRecord | paymentcard.go:70-76 | POST to the same `/vault/cards`. |
| PaymentCards.DeleteSavedPaymentCardRecord | paymentcard.go:78-82 | DELETE `/vault/cards/{id}` with an Empty terminal and no ID check. |
| PaymentCards.CreationsShareRoute | paymentcard.go:66-74 | Both creations use the same verb and path. |
| PaymentCards.DeleteAddressesCollectionMember | paymentcard.go:66-80 | The delete path is the creation path, "/" and the ID. |
| LoyaltyProgrammes.ListLoyaltyProgramme | loyaltyprogrammes.go:22-27 | GET `/air/loyalty_programmes` as an iterator with no query parameters. |
| LoyaltyProgrammes.GetLoyaltyProgramme | loyaltyprogrammes.go:29-34 | GET `/air/loyalty_programmes/{id}` with a Single terminal and no ID check. |
| LoyaltyProgrammes.GetExtendsList | loyaltyprogrammes.go:25-32 | The get path is the list path, "/" and the ID. |

## Left out

- Executing requests is not part of this model. That covers the request builder, the pagination iterator, `ErrIter`, error decoding (`DuffelError`), the rate limiter's sleep and its state bookkeeping. All of it lives in files outside the model, so each method is modelled as the request it asks for.
- `ListOffers` returns its errors through an error iterator. The model calls them `Rejected`, like the errors other methods return.
- `normalizeParams` and the merging done by `WithParam`/`WithParams` are not modelled. Parameter values are kept as an ordered list of encoders.
- `ListOrdersParams.Encode` (orders.go:418-422) is not modelled. It delegates to a reflective schema encoder, so `Orders.ListOrders` keeps its parameter type abstract.
- Currency parsing is a parameter: `currency.NewAmount` maps an amount and a currency code to an amount or nothing. The zero `Amount` is also a parameter. `Offers.Less` and `Amount.Cmp` are not modelled.
- The amount accessors in offers.go, orderchanges.go and ordercancellations.go are not modelled. They have the same shape as `Orders.Order.TotalAmount`.
- `time.Parse` is a parameter mapping a layout and a text to an instant or nothing. The grammar of RFC 1123 dates is not modelled. Instants are integers, with Go's zero time as 0.
- Header names are taken to be already canonical. `http.Header`'s key canonicalisation is not modelled.
- JSON marshalling is not modelled. A request body is the payload value itself. That `ReturnOffers` and `SupplierTimeout` are tagged `json:"-"`, and so stay out of the body, is not modelled.
- `context` cancellation and HTTP transport are not modelled.
- The command-line examples under `examples/` are not modelled.
- Strings are sequences of characters, one per byte. The four-byte slice in the order-cancellation messages is therefore the first four characters.
- Go's `int` is taken to be 64 bits wide.
- A nil `url.Values` is not modelled: the encoders' callers always pass an allocated map.
- Aliasing between the `SelectedPartialOffers` slice and the query map, after direct assignment, is not modelled.
- Strconv.Atoi: when an out-of-range digit run is followed by a non-digit, Go reports a range error and the model reports a syntax error. Whether the parse succeeds, and the value on success, are exact.
- Offers.Swap: out-of-range indices panic in Go. The model excludes them by its precondition, since the sort package only passes valid indices.
- `parseRateLimit` returns an error on unreadable headers. Keeping the previous rate-limit state is the caller's choice, and it is not modelled.
- Strconv.NumError.Message: Go quotes the input with `strconv.Quote`, which escapes control and non-ASCII characters. The model puts the text between plain quotes.
- RateLimits.RateLimitError.Message: the text of `time.ParseError` for a bad Date header depends on where the layout stopped matching, which the parser parameter does not report. For that case the model gives no text.

## Findings

| source | as written | input that shows it | evidently intended | confidence | as-written member | corrected member |
|---|---|---|---|---|---|---|
| orderchanges.go:167 | `ConfirmOrderChange` validates its ID against `ocr_`, the order-change-request prefix | any order change ID, such as `oce_1`, which `GetOrderChange` accepts: it is rejected with "id should begin with ocr_" | validate against `oce_`, the prefix of the order change being confirmed | high, not executed | OrderChanges.ConfirmRefusesOrderChangeIDs | OrderChanges.ConfirmOrderChangeIntended |
| ordercancellations.go:82 | the rejection message slices `orderCancellationID[:4]` | `""` or `"abc"`: `ConfirmOrderCancellation` panics instead of returning an error | return the prefix error for every ID, quoting at most four bytes | high, not executed | OrderCancellations.ShortIDsPanic | OrderCancellations.ConfirmOrderCancellationIntended |
| ordercancellations.go:95 | the rejection message slices `orderCancellationID[:4]` | `""` or `"abc"`: `GetOrderCancellation` panics instead of returning an error | return the prefix error for every ID, quoting at most four bytes | high, not executed | OrderCancellations.EmptyIDPanics | OrderCancellations.GetOrderCancellationIntended |
| ordercancellations.go:109 | `ListOrderCancellations` GETs `/air/orders` | any call: it lists orders and decodes them as order cancellations | GET `/air/order_cancellations`, the collection that Create posts to | medium, not executed | OrderCancellations.ListMissesCancellations | OrderCancellations.ListOrderCancellationsIntended |
| offerrequests.go:124-127 | `OfferRequestInput.Encode` writes only `return_offers`; `SupplierTimeout` is tagged `json:"-"` and `url:"supplier_timeout,omitempty"` | `SupplierTimeout: 5000`: neither the body nor the query carries it | Set `supplier_timeout` in decimal when non-zero, as the field's tag and comment describe | medium, not executed | OfferRequests.SupplierTimeoutDropped | OfferRequests.OfferRequestInput.EncodedIntended |

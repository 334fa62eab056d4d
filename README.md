# Mobile-data bundle store: transaction lifecycle in Dafny

The system sells MTN data bundles. A page (index.js) shows a fixed catalog of four
offers. It keeps the one offer the buyer selected and checks the phone number before
handing a payment request to the payment adapter. The adapter (payment.js) validates
the request and opens the Paystack widget under a fresh reference. When the gateway
reports success, it records the transaction locally and posts it to the backend. The
backend (server.js) stores one document per reference. It creates each document as
`pending` and marks it `success` and verified when the gateway confirms the payment,
either through a synchronous verify call or through a `charge.success` webhook. It also
lists the documents with aggregate counters.

The model has one module per component:

- `Common`: `Option` and the JSON shapes that cross the network.
- `Catalog`: the offers and the lookup by id.
- `Payment`: the adapter. Its pure parts are functions; the object with its history
  and local storage is a class.
- `Storefront`: `String.prototype.trim`, and the page state as a class with
  `selectedBundle`.
- `Transactions`: the stored document, the store's invariant, and the success update
  that verify and webhook share.
- `Listing`: the newest-first listing, the counters, and the phone filter.
- `Server`: the store as a class over a map from reference to document. Create,
  verify and webhook are its methods.
- `EndToEnd`: lemmas that join the three components.

Money is in pesewas (integer minor units). The catalog prices are 460, 850, 1350 and
2350. Clocks, `Math.random`, the gateway, `fetch` and the page DOM appear only as
method parameters.

What is proved, in brief:

- The store keeps its invariant. Every document sits under its own non-empty
  reference, is in `GHS`, is never `failed`, and is verified exactly when it is
  successful.
- Create adds exactly one document or changes nothing. A duplicate reference fails
  and leaves the single existing document alone.
- Status only moves from `pending` to `success`. The success update touches only the
  matched document, keeps its identity fields, and repeating it changes only
  `updatedAt`.
- The listing is newest first and holds exactly the stored documents. Its counters do
  not depend on order, partition the documents, and never count a failure.
- Validation, the reference format, and the local history behave as payment.js does.
  References drawn at different milliseconds with full-length fragments never
  collide.
- Every checkout the page accepts passes the adapter's validation. The backend then
  stores the purchase with the right fields.

Behaviour the code has that a reader of the handlers might not expect:

- A `charge.success` webhook for a reference the store does not hold is not
  acknowledged, although the handler's comment at server.js:184 says it always
  answers 200. `findOneAndUpdate` returns `null` and the handler reads
  `transaction.phone`, so the answer is 500 (server.js:165-176, 186-189). No
  document is created.
- `verify` with a gateway status of `success` and no matching document answers
  `success: true` with a null transaction (server.js:121-137).
- Create with a missing or empty reference passes the handler's own field check. The
  schema's `required` validator then makes `save()` throw, so the answer is 500
  (server.js:42, 69, 85, 92-98).
- Create accepts any non-zero amount, including negative ones, because the check is
  `!amount`.
- `status` and `paymentVerified` are separate fields, but no handler ever makes them
  disagree: the store invariant proves `paymentVerified <==> status == success`.
- The page's `handlePaymentSuccess` clears the selection and then calls
  `updateBundleDisplay`, which reads a field of `null`. The model records this call as
  the outcome `NullDereference` (index.js:139-142, 85).

## Model

| member | source | states |
|---|---|---|
| Catalog.FindById | index.js:69 | `find` over a list of offers: a result is an element with the requested id, it is the first such element, and there is no result exactly when no element has that id |
| Catalog.Bundle.Snapshot | server.js:44-50 | the stored copy of an offer keeps its id, name, data, price and validity, and drops the icon |
| Catalog.FindBundle | index.js:68-69 | `bundles.find`: a result is a catalog offer with the requested id; no result exactly when no offer has that id |
| Catalog.CatalogWellFormed | index.js:5-38 | four offers, ids 1 to 4 in order and pairwise distinct, every price positive |
| Catalog.FindBundleExactly | index.js:5-38 | the lookup succeeds exactly for ids 1 to 4, and id k yields the k-th offer |
| Catalog.CatalogEntriesPayable | index.js:5-38 | every offer has a truthy (non-zero) id and a positive price |
| Payment.ValidatePaymentData | payment.js:57-74 | true iff the phone has at least 10 characters, the amount is positive, and a bundle with a non-zero id is present |
| Payment.ProcessPayment | payment.js:25-44 | no gateway session exactly when validation fails; otherwise the session carries a generated reference, the request's positive amount and `GHS` |
| Payment.Fragment | payment.js:53 | `substr(2, 9)`: at most nine characters, exactly nine for long enough input, copied from index 2 on |
| Payment.NumeralValue | payment.js:53 | the number a string of decimal digits denotes is never negative |
| Payment.Decimal | payment.js:53 | `String(Date.now())`: non-empty, decimal digits only, no leading zero for a positive number, and it denotes the timestamp (`NumeralValue(Decimal(n)) == n`) |
| Payment.DecimalInjective | payment.js:53 | different timestamps give different numerals, because each numeral denotes its number |
| Payment.GenerateReference | payment.js:52-54 | the reference is `ref_`, then the random fragment, then the timestamp's digits |
| Payment.ReferenceDeterminesParts | payment.js:52-54 | with fragments of equal length, equal references come from the same fragment and the same millisecond |
| Payment.BuildTransaction | payment.js:87-103 | the record takes its reference from the gateway response and its phone and amount from the request, copies the bundle's id, name, data, price and validity, has status `success` and currency `GHS`, and carries the given timestamp |
| Payment.BackendPayload | payment.js:180-185 | the payload is exactly reference, customer phone, amount and bundle of the record |
| Payment.SendResult | payment.js:195-208 | the send resolves to the body iff a body arrived with `success` truthy; otherwise, and on any thrown error, to null |
| Payment.VerifyPayment | payment.js:164-173 | true iff the backend's body has status `success`; false for any other status, a missing status, or a thrown error |
| Payment.History | payment.js:135-144 | the loaded history is the stored list, and empty when nothing is stored or the text does not parse |
| Payment.AfterSave | payment.js:123-132 | saving pushes the record onto the stored list (an absent entry reads as empty); unparsable text is left as it was |
| Payment.SaveAppendsOne | payment.js:123-132 | after a save, the history has one more entry, the new record at the end, and all earlier entries in order |
| Payment.BrowserStorage.constructor | payment.js:123-144 | the storage holds the given `bundleTransactions` entry |
| Payment.PaystackPayment.constructor | payment.js:5-22 | the history is loaded from local storage on construction |
| Payment.PaystackPayment.LoadTransactionHistory | payment.js:135-144 | `transactions` is reassigned to the stored history |
| Payment.PaystackPayment.SaveTransaction | payment.js:123-132 | local storage is updated as `AfterSave` says; the in-memory `transactions` are not |
| Payment.PaystackPayment.HandlePaymentSuccess | payment.js:83-109 | builds the record, saves it locally, and resolves the send of its payload to the backend |
| Storefront.Trim | index.js:108 | `trim()`: the result is a contiguous part of the input with only white space cut from both ends, and it neither starts nor ends with white space |
| Storefront.TrimIdempotent | index.js:108 | trimming twice equals trimming once |
| Storefront.UpdateBundleDisplay | index.js:80-92 | renders the selection, and fails on a null selection |
| Storefront.CheckoutData | index.js:117-121 | the request holds the trimmed phone, the offer's price as amount, and the offer |
| Storefront.AcceptedCheckoutIsValid | index.js:108-121 | every request built from a catalog offer and a trimmed phone of at least 10 characters passes `validatePaymentData` (payment.js:57-74) |
| Storefront.PhoneGuardExamples | index.js:108-114 | "12345" is blocked, "0551234567" passes |
| Storefront.CheckoutPage.constructor | index.js:41 | the page starts with no selection |
| Storefront.CheckoutPage.SelectBundle | index.js:68-78 | the selection becomes the lookup result, so an unknown id clears it; the display is updated only for a found offer |
| Storefront.CheckoutPage.HandleCheckout | index.js:98-127 | blocked iff no offer is selected, or else iff the trimmed phone is shorter than 10; an accepted checkout passes the request to `processPayment`, which validates it and opens a session; the selection is never written |
| Storefront.CheckoutPage.HandlePaymentSuccess | index.js:133-142 | the selection is reset to null, and the display update that follows dereferences null |
| Transactions.ApplySuccess | server.js:123-128 | the update sets status `success`, `paymentVerified`, the gateway payload and `updatedAt`, and keeps reference, phone, bundle, amount, currency and `createdAt` |
| Transactions.MarkPaid | server.js:121-130 | `findOneAndUpdate` without upsert: the same references, only the matched document changed, and no document created |
| Transactions.MarkPaidConsistent | server.js:119-130 | the success update keeps the store's invariant |
| Transactions.MarkPaidMonotone | server.js:165-174 | a successful document stays successful, and no document becomes `failed` |
| Transactions.MarkPaidIdempotent | server.js:165-174 | applying the same update twice equals applying it once, apart from `updatedAt` |
| Server.Admit | server.js:67-98 | 400 iff phone, amount or bundle is falsy (the reference is not checked); otherwise a missing or empty reference fails the schema's `required` validator (server.js:42), a stored reference fails the unique index, and a new non-empty reference is created; each of the four outcomes happens exactly under its condition |
| Server.CreateReply.Code | server.js:69-98 | 201 exactly when the body reports success, 400 exactly for missing fields, 500 exactly for a failed save |
| Server.CreateReply.Json | server.js:86-97 | the body's `success` is true exactly for a created document |
| Server.VerifyReply.Code | server.js:131-153 | 500 exactly when the gateway request threw, which is also exactly when the body has no status; 200 otherwise |
| Server.VerifyReply.Json | server.js:131-152 | the body's `success` is true exactly when the gateway reported success |
| Server.WebhookReply.Code | server.js:184-189 | 200 exactly when the handler finished, 500 exactly when it threw |
| Server.NewRecord | server.js:76-83 | the new document has the given reference, phone, amount and bundle, status `pending`, not verified, currency `GHS`, and both timestamps now |
| Server.NewRecordConsistent | server.js:41-58 | a created document satisfies the store's invariant |
| Server.TransactionStore.constructor | server.js:60 | the store starts empty |
| Server.TransactionStore.Create | server.js:65-100 | on 201 exactly one document is added under a fresh reference; on 400 or 500 the store is unchanged; stored documents are never rewritten |
| Server.TransactionStore.Verify | server.js:103-153 | a gateway `success` applies the success update to the document with that reference only; any other status returns that status verbatim and changes nothing; a gateway error gives 500 and changes nothing |
| Server.TransactionStore.Webhook | server.js:156-190 | only `charge.success` writes; other events are acknowledged with no change; an unknown reference creates nothing and gives 500 |
| Server.TransactionStore.List | server.js:193-211 | the listing is newest first, `total` is the document count, and `failed` is 0 |
| Server.TransactionStore.ByPhone | server.js:249-256 | exactly the stored documents with that phone; over a valid store each of them appears exactly once |
| Listing.Documents | server.js:195 | the collection as a sequence: one entry per stored document, so each document value appears exactly as often as references hold it |
| Listing.DocumentsOnce | server.js:42 | in a consistent store, where each document sits under its own unique reference, every stored document appears exactly once in the collection |
| Listing.SortNewestFirst | server.js:195 | `sort({createdAt: -1})`: descending by `createdAt`, a permutation of the input |
| Listing.WithStatus | server.js:199-203 | the status filter is never longer than its input |
| Listing.WithStatusMembers | server.js:199-203 | the filter keeps exactly the documents with that status |
| Listing.SumAmounts | server.js:202-204 | the `reduce` sum: 0 for no documents, the one amount for one document, never negative when no amount is |
| Listing.ComputeStats | server.js:197-205 | `total` is the number of documents, each status counter is at most `total`, and an empty listing gives all zeros |
| Listing.StatusCountsPartition | server.js:197-201 | successful, pending and failed add up to `total`, so their sum never exceeds it |
| Listing.StatsIgnoreOrder | server.js:195-205 | the counters and revenue depend only on which documents there are, not on their order |
| Listing.RevenueIgnoresUnpaid | server.js:202-204 | a document that is not `success` adds nothing to `totalRevenue` |
| Listing.RevenueCountsPaid | server.js:202-204 | a `success` document adds its amount to `totalRevenue` |
| Listing.StatsExample | server.js:197-205 | two payments of 10 and 5 cedis, one pending and one failed give 4, 2, 1, 1 and 15 cedis |
| Listing.ListTransactions | server.js:195-211 | the reply lists exactly the stored documents, each as often as references hold it, newest first, with counters computed over that list |
| Listing.ListStatsOfConsistentStore | server.js:197-201 | over a consistent store, `total` is the document count, `failed` is 0, and successful plus pending is the total |
| Listing.WithPhone | server.js:251 | the phone filter keeps exactly the documents with that phone, each as many times as the input holds it, drops every other document, and is never longer than its input |
| Listing.TransactionsByPhone | server.js:251 | `find({phone})` returns exactly the documents with that phone, each as often as references hold it, and exactly once each over a consistent store |
| EndToEnd.PaidCheckoutIsStored | server.js:67-85 | a purchase the page accepted never gets 400; with a new non-empty reference it is stored as pending and unverified, with the reported reference, the trimmed phone, the offer's price and a copy of the offer; a stored reference fails as a duplicate |
| EndToEnd.SendSucceedsExactlyWhenCreated | payment.js:197-208 | the adapter's send resolves to a body exactly when the backend answered 201 |
| EndToEnd.ClientVerifyMatchesServer | payment.js:164-168 | the adapter's `verifyPayment` is true exactly when the backend's verify took its success branch |

## Left out

- Express setup, CORS, body parsing, static files, the catch-all route, error
  middleware, `listen`, dotenv and the health check (server.js:1-38, 268-304) are
  transport glue with no state.
- `GET /api/transactions/:id` (server.js:223-246) looks documents up by Mongo's
  opaque `_id`, which the model does not have. The create reply carries the reference
  instead of `_id`. Mongoose connection handling is not modelled either.
- Storage failures of `save()` other than the `required` validator on `reference`
  and the unique index on it are not modelled: an unreachable database, or a write
  error during an update.
- Server.TransactionStore.List: the Mongo sort leaves the order of equal `createdAt`
  values open. The model picks one order because the natural order of the
  collection is unspecified (`Listing.Documents`).
- The Axios call to the gateway, the `fetch` calls to the backend, and the Paystack
  widget (`PaystackPop.setup`, `openIframe`, `onClose`) are foreign calls. Their results
  are method parameters. The model knows a gateway session only by the values it is
  opened with.
- Payment.ProcessPayment: amounts are integer pesewas, so `Math.round(amount * 100)`
  is the identity. The floating-point arithmetic of payment.js is not modelled.
- `formatCurrency`, `toFixed`, `parseFloat`, the alerts, notifications, `setTimeout`,
  DOM rendering and event wiring are display code (index.js:47-62, 145-176;
  payment.js:146-161, 211-214).
- Payment.PaystackPayment.HandlePaymentSuccess: the success alert and the call of the
  page's `window.handlePaymentSuccess` that follow the send are not part of the
  method. That page callback is modelled on its own, as CheckoutPage.HandlePaymentSuccess.
  There it throws on reading a field of `null`, so in the page the adapter's method
  rejects and never reaches its `return transaction`. The model returns the record
  as the code is written.
- The local-storage value is modelled as absent, unparsable, or a list of records.
  JSON that parses to something other than an array is not modelled, and neither is
  a failing `setItem` (quota).
- JavaScript strings are UTF-16, and `length` counts code units. The model counts
  Unicode scalar values, so a phone field holding characters outside the Basic
  Multilingual Plane would measure differently.
- Payment.Decimal: writes every natural number in positional decimal. JavaScript
  switches to exponent notation from 10^21, which no real timestamp reaches.
- Listing.StatusCountsPartition: `status` is a string in the schema (server.js:53),
  narrowed here to the three values its comment names. A stored status outside
  them cannot be represented, so the equality of the three counters with `total`
  rests on that narrowing; over arbitrary strings the code guarantees only that
  their sum is at most `total`.
- Server.VerifyReply.Code: the gateway's `data` is taken to always carry a `status`
  string. An answer without one would give a 200 body with no `status` field
  (server.js:139-143), which the model cannot express.
- A webhook event whose `data` lacks `reference` is not modelled. The gateway always
  sends one.
- The hard-coded public key and e-mail address (payment.js:7, 38) are configuration.

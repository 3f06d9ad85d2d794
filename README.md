# Invoice ledger model

A Dafny model of the invoice-ledger core of an invoice-management REST backend
written in Go. The model covers:

- what the create handler builds;
- how the update handler edits a stored invoice, one step after another;
- the four aggregate buckets of the dashboard.

HTTP, JSON and the database layer are stripped away. Each handler takes the
decoded payload, the stored invoice (for an update) and the current instant.
It yields the record it would hand to the store, or the kind of error it would
answer with.

Modules:

- `Wrappers` (`wrappers.dfy`): `Option`, which stands for the nil-able pointers
  of the update payload, and `Result`.
- `Models` (`models.dfy`): the record types of `models/models.go`, and the
  dashboard. Statuses are `Status`: the six declared constants plus the four
  lower-case strings the update validator admits. Items, histories and the
  customer info are typed values rather than JSON blobs. Each dashboard bucket
  is a recursive count and sum over `seq<Invoice>`.
- `InvoiceRoute` (`invoice_route.dfy`): the two handlers of `api/invoiceRoute.go`.
  - `CreateInvoice` and `UpdateInvoice` are methods. `UpdateInvoice` edits its
    copy of the stored record field by field, in the source's order. Its two
    longer blocks are the methods `EditItems` and `RecordPayment`.
  - `SumItems` is the accumulation loop over the items.
  - Each method is proved equal to a pure function: `Create`, or `Update`.
    `Update` is a chain of step functions, one per block of the handler.
- `InvoiceRouteProperties` (`invoice_route_properties.dfy`): the properties of
  `Create` and `Update`. It also gives `UpdatedFields`, a field-by-field
  reference definition of an accepted update that does not depend on the order
  of the steps. `UpdateReference` proves the handler's step chain equal to it.

Representation choices:

- Money is `real`, so arithmetic is exact. Item quantities are `int`.
- Dates and instants are integers on one time line. A due date is the instant
  its calendar day begins, so "due today" means `dueDate <= now`.
- `now` and the new invoice's identifier are parameters.

Behaviour of the code that may surprise a reader, all modelled as written:

- Nothing validates the sign of item quantities or unit prices. Totals are not
  clamped at zero.
- The item lock never engages. The guard at `api/invoiceRoute.go:319` is a
  disjunction of two negations, so it always holds (`ItemGuardAlwaysTrue`).
  Items and the amount can be edited on a fully paid invoice.
- An item edit recomputes the amount but not the outstanding amount, so the
  outstanding amount can end up above the amount
  (`ItemEditCanLeaveOutstandingAboveAmount`).
- The update validator admits `paid`, `unpaid`, `draft` and `overdue`. None of
  these is a declared constant. So no invoice written only by these handlers is
  ever `DRAFT`, and the dashboard's draft bucket stays empty for such invoices
  (`HandlerInvoicesHaveNoDrafts`). An invoice set directly to `paid` is still
  counted as unpaid (`DirectlyMarkedPaidStaysUnpaid`).
- The discount percentage on an edit is taken in this order: the supplied one,
  else the stored one if it is non-zero, else 0. That is simply "the supplied
  one, else the stored one" (`EffectivePercentageSuppliedOrStored`). The
  discount is applied whenever `is_discount` is supplied, even when it is false.
  The flag and the percentage are stored only when both are supplied, and only
  together with new items.

## Model

| member | source | states |
|---|---|---|
| `InvoiceRoute.SumItems` | api/invoiceRoute.go:164-167 | the accumulation loop returns the sum of quantity × unit price over the items |
| `InvoiceRoute.CreateInvoice` | api/invoiceRoute.go:142-200 | the create handler's logic yields exactly the record or error of `Create` |
| `InvoiceRoute.EditItems` | api/invoiceRoute.go:317-349 | the item/discount block yields exactly the record of the step function `ApplyItems` |
| `InvoiceRoute.RecordPayment` | api/invoiceRoute.go:356-397 | the payment block rejects an overpayment and otherwise yields exactly the record of `ApplyPayment` |
| `InvoiceRoute.UpdateInvoice` | api/invoiceRoute.go:271-408 | the update handler's field-by-field edits yield exactly the record or error of the step chain `Update` |
| `InvoiceRouteProperties.SubtotalNonNegative` | api/invoiceRoute.go:164-167 | items with no negative quantity or price have a non-negative subtotal |
| `InvoiceRouteProperties.DiscountedBounds` | api/invoiceRoute.go:169-171 | taking off p% gives total × (100 − p) / 100; for p in [0, 100] and a non-negative total the result is in [0, total]; 0% keeps the total, 100% gives 0 |
| `InvoiceRouteProperties.CreateOutcome` | api/invoiceRoute.go:129-161 | create fails with a validation error exactly when the percentage is outside [0, 100]; otherwise with an invalid-due-date error exactly when the due date is not after now; otherwise it succeeds |
| `InvoiceRouteProperties.CreatedInvoice` | api/invoiceRoute.go:163-200 | a created invoice has the subtotal as its amount, discounted when the flag is set; status CREATED; outstanding equal to amount; a one-entry CREATED history dated now; no payments; no reminders; the payload's items, customer info and discount inputs |
| `InvoiceRouteProperties.CreatedAmountBounds` | api/invoiceRoute.go:164-171 | with no negative item, a new invoice's amount lies between 0 and its subtotal |
| `InvoiceRouteProperties.CreateScenario` | api/invoiceRoute.go:163-200 | two items at 50 with no discount give amount 100, outstanding 100, status CREATED and history [CREATED] |
| `InvoiceRouteProperties.CreateDueDateBoundary` | api/invoiceRoute.go:152-161 | with a valid payload, a due date at or before now is rejected and any due date after now is accepted |
| `InvoiceRouteProperties.AdmittedStatusText` | api/invoiceRoute.go:30 | the validator admits a status exactly when its string is one of paid, unpaid, draft, overdue; no admitted status is one of the six declared constants |
| `InvoiceRouteProperties.UpdateReference` | api/invoiceRoute.go:247-410 | an update fails, in order, on an invalid payload, a missing invoice, a changed due date not after now, or a payment above a positive outstanding amount; otherwise it persists exactly the field-by-field record `UpdatedFields` |
| `InvoiceRouteProperties.UpdateErrors` | api/invoiceRoute.go:247-367 | each of the four update errors happens exactly under its own condition, stated on the stored record |
| `InvoiceRouteProperties.UnchangedDueDateNotRechecked` | api/invoiceRoute.go:271-294 | supplying the stored due date (equal as an instant) is the same as not supplying one, even when that date has passed |
| `InvoiceRouteProperties.NoChangesIsIdentity` | api/invoiceRoute.go:271-408 | an update with no field set returns the stored invoice unchanged |
| `InvoiceRouteProperties.DescriptionAndAmountIgnored` | api/invoiceRoute.go:26-39 | the payload's description and amount never change the outcome, beyond the validator's check that the amount is positive |
| `InvoiceRouteProperties.UpdateFrame` | api/invoiceRoute.go:271-408 | after an accepted update, the identifier, description, creator and reminders are unchanged; every absent optional field keeps its stored value; a present one takes the supplied value |
| `InvoiceRouteProperties.ItemGuardAlwaysTrue` | api/invoiceRoute.go:319 | the item-edit guard holds for every status |
| `InvoiceRouteProperties.EffectivePercentageSuppliedOrStored` | api/invoiceRoute.go:326-339 | the percentage fallback chain equals "supplied, else stored" |
| `InvoiceRouteProperties.ItemEditInAnyStatus` | api/invoiceRoute.go:317-349 | new items replace the stored ones and recompute the amount in any status; the discount is taken off when the flag is supplied, true or false; flag and percentage are stored only when both are supplied; the outstanding amount moves only by a payment |
| `InvoiceRouteProperties.ItemEditCanLeaveOutstandingAboveAmount` | api/invoiceRoute.go:317-349 | on an invoice with amount and outstanding 100, new items worth 10 give amount 10 and leave outstanding at 100, even when fully paid |
| `InvoiceRouteProperties.DirectStatusChange` | api/invoiceRoute.go:295-315 | without an applicable payment, the supplied status becomes the status; one history entry is appended exactly when it differs from the stored status |
| `InvoiceRouteProperties.AcceptedPayment` | api/invoiceRoute.go:356-397 | an accepted payment lowers the outstanding amount by exactly the paid amount, into [0, old); it appends one payment record whose balance is the new outstanding amount; status becomes FULL_PAYMENT at 0, else PARTIAL_PAYMENT; a matching history entry follows any direct-status entry |
| `InvoiceRouteProperties.PaymentStatusOverridesDirectStatus` | api/invoiceRoute.go:387-395 | with a direct status change and a payment in one call, the payment-derived status wins; both entries are logged, direct first |
| `InvoiceRouteProperties.PaymentIgnoredWhenNothingOutstanding` | api/invoiceRoute.go:356 | when nothing is outstanding, a supplied payment has no effect at all, not even an overpayment check |
| `InvoiceRouteProperties.OutstandingNeverIncreases` | api/invoiceRoute.go:356-372 | an accepted update never raises the outstanding amount; it lowers it exactly when a payment applies; it never takes a non-negative balance below 0 |
| `InvoiceRouteProperties.PaymentScenarios` | api/invoiceRoute.go:356-397 | against 90 outstanding: paying 90 gives 0, FULL_PAYMENT and a record with balance 0; paying 50 gives 40 and PARTIAL_PAYMENT; paying 100 is an overpayment error |
| `InvoiceRouteProperties.SequentialPaymentsSettle` | api/invoiceRoute.go:356-397 | positive payments that add up to exactly the outstanding amount are all accepted in turn; they end at 0 and FULL_PAYMENT, with one payment record and one history entry per payment |
| `InvoiceRouteProperties.InvoiceHistoryGrowth` | api/invoiceRoute.go:295-395 | an accepted update appends to the invoice history exactly the direct-status entry (if the status changed) and the payment entry (if a payment applied) |
| `InvoiceRouteProperties.HistoriesAppendOnly` | api/invoiceRoute.go:305-395 | both histories keep their old entries as a prefix; they grow by at most two status entries and one payment record per update |
| `InvoiceRouteProperties.BalancesDecrease` | api/invoiceRoute.go:368-373 | in a consistent payment ledger, recorded balances strictly decrease from one payment to the next |
| `InvoiceRouteProperties.CreateEstablishesInvariant` | api/invoiceRoute.go:178-200 | a created invoice satisfies the ledger invariant: the history starts with CREATED and is chronological, and the payment ledger is consistent |
| `InvoiceRouteProperties.UpdatePreservesInvariant` | api/invoiceRoute.go:271-408 | an accepted update at a later instant keeps the ledger invariant |
| `InvoiceRouteProperties.UpdateKeepsHandlerStatus` | api/invoiceRoute.go:295-395 | an update keeps an invoice's status among CREATED, the four validator values and the two payment statuses |
| `InvoiceRouteProperties.HandlerInvoicesHaveNoDrafts` | api/invoiceRoute.go:30 | invoices with such statuses give a dashboard whose draft count and draft sum are 0 |
| `InvoiceRouteProperties.DirectlyMarkedPaidStaysUnpaid` | api/invoiceRoute.go:295-315 | an invoice directly set to "paid" is in the unpaid bucket and not in the paid one |
| `Models.BucketCount` | models/models.go:166-199 | a bucket never counts more invoices than there are |
| `Models.BucketCountIsSelection` | models/models.go:166-199 | each bucket's count is the number of invoices its WHERE predicate selects |
| `Models.PaidAndUnpaidPartition` | models/models.go:166-199 | paid count + unpaid count = number of invoices; paid sum + unpaid sum = total amount |
| `Models.SubBucketsBoundedByUnpaid` | models/models.go:176-199 | the overdue and draft buckets never exceed the unpaid one in count, nor in sum when no amount is negative |
| `Models.DashboardIgnoresOutstanding` | models/models.go:166-199 | the dashboard depends only on status, due date and amount, never on outstanding amounts or histories |
| `Models.NoDraftsEmptyDraftBucket` | models/models.go:186-189 | with no DRAFT invoice, the draft count and sum are 0 |
| `Models.DashboardRelations` | models/models.go:161-206 | the dashboard's paid and unpaid counts add to the number of invoices; its sums add to the total amount; overdue and draft are bounded by unpaid |
| `Models.BucketsOverlap` | models/models.go:176-199 | an overdue DRAFT invoice counts as overdue, draft and unpaid at once, and not as paid |
| `Models.PartlyPaidCountsInFull` | models/models.go:196-199 | a partly paid invoice adds its whole amount, not its outstanding amount, to the unpaid sum |

## Left out

- HTTP plumbing is left out: reading the body, JSON decoding and encoding, `uuid.Parse` of the path parameter, and response status codes and messages. Errors are modelled by kind only.
- The validator library is not modelled as such. Its numeric and `oneof` constraints are modelled as the `ValidationError` path. Its `required`, `dive` and `datetime` checks belong to decoding and are not modelled: due dates arrive already parsed.
- The database layer is left out: `Init`, `GetInvoices`, the GORM calls in `models.CreateInvoice` and `models.UpdateInvoice`, and the `uuid.New` and `gorm.Model` columns. The lookup by identifier is the `stored: Option<Invoice>` argument, and the new identifier is a parameter. The returned record is taken to be what the store persists.
- The column-skipping behaviour of GORM's `Updates(struct)` for zero values is library behaviour and is not modelled. Neither is a store failure after the logic has run.
- `GetInvoices` and `GetInvoiceByInvoiceId` (api/invoiceRoute.go:42-115) are left out: they parse query strings and pass them to the store, with no ledger logic.
- `float64` arithmetic and its rounding are left out. Money is exact, so the `== 0` test at api/invoiceRoute.go:377 is exact.
- The third, empty status of api/invoiceRoute.go:376-381 (a negative balance after a payment) is left out. It cannot happen: the payment is at most the outstanding amount (`AcceptedPayment`).
- Wall-clock time is left out. Every `time.Now()` of one request is the single `now` parameter.
- Due-date comparison is simplified. At api/invoiceRoute.go:274 the source compares the stored and the supplied due date with Go's `!=` on `time.Time`. That operator also compares the location and the monotonic reading. A date read back from the store usually carries a different location from the UTC value `time.Parse` returns, so resending the stored date can count as a change and be re-checked against now. The model compares instants only.
- UnchangedDueDateNotRechecked: holds under instant equality. It does not capture the representation-sensitive `!=` of api/invoiceRoute.go:274.
- An SQL `SUM` over no rows is NULL; the model takes it as 0.
- Reminders are accepted by the create payload but never stored, so a new invoice has none.
- Concurrent updates of one invoice (read-modify-write races) are not modelled. Each call works on its own snapshot.
- `cmd/main.go`, `models/randomUserPlaceholder.go` and `api/senderRoute.go` hold wiring, placeholder data and serialisation only. They are not part of this model.

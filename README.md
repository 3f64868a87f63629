# POSNext core in Dafny

This project models the bookkeeping core of POSNext, a point-of-sale system
for ERPNext. It covers the browser client (a Vue/Pinia application) and the
business rules of the Frappe backend. Money is `real`, dates and timestamps
are `int`, and database tables, network answers and clock readings are maps
or parameters.

Each source file becomes one or two modules. A `...Model` module holds the
data, the operations as functions of the state, and the lemmas about them.
A second module holds the stateful form the source has: a class whose
fields the source updates in place, or methods with the source's loops.
Each method's `ensures` ties the new state or result to the model function.

- **Invoice engine** (`useInvoice.js`): `InvoiceModel`, `InvoiceLemmas`, class `Invoice.Invoice`.
  Line pricing under inclusive and exclusive tax, totals kept by deltas, and
  the rebuild they must match after every mutator.
- **Cart store** (`posCart.js`): `PosCartModel`, `PosCartLemmas`, class `PosCart.Cart`.
  The server-discount pass, the unit switch, the offer payload and the offer flags.
- **Stock reconciliation**: `stock.js` (`StockModel`, class `Stock.StockStore`),
  `itemSearch.js` (`ItemSearchModel`, class `ItemSearch.ItemSearchStore`) and
  `useRealtimeStock.js` (`RealtimeStockModel`, class `RealtimeStock.Listener`).
- **Offline layer**: `sync.js` (`OfflineSyncModel`, `OfflineSync`),
  `offline.worker.js` (`OfflineWorkerModel`, `OfflineWorker`), `db.js`
  (`OfflineDbModel`, `OfflineDb`), `cache.js` (`OfflineCacheModel`,
  `OfflineCache`), `items.js` (`OfflineItemsModel`, `OfflineItems`) and
  `workerClient.js` (`WorkerClientModel`, `WorkerClient`).
- **Client helpers**: `csrf.js` (`CsrfModel`, `Csrf`), `posSettings.js`
  (`PosSettingsModel`, `PosSettings`) and `useFormatters.js` (`FormattersModel`).
- **Backend rules**:
  - coupons: `pos_coupon.py` (`CouponModel`, `Coupons`)
  - offers: `offers.py` (`OffersModel`, `Offers`)
  - promotions: `promotions.py` (`PromotionsModel`, `Promotions`)
  - referrals: `referral_code.py` (`ReferralModel`, `Referrals`)
  - invoices: `invoices.py` (`InvoicesApiModel`, `InvoicesApi`)
  - partial payments: `partial_payments.py` (`PartialPaymentsModel`, `PartialPayments`)
  - credit sales: `credit_sales.py` (`CreditSalesModel`, `CreditSales`)
  - items: `items.py` (`ItemApiModel`, `ItemApi`)
  - realtime events: `realtime_events.py` (`RealtimeEventsModel`, `RealtimeEvents`)
  - shifts: `shifts.py` (`ShiftsModel`, `Shifts`)
  - promotion clean-up: `cleanup_expired_promotions.py` (`CleanupModel`, `Cleanup`)
  - settings doctype: `pos_settings.py` (`ServerSettingsModel`, `ServerSettings`)
  - item validation and query: `validations.py` (`ItemValidationModel`, `ItemValidation`)

`Common` holds shared pieces:
- `Option`/`Result`
- JavaScript's `||` and `??` on values
- an insertion-ordered map (`JsMap`) for JavaScript's `Map`
- ASCII-only case and string helpers (see "## Left out")

## Behaviour of the code worth knowing

The model follows the code in each case.

- Offline queue quarantine. `sync.js` (lines 112-123) tests the retry count
  read before the increment (`>= 3`), so `sync_failed` is set on the 4th
  failure, not the 3rd. Read as the filter `synced === false`, the pending
  queries would keep returning a quarantined entry, so every later drain
  would submit it again (`OfflineSyncModel.FailedStillPending`). As written
  those queries reject, because a boolean is not an IndexedDB key (see
  "## Findings").
- `reapplyOffer` in `posCart.js`. On an empty cart it returns before resetting
  `suppressOfferReapply`, so the flag stays set.
- Server discounts in `applyServerDiscounts`. They are matched to cart lines by
  `item_code` alone. When the server returns two rows for one code, the last
  row wins.
- The worker's `saveOfflineInvoice` (`offline.worker.js`) queues the invoice
  but does not touch local stock, while `sync.js`'s `saveOfflineInvoice`
  also deducts the sold quantities from local stock.
- Latest opening shift (`shifts.py`). The lookup orders by start date, and the
  order among equal dates is unspecified. The model takes the first such shift
  in table order.
- `check_opening_shift` (`shifts.py`). It reports the company of the shift's own
  POS profile. That company can differ from the `company` argument that
  `create_opening_shift` was given.

## Model

| member | source | states |
|---|---|---|
| `OfflineCacheModel.NeedsRefreshFacts` | POS/src/utils/offline/cache.js:227-233 | a refresh is due when there was never a sync; once due it stays due as time passes; after a sync at a non-zero time it is due exactly when more than one day has passed |
| `OfflineCacheModel.InitFacts` | POS/src/utils/offline/cache.js:31-63 | init succeeds iff counting the tables does not throw; a stored version equal to the current one leaves the database and the cached lists alone; a different one clears the cache (tables and memory empty when the clear succeeds) and stores the current version; the invoice queue is never touched; memory mirrors each of the five metadata settings (items and customers last sync, cache and stock-cache ready, manual offline), taking its default (null or false) when the setting is missing or its read fails |
| `OfflineCacheModel.InitIdempotent` | POS/src/utils/offline/cache.js:31-63 | a second init under the same read failures leaves the state the first one produced |
| `OfflineCacheModel.ManualOfflineFacts` | POS/src/utils/offline/cache.js:81-90 | setting manual offline stores the boolean coercion in memory and in settings and is idempotent; toggling returns the negation of the old flag and touches nothing else; two toggles restore a state whose flag is a boolean matching the stored one |
| `OfflineCacheModel.SearchCachedItemsFacts` | POS/src/utils/offline/cache.js:159-180 | at most `limit` rows (50 by default), all from the table; without a term, the first rows; with a term, only rows whose code or name starts with the lower-cased term ignoring case or whose barcode equals it, and all of them when they fit the limit; a failing query returns nothing |
| `OfflineCacheModel.SummaryQueueFacts` | POS/src/utils/offline/cache.js:271-300 | the queued-invoice count goes up by one exactly when an unsynced invoice is queued, is not changed by clearing the cache, and never exceeds the queue length |
| `OfflineCacheModel.ClearAllFacts` | POS/src/utils/offline/cache.js:236-268 | clearing never touches the invoice queue, the manual-offline flag or the version; on success the four tables and the cached memory are empty, a refresh is due, nothing is ready, the last sync reads "Never", the four reset settings are written and every other setting is kept; a failing `clear()` leaves memory and settings unchanged and stops at the failing table |
| `OfflineCache.MemoryCache.constructor` | POS/src/utils/offline/cache.js:7-28 | memory starts empty, not ready, online and at the current cache version |
| `OfflineCache.MemoryCache.ClearTables` | POS/src/utils/offline/cache.js:241-244 | the four `clear()` calls run in order, a throwing one stops the rest, and the result is false iff one of them threw |
| `OfflineCache.MemoryCache.ResetMemoryFields` | POS/src/utils/offline/cache.js:247-254 | memory is reset to empty lists and maps, no sync time and nothing ready |
| `OfflineCache.MemoryCache.ClearAllCache` | POS/src/utils/offline/cache.js:236-268 | the new state and the result are those of the clear-all rule |
| `OfflineCache.MemoryCache.CheckVersion` | POS/src/utils/offline/cache.js:36-42 | a stored version different from the current one clears the cache and stores the current version; otherwise nothing changes |
| `OfflineCache.MemoryCache.LoadMetadata` | POS/src/utils/offline/cache.js:45-49 | the five metadata fields are read from the settings table, with their defaults when missing or unreadable |
| `OfflineCache.MemoryCache.InitMemoryCache` | POS/src/utils/offline/cache.js:31-63 | the new state and the result are those of the init rule |
| `OfflineCache.MemoryCache.SetManualOffline` | POS/src/utils/offline/cache.js:81-84 | the new state is the manual-offline rule applied to the argument |
| `OfflineCache.MemoryCache.ToggleManualOffline` | POS/src/utils/offline/cache.js:87-90 | the new state and the returned flag are those of the toggle rule |
| `CleanupModel.SweepFacts` | pos_next/tasks/cleanup_expired_promotions.py:40-63 | exactly the expired enabled rows whose update succeeds are disabled, nothing else changes, the count is the number of those rows and there is one error per failed row |
| `CleanupModel.SweepLeavesOnlyFailures` | pos_next/tasks/cleanup_expired_promotions.py:19-63 | after a sweep the only expired rows left enabled are those whose update failed, so a sweep that fails nowhere leaves nothing for the next one |
| `CleanupModel.SweepUntouched` | pos_next/tasks/cleanup_expired_promotions.py:43-63 | a sweep over rows none of which is expired changes nothing and counts nothing |
| `CleanupModel.DisableExpiredFacts` | pos_next/tasks/cleanup_expired_promotions.py:11-90 | a failed query reports failure without a count and changes nothing; otherwise the call succeeds and reports as disabled exactly the rows it disables |
| `CleanupModel.CleanupFacts` | pos_next/tasks/cleanup_expired_promotions.py:184-212 | the total is the number of pricing rules plus the number of schemes actually disabled; a missing scheme table or a failed query contributes nothing and leaves its table as it was |
| `CleanupModel.DisabledEmpty` | pos_next/tasks/cleanup_expired_promotions.py:32-38 | with nothing expired nothing is disabled (see also lines 123-129) |
| `Cleanup.SweepRows` | pos_next/tasks/cleanup_expired_promotions.py:43-63 | the loop produces exactly the specified sweep (see also lines 134-154) |
| `Cleanup.PromotionTables.constructor` | pos_next/tasks/cleanup_expired_promotions.py:11-16 | the tables start as given |
| `Cleanup.PromotionTables.DisableExpiredPricingRules` | pos_next/tasks/cleanup_expired_promotions.py:11-90 | the pricing rules and the report are those the functional model gives; the scheme table is untouched |
| `Cleanup.PromotionTables.DisableExpiredPromotionalSchemes` | pos_next/tasks/cleanup_expired_promotions.py:93-181 | the schemes and the report are those the functional model gives, skipped when the table is missing; the pricing rules are untouched |
| `Cleanup.PromotionTables.CleanupExpiredPromotions` | pos_next/tasks/cleanup_expired_promotions.py:184-212 | the tables and the report are those of both sweeps in turn |
| `CouponModel.StripLeft` | pos_next/pos_next/doctype/pos_coupon/pos_coupon.py:14 | removes exactly the leading whitespace: the rest is a suffix that does not start with a space |
| `CouponModel.StripRight` | pos_next/pos_next/doctype/pos_coupon/pos_coupon.py:14 | removes exactly the trailing whitespace: the rest is a prefix that does not end with a space |
| `CouponModel.StripFacts` | pos_next/pos_next/doctype/pos_coupon/pos_coupon.py:14 | a stripped name neither starts nor ends with whitespace, stripping is idempotent, and a name without surrounding whitespace is unchanged |
| `CouponModel.NonDigits` | pos_next/pos_next/doctype/pos_coupon/pos_coupon.py:19 | keeps only the characters that are not digits, in order |
| `CouponModel.PromotionalCode` | pos_next/pos_next/doctype/pos_coupon/pos_coupon.py:19 | a derived promotional code has at most 8 characters and no digit |
| `CouponModel.AutonameFacts` | pos_next/pos_next/doctype/pos_coupon/pos_coupon.py:13-21 | the name is the stripped coupon name and only the name and code change; a given code is kept; a missing Promotional code is at most 8 non-digit characters of the name (exactly 8 when the name has that many); a missing Gift Card code is 10 upper-case characters of the hash; any other type keeps an empty code |
| `CouponModel.ValidateFacts` | pos_next/pos_next/doctype/pos_coupon/pos_coupon.py:23-56 | validation accepts exactly the coupons that are well formed once a Gift Card's maximum use is forced to 1 (Gift Card with a customer, a discount type, a percentage in (0, 100], a positive amount, non-negative minimum and maximum, ordered dates) and changes nothing else |
| `CouponModel.InsertFacts` | pos_next/pos_next/doctype/pos_coupon/pos_coupon.py:13-56 | a coupon that is named and validated successfully is the named document with a Gift Card's maximum use forced to 1, and is well formed |
| `CouponModel.CheckCouponCodeFacts` | pos_next/pos_next/doctype/pos_coupon/pos_coupon.py:60-118 | the check is valid exactly for a stored coupon (looked up by the upper-cased code) that is enabled, within its dates, not used up, of the company, owned by the customer when it is a Gift Card, and not already used by the customer when it is one-use; then it returns the coupon and no message, otherwise a message and no coupon; an unknown code gives "does not exist" |
| `CouponModel.ApplyCouponDiscountFacts` | pos_next/pos_next/doctype/pos_coupon/pos_coupon.py:121-157 | the result is invalid with discount 0 exactly when the base is below a set minimum; otherwise the discount is the raw percentage or amount capped by the maximum and by the base, equal to the raw one when no cap applies; for non-negative inputs it lies between 0 and the base |
| `CouponModel.DiscountBaseFacts` | pos_next/pos_next/doctype/pos_coupon/pos_coupon.py:126 | the base is the cart total when applied on the grand total, else the net total when it is set and non-zero, else the cart total |
| `CouponModel.UsageFacts` | pos_next/pos_next/doctype/pos_coupon/pos_coupon.py:160-186 | incrementing adds one to the coupon's use count; decrementing subtracts one only from a positive count, so it never goes negative; a decrement undoes an increment; other coupons and the set of codes never change |
| `Coupons.CouponDocument.constructor` | pos_next/pos_next/doctype/pos_coupon/pos_coupon.py:12 | the document starts unnamed with the given fields |
| `Coupons.CouponDocument.Autoname` | pos_next/pos_next/doctype/pos_coupon/pos_coupon.py:13-21 | the new name and document are those of the autoname rule |
| `Coupons.CouponDocument.Validate` | pos_next/pos_next/doctype/pos_coupon/pos_coupon.py:23-56 | the result is that of the validate rule; a Gift Card's maximum use is forced to 1 even when validation then throws; on success the document is well formed |
| `Coupons.CouponTable.constructor` | pos_next/pos_next/doctype/pos_coupon/pos_coupon.py:60 | the table starts with the given coupons |
| `Coupons.CouponTable.IncrementUsage` | pos_next/pos_next/doctype/pos_coupon/pos_coupon.py:160-171 | the new table is that of the increment rule |
| `Coupons.CouponTable.DecrementUsage` | pos_next/pos_next/doctype/pos_coupon/pos_coupon.py:174-186 | the new table is that of the decrement rule |
| `CreditSalesModel.BalanceConcat` | pos_next/api/credit_sales.py:33-53 | the balance of two ledgers together is the sum of their balances |
| `CreditSalesModel.BalanceIgnores` | pos_next/api/credit_sales.py:33-53 | rows of other parties, cancelled rows and (when a company is given) other companies leave the balance at 0 |
| `CreditSalesModel.CustomerBalanceRefusals` | pos_next/api/credit_sales.py:18-55 | the balance is refused exactly for a missing customer, and an empty ledger has balance 0 |
| `CreditSalesModel.InvoiceSourcesFacts` | pos_next/api/credit_sales.py:123-150 | the invoice sources are exactly the credits of the rows with a negative outstanding amount |
| `CreditSalesModel.AdvanceSourcesFacts` | pos_next/api/credit_sales.py:153-164 | the advance sources are exactly the credits of the advance rows |
| `CreditSalesModel.AvailableCreditRefusals` | pos_next/api/credit_sales.py:58-106 | credit is refused exactly for a missing customer or company, or a given POS profile whose settings do not enable credit sales |
| `CreditSalesModel.AvailableCreditFacts` | pos_next/api/credit_sales.py:108-166 | the sources are exactly one Invoice source per submitted invoice of the customer and company with negative outstanding, and one Advance source per submitted receipt with an unallocated amount; each has positive credit and nothing to redeem yet |
| `CreditSalesModel.AllocationJournalFacts` | pos_next/api/credit_sales.py:232-300 | the allocation entry has exactly two rows, is balanced at the amount, debits the original invoice's receivable and credits the new invoice's, both for the new invoice's customer, and carries the redemption remark |
| `CreditSalesModel.AdvanceShortRefused` | pos_next/api/credit_sales.py:303-325 | an advance allocation fails exactly when the advance has less unallocated than the amount |
| `CreditSalesModel.RedeemRefusals` | pos_next/api/credit_sales.py:187-197 | without an invoice name redemption fails; an empty list redeems nothing and changes nothing; otherwise the invoice must exist and be submitted |
| `CreditSalesModel.StepFacts` | pos_next/api/credit_sales.py:202-227 | a processed row yields one name, a journal entry for an Invoice row and the payment entry for an Advance row; journal entries are only appended, each a cancellation target of the invoice |
| `CreditSalesModel.RedeemRowsFacts` | pos_next/api/credit_sales.py:202-229 | a successful redemption returns one name per processed row in order, keeps the earlier journal entries, and every new one is a cancellation target of the invoice |
| `CreditSalesModel.RedeemRowsErrPersists` | pos_next/api/credit_sales.py:202-229 | the first error of the loop is its result, whatever rows follow |
| `CreditSalesModel.CancelJournals` | pos_next/api/credit_sales.py:357-405 | cancellation keeps the number of journal entries |
| `CreditSalesModel.CancelJournalsFacts` | pos_next/api/credit_sales.py:366-403 | only submitted entries with the invoice's remark that reference the invoice are cancelled (unless their cancel fails), and only their docstatus changes |
| `CreditSalesModel.CancelCountFacts` | pos_next/api/credit_sales.py:377-405 | the returned count is the number of entries the call cancelled |
| `CreditSalesModel.RedeemThenCancel` | pos_next/api/credit_sales.py:170-229 | cancelling an invoice's redemption, with no failing cancel, cancels every journal entry the redemption created (see also lines 357-405) |
| `CreditSales.GetAvailableCredit` | pos_next/api/credit_sales.py:83-166 | the method returns exactly the specified credit sources or refusal |
| `CreditSales.InvoiceCreditLoop` | pos_next/api/credit_sales.py:123-150 | the first loop produces exactly the invoice sources |
| `CreditSales.AdvanceCreditLoop` | pos_next/api/credit_sales.py:153-164 | the second loop produces exactly the advance sources |
| `CreditSales.Ledger.constructor` | pos_next/api/credit_sales.py:170 | the ledger starts with the given books |
| `CreditSales.Ledger.RedeemCustomerCredit` | pos_next/api/credit_sales.py:170-229 | the outcome is the one the functional model gives; on success the books take the new state, and an error rolls them back |
| `CreditSales.Ledger.CancelCreditJournalEntries` | pos_next/api/credit_sales.py:357-405 | the journal entries become their cancelled form, advances are untouched, and the count is the number cancelled |
| `CsrfModel.IndexOf` | POS/src/utils/csrf.js:10 | a position found is one where the searched text occurs |
| `CsrfModel.IndexOfFirst` | POS/src/utils/csrf.js:10 | no occurrence starts before the position found, and none at all when nothing is found |
| `CsrfModel.Split` | POS/src/utils/csrf.js:10-12 | splitting on a non-empty separator yields at least one part |
| `CsrfModel.FirstSegment` | POS/src/utils/csrf.js:12 | the text before the first `;` holds no `;` |
| `CsrfModel.ReadCookieValue` | POS/src/utils/csrf.js:8-15 | a value read from the cookie is non-empty and holds no `;` |
| `CsrfModel.ReadCookieRoundTrip` | POS/src/utils/csrf.js:8-15 | a cookie string holding only `name=v` reads back as `v` for any non-empty `v` without `;` |
| `CsrfModel.ReadCookieDuplicate` | POS/src/utils/csrf.js:10-14 | a cookie named twice reads as `null` |
| `CsrfModel.NormalizeIdempotent` | POS/src/utils/csrf.js:17-22 | normalising twice equals normalising once, and a normalised token is a truthy string other than the placeholder |
| `CsrfModel.MentionAnywhere` | POS/src/utils/csrf.js:150 | a message containing "csrf" in any letter case at any position mentions CSRF |
| `CsrfModel.IsCsrfApiErrorFacts` | POS/src/utils/csrf.js:141-161 | no error is not a CSRF error; `exc_type` "CSRFTokenError" is one; a message or any string among `messages` containing "csrf" in any case is one; an error with none of these is not |
| `CsrfModel.CsrfAwareFacts` | POS/src/utils/csrf.js:163-189 | the original request runs once or twice; twice exactly when the first run threw a CSRF error and the forced refresh succeeded, and then the second outcome is the result; otherwise the first outcome, error included, is passed on unchanged |
| `CsrfModel.TokenSetFacts` | POS/src/utils/csrf.js:24-39 | a falsy token changes nothing and returns `null`; otherwise it becomes both the global and the last known token, is returned, and is logged exactly when it differs from the last known one; setting the same token again changes nothing |
| `CsrfModel.EnsuredFacts` | POS/src/utils/csrf.js:76-88 | without forcing, a usable cookie token settles true at once with no request; otherwise a refresh in flight is joined without changing anything; only a new refresh sends a request; at most one request is sent per call |
| `CsrfModel.SingleFlight` | POS/src/utils/csrf.js:84-88 | two calls before the first refresh ends send at most one request |
| `CsrfModel.FinishedFacts` | POS/src/utils/csrf.js:88-132 | the refresh always clears the shared promise; a 401, a 403 or a throwing request yields false and changes no token; otherwise it yields true iff a usable token arrives by cookie or else in the body, which is then installed |
| `Csrf.CsrfClient.constructor` | POS/src/utils/csrf.js:5-6 | no refresh in flight, no last known token, no requests sent |
| `Csrf.CsrfClient.SetGlobalToken` | POS/src/utils/csrf.js:24-39 | the new state and the result are those of the set-token rule |
| `Csrf.CsrfClient.GetCSRFTokenFromCookie` | POS/src/utils/csrf.js:41-47 | the returned token is the normalised cookie value, installed when usable |
| `Csrf.CsrfClient.EnsureCSRFToken` | POS/src/utils/csrf.js:76-88 | the new state and the step taken are those of the ensure rule |
| `Csrf.CsrfClient.FinishRefresh` | POS/src/utils/csrf.js:88-132 | the new state and the result are those of the refresh-end rule |
| `FormattersModel.RoundScaledNearest` | POS/src/composables/useFormatters.js:13 | `toFixed(d)` renders the integer nearest to the magnitude times 10^d, the larger one on a tie (see also lines 26, 70) |
| `FormattersModel.ToFixedFacts` | POS/src/composables/useFormatters.js:13 | `toFixed(d)` writes a non-empty integer part without a leading zero (unless it is "0") and exactly `d` fraction digits, which together spell the rounded magnitude (see also lines 26, 70) |
| `FormattersModel.IntegerToFixed` | POS/src/composables/useFormatters.js:13 | a whole number renders as its digits, then a point and `d` zeros when `d` is positive (see also lines 26, 70) |
| `FormattersModel.TrailingZeros` | POS/src/composables/useFormatters.js:26 | counts exactly the `0` characters ending a string (see also line 70) |
| `FormattersModel.StripIsLeftmostMatch` | POS/src/composables/useFormatters.js:26 | the strip keeps a prefix of its input and cuts at the leftmost position where `\.?0+$` matches, or nowhere when it matches nowhere (see also line 70) |
| `FormattersModel.StripFraction` | POS/src/composables/useFormatters.js:26 | on a number with a point the strip removes the fraction's trailing zeros, and the point too when the fraction is all zeros; the integer part is never touched (see also line 70) |
| `FormattersModel.StripDigits` | POS/src/composables/useFormatters.js:70 | on a string of digits with no point the strip removes every trailing zero |
| `FormattersModel.FormatCurrencyFacts` | POS/src/composables/useFormatters.js:11-14 | a missing amount gives "0.00"; otherwise the sign, integer digits, a point and exactly two digits, which spell the amount rounded to cents |
| `FormattersModel.FormatQuantityFacts` | POS/src/composables/useFormatters.js:22-27 | a quantity keeps its sign and every integer digit; only the two-digit fraction's trailing zeros are dropped, and the point too when the fraction is zero |
| `FormattersModel.FormatWholeQuantity` | POS/src/composables/useFormatters.js:22-27 | a whole non-negative quantity prints as its digits without a point (100 gives "100", 0 gives "0") |
| `FormattersModel.FormatNegativeWholeQuantity` | POS/src/composables/useFormatters.js:22-27 | a negative whole quantity prints as a minus sign and its digits |
| `FormattersModel.FormatQuantityExamples` | POS/src/composables/useFormatters.js:22-27 | a missing quantity gives "0", NaN gives "NaN", 2 gives "2" |
| `FormattersModel.FormatQuantityHalf` | POS/src/composables/useFormatters.js:22-27 | 1.5 gives "1.5" |
| `FormattersModel.PercentageZeroDecimalsAsWritten` | POS/src/composables/useFormatters.js:68-71 | as written, with 0 decimals a whole percentage loses its own trailing zeros |
| `FormattersModel.PercentageDropsZerosAsWritten` | POS/src/composables/useFormatters.js:68-71 | as written, `m * 10^k` with 0 decimals prints as `m` followed by "%" |
| `FormattersModel.PercentageHundredAsWritten` | POS/src/composables/useFormatters.js:68-71 | as written, `formatPercentage(100, 0)` gives "1%" |
| `FormattersModel.PercentageCorrectedFacts` | POS/src/composables/useFormatters.js:68-71 | the corrected formatter prints a whole percentage as its own digits for any number of decimals, gives "0%" for a missing value, and agrees with the original whenever there are decimals or the value is not a number |
| `InvoiceModel.RemoveAt` | POS/src/composables/useInvoice.js:531 | splice(i, 1) inside the list drops exactly element i and keeps the order of the rest |
| `InvoiceModel.FindLine` | POS/src/composables/useInvoice.js:142-144 | finds the first line with the item code, or reports that no line has it |
| `InvoiceModel.Without` | POS/src/composables/useInvoice.js:219-221 | the filter keeps exactly the lines whose code differs |
| `InvoiceModel.Recalculate` | POS/src/composables/useInvoice.js:434-513 | repricing keeps the code, quantity, list price, UOM, conversion factor, warehouse and UOM list of the line |
| `InvoiceModel.ChangeAmount` | POS/src/composables/useInvoice.js:668-671 | the change handed back is never negative: 0 when something remains due, otherwise exactly the overpayment |
| `InvoiceModel.EmptyInvoice` | POS/src/composables/useInvoice.js:7-22 | the empty invoice has unique codes and cached totals equal to the rebuild |
| `InvoiceModel.NewLine` | POS/src/composables/useInvoice.js:166-191 | a new line starts without discount or tax, with rate falling back to the list price and list price to rate, conversion factor never 0, and uom falling back to the stock UOM |
| `InvoiceModel.ClampPercentage` | POS/src/composables/useInvoice.js:272-274 | the line discount percentage is parsed (NaN as 0) and clamped into [0, 100] |
| `InvoiceModel.DiscountAmountBounds` | POS/src/composables/useInvoice.js:296-330 | on a non-negative base a percentage in (0, 100] gives a discount in [0, base] and 100 percent the whole base; the discount exceeds the base only for a percentage above 100 or a fixed amount above the base |
| `InvoiceModel.ClampedDiscount` | POS/src/composables/useInvoice.js:344-354 | the additional discount lies in [0, subtotal] and equals the computed discount when that already lies there |
| `InvoiceModel.RecalculateAll` | POS/src/composables/useInvoice.js:798 | every line is repriced in place, in order |
| `InvoiceModel.LoadIsSetInclusive` | POS/src/composables/useInvoice.js:784-822 | loading fetched rules is setting the rules and then re-running the regime switch |
| `InvoiceModel.StockRows` | POS/src/composables/useInvoice.js:552-559 | one stock-check row per line, with conversion factor defaulting to 1 and stock_qty = quantity times that factor |
| `InvoiceLemmas.PaidRemoveAt` | POS/src/composables/useInvoice.js:526-532 | removing a payment inside the list lowers the paid total by exactly its amount |
| `InvoiceLemmas.TotalWithout` | POS/src/composables/useInvoice.js:205-222 | with unique codes, removing an item lowers each sum by exactly that line's share |
| `InvoiceLemmas.RecalculateExclusive` | POS/src/composables/useInvoice.js:489-493 | exclusive regime: amount = base - discount, tax = amount x rate / 100, unit rate = amount / quantity |
| `InvoiceLemmas.RecalculateInclusive` | POS/src/composables/useInvoice.js:482-487 | inclusive regime with a positive rate: net = gross / (1 + rate/100), net + tax = base - discount, unit rate = (net + tax) / quantity |
| `InvoiceLemmas.RecalculateDiscount` | POS/src/composables/useInvoice.js:462-473 | a positive percentage gives base x pct / 100; otherwise a fixed amount is kept and the percentage back-computed (0 when the base is 0) |
| `InvoiceLemmas.RecalculateIdempotent` | POS/src/composables/useInvoice.js:457-460 | repricing a repriced line changes nothing: the discount is never compounded, because the base is the list price |
| `InvoiceLemmas.ExclusiveExample` | POS/src/composables/useInvoice.js:459-510 | 2 x 100 at 10% discount and 5% tax gives discount 20, amount 180, tax 9 |
| `InvoiceLemmas.RecalculateSettles` | POS/src/composables/useInvoice.js:479-510 | a repriced line's amount (plus tax when inclusive) equals its base less its discount |
| `InvoiceLemmas.CanSubmitFromScratch` | POS/src/composables/useInvoice.js:134-138 | canSubmit holds iff there are lines and the remaining amount, computed from scratch, is at most 0.01 |
| `InvoiceLemmas.GrandTotalIsLineSum` | POS/src/composables/useInvoice.js:117-127 | with settled lines the grand total is the sum of line totals less the additional discount, in either regime |
| `InvoiceLemmas.ExampleLines` | POS/src/composables/useInvoice.js:482-510 | one unit at 100 with a 10% rule: tax 10 and amount 100 exclusive; amount 1000/11 and tax 100/11 inclusive |
| `InvoiceLemmas.GrandTotalExample` | POS/src/composables/useInvoice.js:117-127 | those lines give a grand total of 110 exclusive and 100 inclusive |
| `InvoiceLemmas.TouchValid` | POS/src/composables/useInvoice.js:224-294 | editing one line and shifting the cache by the delta keeps cached totals equal to the rebuild |
| `InvoiceLemmas.AddItemValid` | POS/src/composables/useInvoice.js:141-203 | addItem keeps unique codes and cached totals equal to the rebuild; the line count grows only for a new code |
| `InvoiceLemmas.AddItemMerges` | POS/src/composables/useInvoice.js:141-203 | the added quantity lands on the line with its code, merged or new, and codes stay unique |
| `InvoiceLemmas.RemoveItemValid` | POS/src/composables/useInvoice.js:205-222 | removeItem drops every line with the code and keeps the cache equal to the rebuild |
| `InvoiceLemmas.UpdateQuantityValid` | POS/src/composables/useInvoice.js:224-244 | updateItemQuantity keeps the cache equal to the rebuild |
| `InvoiceLemmas.UpdateQuantityValue` | POS/src/composables/useInvoice.js:234 | a NaN or zero quantity becomes 1 |
| `InvoiceLemmas.UpdateRateValid` | POS/src/composables/useInvoice.js:246-266 | updateItemRate keeps the cache equal to the rebuild |
| `InvoiceLemmas.UpdateDiscountValid` | POS/src/composables/useInvoice.js:268-294 | updateItemDiscount keeps the cache equal to the rebuild |
| `InvoiceLemmas.UpdateDiscountValue` | POS/src/composables/useInvoice.js:272-285 | the percentage ends in [0, 100] and the amount is recomputed from it; no fixed amount survives |
| `InvoiceLemmas.AddPaymentValid` | POS/src/composables/useInvoice.js:515-524 | addPayment keeps the paid total equal to the rebuild |
| `InvoiceLemmas.RemovePaymentValid` | POS/src/composables/useInvoice.js:526-532 | removePayment with the index check corrected keeps the paid total equal to the rebuild |
| `InvoiceLemmas.RemovePaymentDrift` | POS/src/composables/useInvoice.js:526-532 | as written, removePayment(-1) removes the last payment but leaves its amount in the cached paid total |
| `InvoiceLemmas.UpdatePaymentValid` | POS/src/composables/useInvoice.js:534-545 | updatePayment keeps the paid total equal to the rebuild |
| `InvoiceLemmas.ApplyDiscountBounds` | POS/src/composables/useInvoice.js:332-362 | applyDiscount leaves the additional discount in [0, subtotal] and the coupon code set to the code, else the name |
| `InvoiceLemmas.RemoveDiscountClears` | POS/src/composables/useInvoice.js:364-376 | removeDiscount zeroes the additional discount and clears the coupon code, with the cache rebuilt |
| `InvoiceLemmas.SetTaxInclusiveValid` | POS/src/composables/useInvoice.js:811-822 | switching the regime reprices every line and leaves the cache equal to the rebuild |
| `InvoiceLemmas.LoadTaxRulesValid` | POS/src/composables/useInvoice.js:784-809 | loading tax rules, fetched or failed, keeps the cache equal to the rebuild |
| `InvoiceLemmas.ApplyValid` | POS/src/composables/useInvoice.js:141-545 | every mutator keeps unique codes and cached totals equal to the rebuild |
| `InvoiceLemmas.RunValid` | POS/src/composables/useInvoice.js:141-545 | after any sequence of mutators the cached subtotal, tax, discount and paid equal rebuildIncrementalCache of the current lines and payments |
| `Invoice.Invoice.constructor` | POS/src/composables/useInvoice.js:7-22 | an empty invoice with zero cached totals |
| `Invoice.Invoice.CanSubmitNow` | POS/src/composables/useInvoice.js:134-138 | canSubmit read off the object's fields |
| `Invoice.Invoice.CalculateTotalTaxRate` | POS/src/composables/useInvoice.js:382-409 | always the sum of the rates of the Net Total and Previous Row Total rules; the memo is transparent and the invoice is unchanged |
| `Invoice.Invoice.RecalculateItem` | POS/src/composables/useInvoice.js:434-513 | reprices line i only; the cached totals are untouched |
| `Invoice.Invoice.RebuildIncrementalCache` | POS/src/composables/useInvoice.js:411-432 | the cache becomes the from-scratch sums; nothing else changes |
| `Invoice.Invoice.ShiftCache` | POS/src/composables/useInvoice.js:157-164 | the cache moves by the new line's values minus the old line's |
| `Invoice.Invoice.EditLine` | POS/src/composables/useInvoice.js:224-244 | edits, reprices and shifts the cache for one line |
| `Invoice.Invoice.AddItem` | POS/src/composables/useInvoice.js:141-203 | the state after addItem |
| `Invoice.Invoice.AppendLine` | POS/src/composables/useInvoice.js:165-201 | pushes a new repriced line and adds its values to the cache |
| `Invoice.Invoice.RemoveItem` | POS/src/composables/useInvoice.js:205-222 | the state after removeItem |
| `Invoice.Invoice.UpdateItemQuantity` | POS/src/composables/useInvoice.js:224-244 | the state after updateItemQuantity |
| `Invoice.Invoice.UpdateItemRate` | POS/src/composables/useInvoice.js:246-266 | the state after updateItemRate |
| `Invoice.Invoice.UpdateItemDiscount` | POS/src/composables/useInvoice.js:268-294 | the state after updateItemDiscount |
| `Invoice.Invoice.AddPayment` | POS/src/composables/useInvoice.js:515-524 | the state after addPayment |
| `Invoice.Invoice.RemovePayment` | POS/src/composables/useInvoice.js:526-532 | the state after removePayment, an index outside the list changing nothing |
| `Invoice.Invoice.UpdatePayment` | POS/src/composables/useInvoice.js:534-545 | the state after updatePayment |
| `Invoice.Invoice.ApplyDiscount` | POS/src/composables/useInvoice.js:332-362 | the state after applyDiscount |
| `Invoice.Invoice.RemoveDiscount` | POS/src/composables/useInvoice.js:364-376 | the state after removeDiscount |
| `Invoice.Invoice.ResetInvoice` | POS/src/composables/useInvoice.js:742-754 | empties lines, customer, payments, additional discount, coupon and cache |
| `Invoice.Invoice.RecalculateAllItems` | POS/src/composables/useInvoice.js:798 | every line repriced in order |
| `Invoice.Invoice.SetTaxInclusive` | POS/src/composables/useInvoice.js:811-822 | sets the regime, reprices every line and rebuilds the cache |
| `Invoice.Invoice.LoadTaxRules` | POS/src/composables/useInvoice.js:784-809 | takes the fetched rules (or none on failure), the settings flag when given, reprices and rebuilds; returns the rules |
| `Invoice.Invoice.SubmitInvoice` | POS/src/composables/useInvoice.js:612-740 | without a draft name or when submission fails the error propagates and the invoice is kept; on success it is reset |
| `InvoicesApiModel.StockErrors` | pos_next/api/invoices.py:104-122 | there are no more errors than rows |
| `InvoicesApiModel.StockErrorsFacts` | pos_next/api/invoices.py:104-122 | the errors are exactly those of the short rows (non-negative quantity, asking for more than is available), one each, in input order |
| `InvoicesApiModel.StockErrorsEmpty` | pos_next/api/invoices.py:104-122 | there is no error exactly when no row is short |
| `InvoicesApiModel.ShouldBlockAsWrittenFacts` | pos_next/api/invoices.py:125-143 | as written a sale is blocked exactly when negative stock is not allowed: a profile value of 0 is replaced by 1 and cannot turn blocking off |
| `InvoicesApiModel.ShouldBlockFacts` | pos_next/api/invoices.py:125-143 | as intended blocking is off exactly when negative stock is allowed or a given profile says 0, and agrees with the code for every other profile value |
| `InvoicesApiModel.ValidateCartItemsFacts` | pos_next/api/invoices.py:196-216 | as written the profile cannot turn blocking off: the result is exactly the collected stock errors when negative stock is not allowed, and empty otherwise, whatever the profile says |
| `InvoicesApiModel.StockLines` | pos_next/api/invoices.py:152 | only stock-item lines are checked, so there are no more of them than lines |
| `InvoicesApiModel.StockCheckOnInvoiceFacts` | pos_next/api/invoices.py:146-163 | an invoice is refused exactly when it is checked (not a Sales Invoice that does not update stock), negative stock is not allowed (as written the profile cannot turn blocking off) and some stock line or packed item is short |
| `InvoicesApiModel.SoldFacts` | pos_next/api/invoices.py:223-226 | the sold tally has an entry exactly for each sold code, holding the sum of its quantities |
| `InvoicesApiModel.DeductFacts` | pos_next/api/invoices.py:239-243 | earlier returns reduce each sold code by the absolute quantities returned, and add no code |
| `InvoicesApiModel.FirstOverReturnFacts` | pos_next/api/invoices.py:246-255 | the requests pass exactly when no request for a tallied code asks to return more than remains |
| `InvoicesApiModel.ValidateReturnItemsFacts` | pos_next/api/invoices.py:219-255 | a return is refused exactly when some requested row returns more of a sold item than was sold minus what earlier returns took back; unsold codes pass |
| `InvoicesApiModel.Returnable` | pos_next/api/invoices.py:613-623 | there are no more returnable rows than invoice rows |
| `InvoicesApiModel.ReturnedByKeyFacts` | pos_next/api/invoices.py:598-606 | the returned tally has a key exactly for each non-empty `sales_invoice_item or item_code` of the return rows, holding the sum of their absolute quantities, never negative |
| `InvoicesApiModel.ReturnableFacts` | pos_next/api/invoices.py:609-625 | every kept row comes from an invoice row, has a positive remaining quantity, and its quantity plus what was already returned is its original quantity; every row with something left is kept |
| `InvoicesApiModel.InvoiceForReturnFacts` | pos_next/api/invoices.py:579-625 | an unknown invoice is refused with its message; otherwise every offered row is an invoice row with a positive remaining quantity, the quantity already returned against its row name by the submitted returns, and its original quantity; every row with something left is offered |
| `InvoicesApiModel.WindowFacts` | pos_next/api/invoices.py:659-661 | pages are consecutive 100-row windows, and there is more exactly when the next page starts before the end (see also line 783) |
| `InvoicesApiModel.PageAsWrittenIgnoresNumbers` | pos_next/api/invoices.py:653-657 | as written a numeric page is read as page 1, so page 2 repeats the first window |
| `InvoicesApiModel.PageFacts` | pos_next/api/invoices.py:653-661 | as intended a numeric page selects its own window; text pages are read as before, a digit string as its value |
| `InvoicesApiModel.DeleteInvoiceFacts` | pos_next/api/invoices.py:496-509 | deletion succeeds exactly for an existing draft and removes that invoice only |
| `InvoicesApiModel.NegatedFacts` | pos_next/api/invoices.py:356-363 | negating is idempotent and never leaves a positive amount |
| `InvoicesApiModel.SumNonPositive` | pos_next/api/invoices.py:362-363 | a sum of non-positive amounts is non-positive |
| `InvoicesApi.CollectStockErrors` | pos_next/api/invoices.py:104-122 | the loop produces exactly the specified stock errors |
| `InvoicesApi.TallySold` | pos_next/api/invoices.py:223-226 | the loop produces exactly the sold tally |
| `InvoicesApi.ValidateReturns` | pos_next/api/invoices.py:219-255 | the loops give exactly the specified return verdict |
| `InvoicesApi.ReturnableRows` | pos_next/api/invoices.py:609-625 | the loop keeps exactly the returnable rows |
| `InvoicesApi.NegateReturnPayments` | pos_next/api/invoices.py:355-363 | every payment is negated in place, and the paid and base paid amounts are their sums and not positive |
| `ItemApiModel.SumActualIgnores` | pos_next/api/items.py:25-31 | Bin rows of other items or of warehouses outside the list add nothing to the summed stock |
| `ItemApiModel.SumActualConcat` | pos_next/api/items.py:25-31 | the summed stock of two Bin tables together is the sum of their summed stocks |
| `ItemApiModel.StockAvailabilityFacts` | pos_next/api/items.py:15-31 | without a warehouse there is no stock; a plain warehouse sums only its own bins of the item; a group without descendants has none |
| `ItemApiModel.FirstBin` | pos_next/api/items.py:252-263 | the bin found is a Bin row of that item in that warehouse, and none is found only when there is no such row |
| `ItemApiModel.ItemStockFacts` | pos_next/api/items.py:246-273 | the available quantity is the stock less the reserved quantity; with no bin all three are 0; a first-row bin gives its own quantities |
| `ItemApiModel.OfferedBatchesFacts` | pos_next/api/items.py:42-58 | only batches with stock and a number that are not disabled and unexpired (or without expiry) are offered, with their quantity and dates, and every such batch is offered |
| `ItemApiModel.WithStockUomFacts` | pos_next/api/items.py:146-158 | the stock UOM is appended with factor 1 exactly when it is set and not listed; afterwards a set stock UOM is always listed and the earlier UOMs keep their order |
| `ItemApiModel.DetailActualQtyFacts` | pos_next/api/items.py:127-128 | only a stock item with a warehouse gets its quantity from the stock availability |
| `ItemApiModel.FirstPrice` | pos_next/api/items.py:570-591 | a price found belongs to the item and price list (and the UOM when given), and none is found only when no row matches |
| `ItemApiModel.MinVariantRateFacts` | pos_next/api/items.py:595-608 | the minimum variant price is one of the enabled variants' prices and no such price is below it |
| `ItemApiModel.DisplayPriceFacts` | pos_next/api/items.py:569-632 | a stock-UOM price is shown as is; else the first price, divided by its UOM's conversion factor when known and shown in its own UOM when not; with no price a template shows its cheapest variant; otherwise 0 |
| `ItemApiModel.EnrichedFacts` | pos_next/api/items.py:566-666 | the rate fields agree and the conversion factor is 1; the stock comes from the bin only for a stock item with a warehouse; the UOM list keeps every UOM row of the item except the stock UOM |
| `ItemApiModel.PriceMapFacts` | pos_next/api/items.py:551-563 | the price map is well formed and has an entry for exactly the UOMs priced for the item in the price list |
| `ItemApiModel.EnrichedVariantFacts` | pos_next/api/items.py:415-452 | a variant's rate is its non-zero stock-UOM price, otherwise its first listed price, or 0; it has no prices exactly when no price row matches; its stock comes from the bin whenever there is a warehouse; its UOM list omits the stock UOM |
| `ItemApi.CollectBatches` | pos_next/api/items.py:42-58 | the loop produces exactly the offered batches |
| `ItemApi.OfferedBatchesErrSticks` | pos_next/api/items.py:45-47 | a missing Batch document ends the batch loop with that error, whatever batches follow |
| `ItemApi.AddStockUom` | pos_next/api/items.py:146-156 | the search loop adds the stock UOM exactly as specified |
| `ItemApi.EnrichItems` | pos_next/api/items.py:566-666 | every item of the list is rewritten in place to its enriched form |
| `ItemApi.EnrichVariants` | pos_next/api/items.py:415-452 | every variant is rewritten in place to its enriched form |
| `ItemApi.BuildConversionMaps` | pos_next/api/items.py:541-548 | each item's UOM list holds its conversion rows in order, and each stored factor is the last one given for that item and UOM |
| `ItemSearchModel.WithOriginal` | POS/src/stores/itemSearch.js:85-93 | ensureOriginalStock fixes an absent original_stock and changes nothing else; an item that has one is returned unchanged |
| `ItemSearchModel.OriginalStock` | POS/src/stores/itemSearch.js:85-93 | the returned value is the stored original_stock (null as 0), else actual_qty, else stock_qty or 0 |
| `ItemSearchModel.Restocked` | POS/src/stores/itemSearch.js:689-703 | original_stock becomes actual_qty ?? stock_qty (kept when both are absent), both quantities show max(base - reserved, 0) with the cart quantity as it is, a negative one included, and the warehouse is overwritten only by a present one |
| `ItemSearchModel.LastEntry` | POS/src/stores/itemSearch.js:647-652 | finds the last coded cart line for a code, or reports there is none |
| `ItemSearchModel.Registered` | POS/src/stores/itemSearch.js:121-127 | registering an object adds it to its code's bucket, creating the bucket when missing; other buckets are kept |
| `ItemSearchModel.RegisterStep` | POS/src/stores/itemSearch.js:116-128 | one turn of registerItems keeps the registry an exact index of the registered objects |
| `ItemSearchModel.UnregisterStep` | POS/src/stores/itemSearch.js:98-108 | one turn of removeRegisteredItems takes the object out of its bucket and drops the bucket when it empties |
| `ItemSearchModel.WithoutIndexes` | POS/src/stores/itemSearch.js:95-111 | after removeRegisteredItems the registry indexes exactly the objects that stay registered |
| `ItemSearchModel.StocksAppliedNone` | POS/src/stores/itemSearch.js:684-687 | an update whose code has no registered item changes nothing |
| `ItemSearchModel.ApplyUpdatesStep` | POS/src/stores/itemSearch.js:681-705 | each coded update in turn restocks the registered items of its code with the cart quantity as it is |
| `ItemSearchModel.OriginalStockFixed` | POS/src/stores/itemSearch.js:85-93 | the first call fixes original_stock; later calls return the same value whatever actual_qty and stock_qty became |
| `ItemSearchModel.ReservedAgain` | POS/src/stores/itemSearch.js:190-204 | reserving again starts from the same original, so the last reservation alone decides what is shown |
| `ItemSearchModel.IndexesUnique` | POS/src/stores/itemSearch.js:38 | the registry is determined by the set of registered objects |
| `ItemSearchModel.IndexedBucket` | POS/src/stores/itemSearch.js:190-194 | a bucket is exactly the registered objects of its code; a code without a bucket has none |
| `ItemSearchModel.ReserveOneEffect` | POS/src/stores/itemSearch.js:190-204 | updateReservedStock sets both quantities to max(original - max(q, 0), 0) on every registered item of the code and leaves every other item alone; an unregistered code changes nothing |
| `ItemSearchModel.ReserveCodesStep` | POS/src/stores/itemSearch.js:660-663 | a batch of updateReservedStock calls is each code's call in turn |
| `ItemSearchModel.LoadedReserved` | POS/src/stores/itemSearch.js:131-165 | a newly loaded item whose code the cart reserves shows its original stock less the cart quantity |
| `ItemSearchModel.LeftCartRestored` | POS/src/stores/itemSearch.js:642-664 | a code that left the cart gets its whole original stock back on every registered item |
| `ItemSearchModel.CartLookupLast` | POS/src/stores/itemSearch.js:645-653 | the lookup holds, for each coded line, the quantity of the last line with that code |
| `ItemSearchModel.RestockedShown` | POS/src/stores/itemSearch.js:689-700 | the stock shown after a clamped update is the baseline less the reservation, never below zero and never above the baseline |
| `ItemSearchModel.RestockedAgrees` | POS/src/stores/itemSearch.js:689-700 | the update as written and the clamped one agree on a non-negative cart quantity; on a negative one that leaves stock to show, the one as written shows more |
| `ItemSearchModel.RestockedAsWrittenInflates` | POS/src/stores/itemSearch.js:689-700 | as written a negative cart quantity shows more stock than the update reports; the clamped update shows exactly the update's quantity |
| `ItemSearchModel.StocksAppliedEffect` | POS/src/stores/itemSearch.js:681-705 | a stock update reaches exactly the registered items of its code, each restocked with the cart quantity as it is (unclamped) |
| `ItemSearchModel.SetCacheFacts` | POS/src/stores/itemSearch.js:71-79 | the cache never exceeds 50 entries, holds the new value under its key, and at the limit evicts the oldest-inserted key |
| `ItemSearchModel.LoadMoreFacts` | POS/src/stores/itemSearch.js:333-383 | no request while loading, without more pages, without a profile or while searching; otherwise the offset moves by the page length, hasMore stays only on a full page, and loadingMore is cleared |
| `ItemSearch.ItemSearchStore.constructor` | POS/src/stores/itemSearch.js:10-41 | empty lists, registry and lookup; offset 0, hasMore true |
| `ItemSearch.ItemSearchStore.SetCache` | POS/src/stores/itemSearch.js:71-79 | the cache after setCache |
| `ItemSearch.ItemSearchStore.ClearBaseCache` | POS/src/stores/itemSearch.js:81-83 | the cache is emptied |
| `ItemSearch.ItemSearchStore.EnsureOriginalStock` | POS/src/stores/itemSearch.js:85-93 | fixes one object's original stock and returns it |
| `ItemSearch.ItemSearchStore.ReserveItem` | POS/src/stores/itemSearch.js:198-203 | reserves one object |
| `ItemSearch.ItemSearchStore.UpdateReservedStock` | POS/src/stores/itemSearch.js:190-204 | every registered object of the code reserved; the registry kept |
| `ItemSearch.ItemSearchStore.ReserveBucket` | POS/src/stores/itemSearch.js:198-203 | the forEach over one bucket reserves exactly its objects and leaves every other object as it was |
| `ItemSearch.ItemSearchStore.ReserveCodesLoop` | POS/src/stores/itemSearch.js:660-663 | updateReservedStock for each touched code with its cart quantity |
| `ItemSearch.ItemSearchStore.RemoveRegisteredItems` | POS/src/stores/itemSearch.js:95-111 | drops the set's objects from their buckets, deletes empty buckets and empties the set |
| `ItemSearch.ItemSearchStore.Allocate` | POS/src/stores/itemSearch.js:355 | the objects of a server page are new and not registered |
| `ItemSearch.ItemSearchStore.RegisterItems` | POS/src/stores/itemSearch.js:113-129 | fixes original stock and registers exactly the coded objects in the chosen set |
| `ItemSearch.ItemSearchStore.ReplaceAllItems` | POS/src/stores/itemSearch.js:131-144 | the list is replaced, the old objects unregistered, the new ones registered, the cache dropped, and every current reservation re-applied to the new objects |
| `ItemSearch.ItemSearchStore.AppendAllItems` | POS/src/stores/itemSearch.js:146-165 | an empty page changes nothing; otherwise the items are appended and registered and the reserved codes among them recomputed |
| `ItemSearch.ItemSearchStore.SetSearchResults` | POS/src/stores/itemSearch.js:167-188 | replaces the search list like replaceAllItems, recomputing only the reserved codes of the results |
| `ItemSearch.ItemSearchStore.SetCartItems` | POS/src/stores/itemSearch.js:642-664 | the lookup is rebuilt from the cart and every code of the old or new lookup recomputed |
| `ItemSearch.ItemSearchStore.RestockCode` | POS/src/stores/itemSearch.js:684-704 | one update applied to the bucket of its code with the cart quantity as it is |
| `ItemSearch.ItemSearchStore.ApplyStockUpdates` | POS/src/stores/itemSearch.js:675-709 | an empty or missing list changes nothing; otherwise each coded update reaches its code's items, the cache is dropped and the lookup is unchanged |
| `ItemSearch.ItemSearchStore.ApplyUpdatesLoop` | POS/src/stores/itemSearch.js:681-705 | the forEach over the updates, each restocking its code's items with the unclamped cart quantity |
| `ItemSearch.ItemSearchStore.LoadMoreItems` | POS/src/stores/itemSearch.js:333-383 | the paging counters and the item list after loadMoreItems for the page the server returns |
| `ItemSearch.ItemSearchStore.PageLoaded` | POS/src/stores/itemSearch.js:344-382 | the page is appended and the counters move |
| `ItemSearch.ItemSearchStore.AppendPage` | POS/src/stores/itemSearch.js:357-359 | a non-empty page adds its new objects to the end of the list, an empty or failed page adds none, and the store stays well formed |
| `ItemSearch.ItemSearchStore.PageArrived` | POS/src/stores/itemSearch.js:357-382 | the counters after the try/catch/finally |
| `ItemSearch.ItemSearchStore.SetSearchTerm` | POS/src/stores/itemSearch.js:600-611 | the term is stored; a blank term empties and unregisters the search results and drops the cache, with no object changed and the registry indexing exactly the main list; a term with text changes nothing else (the server search is left out); the main list, cart lookup, paging counters and profile are never touched |
| `ItemSearch.ItemSearchStore.ClearSearch` | POS/src/stores/itemSearch.js:613-623 | the term is emptied and the search results cleared and unregistered, with no object changed and the registry indexing exactly the main list; the main list, cart lookup, paging counters and profile are never touched |
| `ItemSearch.ItemSearchStore.ClearResults` | POS/src/stores/itemSearch.js:609 | `setSearchResults([])` allocates and re-reserves nothing: the objects are as before and only the search list's registrations go |
| `ItemSearch.ItemSearchStore.InvalidateCache` | POS/src/stores/itemSearch.js:670-673 | the cache is dropped |
| `ItemSearch.ItemSearchStore.SetPosProfile` | POS/src/stores/itemSearch.js:666-668 | sets the profile |
| `ItemSearch.Unregister` | POS/src/stores/itemSearch.js:98-108 | the forEach of removeRegisteredItems leaves an index of the kept objects |
| `ItemSearch.RegisterList` | POS/src/stores/itemSearch.js:116-128 | the forEach of registerItems fixes original stock and registers exactly the coded objects |
| `ItemSearch.RegisterOne` | POS/src/stores/itemSearch.js:117-127 | one object registered when it has a code |
| `ItemSearch.CollectImpacted` | POS/src/stores/itemSearch.js:153-159 | the loop collects exactly the impacted codes |
| `ItemSearch.BuildCartLookup` | POS/src/stores/itemSearch.js:645-653 | the loop builds the last-line-per-code quantity map |
| `ItemSearch.RestockItem` | POS/src/stores/itemSearch.js:692-703 | one item restocked with the cart quantity as it is |
| `ItemSearch.RestockBucket` | POS/src/stores/itemSearch.js:692-704 | every item of the bucket restocked |
| `OfflineItemsModel.ObjectBarcodes` | POS/src/utils/offline/items.js:13 | mapping a barcode array throws exactly when one of its elements is `null` |
| `OfflineItemsModel.ObjectBarcodesMembers` | POS/src/utils/offline/items.js:13 | the barcodes kept from an array are exactly the non-empty `barcode` fields of its object elements |
| `OfflineItemsModel.WithBarcodes` | POS/src/utils/offline/items.js:9-16 | every item keeps its fields and gets the barcodes derived from `item_barcode` (array mapped and filtered, single value wrapped, otherwise empty); the whole map throws iff one item's derivation throws |
| `OfflineItemsModel.PriceRows` | POS/src/utils/offline/items.js:23-28 | one price row per item, in item order |
| `OfflineItemsModel.PutItemsLookup` | POS/src/utils/offline/items.js:19 | after a `bulkPut`, an item code finds the last row written under it |
| `OfflineItemsModel.PutPricesLookup` | POS/src/utils/offline/items.js:29 | after a price `bulkPut`, a price-list and item pair finds the last row written under it |
| `OfflineItemsModel.CachedItemsFacts` | POS/src/utils/offline/items.js:4-41 | a missing or empty list writes nothing and returns `undefined`; a throwing barcode derivation or item write changes nothing and returns false; success (true) requires every write to succeed; the sync time is stamped only on success; prices change only with a price list; customers are never touched |
| `OfflineItemsModel.CachedThenPriced` | POS/src/utils/offline/items.js:4-41 | after a successful `cacheItems` with a price list, `getItemWithPrice` returns the last stored row of a code with its derived barcodes and both rates set to the price row's rate (see also lines 93-114) |
| `OfflineItemsModel.ItemWithPriceFacts` | POS/src/utils/offline/items.js:93-114 | the result is `null` iff the read fails or the item is not cached; without a price list or price row the stored item comes back unchanged; otherwise only `rate` and `price_list_rate` differ, both set to the same value |
| `OfflineItemsModel.CachedCustomersFacts` | POS/src/utils/offline/items.js:117-130 | a missing or empty list is a no-op returning `undefined`; a throwing write changes nothing; success stamps the customers' sync time and leaves the items and prices alone |
| `OfflineItemsModel.FreshVersusRefresh` | POS/src/utils/offline/items.js:166-175 | a fresh item cache is never due for a refresh by the memory-cache rule, and the two rules disagree only at exactly one day after the sync |
| `OfflineItemsModel.CachedItemsFresh` | POS/src/utils/offline/items.js:4-41 | right after a successful `cacheItems` at a non-zero time the item cache is fresh until one day has passed (see also lines 166-175) |
| `OfflineItems.BulkPutItems` | POS/src/utils/offline/items.js:19 | the `put` loop yields the `bulkPut` result and keeps the table well formed |
| `OfflineItems.BulkPutPrices` | POS/src/utils/offline/items.js:29 | the `put` loop yields the price `bulkPut` result |
| `OfflineItems.BulkPutCustomers` | POS/src/utils/offline/items.js:121 | the `put` loop yields the customer `bulkPut` result and keeps the table well formed |
| `OfflineItems.ItemsCache.constructor` | POS/src/utils/offline/items.js:1 | the tables start empty |
| `OfflineItems.ItemsCache.CacheItems` | POS/src/utils/offline/items.js:4-41 | the new tables and the result are those of the cache-items rule |
| `OfflineItems.ItemsCache.CacheCustomers` | POS/src/utils/offline/items.js:117-130 | the new tables and the result are those of the cache-customers rule |
| `OfflineItems.ItemsCache.GetItemWithPrice` | POS/src/utils/offline/items.js:93-114 | the returned item is that of the item-with-price rule |
| `OffersModel.FirstSlabsFacts` | pos_next/api/offers.py:78-82 | the slab map has a scheme exactly when some slab row names it, and then holds the earliest such row (see also lines 98-102) |
| `OffersModel.ValuesOf` | pos_next/api/offers.py:115-117 | a parent's values are drawn from the rows, so there are no more of them than rows |
| `OffersModel.GroupedFacts` | pos_next/api/offers.py:115-145 | the grouped map has a parent exactly when some row names it, and then lists that parent's values in row order; a parent with no rows has no values (see also lines 260-290) |
| `OffersModel.EligibilityFacts` | pos_next/api/offers.py:166-176 | only the list named by `apply_on` is filled, from the grouped map with an empty default; any other `apply_on` leaves all three empty (see also lines 298-308) |
| `OffersModel.SchemeOffers` | pos_next/api/offers.py:148-209 | the scheme loop produces at most one offer per rule |
| `OffersModel.SchemeOffersFacts` | pos_next/api/offers.py:148-209 | there is one offer per rule whose scheme has a slab of its discount kind, in rule order, built from that rule and its first slab; rules without a slab are skipped |
| `OffersModel.SchemeOfferFacts` | pos_next/api/offers.py:160-206 | a scheme offer is auto exactly when its rule is not coupon based and its slab does not allow multiple pricing rules; it is "Item Price" iff the rule is a price discount, and a product discount carries no discount type and zero rate and amounts; the limits come from the slab; the title falls back to the scheme, then the rule name; the eligibility lists follow `apply_on` |
| `OffersModel.StandaloneOffers` | pos_next/api/offers.py:293-341 | the standalone loop produces exactly one offer per rule |
| `OffersModel.StandaloneOffersFacts` | pos_next/api/offers.py:293-341 | one offer per standalone rule, in order; it is auto exactly when the rule is not coupon based, its description is never empty, its source is "Pricing Rule", and its eligibility lists follow `apply_on` by rule name |
| `OffersModel.GetOffersFacts` | pos_next/api/offers.py:11-25 | one offer per scheme rule with a slab, in rule order and marked Promotional Scheme, then one per standalone rule in order and marked Pricing Rule; an offer is auto only when its rule is not coupon based |
| `OffersModel.ValidateCouponFacts` | pos_next/api/offers.py:344-414 | a coupon is valid exactly when the coupon table exists, the upper-cased code is stored, the coupon is within its dates, not used up, owned by the customer when it is a Gift Card, of the company, and its offer exists and is enabled; the valid result carries that coupon and offer; a missing offer is reached only for an otherwise usable coupon |
| `OffersModel.ValidateCouponOrder` | pos_next/api/offers.py:365-376 | a coupon that has not started is reported as not yet valid, and one that has started but expired as expired, whatever else is wrong with it |
| `OffersModel.ApplyCouponToInvoiceFacts` | pos_next/api/offers.py:437-467 | applying succeeds only with the table, write permission, a stored code and a count below a set maximum; then the count rises by exactly one and no other coupon changes; a count at the maximum gives "Coupon usage limit exceeded"; a well-formed coupon below its maximum is always applied |
| `OffersModel.CancelCouponUsageFacts` | pos_next/api/offers.py:470-495 | cancelling lowers a positive count by exactly one, leaves a zero count and every other coupon alone; a well-formed coupon's cancellation is the decrement rule |
| `OffersModel.ApplyThenCancel` | pos_next/api/offers.py:437-495 | applying a well-formed coupon below its maximum succeeds, and cancelling afterwards restores the original coupon table |
| `OffersModel.CreateGiftCardFacts` | pos_next/api/offers.py:590-623 | a created gift card is a Gift Card for one use by the given customer, for the offer and its company, named by the upper-cased hash, with a code derived from the hash unless the defaults give one; an empty customer always fails validation |
| `OffersModel.CreatePromotionalCouponFacts` | pos_next/api/offers.py:546-587 | a promotional coupon is created only for an existing coupon-based offer; it is Promotional, for that offer and company, named by the stripped name, takes the arguments given, and gets the promotional code derived from its name when the defaults give none; a non-coupon-based offer always fails |
| `Offers.BuildSlabMap` | pos_next/api/offers.py:78-82 | the slab loop builds the first-slab map |
| `Offers.GroupRows` | pos_next/api/offers.py:115-117 | the `setdefault(...).append(...)` loop builds the grouped map |
| `Offers.BuildSchemeOffers` | pos_next/api/offers.py:28-209 | once the rows are loaded, the result is the scheme offers over the tables built from them |
| `Offers.OffersFromTables` | pos_next/api/offers.py:148-209 | the offer loop yields the scheme offers of the rules |
| `Offers.BuildStandaloneOffers` | pos_next/api/offers.py:212-341 | once the rows are loaded, the result is the standalone offers over the grouped tables |
| `Offers.CouponLedger.constructor` | pos_next/api/offers.py:437 | the ledger starts with the given coupons |
| `Offers.CouponLedger.ApplyToInvoice` | pos_next/api/offers.py:437-467 | the result is that of the apply rule; on success the table becomes the new one, otherwise it is unchanged |
| `Offers.CouponLedger.CancelUsage` | pos_next/api/offers.py:470-495 | the result is that of the cancel rule; a cancellation installs its table, anything else leaves the table unchanged |
| `OfflineDbModel.ToInt32` | POS/src/utils/offline/db.js:43 | `hash & hash` yields a signed 32-bit value congruent to its input modulo 2^32 |
| `OfflineDbModel.ToInt32Congruent` | POS/src/utils/offline/db.js:42-43 | congruent inputs modulo 2^32 truncate to the same 32-bit value, so truncating after every step equals truncating once |
| `OfflineDbModel.HashStepIsArithmetic` | POS/src/utils/offline/db.js:42-43 | the shift-and-subtract step `(hash << 5) - hash + char` equals `31 * hash + char` truncated to signed 32 bits |
| `OfflineDbModel.Hash32` | POS/src/utils/offline/db.js:39-44 | the running hash stays inside the signed 32-bit range |
| `OfflineDbModel.SchemaHash` | POS/src/utils/offline/db.js:37-46 | the schema hash is a natural number of at most 2^31 (the absolute value of a signed 32-bit integer) |
| `OfflineDbModel.LeadingDigits` | POS/src/utils/offline/db.js:52-54 | `parseInt` reads exactly the maximal run of leading decimal digits |
| `OfflineDbModel.DigitsOfNat` | POS/src/utils/offline/db.js:58-63 | the decimal text of a natural number is all digits and parses back to the number |
| `OfflineDbModel.VersionRoundTrip` | POS/src/utils/offline/db.js:52-63 | a version written with `toString` is read back unchanged by `parseInt`, including `NaN` and negative values |
| `OfflineDbModel.NaturalRoundTrip` | POS/src/utils/offline/db.js:52-63 | a non-negative version written with `toString` parses back to itself |
| `OfflineDbModel.NegativeRoundTrip` | POS/src/utils/offline/db.js:52-63 | a negative version written with `toString` parses back to itself |
| `OfflineDbModel.NotANumber` | POS/src/utils/offline/db.js:52-63 | a stored `NaN` version parses back to `NaN` |
| `OfflineDbModel.SchemaVersionFacts` | POS/src/utils/offline/db.js:49-68 | an unchanged schema hash returns the stored version (1 when none is stored) and writes nothing; a changed hash returns the stored version plus one and stores both the new hash and the new version |
| `OfflineDbModel.SchemaVersionIdempotent` | POS/src/utils/offline/db.js:49-68 | a second call after the first returns the same version and leaves local storage unchanged |
| `OfflineDbModel.SettingRoundTrip` | POS/src/utils/offline/db.js:127-144 | a setting written with setSetting reads back with getSetting as written unless the write or the read fails; a failed write leaves the old reading; other keys read as before |
| `OfflineDbModel.CheckHealth` | POS/src/utils/offline/db.js:88-125 | the database is recreated iff the first read and the reopen both fail and the reopen error is `VersionError` or `InvalidStateError`; it is healthy iff the read succeeds, the reopen succeeds, or the recreation succeeds |
| `OfflineDbModel.ClearedTables` | POS/src/utils/offline/db.js:155-196 | the five cache tables are always cleared; the invoice and payment queues, the drafts and the settings are cleared only when their preserve option is explicitly false |
| `OfflineDbModel.ClearedRowsFacts` | POS/src/utils/offline/db.js:155-196 | after clearing, every cleared table holds no rows and every preserved table keeps its rows |
| `OfflineDbModel.ClearedRecordFacts` | POS/src/utils/offline/db.js:162-199 | the returned record has an entry for every table and marks exactly the cleared ones |
| `OfflineDb.SchemaHashLoop` | POS/src/utils/offline/db.js:37-46 | the character loop computes the schema hash of its input |
| `OfflineDb.OfflineStorage.constructor` | POS/src/utils/offline/db.js:4 | the storage starts with the given local storage and table sizes |
| `OfflineDb.OfflineStorage.GetSchemaVersion` | POS/src/utils/offline/db.js:49-68 | the returned version and the new local storage are those of the schema-version rule applied to the schema's hash |
| `OfflineDb.OfflineStorage.OpenVersion` | POS/src/utils/offline/db.js:71-73 | the database opens with the schema version computed from the hash of the current schema |
| `OfflineDb.OfflineStorage.ClearTable` | POS/src/utils/offline/db.js:176-195 | one `clear()` sets that table's row count to zero and leaves the other tables alone |
| `OfflineDb.OfflineStorage.ClearCacheTables` | POS/src/utils/offline/db.js:176-180 | the five cache tables are emptied and the other tables are left alone |
| `OfflineDb.OfflineStorage.ClearCachedData` | POS/src/utils/offline/db.js:155-202 | runs the clears in the source's order with early exit when the `clear()` of `failOn` throws: the new row counts and the reply (`success` and the `cleared` record as far as it got) are exactly those of the whole `try` and its `catch` |
| `OfflineDb.OfflineStorage.ClearStep` | POS/src/utils/offline/db.js:176 | one `results.x = await db.x.clear()`: when that clear throws nothing changes and it reports failure; otherwise the table is emptied and its record entry becomes the `undefined` the clear resolves to |
| `OfflineDbModel.ClearCachedInOrder` | POS/src/utils/offline/db.js:174-195 | the `try` block is the clears of the order list run one after the other, each skipped once one has thrown |
| `OfflineDbModel.ClearOrderDistinct` | POS/src/utils/offline/db.js:176-195 | no table is cleared twice in one call |
| `OfflineDbModel.ClearCachedTracks` | POS/src/utils/offline/db.js:174-202 | whether or not a clear throws: a table is emptied exactly when the record marks it, only tables the options name are, the others keep their rows and their 0, the table whose clear threw keeps its rows and its 0, and the call fails exactly when that table is one the options name |
| `OfflineDbModel.ClearCachedSuccess` | POS/src/utils/offline/db.js:174-198 | `success` is true exactly when no clear the options call for throws, and then the row counts are the full clear and the record marks exactly the cleared tables |
| `OfflineDbModel.ClearCachedPartial` | POS/src/utils/offline/db.js:174-202 | when the clear of the j-th table in order throws, `success` is false, every table before it has been cleared (its record entry is the value the clear resolved to), and it and every later table are still marked 0 |
| `OfflineWorkerModel.ArrayBarcodes` | POS/src/workers/offline.worker.js:244-250 | the barcodes of an item_barcode array are the elements' barcode or value with falsy ones removed; a null element throws |
| `OfflineWorkerModel.ExtractPriority` | POS/src/workers/offline.worker.js:238-260 | the barcode field wins, then item_barcode (array or single value), then an existing barcodes array, then []; extracted barcodes are never empty |
| `OfflineWorkerModel.Processed` | POS/src/workers/offline.worker.js:233-260 | each item gets its extracted barcodes and keeps its other fields; one throwing item makes the whole batch fail |
| `OfflineWorkerModel.PutItemsValid` | POS/src/workers/offline.worker.js:261 | the bulk put keeps the table well formed, every batch code becomes a key, and every old key stays |
| `OfflineWorkerModel.PutItemsLatest` | POS/src/workers/offline.worker.js:261 | the row stored under a batch code is the last row of the batch with that code (last write wins) |
| `OfflineWorkerModel.PutItemsUntouched` | POS/src/workers/offline.worker.js:261 | a key no batch row carries keeps its row, and is a key afterwards exactly when it was one before |
| `OfflineWorkerModel.SearchItemsFacts` | POS/src/workers/offline.worker.js:162-199 | never more than limit rows; an empty term gives the first rows; exact barcode matches on the lower-cased term come alone when there are any; otherwise code-or-name prefix matches |
| `OfflineWorkerModel.SearchCustomersFacts` | POS/src/workers/offline.worker.js:202-230 | each returned customer's name, mobile or id contains the lower-cased term, and there are at most limit of them |
| `OfflineWorkerModel.StockUpdatedKeys` | POS/src/workers/offline.worker.js:352-392 | exactly the coded updates of cached items are written, and the count is the number of such updates |
| `OfflineWorkerModel.StockUpdatedOthers` | POS/src/workers/offline.worker.js:358-366 | an item no update names keeps its row |
| `OfflineWorkerModel.StatsFacts` | POS/src/workers/offline.worker.js:308-337 | the queued-invoice count never exceeds the queue, is 0 when every entry is synced, and grows by one with each unsynced invoice queued |
| `OfflineWorker.Worker.constructor` | POS/src/workers/offline.worker.js:43-44 | not manually offline, server online, empty tables |
| `OfflineWorker.Worker.Ping` | POS/src/workers/offline.worker.js:47-64 | the server flag follows response.ok, and a throwing fetch counts as offline |
| `OfflineWorker.Worker.SaveOfflineInvoice` | POS/src/workers/offline.worker.js:103-128 | empty item lists are refused; otherwise exactly one unsynced entry with retry_count 0 is appended and no stock is touched |
| `OfflineWorker.Worker.CacheItemsFromServer` | POS/src/workers/offline.worker.js:233-275 | all items are processed before anything is written; on success the rows are put and items_last_sync set |
| `OfflineWorker.Worker.PutAllItems` | POS/src/workers/offline.worker.js:261 | the bulk put leaves the items table as putting the processed rows one after another by item code, later rows replacing earlier ones |
| `OfflineWorker.Worker.CacheCustomersFromServer` | POS/src/workers/offline.worker.js:278-294 | the customers are put and customers_last_sync set; the count is the batch length |
| `OfflineWorker.Worker.UpdateStockQuantities` | POS/src/workers/offline.worker.js:352-392 | writes each coded update of a cached item; the count equals the rows written; a missing list writes nothing |
| `OfflineWorker.Worker.AnswerQuery` | POS/src/workers/offline.worker.js:401-460 | for the reading types (check offline, invoice count and list, item and customer search, cache ready, stats, unknown): the handler's payload, with nothing changed |
| `OfflineWorker.Worker.ApplyRequest` | POS/src/workers/offline.worker.js:401-456 | for ping, save, cache items or customers, delete, manual offline and stock updates: the handler's payload and new state, every other field unchanged |
| `OfflineWorker.Worker.HandleMessage` | POS/src/workers/offline.worker.js:395-478 | each message yields exactly one reply carrying its id, ERROR iff the handler fails; unknown types yield ERROR; for every one of the fourteen types the payload is its handler's result (ping flag, count, entries, saved id or error, rows, stats, Done, count of stock rows written) and the new state is its handler's (the reading types change nothing, a writing type only the fields its handler writes) |
| `OfflineWorker.ProcessRows` | POS/src/workers/offline.worker.js:235-260 | the map loop computes the processed batch |
| `OfflineWorker.ProcessedNonePropagates` | POS/src/workers/offline.worker.js:235-260 | once an item throws, the batch fails |
| `PartialPaymentsModel.AddPaymentRefusals` | pos_next/api/partial_payments.py:159-186 | a payment is accepted exactly with an invoice name, some entries, write permission, an outstanding amount, a submitted invoice and a positive total not above the outstanding amount |
| `PartialPaymentsModel.AddPaymentFacts` | pos_next/api/partial_payments.py:188-203 | on success the paid amount grows by the total, one row per entry is appended after the old rows, and the outstanding amount is what remains of the grand total, or 0 with status Paid within a cent; docstatus and grand total are kept |
| `PartialPaymentsModel.PaymentReducesOutstanding` | pos_next/api/partial_payments.py:180-203 | on an invoice whose amounts add up, a payment strictly lowers the outstanding amount, never below 0, and never pays more than the grand total |
| `PartialPayments.SalesInvoice.constructor` | pos_next/api/partial_payments.py:170 | the invoice document starts in the given state |
| `PartialPayments.SalesInvoice.AddPayment` | pos_next/api/partial_payments.py:143-211 | the outcome is the one the functional model gives; on success the document takes the settled state, and a refusal changes nothing |
| `PosCartModel.LastRow` | POS/src/stores/posCart.js:166-171 | finds the last server row carrying a code, or reports that none does |
| `PosCartModel.WithServerDiscount` | POS/src/stores/posCart.js:176-181 | only the two discount fields of the line change; a line with no matching row gets percentage and amount 0 |
| `PosCartModel.ServerStep` | POS/src/stores/posCart.js:175-188 | one turn of the loop keeps the line codes, the tax settings and the payments |
| `PosCartModel.ServerPass` | POS/src/stores/posCart.js:175-188 | the whole loop keeps the line codes, the tax settings and the payments |
| `PosCartModel.ApplyServerDiscounts` | POS/src/stores/posCart.js:161-164 | a non-array argument returns false and changes nothing; an array runs the corrected pass, with a cache rebuild (see "## Left out") |
| `PosCartModel.UomFactorOf` | POS/src/stores/posCart.js:324 | the factor of the first UOM entry with that name, none when no entry has it |
| `PosCartModel.UomEdited` | POS/src/stores/posCart.js:326-329 | the line takes the new UOM, a non-zero factor (entry, then details, then 1), and the new unit's list price, rate falling back to the details' rate |
| `PosCartModel.OfferRowOf` | POS/src/stores/posCart.js:148-157 | one request row per line with the line's code, quantity and rate, price_list_rate falling back to rate and conversion factor to 1 |
| `PosCartModel.OfferRows` | POS/src/stores/posCart.js:148-157 | one row per cart line, in order |
| `PosCartModel.BuildInvoiceDataForOffers` | POS/src/stores/posCart.js:140-159 | the rows are the cart's lines in order; the customer is the cart's, else the profile's |
| `PosCartModel.AddToCartStep` | POS/src/stores/posCart.js:46-90 | the item is refused, and the cart unchanged, iff the stock check applies and fails; otherwise it is added as useInvoice's addItem adds it |
| `PosCartLemmas.DiscountMapLast` | POS/src/stores/posCart.js:166-171 | the discount map holds exactly the codes some row carries, each bound to the last row carrying it |
| `PosCartLemmas.DiscountedWithinExists` | POS/src/stores/posCart.js:173-185 | the returned flag is raised iff some line received a non-zero percentage or amount |
| `PosCartLemmas.ServerPassLines` | POS/src/stores/posCart.js:175-188 | after n turns the first n lines carry their server discount and are repriced; the rest are untouched |
| `PosCartLemmas.ServerDiscountLines` | POS/src/stores/posCart.js:161-190 | every line ends with its matched discount repriced, the flag says whether any was discounted, and the corrected pass leaves the same lines as the pass as written |
| `PosCartLemmas.RepricedLine` | POS/src/stores/posCart.js:187 | re-running updateItemQuantity keeps a non-zero quantity (0 becomes 1); an unmatched line ends without discount |
| `PosCartLemmas.ApplyServerDiscountsValid` | POS/src/stores/posCart.js:161-190 | the pass followed by a cache rebuild keeps unique codes and the cache equal to the rebuild |
| `PosCartLemmas.ServerStepCache` | POS/src/stores/posCart.js:180-187 | as written, one turn moves the cache by the line's delta but takes the discount back at the server's amount instead of the old one |
| `PosCartLemmas.ServerPassDrift` | POS/src/stores/posCart.js:175-188 | after the loop as written the cached discount is off by the sum of old discounts minus the server amounts written over them |
| `PosCartLemmas.ServerDiscountDrift` | POS/src/stores/posCart.js:180-187 | on a one-line cart whose discount differs from the server's, the pass as written leaves the cache different from the rebuild |
| `PosCartLemmas.ChangeUomValid` | POS/src/stores/posCart.js:311-331 | the corrected unit switch keeps the cache equal to the rebuild and leaves the same lines as the switch as written |
| `PosCartLemmas.ChangeUomDrift` | POS/src/stores/posCart.js:326-331 | as written the unit switch leaves the cache unchanged, so it equals the rebuild only when the line's base, tax and discount did not move |
| `PosCartLemmas.OfferRowsBase` | POS/src/stores/posCart.js:148-157 | the request rows price the cart at the same list rates the subtotal counts |
| `PosCartLemmas.OfferRequestSubtotal` | POS/src/stores/posCart.js:140-159 | with a valid cache the request's quantity-times-list-price sum is the cached subtotal |
| `PosCartLemmas.ApplyOfferFacts` | POS/src/stores/posCart.js:193-266 | no offer, no profile or an empty cart returns without a call and no change; a reply raises the suppress flag, records the offer iff some line was discounted, and, through the corrected server pass, keeps the invoice valid |
| `PosCartLemmas.ReapplyOfferFacts` | POS/src/stores/posCart.js:280-309 | an empty cart with an offer clears it; the server is called only for a non-empty cart with an offer and the flag down; the flag ends down on every path but the empty-cart return; the invoice stays valid through the corrected server pass |
| `PosCartLemmas.RemoveOfferFacts` | POS/src/stores/posCart.js:127-138 | removeOffer and removeDiscountFromCart raise the flag, drop the offer, zero the additional discount and keep the invoice valid; the latter also forgets the coupon |
| `PosCart.BuildDiscountMap` | POS/src/stores/posCart.js:166-171 | the loop builds exactly the last-row-per-code map, skipping rows without a code |
| `PosCart.Cart.constructor` | POS/src/stores/posCart.js:32-38 | an empty invoice, no offer, no coupon, flag down |
| `PosCart.Cart.ServerTurn` | POS/src/stores/posCart.js:176-187 | one turn of the forEach as written, reporting whether the line was discounted |
| `PosCart.Cart.ServerLoop` | POS/src/stores/posCart.js:175-188 | the forEach as written over all lines, with the flag it computes |
| `PosCart.Cart.ApplyServerDiscounts` | POS/src/stores/posCart.js:161-191 | the corrected pass: the loop, then a cache rebuild; returns whether any line was discounted |
| `PosCart.Cart.ApplyOffer` | POS/src/stores/posCart.js:193-266 | the state and result of applyOffer for the endpoint's behaviour, with the corrected server pass |
| `PosCart.Cart.RemoveOffer` | POS/src/stores/posCart.js:268-278 | the state after removeOffer |
| `PosCart.Cart.RemoveDiscountFromCart` | POS/src/stores/posCart.js:127-138 | the state after removeDiscountFromCart |
| `PosCart.Cart.ApplyDiscountToCart` | POS/src/stores/posCart.js:116-125 | applies the discount to the invoice and records it as the coupon |
| `PosCart.Cart.ReapplyOffer` | POS/src/stores/posCart.js:280-309 | the state after reapplyOffer for the endpoint's behaviour, with the corrected server pass |
| `PosCart.Cart.ChangeItemUom` | POS/src/stores/posCart.js:311-348 | the corrected unit switch; nothing changes for a missing line or a failed lookup |
| `PosCart.Cart.ClearCart` | POS/src/stores/posCart.js:92-97 | resets the invoice and forgets offer and coupon |
| `PosCart.Cart.SetCustomer` | POS/src/stores/posCart.js:99-101 | only the customer changes |
| `PosCart.Cart.AddItem` | POS/src/stores/posCart.js:46-90 | adds through the stock check as AddToCartStep says |
| `ServerSettingsModel.ValidateFacts` | pos_next/pos_next/doctype/pos_settings/pos_settings.py:9-17 | a settings document is accepted exactly when its maximum discount lies in [0, 100] and, with limited search on, its search limit is positive; the discount error comes first |
| `ServerSettingsModel.Find` | pos_next/pos_next/doctype/pos_settings/pos_settings.py:37-42 | the document found is the first of the profile, and none is found only when the profile has no document (see also line 80) |
| `ServerSettingsModel.GetPosSettingsFacts` | pos_next/pos_next/doctype/pos_settings/pos_settings.py:20-58 | no profile gives no settings and no change; a caller who is neither a profile user nor a reader is refused; otherwise the answer is the profile's first document, or a new enabled document for it appended as the only change |
| `ServerSettingsModel.GetPosSettingsTwice` | pos_next/pos_next/doctype/pos_settings/pos_settings.py:44-48 | asking twice changes nothing the second time and gives the same answer, so defaults are created at most once |
| `ServerSettingsModel.FindAppend` | pos_next/pos_next/doctype/pos_settings/pos_settings.py:51-58 | a document appended for a profile without one becomes that profile's document |
| `ServerSettingsModel.UpdatePosSettingsFacts` | pos_next/pos_next/doctype/pos_settings/pos_settings.py:61-92 | a caller who is neither a profile user nor a writer is refused; an update replaces the profile's document in place or appends exactly one new one and touches no other; the result is the profile's document (or a new one for the profile) with every field the patch gives (profile, enabled, maximum discount, limited search, search limit, other keys) set to the patch's value and every other field kept, and passes validation |
| `ServerSettingsModel.UpdateThenGet` | pos_next/pos_next/doctype/pos_settings/pos_settings.py:20-92 | after an update that leaves the profile field alone, the lookup returns the updated document without further change |
| `ServerSettings.SettingsTable.constructor` | pos_next/pos_next/doctype/pos_settings/pos_settings.py:37-42 | the table starts with the given documents |
| `ServerSettings.SettingsTable.GetPosSettings` | pos_next/pos_next/doctype/pos_settings/pos_settings.py:20-58 | the answer and the stored documents are those the functional model gives, and a failure stores nothing |
| `ServerSettings.SettingsTable.UpdatePosSettings` | pos_next/pos_next/doctype/pos_settings/pos_settings.py:61-92 | the answer and the stored documents are those the functional model gives, and a validation failure stores nothing |
| `PromotionsModel.PermissionFacts` | pos_next/api/promotions.py:11-30 | a read, write or delete check fails exactly when that permission is missing; any other action is never refused |
| `PromotionsModel.StatusFacts` | pos_next/api/promotions.py:89-97 | Disabled iff disabled; Not Started iff enabled and starting after today; Expired iff enabled, started and ended before today; Active otherwise (see also lines 134-142) |
| `PromotionsModel.CouponStatusFacts` | pos_next/api/promotions.py:598-614 | Exhausted comes only after Disabled, Not Started and Expired, exactly when a limit is set and reached; an exhausted coupon shows at least 100 % usage, an active one less |
| `PromotionsModel.EnrichedCoupon` | pos_next/api/promotions.py:593-614 | without a disabled column the coupon is never shown as Disabled; only the disabled flag of the row is changed |
| `PromotionsModel.EnrichedFacts` | pos_next/api/promotions.py:64-99 | an enriched scheme keeps its name and flag, gets the date status and counts only the child table named by apply-on; a standalone rule counts as one rule with one price slab (see also lines 116-142) |
| `PromotionsModel.RuleDetailsFacts` | pos_next/api/promotions.py:170-194 | a rule's items count covers items, groups and brands; a synthetic price slab exists exactly for a percentage or amount discount and carries only that discount, with missing limits as 0 |
| `PromotionsModel.RunPaced` | pos_next/api/promotions.py:508-515 | searches each within a minute of the last, starting with no live counter, are admitted up to the cap and refused after it; the counter then holds the count and expires a minute after the last search |
| `PromotionsModel.SearchLimitAsWritten` | pos_next/api/promotions.py:509-515 | with `call_count > 50`, 51 paced searches are admitted before the first refusal |
| `PromotionsModel.SearchLimitCorrected` | pos_next/api/promotions.py:512 | with the limit of 50, exactly 50 paced searches are admitted and the 51st is refused |
| `PromotionsModel.SanitizeTerm` | pos_next/api/promotions.py:521-522 | the sanitised term has at most 100 characters |
| `PromotionsModel.SanitizeFacts` | pos_next/api/promotions.py:521-522 | a sanitised term holds only (ASCII) word, space and hyphen characters taken from the input; sanitising is idempotent and leaves a short clean term unchanged |
| `PromotionsModel.SearchItemsFacts` | pos_next/api/promotions.py:505-548 | as written a search is throttled exactly when more than 50 searches are already counted in the live minute, so the 51st is served, and every admitted search is counted; a query runs only with a sanitised term of 2 to 100 characters, a limit of at most 50 (20 by default) and the profile's item groups only when it has some |
| `PromotionsModel.CouponRequestFacts` | pos_next/api/promotions.py:664-688 | the request passes exactly when it is named, typed and for a company, with a percentage in (0, 100] or a positive amount, and a customer for a Gift Card |
| `PromotionsModel.CreateCouponFacts` | pos_next/api/promotions.py:634-727 | a created coupon needs write permission and a valid request, is well formed, keeps the requested name, type, discount and company and any given code, and a Gift Card is for one use |
| `PromotionsModel.ItemRows` | pos_next/api/promotions.py:268-285 | one child row per requested item |
| `PromotionsModel.CreatePromotionFacts` | pos_next/api/promotions.py:203-340 | a promotion is created only with permission, name, company and apply-on; it is selling-only and starts today unless dated; percentage or amount gives exactly one price slab with that discount, free_item one product slab, and only the child table named by apply-on is filled, one row per item |
| `PromotionsModel.ToggledFacts` | pos_next/api/promotions.py:433-436 | a given value is stored; none flips the flag, so flipping twice restores it; setting a value twice is idempotent (see also lines 803-807) |
| `PromotionsModel.DeleteCouponFacts` | pos_next/api/promotions.py:828-856 | deletion succeeds exactly for a permitted, existing, never-used coupon and removes that coupon only |
| `Promotions.EnrichCoupons` | pos_next/api/promotions.py:593-614 | every row of the array is replaced in place by its enriched form |
| `Promotions.GetPromotions` | pos_next/api/promotions.py:64-147 | every scheme row and every rule row is enriched in place, and the result is the schemes followed by the rules |
| `Promotions.SearchLimiter.constructor` | pos_next/api/promotions.py:508-510 | a new user has no counter |
| `Promotions.SearchLimiter.Search` | pos_next/api/promotions.py:505-548 | the outcome and the stored counter are those of one `search_items` call on the old counter, with the as-written `call_count > 50` test |
| `RealtimeEventsModel.Updates` | pos_next/realtime_events.py:66-78 | one stock update per item-warehouse pair, in pair order, whose actual and stock quantity are the quantity the joined-key lookup gives that pair |
| `RealtimeEventsModel.PairsFacts` | pos_next/realtime_events.py:35-44 | the pairs are exactly the lines with both an item and a warehouse, no more than the lines, and there are none exactly when no line has both |
| `RealtimeEventsModel.LookupStockData` | pos_next/realtime_events.py:48-57 | restricting the Bin table to the invoice's pairs does not change the quantity of any of those pairs |
| `RealtimeEventsModel.AgreesOnQueried` | pos_next/realtime_events.py:48-70 | when no item code holds a bar, the joined-key lookup of the queried rows gives each pair of the invoice its Bin quantity |
| `RealtimeEventsModel.NoEventFacts` | pos_next/realtime_events.py:25-44 | no event is published exactly for an invoice that does not update stock, one marked as not POS, or one without a line holding both an item and a warehouse (see also lines 80-81) |
| `RealtimeEventsModel.EventFacts` | pos_next/realtime_events.py:32-100 | the event has one update per stocked line in line order, with that line's item and warehouse and, as both actual and stock quantity, the quantity the joined-key lookup of the queried rows gives it; the warehouses are exactly the stocked lines'; the type is cancel exactly for the cancel hook |
| `RealtimeEventsModel.EventBinQuantities` | pos_next/realtime_events.py:48-78 | when no item code holds a bar, every update of the event carries as actual and stock quantity the Bin quantity of its item in its warehouse, 0 without a Bin |
| `RealtimeEventsModel.Warehouses` | pos_next/realtime_events.py:35-78 | the warehouses collected from the pairs are exactly those of the lines holding both an item and a warehouse |
| `RealtimeEventsModel.InvoiceCreatedFacts` | pos_next/realtime_events.py:110-134 | only a POS invoice raises the created event, carrying its name, total, customer and profile; an invoice without the POS field fails inside the hook |
| `RealtimeEventsModel.KeyCollision` | pos_next/realtime_events.py:60-70 | as written an item "A\|B" in warehouse "C" and an item "A" in warehouse "B\|C" share one key, so the second is reported with the first one's quantity instead of 0 |
| `RealtimeEventsModel.EventKeyCollision` | pos_next/realtime_events.py:60-78 | an invoice selling item "A\|B" from warehouse "C" and item "A" from warehouse "B\|C", with a Bin only for the first, reports the first one's quantity for the second line, which has no Bin |
| `RealtimeEventsModel.BinKeyInjective` | pos_next/realtime_events.py:61-69 | the joined key determines the pair when item codes hold no bar |
| `RealtimeEventsModel.FirstBarOfKey` | pos_next/realtime_events.py:61-69 | in a joined key the first bar follows the item code when the code holds none |
| `RealtimeEventsModel.LookupAgreesWithoutBar` | pos_next/realtime_events.py:60-70 | when no item code holds a bar, the lookup as written agrees with the lookup by item and warehouse |
| `RealtimeEvents.EmitStockUpdateEvent` | pos_next/realtime_events.py:14-100 | the loops produce exactly the specified event, or none |
| `RealtimeEvents.BuildLookup` | pos_next/realtime_events.py:60-63 | the lookup built from the rows is keyed by the joined item and warehouse, and `get(key, 0)` on it gives every pair the quantity of the last row whose joined key equals its own, 0 when there is none |
| `RealtimeStockModel.Deliveries` | POS/src/composables/useRealtimeStock.js:37-43 | every registered handler, in registration order, receives the same batch; a failing handler does not stop the others |
| `RealtimeStockModel.Removed` | POS/src/composables/useRealtimeStock.js:170 | deleting a handler leaves exactly the other handlers |
| `RealtimeStockModel.QueuedLast` | POS/src/composables/useRealtimeStock.js:77-81 | pending updates are keyed by item_code and warehouse; after queuing a key holds the last update of the batch with that key, or its earlier value when the batch has none |
| `RealtimeStockModel.IgnoredEvent` | POS/src/composables/useRealtimeStock.js:73-75 | an event without data or without stock_updates changes nothing |
| `RealtimeStockModel.ProcessFacts` | POS/src/composables/useRealtimeStock.js:26-47 | with nothing pending processing is a no-op; otherwise every handler gets one snapshot of the pending values and the pending map is emptied |
| `RealtimeStockModel.ScheduleFacts` | POS/src/composables/useRealtimeStock.js:52-67 | at 100 pending entries the batch is delivered at once and no timer stays armed; below it nothing is delivered and the timer is armed |
| `RealtimeStockModel.StartStopIdempotent` | POS/src/composables/useRealtimeStock.js:96-134 | starting twice is starting once; stopping twice is stopping once |
| `RealtimeStockModel.StopClears` | POS/src/composables/useRealtimeStock.js:116-134 | stopping a listening listener drops the timer and the pending updates; stopping a silent one changes nothing |
| `RealtimeStockModel.SubscribeFacts` | POS/src/composables/useRealtimeStock.js:156-166 | a non-function handler is refused; the first registered handler starts listening when the realtime client exists |
| `RealtimeStockModel.UnsubscribeFacts` | POS/src/composables/useRealtimeStock.js:169-176 | removing the last handler stops listening; otherwise listening is unchanged |
| `RealtimeStock.Listener.constructor` | POS/src/composables/useRealtimeStock.js:12-15 | not listening, no handlers, nothing pending, no timer |
| `RealtimeStock.Listener.ProcessBatchedUpdates` | POS/src/composables/useRealtimeStock.js:26-47 | the new state is the processing step of the old one |
| `RealtimeStock.Listener.ScheduleBatchUpdate` | POS/src/composables/useRealtimeStock.js:52-67 | the new state is the scheduling step of the old one |
| `RealtimeStock.Listener.HandleStockUpdate` | POS/src/composables/useRealtimeStock.js:72-84 | queues the event's updates by key, then schedules |
| `RealtimeStock.Listener.BatchTimerFired` | POS/src/composables/useRealtimeStock.js:63-66 | the timer callback processes the batch and disarms the timer |
| `RealtimeStock.Listener.FlushUpdates` | POS/src/composables/useRealtimeStock.js:139-145 | drops the timer and processes the pending batch at once |
| `RealtimeStock.Listener.StartListening` | POS/src/composables/useRealtimeStock.js:96-111 | starts only when not listening and the realtime client exists |
| `RealtimeStock.Listener.StopListening` | POS/src/composables/useRealtimeStock.js:116-134 | stops only when listening, clearing the timer and pending updates |
| `RealtimeStock.Listener.OnStockUpdate` | POS/src/composables/useRealtimeStock.js:156-166 | refuses a non-function; adds the handler and starts listening when it is the first |
| `RealtimeStock.Listener.Unregister` | POS/src/composables/useRealtimeStock.js:169-176 | removes the handler and stops listening when none is left |
| `RealtimeStock.MapValues` | POS/src/composables/useRealtimeStock.js:31 | the snapshot is the pending values in insertion order |
| `RealtimeStock.RemoveHandler` | POS/src/composables/useRealtimeStock.js:170 | the handler list without the removed handler |
| `ReferralModel.AutonameCodeFacts` | pos_next/pos_next/doctype/referral_code/referral_code.py:11-20 | a generated code has ten characters when the hash has enough and no lower-case letter; a generated name is the stripped customer followed by a hyphen and five characters |
| `ReferralModel.ValidateFacts` | pos_next/pos_next/doctype/referral_code/referral_code.py:22-51 | a referral code is valid exactly when both sides have a discount type with a percentage in (0, 100] or a positive amount; the referrer's error is reported first |
| `ReferralModel.CreateReferralCodeFacts` | pos_next/pos_next/doctype/referral_code/referral_code.py:54-88 | creation succeeds exactly when both sides are valid, and the new code keeps the company, customer and campaign and always has a code when one can be drawn |
| `ReferralModel.ReferrerDraft` | pos_next/pos_next/doctype/referral_code/referral_code.py:164-194 | the referrer's draft is a single-use Gift Card for the referrer, tied to the referral and valid for its days (30 by default) |
| `ReferralModel.RefereeDraftAsWritten` | pos_next/pos_next/doctype/referral_code/referral_code.py:200-230 | the referee's draft is a single-use Promotional coupon for the referee, tied to the referral, valid for its days, named "Welcome Referral - referee - stamp" and given no code |
| `ReferralModel.InsertKeeps` | pos_next/pos_next/doctype/pos_coupon/pos_coupon.py:11-56 | inserting a draft keeps its type, customer, validity, single use and referral, keeps a given code and derives a Promotional coupon's missing code from its name |
| `ReferralModel.GenerateReferrerCoupon` | pos_next/pos_next/doctype/referral_code/referral_code.py:164-197 | a generated referrer coupon is a single-use Gift Card for the referrer, tied to the referral, valid until today plus its days |
| `ReferralModel.GenerateRefereeCouponAsWritten` | pos_next/pos_next/doctype/referral_code/referral_code.py:200-233 | as written, the referee coupon is a single-use Promotional coupon for the referee, tied to the referral and valid until today plus its days, and its code is the one `autoname` derives from its name |
| `ReferralModel.GenerateRefereeCoupon` | pos_next/pos_next/doctype/referral_code/referral_code.py:200-233 | the corrected referee coupon is a single-use Promotional coupon for the referee, tied to the referral, valid until today plus its days, with a code of ten upper-cased hash characters |
| `ReferralModel.NonDigitsOfClean` | pos_next/pos_next/doctype/pos_coupon/pos_coupon.py:15-17 | removing digits from digit-free text changes nothing |
| `ReferralModel.NonDigitsKeepsPrefix` | pos_next/pos_next/doctype/pos_coupon/pos_coupon.py:15-17 | a digit-free prefix survives the removal of digits |
| `ReferralModel.RefereeCodeAsWritten` | pos_next/pos_next/doctype/referral_code/referral_code.py:209-232 | as written, every welcome coupon gets the code "WELCOME ", whoever the referee is |
| `ReferralModel.WelcomeCode` | pos_next/pos_next/doctype/referral_code/referral_code.py:210 | the name of a welcome coupon strips to itself and yields the code "WELCOME " |
| `ReferralModel.LeadingCode` | pos_next/pos_next/doctype/pos_coupon/pos_coupon.py:15-17 | a Promotional code is the upper-cased first eight characters of a digit-free name prefix |
| `ReferralModel.RefereeCodeCorrected` | pos_next/pos_next/doctype/referral_code/referral_code.py:200-233 | with hash-drawn codes, welcome coupons drawn from different hashes get different codes |
| `ReferralModel.Reward` | pos_next/pos_next/doctype/referral_code/referral_code.py:127-161 | a failed welcome coupon aborts with its message; a failed referrer coupon is only left out; on success the referral's count is one higher and the issued coupons are appended |
| `ReferralModel.ApplyReferralCodeFacts` | pos_next/pos_next/doctype/referral_code/referral_code.py:91-161 | applying succeeds only for a known (upper-cased), enabled code the referee has not used; then the count grows by one, nothing else in the table changes, and the coupons issued are single-use, for the right customers, of the right types and validities; the welcome coupon is the one generated as written |
| `ReferralModel.RewardFacts` | pos_next/pos_next/doctype/referral_code/referral_code.py:127-161 | given coupons of the right kind, a successful reward is a `Rewarded` outcome |
| `ReferralModel.ApplyReferralCodeRefusals` | pos_next/pos_next/doctype/referral_code/referral_code.py:103-120 | an unknown code, a disabled code, a code the referee already used and a failed welcome coupon (generated as written) are refused, in that order, with their messages (see also lines 149-154) |
| `ReferralModel.ApplyOnce` | pos_next/pos_next/doctype/referral_code/referral_code.py:112-120 | applying a code again to the tables a successful application produced is refused as already used |
| `ReferralModel.ApplyReferralCodeWelcome` | pos_next/pos_next/doctype/referral_code/referral_code.py:127-147 | as written every successful application gives the referee a welcome coupon with the code "WELCOME ", so all referees share one code |
| `ReferralModel.CountKeepsValidity` | pos_next/pos_next/doctype/referral_code/referral_code.py:156-158 | changing the referrals count never changes validity, so the save after a referral cannot fail validation |
| `ReferralModel.ApplyReferralCodeApiRefusals` | pos_next/api/promotions.py:884-912 | the API reports an unknown code, a disabled code and a code already used by the referee each as "Failed to apply referral code: " followed by the reason |
| `Referrals.ReferralDocument.constructor` | pos_next/pos_next/doctype/referral_code/referral_code.py:71 | the document starts as given |
| `Referrals.ReferralDocument.Autoname` | pos_next/pos_next/doctype/referral_code/referral_code.py:11-20 | the document becomes its named form |
| `Referrals.ReferralTables.constructor` | pos_next/pos_next/doctype/referral_code/referral_code.py:102-106 | the tables start as given |
| `Referrals.ReferralTables.Apply` | pos_next/pos_next/doctype/referral_code/referral_code.py:91-161 | the outcome is that of `apply_referral_code`, whose welcome coupon carries the code "WELCOME "; on success both tables take the new contents, on failure both are rolled back |
| `PosSettingsModel.Trunc` | POS/src/stores/posSettings.js:83-100 | `parseInt` of a number truncates toward zero: the result lies within one of the input, on the zero side |
| `PosSettingsModel.ValidateDiscountFacts` | POS/src/stores/posSettings.js:190-196 | every discount is allowed when settings are disabled or the maximum is 0; otherwise a discount is allowed iff it is at most the maximum; an allowed discount stays allowed when lowered |
| `PosSettingsModel.StockRulesFacts` | POS/src/stores/posSettings.js:202-212 | negative stock allowed and stock validation enforced are never both true, both are false when settings are disabled, and exactly one holds when enabled |
| `PosSettingsModel.ParseIntOfNat` | POS/src/stores/posSettings.js:83-100 | `parseInt` of the decimal text of a natural number gives the number back |
| `PosSettingsModel.ParseFloatOfNat` | POS/src/stores/posSettings.js:59 | `parseFloat` of the decimal text of a natural number gives the number back |
| `PosSettingsModel.ParsedGetterFacts` | POS/src/stores/posSettings.js:59 | decimal precision and search limit are never 0; NaN or 0 falls back to 2, 1000 and 0 respectively; a positive precision written as text, a positive limit written as a number and a maximum discount written as text read back unchanged (see also lines 83, 100) |
| `PosSettingsModel.DefaultsFacts` | POS/src/stores/posSettings.js:7-52 | on the defaults the precision is 2, the search limit 1000, the maximum discount 0 and the profile falsy |
| `PosSettingsModel.DefaultEntries` | POS/src/stores/posSettings.js:7-52 | the defaults hold precision "2", search limit 1000, maximum discount 0 and an empty profile |
| `PosSettingsModel.DefaultFlagsOff` | POS/src/stores/posSettings.js:7-52 | every boolean getter is false on the defaults (see also lines 58-107) |
| `PosSettingsModel.LoadFacts` | POS/src/stores/posSettings.js:110-142 | without a profile, load returns false and changes nothing; with one, loading ends with `isLoading` false, the result is false only when the request rejects, `isLoaded` is set only by a truthy payload, the payload's keys override the settings and every other key keeps its value except the profile, which is set |
| `PosSettingsModel.ResetFacts` | POS/src/stores/posSettings.js:144-183 | reset restores every default, clears `isLoaded`, leaves `isLoading`, is idempotent and independent of the old settings; afterwards every flag is off, every discount is allowed, neither stock rule holds, and keys outside the defaults are gone |
| `PosSettings.SettingsStore.constructor` | POS/src/stores/posSettings.js:7-55 | the store starts with the defaults, not loading and not loaded |
| `PosSettings.SettingsStore.LoadSettings` | POS/src/stores/posSettings.js:126-133 | the request starts iff the profile is truthy, and then the profile is stored and `isLoading` set; otherwise nothing changes |
| `PosSettings.SettingsStore.SettingsArrived` | POS/src/stores/posSettings.js:112-122 | the new state and the value `loadSettings` returns are those of the finish-load rule (see also lines 135-141) |
| `PosSettings.SettingsStore.ResetSettings` | POS/src/stores/posSettings.js:144-183 | the new state is that of the reset rule |
| `ShiftsModel.FirstAt` | pos_next/api/shifts.py:33-36 | the position found is that of the first profile of the company, or the end when there is none |
| `ShiftsModel.FirstAtSnoc` | pos_next/api/shifts.py:33-36 | adding a profile at the end leaves every earlier first appearance where it was |
| `ShiftsModel.CompaniesFacts` | pos_next/api/shifts.py:32-37 | the dialog's companies are distinct, are exactly the non-empty companies of some profile, and come in the order of their first profile |
| `ShiftsModel.Latest` | pos_next/api/shifts.py:76-83 | the shift picked is one of the open shifts and none of them started later |
| `ShiftsModel.CheckOpeningShiftFacts` | pos_next/api/shifts.py:62-89 | there is no shift exactly when the user (the session user by default) has no open shift; otherwise it is an open shift of the user that started no earlier than any other, returned with its own profile and that profile's company |
| `ShiftsModel.BalanceRowsFacts` | pos_next/api/shifts.py:115-123 | one balance row per input, in order, with its mode of payment and its opening amount, 0 when missing |
| `ShiftsModel.CreateOpeningShiftFacts` | pos_next/api/shifts.py:93-132 | a shift is refused while the session user has an open shift; a created shift is appended after the existing ones, open, submitted, owned by the user, starting now, with the given profile, company and balances |
| `ShiftsModel.CreateThenCheck` | pos_next/api/shifts.py:62-132 | after a creation the check finds exactly the new shift (failing only when its profile's company cannot be loaded), so a second creation for the same user is refused |
| `Shifts.CompanyNames` | pos_next/api/shifts.py:33-36 | the loop produces exactly the specified company list |
| `Shifts.FormatBalanceDetails` | pos_next/api/shifts.py:116-121 | the loop produces exactly the specified balance rows |
| `Shifts.ShiftTable.constructor` | pos_next/api/shifts.py:67-77 | the table starts with the given shifts |
| `Shifts.ShiftTable.CreateOpeningShift` | pos_next/api/shifts.py:93-132 | the outcome is the one the functional model gives; on success the new shift is stored, on failure the table is as it was |
| `StockModel.DisplayStock` | POS/src/stores/stock.js:42-43 | the shown stock is never negative, is at least server minus reserved, and equals it unless clamped to 0; missing entries read as 0 |
| `StockModel.LastRowFor` | POS/src/stores/stock.js:79-85 | finds the last update row for a code, or reports that no row names it |
| `StockModel.LastReserving` | POS/src/stores/stock.js:67-73 | finds the last cart line for a code with a positive quantity, or reports there is none |
| `StockModel.RefreshRequest` | POS/src/stores/stock.js:91-101 | no call without any warehouse; the requested codes are the given ones or every code in the server map; an empty list or empty map asks for nothing |
| `StockModel.WrittenLast` | POS/src/stores/stock.js:58-64 | after init or update each code holds the entry of the last row naming it, later values win; other codes keep their entry |
| `StockModel.ReservationsLast` | POS/src/stores/stock.js:67-73 | reserve replaces the whole map: a code is reserved iff some cart line for it has quantity > 0, with the quantity of the last such line |
| `StockModel.DisplayAfterReserve` | POS/src/stores/stock.js:42-43 | after reserve the shown stock is server minus the last positive cart quantity for the code, clamped at 0 |
| `StockModel.DisplayAfterUpdate` | POS/src/stores/stock.js:79-85 | after update the shown stock uses the last row's quantity, with the existing reservation still subtracted |
| `StockModel.DisplayAfterClear` | POS/src/stores/stock.js:147 | after clear the full server quantity is shown |
| `Stock.StockStore.constructor` | POS/src/stores/stock.js:34-37 | both maps start empty, no warehouse, not refreshing |
| `Stock.StockStore.Init` | POS/src/stores/stock.js:58-64 | writes one server entry per item (quantity defaulting to 0) and changes nothing else; a missing list is a no-op |
| `Stock.StockStore.Update` | POS/src/stores/stock.js:79-85 | writes server entries only; the reservations are not touched |
| `Stock.StockStore.WriteRows` | POS/src/stores/stock.js:58-64 | the per-row forEach writes exactly the entries of the rows, in order |
| `Stock.StockStore.Reserve` | POS/src/stores/stock.js:67-73 | the reservation map is rebuilt from the cart and nothing else changes |
| `Stock.StockStore.Refresh` | POS/src/stores/stock.js:91-128 | reservations on exit equal those on entry, whether the fetch succeeds, fails or a reserve lands mid-flight; no warehouse means no change; fetched rows are written like update |
| `Stock.StockStore.SetWarehouse` | POS/src/stores/stock.js:146 | only the warehouse changes |
| `Stock.StockStore.Clear` | POS/src/stores/stock.js:147 | empties only the reservations |
| `Stock.StockStore.Reset` | POS/src/stores/stock.js:148 | empties both maps |
| `OfflineSyncModel.IsOfflineCases` | POS/src/utils/offline/sync.js:4-18 | offline under manual offline; otherwise iff the browser is offline or the server flag is explicitly false; an unset flag counts as online |
| `OfflineSyncModel.OnlineEvents` | POS/src/utils/offline/sync.js:4-18 | after online the window is offline only under manual offline or a browser offline; after offline it is always offline |
| `OfflineSyncModel.StockAfterQty` | POS/src/utils/offline/sync.js:152-174 | each (item, warehouse) ends at its stored quantity minus what the lines consume, with no lower bound; keys no line names are untouched |
| `OfflineSyncModel.StockCanGoNegative` | POS/src/utils/offline/sync.js:161-167 | a line of 2 against no stored stock leaves -2 |
| `OfflineSyncModel.PendingMembers` | POS/src/utils/offline/sync.js:51-76 | with the `synced` query read as the filter `synced === false`, the pending entries are exactly the unsynced ones (as written the query rejects: see `SyncAsWrittenStuck`) |
| `OfflineSyncModel.FailedStillPending` | POS/src/utils/offline/sync.js:51-76 | with the `synced` query read as a filter, an entry marked sync_failed but not synced is still pending |
| `OfflineSyncModel.Submitted` | POS/src/utils/offline/sync.js:93-127 | a truthy response marks the entry synced; a falsy one leaves it; a failure adds one to retry_count and sets sync_failed when the count before the failure was at least 3 |
| `OfflineSyncModel.SubmitAll` | POS/src/utils/offline/sync.js:93-127 | every pending entry is submitted once, in order; synced entries are untouched |
| `OfflineSyncModel.CountsBounded` | POS/src/utils/offline/sync.js:90-127 | success + failed is at most the number of pending entries |
| `OfflineSyncModel.PurgedMembers` | POS/src/utils/offline/sync.js:129-135 | with the `synced` query read as a filter, the clean-up deletes exactly the synced entries older than a week |
| `OfflineSyncModel.PurgeKeepsPending` | POS/src/utils/offline/sync.js:129-135 | unsynced entries are never deleted by the clean-up, whatever their age |
| `OfflineSyncModel.SyncFacts` | POS/src/utils/offline/sync.js:79-138 | offline or with nothing pending the result is {0, 0} and the queue is unchanged; success + failed never exceeds the pending count |
| `OfflineSyncModel.QuarantineOnFourthFailure` | POS/src/utils/offline/sync.js:112-125 | the first three failures only count; the fourth sets sync_failed |
| `OfflineSyncModel.SyncedQueryAsWritten` | POS/src/utils/offline/sync.js:53-56 | a `where('synced').equals(...)` query on a boolean is always rejected, since a boolean is not an IndexedDB key |
| `OfflineSyncModel.SyncAsWrittenStuck` | POS/src/utils/offline/sync.js:51-88 | as written the pending list is empty and the count 0 whatever the queue holds, so a sync reports {0, 0} and every unsynced invoice stays queued and unsynced |
| `OfflineSyncModel.AllAnswered` | POS/src/utils/offline/sync.js:90-127 | against a server accepting every invoice, each pending entry counts as a success, none as a failure, and none stays pending |
| `OfflineSyncModel.SyncSubmitsPending` | POS/src/utils/offline/sync.js:79-138 | with the pending query read as a filter, an online sync against a server accepting everything reports every pending invoice as a success and leaves none pending |
| `OfflineSync.OfflineStore.constructor` | POS/src/utils/offline/sync.js:1 | empty queue, stock and payment queue |
| `OfflineSync.OfflineStore.SaveOfflineInvoice` | POS/src/utils/offline/sync.js:21-48 | an invoice without lines is refused with nothing changed; otherwise exactly one unsynced entry is appended and the local stock consumed |
| `OfflineSync.OfflineStore.UpdateLocalStock` | POS/src/utils/offline/sync.js:152-174 | one read-modify-write per line, as StockAfter |
| `OfflineSync.OfflineStore.GetOfflineInvoices` | POS/src/utils/offline/sync.js:51-62 | returns the pending entries, the `synced` query read as a filter |
| `OfflineSync.OfflineStore.GetOfflineInvoiceCount` | POS/src/utils/offline/sync.js:65-76 | returns the number of pending entries, the `synced` query read as a filter |
| `OfflineSync.OfflineStore.GetLocalStock` | POS/src/utils/offline/sync.js:177-188 | returns the stored quantity, 0 when missing |
| `OfflineSync.OfflineStore.DeleteOfflineInvoice` | POS/src/utils/offline/sync.js:141-149 | removes exactly the entry with that id |
| `OfflineSync.OfflineStore.SaveOfflinePayment` | POS/src/utils/offline/sync.js:191-208 | appends exactly one payment entry, numbered by the payment queue's own auto-increment key; the invoice queue's key is untouched |
| `OfflineSync.OfflineStore.SubmitPending` | POS/src/utils/offline/sync.js:90-127 | the submission loop, with its two counters |
| `OfflineSync.OfflineStore.PurgeSynced` | POS/src/utils/offline/sync.js:129-135 | deletes the synced entries older than a week, the `synced` query read as a filter |
| `OfflineSync.OfflineStore.SyncOfflineInvoices` | POS/src/utils/offline/sync.js:79-138 | the queue and result of syncOfflineInvoices, the `synced` queries read as filters |
| `ItemValidationModel.ValidateItemFacts` | pos_next/validations.py:10-19 | only a new item without a company is refused; an existing item may keep an empty company |
| `ItemValidationModel.PlaceholdersConcat` | pos_next/validations.py:44-52 | the placeholders of two query pieces together are the sum of theirs |
| `ItemValidationModel.PlaceholdersOne` | pos_next/validations.py:44-52 | a single piece holds one placeholder exactly when it is one |
| `ItemValidationModel.PlaceholdersSpelled` | pos_next/validations.py:48-51 | placeholders are counted piece by piece over the ORDER BY and LIMIT part |
| `ItemValidationModel.RenderFacts` | pos_next/validations.py:30-42 | each condition holds one placeholder per value it binds |
| `ItemValidationModel.JoinPlaceholders` | pos_next/validations.py:47 | the conditions joined with AND hold exactly as many placeholders as the values they bind |
| `ItemValidationModel.QueryPlaceholders` | pos_next/validations.py:30-56 | the query has exactly as many placeholders as values |
| `ItemValidationModel.JoinStartsWithFirst` | pos_next/validations.py:47 | a join starts with its first part |
| `ItemValidationModel.QueryShape` | pos_next/validations.py:30 | "disabled = 0" is always the first condition, and the prefix pattern, start and page length are always the last three values (see also line 54) |
| `ItemValidationModel.ConditionsFacts` | pos_next/validations.py:30-42 | the selection admits exactly the enabled items that contain the text in the search field or the item name, when text is given, and that belong to the filter's company or to none, when a company is given |
| `ItemValidation.BuildItemQuery` | pos_next/validations.py:22-56 | the step-by-step construction produces exactly the specified query and values |
| `WorkerClientModel.Initial` | POS/src/utils/offline/workerClient.js:7-13 | the constructor's state (no worker, id 0, nothing pending, not ready, server online) satisfies the client invariant |
| `WorkerClientModel.SentFacts` | POS/src/utils/offline/workerClient.js:68-77 | a request takes the current id, which was never pending or settled; the counter moves one past it; the request becomes the only new pending entry and is posted with that id; a worker exists afterwards |
| `WorkerClientModel.ReceivedFacts` | POS/src/utils/offline/workerClient.js:25-54 | status messages change only the ready and server-online flags; replies for an unknown or missing id change nothing; a reply for a pending id removes it and resolves it on SUCCESS, rejects it with the payload's message on ERROR, and leaves it unsettled for any other type |
| `WorkerClientModel.SettlesOnce` | POS/src/utils/offline/workerClient.js:44-53 | a timeout after the reply does nothing and a second timeout does nothing, so a request settles at most once; a timeout of a pending request rejects it with "Worker message timeout: " and its type (see also lines 80-85) |
| `WorkerClientModel.LifecycleFacts` | POS/src/utils/offline/workerClient.js:15-16 | `init` is idempotent and leaves a worker; `terminate` removes the worker and clears ready while keeping pending requests; a later `init` starts a new worker (see also lines 142-148) |
| `WorkerClientModel.SentValid` | POS/src/utils/offline/workerClient.js:73-75 | sending keeps every pending and settled id below the counter and keeps settlements unique |
| `WorkerClientModel.SettleValid` | POS/src/utils/offline/workerClient.js:44-53 | settling a pending request and removing it keeps the client invariant (see also lines 80-85) |
| `WorkerClientModel.StepValid` | POS/src/utils/offline/workerClient.js:15-148 | every event keeps the client invariant; the id counter never decreases and settlements are only appended |
| `WorkerClientModel.RunValid` | POS/src/utils/offline/workerClient.js:7-148 | from the constructor on, under any sequence of events, no request settles twice and only handed-out ids are pending or settled |
| `WorkerClient.OfflineWorkerClient.constructor` | POS/src/utils/offline/workerClient.js:7-13 | the fields start in the initial state |
| `WorkerClient.OfflineWorkerClient.Init` | POS/src/utils/offline/workerClient.js:15-66 | the new state is that of the init rule |
| `WorkerClient.OfflineWorkerClient.SendMessage` | POS/src/utils/offline/workerClient.js:68-87 | the new state and the returned id are those of the send rule, and the invariant is kept |
| `WorkerClient.OfflineWorkerClient.OnMessage` | POS/src/utils/offline/workerClient.js:25-54 | the new state is that of the receive rule, and the invariant is kept |
| `WorkerClient.OfflineWorkerClient.OnTimeout` | POS/src/utils/offline/workerClient.js:80-85 | the new state is that of the timeout rule, and the invariant is kept |
| `WorkerClient.OfflineWorkerClient.Terminate` | POS/src/utils/offline/workerClient.js:142-148 | the new state is that of the terminate rule |

## Left out

- Network and RPC: `frappe.call`, `createResource`, `fetch` pings, Socket.IO and `frappe.publish_realtime`. Answers are method parameters; published events are returned values.
- Timers and interleaving: debounce, the batch timer, `setInterval` sync, the 30 s worker timeout and the CSRF single-flight promise. A timer firing is an explicit event.
- Storage engines: Dexie/IndexedDB, localStorage and the Frappe ORM/SQL are maps and sequences of rows. The version of `getSchemaVersion` stored in localStorage is a field.
- Permissions and role checks: boolean parameters.
- ERPNext helpers (`get_item_details`, `get_batch_qty`, `get_exchange_rate`, pricing-rule application): parameters or oracles.
- Floating point: money is `real`, and `toFixed`/`flt` rounding is modelled only where the formatters print digits.
- Locale formatting: not modelled.
- Clocks and randomness: `Date.now()`, `nowdate()` and random hashes are parameters.
- UI: toasts, Vue reactivity and printing.
- Stock check before adding to the cart: `checkStockAvailability`/`formatStockError` belong to a stock validator that is not part of this model. Its verdict is a parameter.
- StockChecked (`PosCartModel.StockChecked`): an item whose `actual_qty` is `null` skips the stock check in the source; the modelled catalog item always carries a quantity (`stockQty`), so this skip is not modelled.
- `posDrafts.js`, `posSync.js`, `useOffline.js` and `offline/index.js`: glue over collaborators that are not part of this model.
- `itemSearch.js` `setSearchTerm` with a non-blank term: starts a server search, so only the clearing branch is modelled. The `searching` flag, which the clearing branch and `clearSearch` reset to false, is not modelled either, and neither is the debounce timer `clearSearch` cancels.
- `cache.js`:
  - `cacheItemsFromServer`, `cacheCustomersFromServer`: network fetch plus the same writes as `items.js`.
  - `searchCachedCustomers`: database query with no bookkeeping.
  - `getCachedItem`, `getCachedCustomer` and the trivial getters: single lookups.
- `items.js`:
  - `getCachedItems`, `getItemByBarcode`, `searchCachedItems`, `searchCachedCustomers`: database queries.
  - last-sync getters: single lookups.
  - `clearItemsCache`, `clearCustomersCache`: table clears.
- `db.js` `initDB`: the Dexie schema declaration.
- `csrf.js` `fetchLoggedUser` and logging: network and console output.
- `workerClient.js` API wrapper methods: each is a single `sendMessage` with a fixed type.
- `useFormatters.js` date and time formatters: locale formatting.
- `pos_coupon.py` `insert`: duplicate document names are not detected.
- `offers.py` `get_active_coupons` and `get_all_coupons`: database listings with no rule beyond the filters.
- `promotions.py`: left out as database reads and writes with no rule beyond their filters and field copies:
  - `update_promotion`, `delete_promotion`
  - `get_item_groups`, `get_brands`
  - `get_coupon_details`, `update_coupon`
  - `get_pos_offers`
  - `get_referral_codes`, `get_referral_details`
- `promotions.py` `get_promotion_details`: the Promotional Scheme branch is only distinguished (`SchemeDetails`), not expanded.
- `invoices.py`:
  - `submit_invoice`, `update_invoice`: only the return-payment negation is modelled; the rest drives ERPNext document methods.
  - `get_draft_invoices`, `get_returnable_invoices`: database listings.
  - `apply_offers`: calls ERPNext pricing rules.
  - `_auto_set_return_batches`: reads ERPNext batch data.
- `credit_sales.py` `get_credit_sale_summary` and `get_credit_invoices`: database listings.
- `items.py` `search_by_barcode`, `get_batch_serial_details` and `get_item_details`: calls into ERPNext.
- `shifts.py` `get_closing_shift_data`, `submit_closing_shift` and the payment-methods query: ERPNext closing-entry code.
- `posSettings.js` `loadSettings`: whether frappe-ui rejects after `onError` is not part of this model, so both endings are kept as outcomes.
- RemovePayment (`Invoice.Invoice.RemovePayment`): the class removes a payment only at an index in range, the index check `removePayment` evidently intends, so that the class keeps its cached paid total equal to the sum of the payments. The as-written `splice(index, 1)`, which removes the last payment on index -1 and leaves the cached total unchanged, is modelled by `InvoiceModel.RemovePaymentAsWritten` and shown by `InvoiceLemmas.RemovePaymentDrift`; the class does not perform it.
- SearchItems (`OfflineWorkerModel.SearchItems`): matches are returned in insertion order of the items table, where Dexie's `filter(...).limit(n)` returns primary-key order, so with more matches than the limit the model can keep a different prefix of them.
- SearchItemsFacts (`OfflineWorkerModel.SearchItemsFacts`): states membership, the limit and the order of the table as modelled (insertion order), not Dexie's primary-key order.
- SearchCustomers (`OfflineWorkerModel.SearchCustomers`): matches are returned in insertion order, not Dexie's primary-key order, so with more matches than the limit other customers can be kept.
- SearchCustomersFacts (`OfflineWorkerModel.SearchCustomersFacts`): states membership and the limit over insertion order, not Dexie's primary-key order.
- AvailableCredit (`CreditSalesModel.AvailableCredit`): the credit sources come in table order; the queries' `order_by posting_date desc` (credit_sales.py lines 120 and 150) is not modelled.
- AvailableCreditFacts (`CreditSalesModel.AvailableCreditFacts`): states which sources are listed and with what amounts, not their `posting_date desc` order.
- GetAvailableCredit (`CreditSales.GetAvailableCredit`): its loops return the sources in table order, not `posting_date desc`.
- PriceMap (`ItemApiModel.PriceMap`): reads the Item Price rows in table order, not the `ORDER BY item_code, uom` of items.py lines 391 and 557; that order decides which price `next(iter(...))` picks for a variant.
- VariantRate (`ItemApiModel.VariantRate`): the fallback price is the first listed in table order, not in `item_code, uom` order.
- EnrichedVariantFacts (`ItemApiModel.EnrichedVariantFacts`): "its first listed price" is the first in table order, not in `item_code, uom` order.
- EnrichVariants (`ItemApi.EnrichVariants`): inherits the table-order fallback price of `VariantRate`.
- ToLower (`Common.ToLower`): folds only ASCII letters; JavaScript's `toLowerCase` also folds non-ASCII letters. Coupon-code lookup, barcode search and CSRF message matching inherit this.
- ToUpper (`Common.ToUpper`): folds only ASCII letters; Python's `str.upper` also folds non-ASCII letters (and can lengthen a string, as "ß" becomes "SS"). Coupon and referral codes inherit this.
- StripLeft, StripRight, Strip (`CouponModel`): strip only ASCII blanks (space, tab, newline, carriage return, form feed, vertical tab); Python's `str.strip` also strips the ASCII separators U+001C to U+001F and Unicode whitespace such as U+00A0.
- IsDigit, NonDigits (`CouponModel`): treat only '0' to '9' as digits; Python's `str.isdigit` also accepts other Unicode digits.
- ConditionsFacts (`ItemValidationModel.ConditionsFacts`): reads SQL `LIKE '%txt%'` as a case-sensitive substring test; under MariaDB's default collation `LIKE` ignores case (and accent differences), so the database can match more items than the model says. It also takes `%` and `_` in the user's text literally, where `LIKE` reads them as wildcards (any run of characters, any one character), so a search text holding them can match further items.
- ApplyServerDiscounts (`PosCartModel.ApplyServerDiscounts`, `PosCart.Cart.ApplyServerDiscounts`): runs the corrected pass, the server loop followed by a rebuild of the cached totals. `applyServerDiscounts` (posCart.js lines 175-188) never rebuilds, so its cached discount drifts (`PosCartLemmas.ServerDiscountDrift`, `ServerPassDrift`). The loop as written is `PosCart.Cart.ServerLoop`.
- ApplyOffer (`PosCart.Cart.ApplyOffer`): goes through the corrected `ApplyServerDiscounts`, so its cart ends with cached totals equal to the rebuild, where `applyOffer` as written leaves them drifted.
- ApplyOfferFacts (`PosCartLemmas.ApplyOfferFacts`): its `Valid` of the resulting invoice holds for the corrected pass only; it is not a promise of `applyOffer` as written.
- ReapplyOffer (`PosCart.Cart.ReapplyOffer`): goes through the corrected `ApplyServerDiscounts`, as `ApplyOffer` does.
- ReapplyOfferFacts (`PosCartLemmas.ReapplyOfferFacts`): its `Valid` of the resulting invoice holds for the corrected pass only.
- ChangeItemUom (`PosCart.Cart.ChangeItemUom`): runs the corrected unit switch, which moves the cached totals by the line's delta. `changeItemUOM` (posCart.js lines 326-331) only recalculates the line and leaves the cache as it was (`PosCartLemmas.ChangeUomDrift`).
- SanitizeTerm (`PromotionsModel.SanitizeTerm`): keeps only ASCII letters, digits, `_`, `-` and ASCII blanks. Python's `\w` and `\s` on a `str` are Unicode, so "café" keeps its "é" and an Arabic term is kept whole in the source, while the model strips them.
- SanitizeFacts (`PromotionsModel.SanitizeFacts`): its word characters are the ASCII ones of `SanitizeTerm`.
- SearchItemsFacts (`PromotionsModel.SearchItemsFacts`): the 2-to-100-character term it states is the ASCII-only sanitised term, so a non-ASCII term the source searches can be refused as too short.
- Search (`Promotions.SearchLimiter.Search`): inherits the ASCII-only `SanitizeTerm`.
- PendingMembers (`OfflineSyncModel.PendingMembers`): reads `where('synced').equals(false)` as the filter `synced === false`, as the worker's `.filter(inv => inv.synced === false)` does. As written that query rejects, since a boolean is not an IndexedDB key (`SyncAsWrittenStuck`, and "## Findings").
- FailedStillPending (`OfflineSyncModel.FailedStillPending`): rests on the same reading of the pending query.
- PurgedMembers (`OfflineSyncModel.PurgedMembers`): reads `where('synced').equals(true)` as a filter; as written it rejects too.
- GetOfflineInvoices (`OfflineSync.OfflineStore.GetOfflineInvoices`): returns the unsynced entries; as written the query rejects and the catch returns [] (`GetOfflineInvoicesAsWritten`).
- GetOfflineInvoiceCount (`OfflineSync.OfflineStore.GetOfflineInvoiceCount`): counts the unsynced entries; as written the catch returns 0 (`GetOfflineInvoiceCountAsWritten`).
- PurgeSynced (`OfflineSync.OfflineStore.PurgeSynced`): deletes through the `synced` query read as a filter.
- SyncOfflineInvoices (`OfflineSync.OfflineStore.SyncOfflineInvoices`): submits the unsynced entries; as written it finds none and returns {0, 0} (`SyncAsWritten`).
- ParseInt (`OfflineDbModel.ParseInt`): does not skip leading whitespace and does not accept a `+` sign, both of which JavaScript's `parseInt` accepts. The versions it reads are written by `toString`, which produces neither.
- ParseFloatText (`PosSettingsModel.ParseFloatText`): does not skip leading whitespace and accepts neither a `+` sign nor an exponent (`1e3`), all of which JavaScript's `parseFloat` accepts.
- PushKey (`RealtimeStockModel.PushKey`): an absent field is written "undefined". A field the server sends as `null` is written "null" by the template literal, and the model does not tell `null` from absent.
- PutCustomers (`OfflineWorkerModel.PutCustomers`): stores a customer without a `name` under "". Dexie's `bulkPut` rejects a row without its primary key.

## Findings

| source | as written | input that shows it | evidently intended | confidence | as-written member | corrected member |
|---|---|---|---|---|---|---|
| POS/src/stores/posCart.js:180-187 | `applyServerDiscounts` writes the server's `discount_amount` onto the line before `updateItemQuantity` reads that field as the old discount | a one-line cart with discount 5 that the server reprices to 3 | the cached discount and totals equal the rebuild after the pass | not executed | `PosCartLemmas.ServerDiscountDrift` | `PosCartLemmas.ApplyServerDiscountsValid` |
| POS/src/stores/posCart.js:326-331 | `changeItemUOM` recalculates the line but never updates the cached totals | switching a line to a unit with a different rate | the cache moves with the line, as after every other mutator | not executed | `PosCartLemmas.ChangeUomDrift` | `PosCartLemmas.ChangeUomValid` |
| POS/src/composables/useInvoice.js:526-532 | `removePayment(-1)` finds no payment to subtract, but `splice(-1, 1)` removes the last one | `removePayment(-1)` with one payment of 10 | an out-of-range index changes nothing | not executed | `InvoiceLemmas.RemovePaymentDrift` | `InvoiceLemmas.RemovePaymentValid` |
| POS/src/composables/useFormatters.js:68-71 | the trailing-zero strip also eats zeros of a whole number printed without a decimal point | `formatPercentage(100, 0)` gives "1%" | "100%" | not executed | `FormattersModel.PercentageHundredAsWritten` | `FormattersModel.PercentageCorrectedFacts` |
| pos_next/api/promotions.py:509-515 | the rate limit refuses when `call_count > 50` after counting | 51 searches within one minute are all served | at most 50 searches per minute | not executed | `PromotionsModel.SearchLimitAsWritten` | `PromotionsModel.SearchLimitCorrected` |
| pos_next/api/invoices.py:135-141 | `cint(... or 1)` turns a profile value of 0 into 1 | a POS profile that sets the blocking flag to 0 | a profile value of 0 turns blocking off | not executed | `InvoicesApiModel.ShouldBlockAsWrittenFacts` | `InvoicesApiModel.ShouldBlockFacts` |
| pos_next/api/invoices.py:653-657 | a page that is not a string is replaced by 1 | `page = 2` passed as a number returns the first window again | a numeric page selects its own window | not executed | `InvoicesApiModel.PageAsWrittenIgnoresNumbers` | `InvoicesApiModel.PageFacts` |
| POS/src/stores/itemSearch.js:689-700 | `applyStockUpdates` subtracts the cart reservation without clamping it at 0 | a cart quantity of -2 (a return line) over a server quantity of 5 shows 7 | the shown stock never exceeds the server's quantity | not executed | `ItemSearchModel.RestockedAsWrittenInflates` | `ItemSearchModel.RestockedShown` |
| pos_next/realtime_events.py:60-70 | the stock lookup is keyed by the string `item_code + "\|" + warehouse` | an invoice with item "A\|B" in warehouse "C" and item "A" in warehouse "B\|C", with a Bin only for the first | the lookup is by the pair (item, warehouse) | not executed | `RealtimeEventsModel.EventKeyCollision` | `RealtimeEventsModel.LookupAgreesWithoutBar` |
| pos_next/pos_next/doctype/referral_code/referral_code.py:209-232 | the referee coupon is inserted with no `coupon_code`, so `autoname` derives it from the coupon name's first word | any two referees: both get the code "WELCOME " | each welcome coupon gets its own code | not executed | `ReferralModel.RefereeCodeAsWritten` | `ReferralModel.RefereeCodeCorrected` |
| POS/src/utils/offline/sync.js:51-88 | `where('synced').equals(false)` queries the `synced` index with a boolean, which is not an IndexedDB key, so the query rejects and the catch returns [] | a reachable server and a queue holding one unsynced invoice: the sync returns {0, 0} and the invoice stays queued | the pending entries are those with `synced === false`, as the worker's `.filter(inv => inv.synced === false)` finds them | not executed | `OfflineSyncModel.SyncAsWrittenStuck` | `OfflineSyncModel.SyncSubmitsPending` |

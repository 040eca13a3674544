# cashiercounter purchase discounts and cashier collections — a Dafny model

This project models the core business rules of the cashiercounter app for
ERPNext. It covers:

- the purchase **discount engine** (`DiscountCalculator`): an item-wise or
  invoice-wise discount, then seasonal promotions, then a turnover incentive,
  then the document totals, all accumulated in one running discount total;
- the hook that runs the engine on Purchase Invoices and Purchase Estimates,
  the estimate approval gate and the estimate-to-invoice copy;
- the **scheduled tasks**: the credit-note reminder advance, the date-driven
  promotion activation sweep, and the nightly supplier turnover incentive
  with its per-day upserted snapshot;
- the **Cashier Collection** document: received total, discount check,
  duplicate-invoice check, required ledgers, and the payment entries created
  on submit;
- the **Purchase Estimate** controller: totals, title, status on submit and
  cancel, and the guarded conversion to an invoice;
- the validators and cache invalidation of **Purchase Discount Agreement**,
  **Turnover Incentive** and **Seasonal Promotion**;
- the WHERE-clause builder and column list of the **Purchase Discount
  Analysis** report;
- the line arithmetic of the **Purchase Invoice** and **Purchase Estimate**
  form scripts.

Each source file has its own module:

| module | file |
|---|---|
| `Basics` | the option and outcome types, `PercentOf`, the framework cache (`Cache`) |
| `Documents` | line items, the `PurchaseDocument` class shared by the server and both forms, posted invoices and the trailing-year purchase query |
| `DiscountCalculations` | `purchase/discount_calculations.py` |
| `Tasks` | `purchase/tasks.py` |
| `CashierCollections` | `cashier/doctype/cashier_collection/cashier_collection.py` |
| `PurchaseEstimates` | `purchase/doctype/purchase_estimate/purchase_estimate.py` |
| `DiscountAgreements`, `TurnoverIncentives`, `SeasonalPromotions` | the three record doctypes |
| `PurchaseDiscountAnalysis` | the report |
| `PurchaseInvoiceForm`, `PurchaseEstimateForm` | `public/js/purchase_invoice.js`, `public/js/purchase_estimate.js` |

Code that updates state in place is modelled in the same form:

- `DiscountCalculator`, `CashierCollection` and `TaskStore` are classes.
  Their methods have field-level `modifies` frames and loops with
  invariants.
- `DiscountCalculator`'s stages update a `PurchaseDocument` object. Each
  stage method is proved equal to a pure stage function over `DocState`, a
  value copy of the document's discount fields. `Engine` composes those
  stage functions into the whole pass. `ApplyLaterStages` groups the three
  calls that follow the first stage (promotions, incentive, totals) so that
  each half of `apply_all_discounts` is proved on its own.
- The properties of the pipeline are proved about `Engine` and the stage
  functions, in lemmas named after them (`EngineSpec`, `ItemWiseStageSpec`,
  `PromotionStageSpec`, `LaterStagesSpec`). A stage function itself only
  computes.

How the environment is represented:

- A `frappe.throw` is a `Fail(message)` outcome.
- The record store is passed in as sequences and maps. Store order stands in
  for the framework's unspecified query order.
- `today` is an integer day number.
- Money and percentages are exact `real`s. Every "amount × percentage / 100"
  is written through `Basics.PercentOf`.

In these places the code does something a reader might not expect; the model follows the code:

- The engine's turnover incentive is a percentage of the document total, not
  of the supplier's turnover. The turnover only chooses the tier.
- Promotions add to a line's existing discount, so they stack. Each one
  overwrites the line's promotion label.
- The totals are finalised only when the running total is positive.
- The estimate form subtracts line discounts from its total. The estimate
  controller's `calculate_totals` does not.
- The estimate form never loads a supplier discount cache: nothing in
  purchase_estimate.js assigns `frm._supplier_discounts`, which only the
  invoice form sets (public/js/purchase_invoice.js:108). So its
  `apply_estimate_item_discount` never changes a line. The model states what
  the handler would do with a cache, and `EstimateFormWithoutCache` states
  what it actually does.

## Model

| member | source | states |
|---|---|---|
| Basics.Cache.DeleteValue | purchase/doctype/seasonal_promotion/seasonal_promotion.py:18-20 | deleting a key removes exactly that key and nothing else |
| Documents.YearlyPurchaseAppend | purchase/discount_calculations.py:181-195 | adding a posted invoice adds its grand total to the supplier's trailing-year purchases exactly when it is in the 365-day window, submitted and from that supplier |
| Documents.YearlyPurchaseOfUncounted | purchase/discount_calculations.py:195 | with no matching submitted invoice in the window the purchase amount is 0 (the empty `SUM` case) |
| DiscountAgreements.ValidateDates | purchase/doctype/purchase_discount_agreement/purchase_discount_agreement.py:15-18 | passes iff `valid_to` is unset or the start day is at most `valid_to`, so equal dates are accepted; an unset `valid_from` reads as today, as `getdate` does; otherwise it fails with the dates message |
| DiscountAgreements.ValidateDiscount | purchase/doctype/purchase_discount_agreement/purchase_discount_agreement.py:20-23 | passes iff 0 < percentage <= 100 |
| DiscountAgreements.HasConflict | purchase/doctype/purchase_discount_agreement/purchase_discount_agreement.py:27-35 | holds iff some other active agreement (different name) has the same supplier and item |
| DiscountAgreements.CheckDuplicate | purchase/doctype/purchase_discount_agreement/purchase_discount_agreement.py:25-38 | passes iff no stored agreement conflicts; otherwise it fails with the message naming supplier and item |
| DiscountAgreements.Validate | purchase/doctype/purchase_discount_agreement/purchase_discount_agreement.py:10-13 | passes iff all three checks pass; the first failing check, in the order dates, discount, duplicate, gives the message |
| DiscountAgreements.ResavePasses | purchase/doctype/purchase_discount_agreement/purchase_discount_agreement.py:25-38 | re-saving an agreement whose only same-supplier-and-item record is itself passes the duplicate check |
| DiscountAgreements.DiscountCacheKey | purchase/doctype/purchase_discount_agreement/purchase_discount_agreement.py:40-41 | the key is the 19-character prefix `supplier_discounts_` followed by the supplier |
| DiscountAgreements.DiscountCacheKeyInjective | purchase/doctype/purchase_discount_agreement/purchase_discount_agreement.py:40-41 | different suppliers have different cache keys, so saving one agreement never invalidates another supplier's cache |
| DiscountAgreements.OnUpdate | purchase/doctype/purchase_discount_agreement/purchase_discount_agreement.py:40-41 | only that supplier's discount key leaves the cache |
| TurnoverIncentives.ValidateDates | purchase/doctype/turnover_incentive/turnover_incentive.py:14-18 | fails iff both dates are set and from > to |
| TurnoverIncentives.ValidateAmounts | purchase/doctype/turnover_incentive/turnover_incentive.py:20-26 | passes iff `min_turnover > 0` and 0 < percentage <= 100; a non-positive threshold is reported first |
| TurnoverIncentives.Validate | purchase/doctype/turnover_incentive/turnover_incentive.py:10-12 | passes iff both checks pass; the dates are checked before the amounts |
| TurnoverIncentives.OnUpdate | purchase/doctype/turnover_incentive/turnover_incentive.py:28-29 | only `active_incentive_schemes` leaves the cache |
| TurnoverIncentives.SelectTier | purchase/discount_calculations.py:125-137 | no tier iff no active tier has `min_turnover <= X`; otherwise the result is such a tier, and every eligible tier's threshold is at most its threshold |
| TurnoverIncentives.SelectTierMonotone | purchase/tasks.py:125-139 | a larger turnover never selects a tier with a lower threshold |
| TurnoverIncentives.CapIncentive | purchase/discount_calculations.py:144-146 | a positive maximum bounds the amount and replaces it only when exceeded; a maximum of 0 leaves the amount unchanged |
| SeasonalPromotions.ValidateDates | purchase/doctype/seasonal_promotion/seasonal_promotion.py:13-16 | passes iff `start_date <= end_date`, so a one-day promotion is accepted |
| SeasonalPromotions.Validate | purchase/doctype/seasonal_promotion/seasonal_promotion.py:10-11 | validation is exactly the date check |
| SeasonalPromotions.OnUpdate | purchase/doctype/seasonal_promotion/seasonal_promotion.py:18-20 | only `active_promotions` leaves the cache |
| SeasonalPromotions.OnTrash | purchase/doctype/seasonal_promotion/seasonal_promotion.py:22-23 | deleting a promotion removes the same key |
| DiscountCalculations.FirstAgreement | purchase/discount_calculations.py:168-176 | the index of the first active agreement for that supplier and item in store order, or none when there is no such agreement |
| DiscountCalculations.SupplierDiscountSpec | purchase/discount_calculations.py:164-179 | a non-zero result is the percentage of a matching active agreement; with no match it is 0 |
| DiscountCalculations.ItemWiseStep | purchase/discount_calculations.py:57-64 | one more line adds its discount to the running sum, and it overwrites that item code's entry in `item_wise_discounts` exactly when its rate is positive |
| DiscountCalculations.ItemWiseStageSpec | purchase/discount_calculations.py:46-64 | only the lines change; a line with agreement rate R > 0 gets percentage R, discount `amount·R/100` and rate `rate − rate·R/100`; a line whose agreement rate is not positive is untouched; on undiscounted lines the stage adds exactly the discounts it writes |
| DiscountCalculations.InvoiceWiseStage | purchase/discount_calculations.py:66-81 | fails iff a supplier is named that does not exist; with no supplier or a default ≤ 0 nothing changes; otherwise only the header `discount_amount = total·D/100` and `additional_discount_percentage = D` change, and that amount is added |
| DiscountCalculations.ActivePromotions | purchase/discount_calculations.py:88-96 | a promotion is used iff it is stored, active and `start ≤ today ≤ end` |
| DiscountCalculations.PromotionStageSpec | purchase/discount_calculations.py:98-114 | only line discounts and labels change; each line's discount grows by the stacked amounts of the running promotions that apply to it, its label is the last such promotion's name, and the running total grows by exactly the growth of the line discounts |
| DiscountCalculations.IncentiveStage | purchase/discount_calculations.py:116-149 | only `turnover_incentive` changes; there is no incentive without a supplier, an eligible tier and a positive rate; otherwise the incentive is `doc.total·rate/100`, replaced by a positive maximum when it exceeds it, and the same amount is added |
| DiscountCalculations.EngineSpec | purchase/discount_calculations.py:20-44 | the pass fails iff an invoice-wise discount names a missing supplier; with discounts off nothing changes; supplier, total, type and lines are kept; item-wise and invoice-wise exclude each other and neither runs for any other type; a positive running total sets the total discount, the grand total `total − running` and, when total > 0, the effective percentage; otherwise these three fields are unchanged |
| DiscountCalculations.LaterStagesSpec | purchase/discount_calculations.py:33-41 | promotions, incentive and totals keep supplier, total, type, the invoice-wise header fields and every line's code, quantity, amount, rate and percentage; the totals are written only for a positive running total |
| DiscountCalculations.LaterStagesBreakdown | purchase/discount_calculations.py:33-41 | from a document without an incentive, the later stages add exactly the growth of the line discounts plus the incentive they leave |
| DiscountCalculations.PromoFoldKeepsLines | purchase/discount_calculations.py:104-112 | promotions never change a line's code, quantity, amount, rate or percentage |
| DiscountCalculations.SumDiscountOfUndiscounted | purchase/discount_calculations.py:110 | lines without a discount sum to 0 |
| DiscountCalculations.ItemWiseBreakdown | purchase/discount_calculations.py:57-64 | on undiscounted lines, the item-wise addition equals the sum of the line discounts it writes |
| DiscountCalculations.PromotionBreakdown | purchase/discount_calculations.py:104-114 | one promotion adds to the running total exactly what it adds to the line discounts |
| DiscountCalculations.PromoFoldBreakdown | purchase/discount_calculations.py:98-114 | the same holds for all running promotions in order |
| DiscountCalculations.EngineBreakdown | purchase/discount_calculations.py:20-162 | on a document without earlier discounts, the running total is the sum of the line discounts, the invoice discount and the incentive left on the document |
| DiscountCalculations.PromoFoldLine | purchase/discount_calculations.py:104-112 | on each line the promotions' amounts stack and the label is that of the last applicable promotion |
| DiscountCalculations.PromoFoldLines | purchase/discount_calculations.py:104-112 | the same for every line at once |
| DiscountCalculations.PromotionAddedOfSameLines | purchase/discount_calculations.py:107 | what a promotion adds depends only on the lines' codes and amounts |
| DiscountCalculations.PromoFoldAddedOfSameLines | purchase/discount_calculations.py:98-114 | the same for all running promotions |
| DiscountCalculations.PromotionRerunAddsAgain | purchase/discount_calculations.py:110-114 | the promotion stage is not idempotent: rerunning it on its own result, which happens on every save, adds the same promotions again |
| DiscountCalculations.ItemWiseRerunCompounds | purchase/discount_calculations.py:58-61 | rerunning the item-wise stage writes the same line discount again but discounts the already discounted rate, giving `rate·(1 − R/100)²` |
| DiscountCalculations.WorkedPass | purchase/discount_calculations.py:20-162 | a concrete pass: total 1000 with a 10% agreement, a 5% promotion and a 5% tier capped at 20000, on 600000 of turnover. It yields line discount 150, rate 90, incentive 50, running total 200, grand total 800 and effective 20%, while 5% of the turnover would have been 20000 |
| DiscountCalculations.DiscountCalculator.constructor | purchase/discount_calculations.py:15-18 | the calculator starts with running total 0 and an empty dictionary |
| DiscountCalculations.DiscountCalculator.ApplyAllDiscounts | purchase/discount_calculations.py:20-44 | the document's new state and the running total are the result of `Engine`; when the engine fails the document is unchanged and the message is wrapped in "Error in discount calculation: "; the dictionary is filled only by an enabled item-wise pass |
| DiscountCalculations.DiscountCalculator.ApplyLaterStages | purchase/discount_calculations.py:33-41 | promotions, incentive and totals applied in that order to the document leave it, and the running total, as the later stages compute them |
| DiscountCalculations.DiscountCalculator.ApplyItemWiseDiscounts | purchase/discount_calculations.py:46-64 | the loop leaves the lines, the running total and the dictionary as the item-wise stage prescribes |
| DiscountCalculations.DiscountCalculator.ApplyInvoiceWiseDiscount | purchase/discount_calculations.py:66-81 | the invoice-wise stage in place, with the missing-supplier failure |
| DiscountCalculations.DiscountCalculator.ApplySeasonalPromotions | purchase/discount_calculations.py:83-114 | the nested loops leave the lines and running total as the promotion stage prescribes |
| DiscountCalculations.DiscountCalculator.ApplyPromotionToItems | purchase/discount_calculations.py:104-114 | one promotion's inner loop over the lines |
| DiscountCalculations.DiscountCalculator.ApplyTurnoverIncentives | purchase/discount_calculations.py:116-149 | the incentive stage in place |
| DiscountCalculations.DiscountCalculator.UpdateDocumentTotals | purchase/discount_calculations.py:151-162 | finalisation: the totals are written only when the running total is positive, and the effective percentage only when the total is positive |
| DiscountCalculations.ApplyDiscounts | purchase/discount_calculations.py:200-204 | only Purchase Invoices and Purchase Estimates are touched; for them the result is a fresh calculator's pass |
| DiscountCalculations.ValidatePurchaseEstimate | purchase/discount_calculations.py:207-213 | fails iff the document is a Purchase Estimate with total > 100000 and the user cannot approve |
| DiscountCalculations.InvoiceLines | purchase/discount_calculations.py:230-237 | the copied lines keep code, quantity, rate, amount, percentage and discount and have no promotion label, so quantity, amount and discount sums are preserved |
| DiscountCalculations.ConvertEstimateToInvoice | purchase/discount_calculations.py:216-252 | the draft copies supplier, today, the estimate reference, the lines and the discount header; the estimate becomes Converted and points at the new invoice |
| Tasks.DueNames | purchase/tasks.py:16-23 | every reminded name is that of a pending note whose reminder date has come, and every such note is reminded |
| Tasks.AdvanceReminder | purchase/tasks.py:29-36 | a due note's reminder moves to today + 3, so it is no longer due; other notes are unchanged |
| Tasks.Refresh | purchase/tasks.py:50-74 | only `is_active` changes; an inactive promotion starting today becomes active unless already expired; an expired one becomes inactive; every other promotion is unchanged |
| Tasks.SweepKeepsFlagInStep | purchase/tasks.py:45-74 | if the flag matched the promotion's window yesterday, it matches today after the sweep |
| Tasks.SupplierIncentive | purchase/tasks.py:104-147 | no award iff the trailing-year turnover is not positive or no active tier is reached; otherwise the award is the chosen tier's percentage of the turnover, at most a positive cap, and exactly the percentage when uncapped |
| Tasks.SchedulerCapAgreesWithEngine | purchase/tasks.py:142-144 | the scheduler's `min` cap and the engine's cap agree |
| Tasks.FindSnapshot | purchase/tasks.py:157-164 | the existing record for (supplier, date), which is the first one with that key |
| Tasks.WithKey | purchase/tasks.py:157-164 | a record is selected iff it is stored and has the given supplier and date |
| Tasks.UpsertedKeys | purchase/tasks.py:153-181 | after the upsert, exactly one record exists for (supplier, today), holding the new values, and every other key's records are unchanged |
| Tasks.UpsertTwiceSameKey | purchase/tasks.py:153-181 | upserting twice on the same day equals upserting the second value once, so no duplicate appears |
| Tasks.EnabledNames | purchase/tasks.py:93 | the batch visits exactly the suppliers that are not disabled |
| Tasks.BatchOutcome | purchase/tasks.py:89-101 | after the nightly batch, each enabled supplier with an award and no failure has exactly its fresh record for today; a failing supplier's records are untouched and do not stop the others; records of any other day are untouched; keys stay unique |
| Tasks.TaskStore.SendCreditNoteReminders | purchase/tasks.py:12-42 | returns the due notes and advances each due note's reminder, leaving the rest |
| Tasks.TaskStore.UpdatePromotionStatus | purchase/tasks.py:45-86 | every promotion becomes its refreshed value, and `active_promotions` leaves the cache |
| Tasks.TaskStore.CreateSupplierIncentiveRecord | purchase/tasks.py:153-184 | the store becomes the upserted store |
| Tasks.TaskStore.CalculateSupplierIncentive | purchase/tasks.py:104-150 | the store becomes one supplier's step: unchanged on a fault or no award, upserted otherwise |
| Tasks.TaskStore.CalculateTurnoverIncentives | purchase/tasks.py:89-101 | the loop over enabled suppliers leaves the store as the batch prescribes |
| CashierCollections.DiscountOrZero | cashier/doctype/cashier_collection/cashier_collection.py:14 | an unset or zero discount counts as 0 |
| CashierCollections.Invoices | cashier/doctype/cashier_collection/cashier_collection.py:17-18 | the rows' invoices in order |
| CashierCollections.FirstDuplicateSpec | cashier/doctype/cashier_collection/cashier_collection.py:15-20 | no duplicate iff the invoices are pairwise distinct; a reported invoice occurs twice |
| CashierCollections.FirstDuplicateOfPrefix | cashier/doctype/cashier_collection/cashier_collection.py:17-19 | the reported duplicate is the one found first in table order |
| CashierCollections.DuplicateCheck | cashier/doctype/cashier_collection/cashier_collection.py:15-20 | passes iff all invoices are distinct |
| CashierCollections.LedgersCheck | cashier/doctype/cashier_collection/cashier_collection.py:21-24 | passes iff both ledgers are selected |
| CashierCollections.PayingRows | cashier/doctype/cashier_collection/cashier_collection.py:28-29 | the rows with `received > 0`, in table order, no more of them than rows |
| CashierCollections.PayingRowsMembers | cashier/doctype/cashier_collection/cashier_collection.py:28-29 | a row is among the paying rows iff it is in the table and has `received > 0` |
| CashierCollections.PaymentEntriesOfPayingRows | cashier/doctype/cashier_collection/cashier_collection.py:27-50 | as many entries as paying rows, the m-th built from the m-th paying row |
| CashierCollections.PaymentEntriesSpec | cashier/doctype/cashier_collection/cashier_collection.py:27-50 | every entry receives from the customer into the given ledgers for the company, date and mode of payment, paying, receiving and allocating a paying row's amount against that row's Sales Invoice; conversely every row with `received > 0` gets its entry; the entries are the paying rows', one each, in table order |
| CashierCollections.PaidSumAppend | cashier/doctype/cashier_collection/cashier_collection.py:42 | paid sums add up entry by entry |
| CashierCollections.PaymentEntriesCoverTotal | cashier/doctype/cashier_collection/cashier_collection.py:9-14 | when no receipt is negative, the entries pay exactly the collection's `amount` |
| CashierCollections.CashierCollection.constructor | cashier/doctype/cashier_collection/cashier_collection.py:4 | a collection starts with its fields as given and zero totals |
| CashierCollections.CashierCollection.CalculateTotals | cashier/doctype/cashier_collection/cashier_collection.py:9-14 | fails iff a discount is set and exceeds the received total, and then assigns nothing; otherwise `amount` is the total (missing receipts as 0) and `payable_amount = amount − discount`, which is ≥ 0 when a discount is given |
| CashierCollections.CashierCollection.PreventDuplicateInvoices | cashier/doctype/cashier_collection/cashier_collection.py:15-20 | the seen-set loop gives exactly the duplicate check |
| CashierCollections.CashierCollection.LedgersSelected | cashier/doctype/cashier_collection/cashier_collection.py:21-24 | passes iff both ledgers are set |
| CashierCollections.CashierCollection.Validate | cashier/doctype/cashier_collection/cashier_collection.py:5-8 | totals, then duplicates, then ledgers; the first failing check wins; a failed discount check leaves both totals as they were, otherwise they are set before the other checks run |
| CashierCollections.CashierCollection.CreatePaymentEntries | cashier/doctype/cashier_collection/cashier_collection.py:25-52 | on submit the paying rows' entries are produced; a row with no received value stops the loop with a type error, as comparing it with 0 does |
| PurchaseEstimates.PricedLines | purchase/doctype/purchase_estimate/purchase_estimate.py:19-20 | every line's amount becomes quantity × rate and nothing else changes |
| PurchaseEstimates.PricedLinesIdempotent | purchase/doctype/purchase_estimate/purchase_estimate.py:19-20 | pricing twice equals pricing once |
| PurchaseEstimates.PricedLinesKeepQty | purchase/doctype/purchase_estimate/purchase_estimate.py:16-22 | pricing keeps the total quantity |
| PurchaseEstimates.CalculateTotals | purchase/doctype/purchase_estimate/purchase_estimate.py:14-29 | the lines are priced, `total_qty` and `total` are the sums of quantity and amount, and `grand_total = total − total_discount_amount` |
| PurchaseEstimates.SetTitle | purchase/doctype/purchase_estimate/purchase_estimate.py:31-34 | the title becomes "PE from <supplier name>" only when the name is non-empty |
| PurchaseEstimates.Validate | purchase/doctype/purchase_estimate/purchase_estimate.py:10-12 | totals, then title |
| PurchaseEstimates.OnSubmit | purchase/doctype/purchase_estimate/purchase_estimate.py:36-38 | status Submitted |
| PurchaseEstimates.OnCancel | purchase/doctype/purchase_estimate/purchase_estimate.py:40-42 | status Cancelled |
| PurchaseEstimates.ConvertGuard | purchase/doctype/purchase_estimate/purchase_estimate.py:45-52 | passes iff the estimate is not yet converted and is submitted; the converted check comes first |
| PurchaseEstimates.ConvertToInvoice | purchase/doctype/purchase_estimate/purchase_estimate.py:44-64 | a failed guard changes nothing; otherwise the invoice draft is produced and the estimate is Converted, pointing at the invoice |
| PurchaseDiscountAnalysis.ClausesUpTo | purchase/report/purchase_discount_analysis/purchase_discount_analysis.py:106-119 | a clause is among the first n iff its filter is truthy |
| PurchaseDiscountAnalysis.Clauses | purchase/report/purchase_discount_analysis/purchase_discount_analysis.py:106-119 | each of the five clauses is present iff its filter is truthy; a 0 minimum or an empty string adds none |
| PurchaseDiscountAnalysis.GivenIndices | purchase/report/purchase_discount_analysis/purchase_discount_analysis.py:106-119 | the positions of the truthy filters among the first n keys, strictly increasing |
| PurchaseDiscountAnalysis.ClausesInKeyOrder | purchase/report/purchase_discount_analysis/purchase_discount_analysis.py:106-119 | the clauses of the first n keys are the texts of the truthy keys' positions, one each, in key order |
| PurchaseDiscountAnalysis.ClausesOrdered | purchase/report/purchase_discount_analysis/purchase_discount_analysis.py:106-119 | the five-key clause list is in key order and has no clause twice |
| PurchaseDiscountAnalysis.Conditions | purchase/report/purchase_discount_analysis/purchase_discount_analysis.py:121 | "" iff no filter is truthy, otherwise " AND " followed by the clauses joined by " AND " |
| PurchaseDiscountAnalysis.ConditionsIgnoreValues | purchase/report/purchase_discount_analysis/purchase_discount_analysis.py:106-121 | the fragment depends only on which filters are truthy, never on their values |
| PurchaseDiscountAnalysis.ClausesUpToIgnoreValues | purchase/report/purchase_discount_analysis/purchase_discount_analysis.py:106-119 | the same for each prefix of the keys |
| PurchaseDiscountAnalysis.AllFiltersGiven | purchase/report/purchase_discount_analysis/purchase_discount_analysis.py:106-121 | with every filter truthy, all five clauses appear in the fixed key order |
| PurchaseDiscountAnalysis.GetConditions | purchase/report/purchase_discount_analysis/purchase_discount_analysis.py:102-121 | the sequence of appends gives exactly the specified fragment |
| PurchaseDiscountAnalysis.Fieldnames | purchase/report/purchase_discount_analysis/purchase_discount_analysis.py:16-75 | the columns' fieldnames in order |
| PurchaseDiscountAnalysis.GetColumns | purchase/report/purchase_discount_analysis/purchase_discount_analysis.py:16-75 | nine columns whose fieldnames are the SELECT aliases of lines 82-97, in order, none repeated |
| PurchaseInvoiceForm.FindSummary | public/js/purchase_invoice.js:154 | the first cached entry with the item's code, or none |
| PurchaseInvoiceForm.FindSummaryCons | public/js/purchase_invoice.js:154 | the lookup in a cache with one more entry in front finds that entry if it matches, otherwise the tail's match one place later |
| PurchaseInvoiceForm.SupplierSummaries | purchase/discount_calculations.py:259-270 | the cache holds an entry for an item and percentage iff the supplier has an active agreement with them; no more entries than agreements |
| PurchaseInvoiceForm.FindSummaryAgrees | purchase/discount_calculations.py:259-270 | the cache loaded for a supplier has an entry for an item iff the server finds an agreement, and the first entry carries the first agreement's percentage |
| PurchaseInvoiceForm.CachedPercentage | public/js/purchase_invoice.js:150-158 | nothing without a loaded cache; with a cache, nothing iff no entry has the item's code; a found percentage is that of the first entry with that code |
| PurchaseInvoiceForm.InvoiceItemDiscount | public/js/purchase_invoice.js:150-168 | no change without a cache or a match; on a match, percentage p, discount `amount·p/100` and rate `rate − rate·p/100` |
| PurchaseInvoiceForm.CacheLookupAgrees | purchase/discount_calculations.py:259-270 | the form's lookup in the cache loaded for a supplier finds an agreement iff the server's lookup does, and with the same percentage |
| PurchaseInvoiceForm.ClientMatchesServer | public/js/purchase_invoice.js:150-168 | where the server's item-wise stage discounts a line, the form discounts it identically |
| PurchaseInvoiceForm.ItemTotals | public/js/purchase_invoice.js:170-180 | with p > 0, the discount is `qty·rate·p/100` and amount + discount = qty·rate; otherwise amount = qty·rate and the old discount stays |
| PurchaseInvoiceForm.ResetLines | public/js/purchase_invoice.js:268-272 | every line's percentage and discount become 0 and its label "", keeping code, quantity, rate and amount |
| PurchaseInvoiceForm.ResetLinesClearDiscounts | public/js/purchase_invoice.js:262-273 | after a reset the lines carry no discount and keep their amounts |
| PurchaseInvoiceForm.CalculateAllDiscounts | public/js/purchase_invoice.js:127-128 | a server recalculation is requested iff discounts are switched on |
| PurchaseInvoiceForm.ApplyItemDiscount | public/js/purchase_invoice.js:150-168 | line i becomes its discounted value and no other line changes |
| PurchaseInvoiceForm.CalculateItemTotals | public/js/purchase_invoice.js:170-180 | line i is recomputed and no other line changes |
| PurchaseInvoiceForm.ResetDiscountValues | public/js/purchase_invoice.js:262-273 | the discount type is '', both header totals are 0, and every line is reset |
| PurchaseEstimateForm.EstimateItemDiscount | public/js/purchase_estimate.js:193-206 | on a match the percentage and discount are set; the rate is unchanged |
| PurchaseEstimateForm.EstimateFormWithoutCache | public/js/purchase_estimate.js:193-206 | with no cache loaded, which is the estimate form's only state, the discount handler leaves every line as it is |
| PurchaseEstimateForm.EstimateDiscountKeepsRate | public/js/purchase_estimate.js:193-206 | the estimate's discount is the invoice form's with the original rate kept |
| PurchaseEstimateForm.EstimateItemTotals | public/js/purchase_estimate.js:208-217 | the amount becomes qty·rate, and the discount is recomputed from it only when the percentage is > 0 |
| PurchaseEstimateForm.EstimateLinesSpec | public/js/purchase_estimate.js:231-236 | each counted line's amount is `qty·rate − discount`; a line with zero quantity or rate is untouched |
| PurchaseEstimateForm.EstimateLinesIdempotent | public/js/purchase_estimate.js:226-249 | recomputing the totals a second time changes no line |
| PurchaseEstimateForm.IncludedTotalsOfEstimateLines | public/js/purchase_estimate.js:226-249 | the counted quantity and amount are unchanged by the header pass, so the header totals are stable |
| PurchaseEstimateForm.ClientTotalsAgainstServer | public/js/purchase_estimate.js:226-249 | when every line is counted, the form's quantity equals the controller's and its total equals the controller's total less the line discounts |
| PurchaseEstimateForm.ResetTotalMatchesServer | public/js/purchase_estimate.js:343-357 | after a reset, with every line counted, the form's total equals the controller's total |
| PurchaseEstimateForm.PricedAmountsOfReset | public/js/purchase_estimate.js:343-357 | resetting discounts does not change the priced amounts |
| PurchaseEstimateForm.ApplyEstimateItemDiscount | public/js/purchase_estimate.js:193-206 | line i becomes its discounted value and no other line changes |
| PurchaseEstimateForm.CalculateEstimateTotals | public/js/purchase_estimate.js:226-249 | counted lines get their net amounts, `total_qty` and `total` sum over the counted lines, and `grand_total = total − total_discount_amount` |
| PurchaseEstimateForm.CalculateEstimateItemTotals | public/js/purchase_estimate.js:208-224 | line i is recomputed, then the header pass runs |
| PurchaseEstimateForm.ResetEstimateDiscounts | public/js/purchase_estimate.js:343-357 | all discount fields are cleared, then the header pass runs, so the grand total equals the total |

## Left out

- Frappe I/O is not modelled: `get_doc`, `get_all`, `get_value`, `db.sql`, `set_value`, `save`, `insert`, `submit`, `msgprint` and logging. Queries are lookups passed in; writes are updates of the modelled fields.
- The payment entries' `insert`/`submit` are not modelled. `CreatePaymentEntries` returns the entries.
- The company comes from the user's defaults, `frappe.defaults.get_user_default`. The model takes it as a parameter.
- The bare `except: return 0` fallbacks of the two lookups, discount_calculations.py:178 and :196, are not modelled; both lookups are total functions.
- Only the named failing supplier is modelled among the engine's error paths. Other framework exceptions are not modelled.
- The batch's per-supplier database failures are modelled as a `faults` set, a parameter; their causes are not modelled.
- Email sending is not modelled: `send_credit_note_reminder_email` and `get_users_with_role` are external notifications and a role query. The reminder model only advances dates and returns the reminded notes.
- `cleanup_old_records`, `get_purchase_analytics` and the `manual_*` wrappers in tasks.py are not modelled. They are raw SQL or thin wrappers.
- The analytics page, the dashboards, api/dashboard.py, hooks, setup and configuration are not modelled. They hold query wrappers and registration only.
- The report's `execute` and its SQL query (`get_data`) are not modelled. The database runs them.
- Binary floating point is not modelled. `flt` rounding and JavaScript number behaviour are replaced by exact reals, and every percentage is exact `x·p/100`.
- The framework's query order is not modelled. Store order stands for it, including the tie between tiers with equal thresholds.
- The form event wiring is not modelled: handlers, `frappe.call` round-trips, `refresh_field` and buttons.
  - One consequence: in the invoice form, `set_value` on `rate` fires the `rate` handler, which recomputes the line. The model has no event dispatch, so `ApplyItemDiscount` and `CalculateItemTotals` are separate operations.
  - The `fetch_*` helpers, `show_discount_breakdown` and `apply_default_invoice_discount` are left out for the same reason.
- `DiscountCalculations.ConvertEstimateToInvoice` stops at the invoice draft. `invoice_doc.save()` and `estimate_doc.save()` would run the save hooks again: the discount engine on the invoice, and validation on the estimate. The invoice's name is a parameter. The estimate fetched by name is modelled as the caller's own object, so aliasing between two copies is not modelled.
- `PurchaseEstimates.ConvertToInvoice`: the source writes `status` and `converted_invoice` twice. The first write is on a freshly loaded copy inside `convert_estimate_to_invoice` (discount_calculations.py:248-250). The second is on the estimate itself (purchase_estimate.py:59-61). The model has one object, so the two writes coincide. The framework's check that the second save is not stale is not modelled.
- Turnover Incentive's `valid_from`/`valid_to` are validated but not used by either tier query, so tier selection ignores them, as the source does.
- The estimate approval gate takes the permission check, `frappe.has_permission`, as a boolean parameter.
- The unknown-supplier message is the framework's text for a missing record, modelled as "Supplier <name> not found".
- CashierCollections.CashierCollection.LedgersSelected: the message literal at cashier_collection.py:23-24 is split across two source lines; the model uses the evident one-line text.
- CashierCollections.CashierCollection.CalculateTotals: a negative received total with no discount makes `payable_amount` negative, so the "≥ 0" bound is stated only when a discount is given or the total is non-negative.

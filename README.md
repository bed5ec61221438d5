# Invoices dashboard — a Dafny model

This project models the invoice arithmetic and the workflow rules of a
React invoicing dashboard: the totals calculator and the list filters; the
line pricing shared by the create and edit forms; the create form, the edit
form and the invoice page with its three actions (finalize, mark as paid,
delete); the invoice list with its tabs, pagination buttons and table rows;
and the date-range filter.

Modules, one per source file:

| module | file | models |
|---|---|---|
| `JsModel` | `js_model.dfy` | the JavaScript values the source computes with: truthiness, `??`, `\|\|` on strings, `Number()`, `parseFloat`, `toFixed(2)`, NaN |
| `Seqs` | `seqs.dfy` | `Array.prototype.filter` and order-preserving subsequences |
| `InvoiceTypes` | `invoice_types.dfy` | customers, products, invoice lines, invoices and the routes the app navigates to |
| `InvoiceTotals` | `invoice_totals.dfy` | `src/utils/invoiceTotals.ts` |
| `InvoiceFilters` | `invoice_filters.dfy` | `src/utils/invoiceFilters.ts` |
| `LinePricing` | `line_pricing.dfy` | the price/tax expressions of `addLineItem` and `updateLineQuantity` |
| `InvoiceCreation` | `invoice_creation.dfy` | `src/hooks/useInvoiceCreation.ts` (class `CreationForm`) |
| `InvoiceEdit` | `invoice_edit.dfy` | `src/app/components/InvoiceEdit/index.tsx` (class `EditForm`) |
| `InvoiceShowHook` | `invoice_show_hook.dfy` | `src/hooks/useInvoiceShow.ts` (class `ShowState`) |
| `InvoiceShowView` | `invoice_show_view.dfy` | the badge and action buttons of `src/app/components/InvoiceShow/index.tsx` |
| `InvoicesListHook` | `invoices_list_hook.dfy` | `src/hooks/useInvoicesList.ts` (class `ListState`) |
| `InvoicesListView` | `invoices_list_view.dfy` | tabs and pagination of `src/app/components/InvoicesList/index.tsx` |
| `InvoiceTable` | `invoice_table.dfy` | the rows of `src/app/components/InvoiceTable/index.tsx` |
| `DateRangeFilter` | `date_range_filter.dfy` | `src/app/components/DateRangeFilter/DateRangeFilter.tsx` (class `DateRangeFilterState`) |

How the model treats what cannot be modelled directly:

- Numbers are exact reals plus `NaN`.
- `Number()`, `parseFloat` and `toFixed(2)` are one abstract `Numerics` record that every pricing or totals function takes as a parameter. Properties that depend on their results, such as the values in the test fixtures, state those results as preconditions.
- A server call becomes a `Response` parameter holding the value or the failure with its optional message.
- A navigation becomes an `Option<Route>` output.
- A temporary line id becomes a parameter, because the source builds it from `Date.now()` and `Math.random()`.
- So do today's date and the default deadline, which come from `new Date()`.
- So does the answer to `window.confirm`.
- React state becomes fields of a class whose methods update them.

Two behaviours of the code worth knowing:

- Line amounts are guarded against NaN, but a truthy top-level `total` or `tax` goes to `Number()` unguarded (`src/utils/invoiceTotals.ts:21-22`), so a non-numeric top-level string yields NaN (`InvoiceTotals.TopLevelNaNIsNotGuarded`).
- The list hook returns only the list, the active tab, its setter, the fetch and the filtered list, so `ListState` has only those; the pagination buttons take `page` and `pagination` as inputs.

## Model

| member | source | states |
|---|---|---|
| JsModel.Coalesce | src/utils/invoiceTotals.ts:13 | `v ?? fallback`: null and undefined give the fallback; any other value is kept |
| JsModel.StrOr | src/hooks/useInvoiceCreation.ts:50-51 | `s \|\| fallback` on strings: the string when non-empty, the fallback when missing or empty |
| JsModel.Truthy | src/utils/invoiceTotals.ts:21-22 | a field is truthy unless it is undefined, null, the empty string or 0 |
| JsModel.ToNumber | src/utils/invoiceTotals.ts:13 | `Number(v)`: NaN for undefined, 0 for null, the number itself, and for a string the host's parse, NaN when it fails |
| Seqs.Filter | src/utils/invoiceFilters.ts:13-15 | keeps exactly the elements that satisfy the predicate (both directions) and never grows the list |
| Seqs.FilterIsSubsequence | src/utils/invoiceFilters.ts:13-15 | a filtered list is an order-preserving subsequence of its input |
| Seqs.FilterIdempotent | src/utils/invoiceFilters.ts:13-15 | filtering twice by the same predicate equals filtering once |
| Seqs.FilterKeepsAll | src/utils/invoiceFilters.ts:13-15 | a predicate every element satisfies leaves the list unchanged |
| Seqs.FilterSplits | src/utils/invoiceFilters.ts:13-15 | a predicate and its negation split a list into two parts whose lengths and multisets add up to the whole |
| Seqs.FilterAppend | src/utils/invoiceFilters.ts:13-15 | filtering distributes over concatenation |
| InvoiceTotals.Term | src/utils/invoiceTotals.ts:13-14 | a line's term is 0 for null, undefined or a non-numeric string, and the parsed number otherwise |
| InvoiceTotals.LineSum | src/utils/invoiceTotals.ts:12-19 | the sum of one column's terms over the lines: 0 for no lines, the line's term for one line |
| InvoiceTotals.LineSumIsReduce | src/utils/invoiceTotals.ts:12-19 | the left-to-right `reduce` from any starting value equals that value plus `LineSum` |
| InvoiceTotals.CalcInvoiceTotals | src/utils/invoiceTotals.ts:10-25 | a truthy top-level total/tax is the result converted by `Number()`; otherwise the result is a finite line sum |
| InvoiceTotals.FromInvoice | src/utils/invoiceTotals.ts:11 | the calculator's input carries the invoice's top-level total and tax as nullable values and one entry per line, in order, holding that line's price and tax |
| InvoiceTotals.Net | src/hooks/useInvoiceShow.ts:86 | `total - tax` when both are finite, NaN when either is NaN |
| InvoiceTotals.LineSumAppend | src/utils/invoiceTotals.ts:12-19 | the line sum of two concatenated line lists is the sum of their line sums |
| InvoiceTotals.LineSumOfUnparsable | src/utils/invoiceTotals.ts:13-14 | lines whose column is missing or non-numeric sum to 0 |
| InvoiceTotals.MissingLinesAreEmpty | src/utils/invoiceTotals.ts:11 | a missing `invoice_lines` gives the same totals as an empty one |
| InvoiceTotals.FalsyOverrideUsesLineSum | src/utils/invoiceTotals.ts:21-22 | a falsy top-level total (tax) yields the summed line prices (taxes) |
| InvoiceTotals.TruthyOverrideIgnoresLines | src/utils/invoiceTotals.ts:21-22 | a truthy top-level total (tax) makes the result independent of the lines |
| InvoiceTotals.OverridesAreIndependent | src/utils/invoiceTotals.ts:21-22 | changing the top-level tax never changes the total, and vice versa |
| InvoiceTotals.TopLevelNaNIsNotGuarded | src/utils/invoiceTotals.ts:21-22 | a non-numeric top-level total or tax yields NaN, while the same string on a line counts as 0 |
| InvoiceTotals.EmptyInvoiceTotalsAreZero | src/utils/tests/invoiceTotals.test.ts:36-41 | no lines and null top-level fields give `{0, 0}` |
| InvoiceTotals.InvalidStringsExample | src/utils/tests/invoiceTotals.test.ts:28-34 | lines with non-numeric strings give `{0, 0}` |
| InvoiceTotals.TwoLinesExample | src/utils/tests/invoiceTotals.test.ts:10-16 | the two-line fixture sums to 87000 total and 3666.66 tax |
| InvoiceFilters.FilterInvoices | src/utils/invoiceFilters.ts:5-19 | `all` keeps the list; `open` keeps exactly the unpaid and `past` exactly the paid invoices |
| InvoiceFilters.FilterLabel | src/utils/invoiceFilters.ts:21-32 | each filter has its own label, and each label names exactly one filter |
| InvoiceFilters.InvoiceCount | src/utils/invoiceFilters.ts:34-39 | the count never exceeds the list length and equals it for `all` |
| InvoiceFilters.FilterKeepsOrder | src/utils/invoiceFilters.ts:5-19 | every filter keeps the invoices in list order |
| InvoiceFilters.FilterIsIdempotent | src/utils/invoiceFilters.ts:5-19 | applying a filter to its own result changes nothing |
| InvoiceFilters.OpenAndPastPartition | src/utils/invoiceFilters.ts:5-19 | open and past invoices are disjoint, make up the whole list as multisets, and their counts add up to the `all` count |
| LinePricing.PricedAt | src/hooks/useInvoiceCreation.ts:50-54 | price is `toFixed(unitPrice * quantity)` and tax `toFixed(unitPrice * quantity * vatRate / 100)`; an unparsable unit price gives "NaN" for both, and an unparsable VAT rate gives "NaN" tax |
| LinePricing.TwoAtTwentyPercentExample | src/app/components/InvoiceEdit/tests/InvoiceEdit.test.tsx:87-88 | quantity 2 at 25000.00 and 20% VAT is priced 50000.00 with 10000.00 tax |
| InvoiceCreation.NewLine | src/hooks/useInvoiceCreation.ts:49-65 | a new line has quantity 1, the product's id, label and VAT rate, and is priced for one unit |
| InvoiceCreation.AddLine | src/hooks/useInvoiceCreation.ts:67-70 | adding appends the new line and keeps the existing lines in place |
| InvoiceCreation.RemoveLine | src/hooks/useInvoiceCreation.ts:42-47 | removing keeps exactly the lines with another id |
| InvoiceCreation.Repriced | src/hooks/useInvoiceCreation.ts:83-94 | a repriced line takes the new quantity and its price and tax, and nothing else changes |
| InvoiceCreation.UpdateQuantity | src/hooks/useInvoiceCreation.ts:73-101 | quantity <= 0 removes the line; otherwise only the lines with that id are repriced and the rest are untouched |
| InvoiceCreation.CustomerIdOf | src/hooks/useInvoiceCreation.ts:106 | the customer id is set exactly when a customer with a non-zero id is chosen |
| InvoiceCreation.AmountsOf | src/hooks/useInvoiceCreation.ts:119-123 | the calculator sees every line's price and tax strings |
| InvoiceCreation.FormTotals | src/hooks/useInvoiceCreation.ts:119-124 | the zero top-level fields are falsy, so the form's totals are always the finite line sums |
| InvoiceCreation.ValidateForm | src/hooks/useInvoiceCreation.ts:126-136 | no error iff a customer and at least one line; the customer error takes precedence |
| InvoiceCreation.SubmitDisabled | src/app/components/InvoiceCreate/index.tsx:199-203 | the submit button is disabled while creating, without a truthy customer id, or without lines (partner: `SubmitEnabledIffValid`) |
| InvoiceCreation.LineAttrs | src/hooks/useInvoiceCreation.ts:155-162 | a line is sent with its product id, quantity, label, the product's unit, its VAT rate and its price, and no tax |
| InvoiceCreation.BuildPayload | src/hooks/useInvoiceCreation.ts:149-163 | the request is an unfinalized, unpaid invoice with the form's customer and dates and one attribute entry per line |
| InvoiceCreation.CreationForm.constructor | src/hooks/useInvoiceCreation.ts:29-40 | no customer, no lines, today and the default deadline, not creating, no error |
| InvoiceCreation.CreationForm.AddLineItem | src/hooks/useInvoiceCreation.ts:49-71 | the lines become `AddLine` of the old lines; every quantity stays >= 1 |
| InvoiceCreation.CreationForm.RemoveLineItem | src/hooks/useInvoiceCreation.ts:42-47 | the lines become `RemoveLine` of the old lines |
| InvoiceCreation.CreationForm.UpdateLineQuantity | src/hooks/useInvoiceCreation.ts:73-101 | the lines become `UpdateQuantity` of the old lines; every quantity stays >= 1 |
| InvoiceCreation.CreationForm.UpdateCustomer | src/hooks/useInvoiceCreation.ts:103-109 | the customer and its id are set together, keeping them consistent |
| InvoiceCreation.CreationForm.UpdateDate | src/hooks/useInvoiceCreation.ts:111-113 | sets the date |
| InvoiceCreation.CreationForm.UpdateDeadline | src/hooks/useInvoiceCreation.ts:115-117 | sets the deadline |
| InvoiceCreation.CreationForm.SubmitInvoice | src/hooks/useInvoiceCreation.ts:138-173 | a validation error is shown and nothing is sent; otherwise the payload, carrying the selected customer's id, is sent, success navigates to the new invoice, and failure shows the message or "Failed to create invoice"; `creating` ends false |
| InvoiceCreation.AddThenRemove | src/hooks/useInvoiceCreation.ts:42-71 | removing a just-added line (fresh id) restores the previous lines |
| InvoiceCreation.RemoveKeepsOrder | src/hooks/useInvoiceCreation.ts:42-47 | removal keeps the remaining lines in order |
| InvoiceCreation.RemoveIsIdempotent | src/hooks/useInvoiceCreation.ts:42-47 | removing the same id twice equals removing it once |
| InvoiceCreation.UpdateIsIdempotent | src/hooks/useInvoiceCreation.ts:73-101 | setting the same quantity twice equals setting it once |
| InvoiceCreation.AddLineRaisesTotals | src/hooks/useInvoiceCreation.ts:119-124 | adding a line raises the form's total and tax by exactly that line's terms |
| InvoiceCreation.SubmitEnabledIffValid | src/app/components/InvoiceCreate/index.tsx:199-203 | the submit button is enabled iff nothing is being created and validation passes |
| InvoiceEdit.OrZero | src/app/components/InvoiceEdit/index.tsx:62-64 | `String(x ?? '0')`: the value when present, "0" when missing |
| InvoiceEdit.LoadLine | src/app/components/InvoiceEdit/index.tsx:55-65 | a loaded line keeps the server line's id as both key and line id, its product, quantity and label, and defaults missing amounts to "0" |
| InvoiceEdit.LoadLines | src/app/components/InvoiceEdit/index.tsx:54-66 | loading maps every server line, in order |
| InvoiceEdit.NewLine | src/app/components/InvoiceEdit/index.tsx:76-91 | a new line has a temporary key, no line id, quantity 1, and is priced for one unit |
| InvoiceEdit.AddLine | src/app/components/InvoiceEdit/index.tsx:92 | adding appends the new line and keeps the existing lines in place |
| InvoiceEdit.Destroyed | src/app/components/InvoiceEdit/index.tsx:100-108 | a destroyed line is flagged, has quantity 0 and amounts "0", and is otherwise unchanged |
| InvoiceEdit.Repriced | src/app/components/InvoiceEdit/index.tsx:109-113 | a repriced line takes the new quantity and its price and tax, and nothing else changes |
| InvoiceEdit.UpdateQuantity | src/app/components/InvoiceEdit/index.tsx:95-120 | the list keeps its length; matching lines are destroyed for quantity <= 0 and repriced otherwise; the others are untouched |
| InvoiceEdit.RemoveLine | src/app/components/InvoiceEdit/index.tsx:122-130 | removing flags the matching lines as destroyed and keeps them in the list |
| InvoiceEdit.ActiveLines | src/app/components/InvoiceEdit/index.tsx:132 | the active lines are exactly the lines not flagged for destruction |
| InvoiceEdit.AmountsOf | src/app/components/InvoiceEdit/index.tsx:135 | the calculator sees every line's price and tax strings |
| InvoiceEdit.EditTotals | src/app/components/InvoiceEdit/index.tsx:134-139 | the totals are the finite line sums over the active lines only |
| InvoiceEdit.SaveCheck | src/app/components/InvoiceEdit/index.tsx:142-150 | saving proceeds iff a customer with an id and at least one active line; the customer error takes precedence |
| InvoiceEdit.LineAttrs | src/app/components/InvoiceEdit/index.tsx:159-172 | each line is sent with its amounts; the line id is sent iff it is set and non-zero; the destroy flag is sent as is |
| InvoiceEdit.BuildPayload | src/app/components/InvoiceEdit/index.tsx:154-173 | the request carries `Number(id)`, the customer, the dates and every line, destroyed ones included |
| InvoiceEdit.EditForm.constructor | src/app/components/InvoiceEdit/index.tsx:29-36 | loading, not saving, no error, no customer, empty dates, no lines |
| InvoiceEdit.EditForm.Load | src/app/components/InvoiceEdit/index.tsx:38-74 | without a route id nothing changes; otherwise the invoice's fields (dates defaulted) or the error ("Failed to load invoice") are set and loading ends |
| InvoiceEdit.EditForm.AddLineItem | src/app/components/InvoiceEdit/index.tsx:76-93 | the lines become `AddLine` of the old lines |
| InvoiceEdit.EditForm.UpdateLineQuantity | src/app/components/InvoiceEdit/index.tsx:95-120 | the lines become `UpdateQuantity` of the old lines |
| InvoiceEdit.EditForm.RemoveLineItem | src/app/components/InvoiceEdit/index.tsx:122-130 | the lines become `RemoveLine` of the old lines |
| InvoiceEdit.EditForm.SetCustomer | src/app/components/InvoiceEdit/index.tsx:240 | sets the customer |
| InvoiceEdit.EditForm.SetDate | src/app/components/InvoiceEdit/index.tsx:250 | sets the date |
| InvoiceEdit.EditForm.SetDeadline | src/app/components/InvoiceEdit/index.tsx:260 | sets the deadline |
| InvoiceEdit.EditForm.OnSave | src/app/components/InvoiceEdit/index.tsx:141-183 | without a route id nothing happens; a failed check shows its error; otherwise the payload is sent, success navigates to the saved invoice and failure shows the message or "Failed to save invoice"; `saving` ends false |
| InvoiceEdit.RemoveIsUpdateToZero | src/app/components/InvoiceEdit/index.tsx:100-130 | removing a line is the same as setting its quantity to 0 |
| InvoiceEdit.RemoveDropsFromActive | src/app/components/InvoiceEdit/index.tsx:122-132 | after removal the active lines are the old active lines without the removed key |
| InvoiceEdit.DestroyIsSticky | src/app/components/InvoiceEdit/index.tsx:95-130 | no quantity update or removal clears a destroy flag |
| InvoiceEdit.LoadedSumsMatchServer | src/app/components/InvoiceEdit/index.tsx:54-66 | the loaded lines sum to the same totals as the server's lines |
| InvoiceEdit.LoadedLineTotalsExample | src/app/components/InvoiceEdit/tests/InvoiceEdit.test.tsx:44-49 | a loaded 75000.00 / 12500.01 line gives total 75000, tax 12500.01 and net 62499.99 |
| InvoiceEdit.QuantityTwoSaveExample | src/app/components/InvoiceEdit/tests/InvoiceEdit.test.tsx:68-88 | setting quantity 2 and saving sends product 5, quantity 2, price 50000.00 and tax 10000.00 |
| InvoiceEdit.SamePricingAsCreateForm | src/app/components/InvoiceEdit/index.tsx:76-137 | a new line, a repriced line and the calculator's input agree with the create form's, and the edit totals are the create form's totals over the lines not marked for deletion |
| InvoiceShowHook.ShownTotals | src/hooks/useInvoiceShow.ts:85 | `{0, 0}` without an invoice, the calculator's result otherwise |
| InvoiceShowHook.MarkPaidAllowed | src/hooks/useInvoiceShow.ts:32 | the negation of markPaid's early return: an invoice, no update in flight, not paid |
| InvoiceShowHook.FinalizeAllowed | src/hooks/useInvoiceShow.ts:49 | the negation of finalizeInvoice's early return: an invoice, no update in flight, not finalized |
| InvoiceShowHook.DeleteAllowed | src/hooks/useInvoiceShow.ts:66-73 | deleteInvoice proceeds with an invoice, no update in flight, and a confirmed dialog |
| InvoiceShowHook.ShowState.constructor | src/hooks/useInvoiceShow.ts:11-14 | no invoice, loading, not updating, no error |
| InvoiceShowHook.ShowState.FetchInvoice | src/hooks/useInvoiceShow.ts:16-25 | without a route id nothing changes; otherwise the invoice or the error ("Failed to load invoice") is set and loading ends |
| InvoiceShowHook.ShowState.MarkPaid | src/hooks/useInvoiceShow.ts:31-46 | a request `{id, paid: true}` is sent iff an unpaid invoice is shown and no update is in flight; the result or the error is stored and updating ends |
| InvoiceShowHook.ShowState.FinalizeInvoice | src/hooks/useInvoiceShow.ts:48-63 | a request `{id, finalized: true}` is sent iff an unfinalized invoice is shown and no update is in flight; the result or the error is stored and updating ends |
| InvoiceShowHook.ShowState.DeleteInvoice | src/hooks/useInvoiceShow.ts:65-83 | deletion is requested iff an invoice is shown, no update is in flight and the user confirmed; success navigates home with updating left set, failure shows the error and clears updating |
| InvoiceShowView.Badge | src/app/components/InvoiceShow/index.tsx:63-67 | DRAFT iff not finalized, FINALIZED iff finalized and unpaid, PAID iff finalized and paid |
| InvoiceShowView.DeleteLabel | src/app/components/InvoiceShow/index.tsx:202 | "Deleting..." iff updating |
| InvoiceShowView.FinalizeLabel | src/app/components/InvoiceShow/index.tsx:210-214 | "Finalized" iff finalized, else "Finalizing..." iff updating |
| InvoiceShowView.MarkPaidLabel | src/app/components/InvoiceShow/index.tsx:221-225 | "Paid" iff paid, else "Marking..." iff updating |
| InvoiceShowView.ActionBarShown | src/app/components/InvoiceShow/index.tsx:180 | the action bar is rendered for a loaded invoice once loading has ended |
| InvoiceShowView.DraftActionsVisible | src/app/components/InvoiceShow/index.tsx:187 | Edit and Delete are rendered for an invoice neither finalized nor paid |
| InvoiceShowView.DraftActionsDisabled | src/app/components/InvoiceShow/index.tsx:190 | Edit and Delete are disabled while an update is in flight |
| InvoiceShowView.FinalizeDisabled | src/app/components/InvoiceShow/index.tsx:207 | Finalize is disabled on a finalized invoice or while updating |
| InvoiceShowView.MarkPaidDisabled | src/app/components/InvoiceShow/index.tsx:218 | Mark as Paid is disabled when paid, while updating, or before finalization |
| InvoiceShowView.FinalizeEnabledIffHookAccepts | src/app/components/InvoiceShow/index.tsx:207 | the finalize button is enabled exactly when the hook's guard lets the request through |
| InvoiceShowView.MarkPaidEnabledPassesGuard | src/app/components/InvoiceShow/index.tsx:218 | an enabled mark-paid button always passes the hook's guard |
| InvoiceShowView.HookAcceptsUnpaidDraft | src/hooks/useInvoiceShow.ts:32 | the hook alone would mark an unfinalized invoice paid; only the button prevents it |
| InvoiceShowView.DeleteEnabledPassesGuard | src/app/components/InvoiceShow/index.tsx:196-202 | an enabled delete button passes the hook's guard once confirmed, and never without confirmation |
| InvoiceShowView.NoActionWhenPaid | src/app/components/InvoiceShow/index.tsx:187-225 | a paid invoice shows no edit/delete buttons, disables finalize and mark-paid, and is badged PAID |
| InvoiceShowView.UpdatingDisablesAll | src/app/components/InvoiceShow/index.tsx:190-218 | while an update is in flight every action button is disabled |
| InvoiceShowView.ShownButtonsActOnLoadedInvoice | src/app/components/InvoiceShow/index.tsx:180-225 | no action bar while loading; every button the bar shows enabled passes its hook's guard |
| InvoicesListHook.ListState.constructor | src/hooks/useInvoicesList.ts:8-9 | an empty list on the `all` tab |
| InvoicesListHook.ListState.FetchInvoices | src/hooks/useInvoicesList.ts:11-14 | a successful fetch replaces the list; a failed one leaves it |
| InvoicesListHook.ListState.SetActiveTab | src/hooks/useInvoicesList.ts:9 | sets the active tab |
| InvoicesListHook.ListState.FilteredInvoices | src/hooks/useInvoicesList.ts:20 | the whole list on `all`; on `open` exactly the unpaid and on `past` exactly the paid invoices of the list (both directions), as many as the tab's count |
| InvoicesListView.PrevTarget | src/app/components/InvoicesList/index.tsx:67 | the previous page, never below 1 |
| InvoicesListView.PrevDisabled | src/app/components/InvoicesList/index.tsx:68 | Prev is disabled on page 1 and below |
| InvoicesListView.NextTarget | src/app/components/InvoicesList/index.tsx:74-78 | the next page while the server's page is before the last, the same page otherwise |
| InvoicesListView.NextDisabled | src/app/components/InvoicesList/index.tsx:79 | Next is disabled once the server's page reaches the page count |
| InvoicesListView.Tabs | src/app/components/InvoicesList/index.tsx:19-38 | three tabs `all`, `open`, `past` with their labels and counts over the whole list |
| InvoicesListView.EnabledButtonsMoveOnePage | src/app/components/InvoicesList/index.tsx:65-79 | an enabled Prev moves one page back, an enabled Next one page forward, and a disabled Next stays put |
| InvoicesListView.PrevNextRoundTrip | src/app/components/InvoicesList/index.tsx:65-79 | Next then Prev (and Prev then Next) returns to the same page |
| InvoicesListView.FirstAndLastPageExample | src/app/components/InvoicesList/tests/InvoicesList.test.tsx:46-77 | on page 1 of 3 Prev is disabled and Next goes to 2; on page 3 of 3 Next is disabled and Prev goes to 2 |
| InvoicesListView.TabCountsAddUp | src/app/components/InvoicesList/index.tsx:19-38 | the open and past counts add up to the all count, which is the list length |
| InvoiceTable.RowTotal | src/app/components/InvoiceTable/index.tsx:40-47 | `Number(invoice.total ?? computed)`: the top-level total when present, the calculator's total otherwise |
| InvoiceTable.RowOf | src/app/components/InvoiceTable/index.tsx:39-98 | a row shows the id, the row total, a Finalized badge iff finalized and unpaid, a Paid badge iff paid, and links to the invoice |
| InvoiceTable.Rows | src/app/components/InvoiceTable/index.tsx:39-107 | one row per invoice in order, or the single empty-state row iff there are none |
| InvoiceTable.RowTotalMatchesCalculator | src/app/components/InvoiceTable/index.tsx:40-47 | the row total agrees with the calculator except for an empty top-level total string |
| InvoiceTable.BadgesAreExclusive | src/app/components/InvoiceTable/index.tsx:76-85 | no row shows both badges |
| InvoiceTable.RowTotalExamples | src/app/components/InvoiceTable/tests/InvoiceTable.test.tsx:114-122 | an explicit 555.00 total is shown as is; without one, lines 100.00 and 23.45 give 123.45 |
| DateRangeFilter.OrEmpty | src/app/components/DateRangeFilter/DateRangeFilter.tsx:14-15 | the local inputs start from the props, `null` as "" |
| DateRangeFilter.NullIfEmpty | src/app/components/DateRangeFilter/DateRangeFilter.tsx:22 | an empty input is reported as null, any other as itself |
| DateRangeFilter.ApplyResult | src/app/components/DateRangeFilter/DateRangeFilter.tsx:17-23 | the range is rejected iff both ends are set and the end sorts before the start; otherwise both ends are reported |
| DateRangeFilter.LexLess | src/app/components/DateRangeFilter/DateRangeFilter.tsx:18 | JavaScript's `<` on strings: lexicographic order, a proper prefix first (properties: `LexLessTrichotomy`, `LexLessDigits`) |
| DateRangeFilter.ApplyDisabled | src/app/components/DateRangeFilter/DateRangeFilter.tsx:65 | Apply is disabled while both inputs equal the props (null read as "") |
| DateRangeFilter.ClearVisible | src/app/components/DateRangeFilter/DateRangeFilter.tsx:69 | Clear is shown when any prop or input is non-empty |
| DateRangeFilter.DateRangeFilterState.constructor | src/app/components/DateRangeFilter/DateRangeFilter.tsx:14-15 | the local inputs start from the props |
| DateRangeFilter.DateRangeFilterState.SetLocalStart | src/app/components/DateRangeFilter/DateRangeFilter.tsx:45 | sets the local start |
| DateRangeFilter.DateRangeFilterState.SetLocalEnd | src/app/components/DateRangeFilter/DateRangeFilter.tsx:57 | sets the local end |
| DateRangeFilter.DateRangeFilterState.Apply | src/app/components/DateRangeFilter/DateRangeFilter.tsx:17-23 | alerts iff both ends are set and the end sorts first, and emits the range iff it does not alert |
| DateRangeFilter.DateRangeFilterState.Clear | src/app/components/DateRangeFilter/DateRangeFilter.tsx:25-29 | empties both inputs and emits `(null, null)` |
| DateRangeFilter.LexLessTrichotomy | src/app/components/DateRangeFilter/DateRangeFilter.tsx:18 | string `<` is a strict order: of two different strings exactly one sorts first |
| DateRangeFilter.LexLessDigits | src/app/components/DateRangeFilter/DateRangeFilter.tsx:18 | on digit strings of equal length, `<` is numeric order |
| DateRangeFilter.IsoDateOrderIsChronological | src/app/components/DateRangeFilter/DateRangeFilter.tsx:18 | on `YYYY-MM-DD` strings, `<` is the order of the dates |
| DateRangeFilter.ApplyRejectsOnlyBackwardRanges | src/app/components/DateRangeFilter/DateRangeFilter.tsx:17-23 | for two ISO dates the range is rejected iff the end date is earlier; a one-day range is accepted |
| DateRangeFilter.SingleSidedRangesAreAccepted | src/app/components/DateRangeFilter/DateRangeFilter.tsx:18-22 | a range with one end empty is always accepted, the empty end as null |
| DateRangeFilter.AppliedRangeDisablesApply | src/app/components/DateRangeFilter/DateRangeFilter.tsx:65 | once the parent stores an emitted range, Apply is disabled again |
| DateRangeFilter.ClearedFilterIsIdle | src/app/components/DateRangeFilter/DateRangeFilter.tsx:65-69 | after clearing, Apply is disabled and Clear is hidden |
| DateRangeFilter.FreshFilterHasApplyDisabled | src/app/components/DateRangeFilter/DateRangeFilter.tsx:65 | a freshly mounted filter has Apply disabled |
| DateRangeFilter.ApplyExamples | src/app/components/DateRangeFilter/tests/DateRangeFilter.test.tsx:13-53 | 2025-01-01 to 2025-02-01 is emitted; 2025-02-10 to 2025-02-01 is rejected |

## Left out

- Floating point: amounts are exact reals, so the model does not capture rounding or the order in which `reduce` adds. `Number()`, `parseFloat` and `toFixed(2)` are abstract, and results from their actual definitions appear only as preconditions of the example lemmas.
- String comparison `<` is modelled on code points, not UTF-16 code units; the two agree on the ASCII date strings the filter receives.
- Asynchrony: every request is modelled as completing before the next event, so interleavings, unmounts during a request and React's batching of state updates are not modelled.
- The API client (`src/api/index.tsx`) is not part of this model; its answers are `Response` parameters.
- Currency and date formatting (`src/utils/currency.ts`, `src/utils/dateConverter.ts`), customer and product pickers, and the per-line display cells of the invoice page are left out; they compute text only.
- The `default:` branches of the two filter switches are unreachable for the three-valued filter type and are not modelled.
- Sorting (`SortBy`) is left out: no hook passes a sort field, and the list hook performs no sorting.
- `cancelCreation` only navigates home and is not modelled.
- The list page's pagination block is rendered only when the hook returns `pagination`. The hook as written does not, so `page` and `pagination` are inputs of the button functions.
- InvoiceEdit.UpdateQuantity: re-pricing a line already flagged for destruction keeps the flag. The page renders only active lines, so this cannot be triggered from the view, and the model states it without excluding it.
- InvoiceCreation.UpdateQuantity: lines are matched by their temporary id; the uniqueness of those ids (from `Date.now()` and `Math.random()`) is a precondition of `AddThenRemove` rather than a property of the model.
- ErrorBoundary, PageHeader, Tabs and the app's routing are presentation and are not modelled.

# Invoice creator: store, calculator, list and dashboard

This project models the logic at the heart of a small single-page invoice app
and proves properties of that model. The app has four parts:

- **The store.** `InvoiceContext` holds the ordered list of invoices plus a
  loading flag and an optional error. A reducer maps one of six tagged actions
  to the next state: add, update by id, delete by id, set loading, set error
  and load.
- **The create form.** It edits a list of line items, computes each line's
  amount and the invoice's subtotal, tax and total, and on submit adds a
  `draft` invoice to the store.
- **The invoice list page.** It filters the stored invoices by status and by
  a case-insensitive substring search on the invoice number or client name,
  and shows count, total, paid and outstanding amounts for what it shows.
- **The dashboard.** It counts invoices per status, sums the revenue of paid
  invoices and shows the five most recently created invoices.

Everything is modelled as pure functions over immutable datatypes, one module
per part:

| file | module | contents |
|---|---|---|
| `seqs.dfy` | `Seqs` | order-preserving filter, left-to-right sum, subsequences, and their laws |
| `invoice.dfy` | `InvoiceTypes` | `Invoice`, `InvoiceItem`, `Status`, form data, store invariants |
| `text.dfy` | `Text` | lower-casing and substring search |
| `invoice_context.dfy` | `InvoiceContext` | state, actions, reducer |
| `create_invoice.dfy` | `CreateInvoice` | line editing, totals, building the submitted invoice |
| `invoice_list.dfy` | `InvoiceList` | filtering and the summary |
| `dashboard.dfy` | `Dashboard` | counters, revenue, recent invoices, rendering |

Money is an exact `real`. Quantities are `int`, because the page parses them
with `parseInt`. `createdAt` and `updatedAt` are `int` timestamps. Ids and
the current time are parameters rather than calls to `uuid` or the clock.

Views are meant to read the store without changing it. The dashboard,
however, sorts the store's own array in place (src/pages/Dashboard.tsx:21).
The model follows the code (`Dashboard.RenderAsWritten`) and records this
under "## Findings".

## Model

| member | source | states |
|---|---|---|
| InvoiceContext.InitialState | src/context/InvoiceContext.tsx:18-22 | the store starts with no invoices, not loading and with no error |
| InvoiceContext.UpdateById | src/context/InvoiceContext.tsx:34-36 | length is kept; each position becomes the payload exactly when its id equals the payload's id, otherwise it is the old invoice |
| InvoiceContext.DeleteById | src/context/InvoiceContext.tsx:41 | an invoice survives exactly when it was present and its id differs from the deleted id; every copy of a survivor is kept and every copy of the others is gone; survivors keep their relative order (subsequence) |
| InvoiceContext.Reduce | src/context/InvoiceContext.tsx:24-61 | frame conditions for every action: only SET_LOADING changes `loading` and only SET_ERROR changes `error`. ADD appends the payload after the old list. UPDATE replaces the matching positions. DELETE keeps an ordered subsequence holding every copy of each invoice without that id and no copy of the others. LOAD replaces the list |
| InvoiceContext.AddsInDispatchOrder | src/context/InvoiceContext.tsx:26-30 | dispatching N additions appends the invoices in dispatch order and leaves loading and error alone |
| InvoiceContext.UpdateIdempotent | src/context/InvoiceContext.tsx:31-37 | updating twice with one payload equals updating once |
| InvoiceContext.UpdateReplacesMatches | src/context/InvoiceContext.tsx:31-37 | after an update every invoice with the payload's id is the payload; the payload is present exactly when its id was present before |
| InvoiceContext.UnknownIdIsNoOp | src/context/InvoiceContext.tsx:31-42 | an update or a delete naming an absent id leaves the state unchanged |
| InvoiceContext.DeleteRemovesId | src/context/InvoiceContext.tsx:38-42 | after a delete no invoice has that id; the list shrinks exactly when the id was present |
| InvoiceContext.AddThenDelete | src/context/InvoiceContext.tsx:26-42 | add X then delete X's id leaves the old list minus every invoice with X's id; it restores the state exactly when no invoice had that id |
| InvoiceContext.AddThenUpdate | src/context/InvoiceContext.tsx:26-37 | add X then update with Y of the same fresh id stores Y whole in X's place |
| InvoiceContext.InitialStateValid | src/context/InvoiceContext.tsx:18-22 | the initial state satisfies the store invariant (consistent totals, unique ids) |
| InvoiceContext.DeleteKeepsUniqueIds | src/context/InvoiceContext.tsx:38-42 | deleting never creates a duplicate id |
| InvoiceContext.ReducePreservesValid | src/context/InvoiceContext.tsx:24-61 | every admissible action keeps the store invariant |
| CreateInvoice.BlankItem | src/pages/CreateInvoice.tsx:60-66 | a new line has the given id, an empty description, quantity 1, unit price 0 and amount 0, which agrees with quantity times price |
| CreateInvoice.InitialForm | src/pages/CreateInvoice.tsx:13-31 | the first form has exactly one blank line, tax rate 0 and empty client fields and notes |
| CreateInvoice.InitialFormTotalsZero | src/pages/CreateInvoice.tsx:13-31 | the first form's subtotal, tax and total are all zero and its line amounts agree |
| CreateInvoice.UpdateItem | src/pages/CreateInvoice.tsx:33-53 | length is kept and other lines are unchanged; the chosen field of line `index` is set; the amount is recomputed as the new quantity times the new unit price (`calculateItemAmount`, modelled by `ItemAmount`) only for a quantity or price edit |
| CreateInvoice.UpdateItemKeepsAmounts | src/pages/CreateInvoice.tsx:44-50 | a quantity or price edit makes its line's amount agree; no edit other than a direct amount write breaks agreement anywhere |
| CreateInvoice.AddItem | src/pages/CreateInvoice.tsx:55-69 | exactly one blank line is appended and the existing lines stay in order |
| CreateInvoice.AddItemKeepsTotals | src/pages/CreateInvoice.tsx:55-83 | adding a blank line leaves subtotal, tax and total unchanged |
| CreateInvoice.WithoutIndex | src/pages/CreateInvoice.tsx:73 | filtering out position `index` drops exactly that element when it exists and nothing otherwise |
| CreateInvoice.RemoveItem | src/pages/CreateInvoice.tsx:71-76 | a single line is never removed; otherwise line `index` is dropped and the rest keep their order; an out-of-range index changes nothing; the list never becomes empty |
| CreateInvoice.RemoveItemSubtotal | src/pages/CreateInvoice.tsx:71-83 | removing a line lowers the subtotal by exactly that line's amount |
| CreateInvoice.CalculateTotals | src/pages/CreateInvoice.tsx:78-83 | the running sum of the amounts, first to last, is the subtotal; tax is subtotal times rate over 100; total is subtotal plus tax |
| CreateInvoice.TotalsOfEmpty | src/pages/CreateInvoice.tsx:78-83 | no lines give all-zero figures |
| CreateInvoice.TotalsBounds | src/pages/CreateInvoice.tsx:78-83 | with non-negative amounts and tax rate, 0 <= subtotal <= total and tax >= 0 |
| CreateInvoice.TotalsOrderIndependent | src/pages/CreateInvoice.tsx:78-83 | any reordering of the lines gives the same figures |
| CreateInvoice.TwoLinesWithTax | src/pages/CreateInvoice.tsx:78-83 | 2 x 50.00 plus 1 x 25.50 at 10% gives 125.50, 12.55 and 138.05 |
| CreateInvoice.BuildInvoice | src/pages/CreateInvoice.tsx:85-99 | the submitted invoice has the given id, status draft, the form's fields, items and tax rate, figures equal to the computed totals, and the two clock readings as `createdAt` and `updatedAt` |
| CreateInvoice.Submit | src/pages/CreateInvoice.tsx:85-103 | submitting appends the built invoice to the store and changes nothing else |
| CreateInvoice.SubmitKeepsStoreValid | src/pages/CreateInvoice.tsx:85-103 | with a fresh id, submitting keeps the store invariant |
| Text.ToLower | src/pages/InvoiceList.tsx:18-19 | lower-casing keeps the length and leaves no capital letter; each capital becomes its small letter, every other character is kept, and a string is unchanged exactly when it has no capital |
| Text.ToLowerIdempotent | src/pages/InvoiceList.tsx:18-19 | lower-casing twice equals lower-casing once |
| Text.IncludesIff | src/pages/InvoiceList.tsx:18-19 | the scanning substring test holds exactly when the needle occurs at some position |
| InvoiceList.FilteredInvoices | src/pages/InvoiceList.tsx:15-22 | the shown list is an ordered subsequence of the store; an invoice is shown exactly when its status matches and the search term matches, and then as many times as it is stored; with a specific status every shown invoice has it |
| InvoiceList.SearchMeansSubstring | src/pages/InvoiceList.tsx:17-19 | an invoice matches the search exactly when the lower-cased term occurs in the lower-cased invoice number or client name |
| InvoiceList.SearchIgnoresTermCase | src/pages/InvoiceList.tsx:17-19 | lower-casing the term beforehand changes no match |
| InvoiceList.UnfilteredShowsAll | src/pages/InvoiceList.tsx:15-22 | with every status and an empty term the whole list is shown, in order |
| InvoiceList.Summarize | src/pages/InvoiceList.tsx:271-301 | there is a summary exactly when something is shown; the count is the number shown; the total sums all shown totals, the paid amount those of paid invoices and the outstanding amount those of all others; paid plus outstanding equals the total |
| InvoiceList.SummaryExtremes | src/pages/InvoiceList.tsx:287-299 | with nothing paid the paid amount is 0 and everything is outstanding; with everything paid nothing is outstanding |
| Dashboard.StatusCountsPartition | src/pages/Dashboard.tsx:9-14 | the paid, sent, overdue and draft counts add up to the number of invoices |
| Dashboard.ComputeStats | src/pages/Dashboard.tsx:9-14 | total is the number of invoices; paid, pending and overdue are the numbers of positions with status paid, sent and overdue; their sum plus the drafts is the total |
| Dashboard.StatsPermutationInvariant | src/pages/Dashboard.tsx:9-14 | the counters do not depend on the order of the invoices |
| Dashboard.RevenueBounds | src/pages/Dashboard.tsx:16-18 | revenue is zero when nothing is paid and non-negative when no total is negative |
| Dashboard.RevenuePermutationInvariant | src/pages/Dashboard.tsx:16-18 | revenue does not depend on the order of the invoices |
| Dashboard.RevenueMatchesListSummary | src/pages/Dashboard.tsx:16-18 | the dashboard revenue equals the list page's paid amount for the unfiltered list, and revenue plus outstanding is the sum of all totals |
| Dashboard.SortSorted | src/pages/Dashboard.tsx:21 | the sort yields a permutation of the store in non-increasing `createdAt` order |
| Dashboard.SortStable | src/pages/Dashboard.tsx:21 | invoices created at the same time keep their relative order |
| Dashboard.RecentInvoices | src/pages/Dashboard.tsx:20-22 | the recent list has min(5, n) entries, newest first, each taken from the store without duplication beyond the store's; invoices created at the same time appear in store order, as the first of those in the store (the sort is stable) |
| Dashboard.RecentAreNewest | src/pages/Dashboard.tsx:20-22 | no invoice left out of the recent list is newer than one in it |
| Dashboard.RenderAsWritten | src/pages/Dashboard.tsx:9-22 | the view shows the counters, revenue and recent list, and the store is left as a newest-first permutation of itself in which invoices created at the same time keep their old order |
| Dashboard.RenderAsWrittenReordersStore | src/pages/Dashboard.tsx:20-22 | two invoices added oldest first are listed newest first after a dashboard visit, so the list page changes |
| Dashboard.Render | src/pages/Dashboard.tsx:9-22 | the same view, with the store left exactly as it was |
| Dashboard.RenderKeepsListOrder | src/pages/Dashboard.tsx:9-22 | the counters and revenue of the corrected render equal those of the reordered store, so nothing on the dashboard depended on the in-place sort; the unchanged list page follows at once from Render |

## Left out

- The React provider, `useReducer`, `useState` setters and the `useInvoice` hook, including its error outside a provider. These are framework glue; the reducer and form updates are pure functions here.
- Routing, JSX, CSS classes, status colours, icons and animations in all pages and in `src/App.tsx`. These are presentation only.
- `uuidv4`, `Date.now()`, `new Date().toISOString()` and date-fns `format`. Ids, the invoice number, dates and timestamps are parameters.
- The ISO-string `createdAt` and its parsing with `new Date(...).getTime()` in the dashboard sort. `createdAt` is an `int` timestamp, so an unparsable date, which sorts as NaN in JavaScript, is not modelled.
- `window.confirm` before a delete, and `navigate(...)` after a submit. Both are user interaction or routing.
- IEEE-754 arithmetic and `toFixed(2)` display rounding. Amounts are exact reals, so float rounding in sums and tax is not reproduced.
- Input parsing with `parseInt(...) || 0` and `parseFloat(...) || 0`, and the HTML `min`/`step` attributes. Edits carry already-parsed values.
- Text.ToLower: lower-cases ASCII letters only, because a full Unicode case table is out of proportion for this model; `toLowerCase` on other letters is not modelled.
- CreateInvoice.UpdateItem: requires an index inside the list, because every caller passes the index of a rendered line. JavaScript's writes to a missing index, which create holes or named properties, are not modelled.
- The reducer's `default` branch. Actions form a closed datatype, so no action can reach it.
- Status transitions. The source enforces none, and neither does the model: an update may set any status.
- Dashboard.TotalRevenue has no contract of its own; its properties are stated by RevenueBounds, RevenuePermutationInvariant and RevenueMatchesListSummary.

## Findings

| source | as written | input that shows it | evidently intended | confidence | as-written member | corrected member |
|---|---|---|---|---|---|---|
| src/pages/Dashboard.tsx:20-22 | `invoices.sort(...)` sorts the store's own array in place while rendering, so the stored order becomes newest first | a store holding invoice a (createdAt 1) then b (createdAt 2): after the dashboard renders, the store and the unfiltered list page show [b, a] instead of [a, b] | sort a copy (`[...invoices].sort(...)`), leaving the store in insertion order | not executed | Dashboard.RenderAsWritten, Dashboard.RenderAsWrittenReordersStore | Dashboard.Render, Dashboard.RenderKeepsListOrder |

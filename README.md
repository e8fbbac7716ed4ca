# Dashboard data layer: a verified model

This project models the in-memory logic of `app/lib/data.ts`, the
data-access layer of a small invoicing dashboard. That file fetches invoices
and customers and reshapes them for display. The model covers three pure
computations:

- **Latest invoices** (`fetchLatestInvoices`). Each invoice is joined with
  the first customer whose id equals the invoice's customer id. The joined
  rows are ordered newest first and the first five are kept. If any invoice
  has no customer, the whole call fails and returns no rows.
- **Card data** (`fetchCardData`). It counts the invoices and the customers.
  It sums the amounts of the `"paid"` invoices and, separately, of the
  `"pending"` invoices, each by a filter followed by a fold from 0.
- **Pagination** (`fetchFilteredInvoices`, `fetchInvoicesPages`). Pages hold
  six rows (`ITEMS_PER_PAGE`). The offset of page `p` is `(p - 1) * 6`. The
  page count is `Math.ceil(count / 6)`.

Modules:

- `Definitions` (definitions.dfy) holds the records.
- `LatestInvoices` (latest_invoices.dfy) holds the join, the sort and the cut.
- `CardData` (card_data.dfy) holds the counts and sums.
- `Pagination` (pagination.dfy) holds the offset and page count.

Modelling choices:

- `formatCurrency` comes from `./utils`, which is not part of this model. It
  is a function-valued parameter `formatCurrency: int -> string`, so nothing
  is assumed about it.
- Amounts are integers in cents.
- An invoice date is an integer timestamp standing for
  `new Date(date).getTime()`. A row keeps the invoice's timestamp.
- The sort is an insertion sort. Like `Array.prototype.sort`, it is stable,
  but the contracts promise only "newest first" and "a rearrangement". The
  code promises no order for invoices with equal dates.
- The join's error names the first invoice, in list order, that has no
  customer, as the thrown message does. The public operation turns every
  failure into one `LatestInvoicesFailed` outcome, just as the `catch` block
  rethrows one fixed message.

Two behaviours of the code are modelled as written:

- `find` takes the first customer with a matching id. The code does not
  check that the id is unique (`FindCustomer`).
- The code does not clamp page numbers below 1, so `Offset` is negative
  there (`OffsetShape`).

## Model

| member | source | states |
|---|---|---|
| `LatestInvoices.FindCustomer` | app/lib/data.ts:52-54 | The result is absent exactly when no customer has the id. When present, it is the customer at the first index whose id matches. |
| `LatestInvoices.Join` | app/lib/data.ts:50-68 | The join succeeds exactly when every invoice has a customer. On success it gives one row per invoice, in order. Each row keeps the invoice's id, date and formatted amount and takes name, email and image from the first matching customer. On failure the error names an invoice that has no customer, and every invoice before it had one. |
| `LatestInvoices.Row` | app/lib/data.ts:60-67 | The row has the invoice's id, date and formatted amount, and the customer's name, email and image. |
| `LatestInvoices.TakeLatest` | app/lib/data.ts:70 | `.slice(0, 5)` gives the first min(5, n) rows, in order. |
| `LatestInvoices.Insert` | app/lib/data.ts:69 | Inserting into a newest-first list gives a newest-first list. Its multiset is the old one plus the new row. |
| `LatestInvoices.SortNewestFirst` | app/lib/data.ts:69 | The result is ordered by date, newest first, and is a permutation of the input. |
| `LatestInvoices.FetchLatestInvoices` | app/lib/data.ts:50-77 | The call succeeds exactly when every invoice has a customer, so there is no partial result. On success the length is min(5, number of invoices), the rows are newest first, and each row is the join of some input invoice with its first matching customer. |
| `LatestInvoices.CutNewestFirst` | app/lib/data.ts:69-70 | In a newest-first list, the first n rows are a sub-multiset of the list. Every row left out is no newer than any row kept. |
| `LatestInvoices.LatestAreNewestOfJoined` | app/lib/data.ts:50-70 | Every returned row occurs among the joined rows, no more often than it occurs there. Every joined row left out is no newer than any returned row. |
| `LatestInvoices.InsertKeepsDistinctIds` | app/lib/data.ts:69 | Inserting a row whose id is new into a list with distinct ids keeps the ids distinct. |
| `LatestInvoices.SortKeepsDistinctIds` | app/lib/data.ts:69 | Sorting keeps invoice ids distinct. |
| `LatestInvoices.LatestHaveDistinctIds` | app/lib/data.ts:50-70 | When the invoice ids are distinct, no invoice appears twice in the result. |
| `CardData.WithStatus` | app/lib/data.ts:107 | The filter keeps every invoice with the given status as often as it occurs in the input, and drops every other invoice. The result is no longer than the input. |
| `CardData.SumAmounts` | app/lib/data.ts:108 | The left fold of `sum + invoice.amount` from a start value equals that value plus the total of the amounts. |
| `CardData.FilterTotalIsAmountWithStatus` | app/lib/data.ts:106-108 | The total of the filtered invoices equals the sum, over all invoices, of the amounts whose status matches. |
| `CardData.StatusTotal` | app/lib/data.ts:106-112 | Filter followed by reduce equals the status-restricted sum, and it is 0 when no invoice has that status, in particular for no invoices. |
| `CardData.NoneWithStatus` | app/lib/data.ts:106-112 | The status-restricted sum is 0 when no invoice has the status. |
| `CardData.PaidPlusPendingIsTotal` | app/lib/data.ts:106-112 | When every status is paid or pending, the paid total and the pending total add up to the total amount. |
| `CardData.FetchCardData` | app/lib/data.ts:100-120 | `numberOfInvoices` and `numberOfCustomers` are the two list lengths. The two totals are the formatted paid and pending sums. |
| `Pagination.Ceil` | app/lib/data.ts:178 | `Math.ceil(x)` is an integer r with x <= r < x + 1. |
| `Pagination.TotalPages` | app/lib/data.ts:178 | The page count is the least r with r * 6 >= count: r * 6 >= count and (r - 1) * 6 < count. |
| `Pagination.TotalPagesExamples` | app/lib/data.ts:178 | 0 rows give 0 pages, and 13 rows give 3 pages. |
| `Pagination.LastPageNonEmpty` | app/lib/data.ts:178 | For count > 0, the last page starts before row `count`, and the page after it starts at or beyond `count`. |
| `Pagination.Offset` | app/lib/data.ts:134 | The offset is a multiple of 6, namely 6 times (currentPage - 1). |
| `Pagination.OffsetShape` | app/lib/data.ts:134 | Page 1 has offset 0. Each page's offset is 6 more than the previous one. Pages at or below 0 have negative offsets, because nothing clamps them. |
| `Pagination.RowOnExactlyOnePage` | app/lib/data.ts:134 | Each row k < count lies in the six-row window of page k / 6 + 1, which is within 1..TotalPages(count), and in no other page's window. |

## Left out

- HTTP fetching, `response.ok` checks and JSON decoding (app/lib/data.ts:19-27, 38-48, 86-97) are network I/O. The model takes the fetched lists as inputs. A failed fetch, which also ends in the operation's single failure, is not modelled.
- fetchRevenue (app/lib/data.ts:17-34) only performs a fetch, a 3-second delay and a decode. It is I/O and timing throughout.
- All SQL bodies are left out: fetchFilteredInvoices' query, fetchInvoicesPages' `COUNT(*)`, fetchInvoiceById, fetchCustomers and fetchFilteredCustomers. Their filtering (`ILIKE`), ordering, `LIMIT`/`OFFSET`, joins and grouping run in Postgres. Only the offset and page-count arithmetic around them is modelled. Wildcard escaping of the query text is also a database-side matter, and the code does none.
- fetchInvoiceById's `amount / 100` is floating-point division and is not modelled.
- `formatCurrency` is a parameter, because `./utils` is not part of this model.
- Date strings are not parsed. `new Date(...)` is replaced by integer timestamps, so an invalid date, whose `getTime()` is `NaN`, is not modelled.
- JavaScript numbers are doubles. The sums are exact integers here, so rounding above 2^53 cents is not modelled. `Number(data[0].count)` is taken as a natural number.
- Offset: `currentPage` is a JavaScript number (app/lib/data.ts:132) but the model takes an integer, so fractional or NaN page numbers are not modelled.
- TotalPages: the code divides with IEEE double division (app/lib/data.ts:178), while the model divides exact reals. IEEE division followed by `Math.ceil` gives the exact ceiling for every count below 2^53. Above that, `Number(...)` rounds the count, which the model does not capture.
- `console.error` logging and the text of the error messages are not modelled. Failure is one error outcome.
- `SortNewestFirst`: its contract does not state how equal dates are ordered. The code promises no tie order, although the insertion sort (like the JavaScript sort) keeps the input order for ties.

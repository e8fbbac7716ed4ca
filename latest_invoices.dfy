/**
 * The in-memory part of fetchLatestInvoices: every invoice is joined with
 * the first customer whose id is the invoice's customer id, the joined rows
 * are ordered newest first and the first five are kept. An invoice without
 * a customer makes the whole operation fail.
 */
module LatestInvoices {
  import opened Definitions

  /** How many rows the dashboard shows. */
  const LATEST_COUNT := 5

  /** Some customer in `customers` has id `id`. */
  predicate HasCustomer(customers: seq<Customer>, id: Id) {
    exists j :: 0 <= j < |customers| && customers[j].id == id
  }

  /** `customers[k]` is the first customer whose id is `id`. */
  predicate IsFirstMatch(customers: seq<Customer>, id: Id, k: int) {
    && 0 <= k < |customers|
    && customers[k].id == id
    && forall j :: 0 <= j < k ==> customers[j].id != id
  }

  /** `customers.find(c => c.id === id)`: the first customer with that id. */
  function FindCustomer(customers: seq<Customer>, id: Id): (r: Option<Customer>)
    ensures r.None? <==> !HasCustomer(customers, id)
    ensures r.Some? ==> exists k :: IsFirstMatch(customers, id, k) && customers[k] == r.value
  {
    if customers == [] then None
    else if customers[0].id == id then
      assert IsFirstMatch(customers, id, 0);
      Some(customers[0])
    else
      var r := FindCustomer(customers[1..], id);
      if r.Some? then
        var k :| IsFirstMatch(customers[1..], id, k) && customers[1..][k] == r.value;
        assert IsFirstMatch(customers, id, k + 1);
        r
      else
        assert !HasCustomer(customers, id) by {
          forall j | 0 <= j < |customers| ensures customers[j].id != id {
            if j > 0 { assert customers[j] == customers[1..][j - 1]; }
          }
        }
        r
  }

  /** The row built for `invoice` once its customer is found. */
  function Row(invoice: Invoice, customer: Customer, formatCurrency: int -> string): (r: LatestInvoice)
    ensures r.id == invoice.id && r.date == invoice.date && r.amount == formatCurrency(invoice.amount)
    ensures r.name == customer.name && r.email == customer.email && r.imageUrl == customer.imageUrl
  {
    LatestInvoice(invoice.id, customer.name, customer.email, customer.imageUrl,
                  formatCurrency(invoice.amount), invoice.date)
  }

  /**
   * `row` is what the join makes of `invoice`: the invoice's id, date and
   * formatted amount, and the name, email and image of the first customer
   * whose id is the invoice's customer id.
   */
  ghost predicate JoinedFrom(row: LatestInvoice, invoice: Invoice, customers: seq<Customer>,
                       formatCurrency: int -> string)
  {
    && row.id == invoice.id
    && row.date == invoice.date
    && row.amount == formatCurrency(invoice.amount)
    && exists k :: IsFirstMatch(customers, invoice.customerId, k)
                   && row.name == customers[k].name
                   && row.email == customers[k].email
                   && row.imageUrl == customers[k].imageUrl
  }

  /** Every invoice of `invoices` has a customer. */
  predicate AllResolved(invoices: seq<Invoice>, customers: seq<Customer>) {
    forall i :: 0 <= i < |invoices| ==> HasCustomer(customers, invoices[i].customerId)
  }

  /** The error the join throws: no customer for this invoice id. */
  datatype JoinError = CustomerNotFound(invoiceId: Id)

  /**
   * The `.map` of fetchLatestInvoices. It visits the invoices in order and
   * throws at the first invoice that has no customer.
   */
  function Join(invoices: seq<Invoice>, customers: seq<Customer>, formatCurrency: int -> string)
    : (r: Result<seq<LatestInvoice>, JoinError>)
    ensures r.Ok? <==> AllResolved(invoices, customers)
    ensures r.Ok? ==> |r.value| == |invoices|
    ensures r.Ok? ==> forall i :: 0 <= i < |invoices| ==>
                        JoinedFrom(r.value[i], invoices[i], customers, formatCurrency)
    ensures r.Err? ==> exists i :: 0 <= i < |invoices|
                                   && invoices[i].id == r.error.invoiceId
                                   && !HasCustomer(customers, invoices[i].customerId)
                                   && AllResolved(invoices[..i], customers)
  {
    if invoices == [] then Ok([])
    else
      match FindCustomer(customers, invoices[0].customerId)
      case None =>
        assert AllResolved(invoices[..0], customers);
        Err(CustomerNotFound(invoices[0].id))
      case Some(c) =>
        var rest := Join(invoices[1..], customers, formatCurrency);
        match rest
        case Err(e) =>
          var i :| 0 <= i < |invoices[1..]|
                   && invoices[1..][i].id == e.invoiceId
                   && !HasCustomer(customers, invoices[1..][i].customerId)
                   && AllResolved(invoices[1..][..i], customers);
          assert AllResolved(invoices[..i + 1], customers) by {
            forall m | 0 <= m <= i ensures HasCustomer(customers, invoices[m].customerId) {
              if m > 0 { assert invoices[m] == invoices[1..][..i][m - 1]; }
            }
          }
          Err(e)
        case Ok(rows) =>
          var r := [Row(invoices[0], c, formatCurrency)] + rows;
          assert forall i :: 0 < i < |invoices| ==> invoices[i] == invoices[1..][i - 1];
          Ok(r)
  }

  /** Rows are ordered by date, newest first (ties in either order). */
  predicate NewestFirst(rows: seq<LatestInvoice>) {
    forall i, j :: 0 <= i < j < |rows| ==> rows[i].date >= rows[j].date
  }

  lemma HeadBeforeNewestFirst(head: LatestInvoice, rows: seq<LatestInvoice>)
    requires NewestFirst(rows)
    requires forall m :: 0 <= m < |rows| ==> rows[m].date <= head.date
    ensures NewestFirst([head] + rows)
  {
  }

  /** Puts `row` into newest-first `rows`, before every row of the same date. */
  function Insert(row: LatestInvoice, rows: seq<LatestInvoice>): (r: seq<LatestInvoice>)
    requires NewestFirst(rows)
    ensures NewestFirst(r)
    ensures multiset(r) == multiset(rows) + multiset{row}
  {
    if rows == [] || row.date >= rows[0].date then
      assert forall m :: 0 <= m < |rows| ==> rows[m].date <= row.date by {
        forall m | 0 <= m < |rows| ensures rows[m].date <= row.date {
          if m > 0 { assert rows[0].date >= rows[m].date; }
        }
      }
      HeadBeforeNewestFirst(row, rows);
      [row] + rows
    else
      var tail := Insert(row, rows[1..]);
      assert rows == [rows[0]] + rows[1..];
      forall m | 0 <= m < |tail| ensures tail[m].date <= rows[0].date {
        assert tail[m] in multiset(tail);
        if tail[m] != row {
          assert tail[m] in multiset(rows[1..]);
          var j :| 0 <= j < |rows[1..]| && rows[1..][j] == tail[m];
          assert rows[j + 1] == tail[m];
        }
      }
      HeadBeforeNewestFirst(rows[0], tail);
      [rows[0]] + tail
  }

  /**
   * The `.sort` of fetchLatestInvoices with the comparator
   * `dateB - dateA`: a rearrangement of the rows, newest first.
   */
  function SortNewestFirst(rows: seq<LatestInvoice>): (r: seq<LatestInvoice>)
    ensures NewestFirst(r)
    ensures multiset(r) == multiset(rows)
  {
    if rows == [] then []
    else
      assert rows == [rows[0]] + rows[1..];
      Insert(rows[0], SortNewestFirst(rows[1..]))
  }

  /** `.slice(0, 5)`: the first five rows, or all of them when fewer. */
  function TakeLatest(rows: seq<LatestInvoice>): (r: seq<LatestInvoice>)
    ensures |r| == Min(LATEST_COUNT, |rows|)
    ensures forall k :: 0 <= k < |r| ==> r[k] == rows[k]
  {
    rows[..Min(LATEST_COUNT, |rows|)]
  }

  /** The single failure fetchLatestInvoices reports, whatever went wrong. */
  datatype FetchError = LatestInvoicesFailed

  /**
   * fetchLatestInvoices on the fetched invoices and customers: the five
   * newest joined rows, or a failure when some invoice has no customer.
   */
  function FetchLatestInvoices(invoices: seq<Invoice>, customers: seq<Customer>,
                               formatCurrency: int -> string)
    : (r: Result<seq<LatestInvoice>, FetchError>)
    ensures r.Ok? <==> AllResolved(invoices, customers)
    ensures r.Ok? ==> |r.value| == Min(LATEST_COUNT, |invoices|)
    ensures r.Ok? ==> NewestFirst(r.value)
    ensures r.Ok? ==> forall k :: 0 <= k < |r.value| ==>
                        exists i :: 0 <= i < |invoices|
                                    && JoinedFrom(r.value[k], invoices[i], customers, formatCurrency)
  {
    match Join(invoices, customers, formatCurrency)
    case Err(_) => Err(LatestInvoicesFailed)
    case Ok(joined) =>
      var sorted := SortNewestFirst(joined);
      var latest := TakeLatest(sorted);
      assert forall k :: 0 <= k < |latest| ==> latest[k] == sorted[k];
      assert forall k :: 0 <= k < |latest| ==> sorted[k] in multiset(joined);
      Ok(latest)
  }

  /** Cutting a newest-first list leaves behind nothing newer than what is kept. */
  lemma CutNewestFirst(sorted: seq<LatestInvoice>, n: nat)
    requires NewestFirst(sorted) && n <= |sorted|
    ensures multiset(sorted[..n]) <= multiset(sorted)
    ensures multiset(sorted) - multiset(sorted[..n]) == multiset(sorted[n..])
    ensures forall e, k :: e in multiset(sorted[n..]) && 0 <= k < n ==> e.date <= sorted[..n][k].date
  {
    assert sorted == sorted[..n] + sorted[n..];
    forall e: LatestInvoice, k | e in multiset(sorted[n..]) && 0 <= k < n
      ensures e.date <= sorted[..n][k].date
    {
      var m :| 0 <= m < |sorted[n..]| && sorted[n..][m] == e;
      assert sorted[n + m] == e;
    }
  }

  /**
   * The kept rows come from the joined rows (each at most as often as it
   * occurs there), and every joined row that is left out is no newer than
   * any row that is kept: the result really is the latest rows.
   */
  lemma LatestAreNewestOfJoined(invoices: seq<Invoice>, customers: seq<Customer>,
                                formatCurrency: int -> string)
    requires AllResolved(invoices, customers)
    ensures var joined := Join(invoices, customers, formatCurrency).value;
            var latest := FetchLatestInvoices(invoices, customers, formatCurrency).value;
            && multiset(latest) <= multiset(joined)
            && forall e :: e in multiset(joined) - multiset(latest) ==>
                 forall k :: 0 <= k < |latest| ==> e.date <= latest[k].date
  {
    var joined := Join(invoices, customers, formatCurrency).value;
    var sorted := SortNewestFirst(joined);
    var n := Min(LATEST_COUNT, |sorted|);
    assert FetchLatestInvoices(invoices, customers, formatCurrency) == Ok(sorted[..n]);
    CutNewestFirst(sorted, n);
  }

  /** No two rows carry the same invoice id. */
  predicate DistinctIds(rows: seq<LatestInvoice>) {
    forall i, j :: 0 <= i < j < |rows| ==> rows[i].id != rows[j].id
  }

  /** No two invoices carry the same id. */
  predicate DistinctInvoiceIds(invoices: seq<Invoice>) {
    forall i, j :: 0 <= i < j < |invoices| ==> invoices[i].id != invoices[j].id
  }

  lemma {:induction false} InsertKeepsDistinctIds(row: LatestInvoice, rows: seq<LatestInvoice>)
    requires NewestFirst(rows) && DistinctIds(rows)
    requires forall m :: 0 <= m < |rows| ==> rows[m].id != row.id
    ensures DistinctIds(Insert(row, rows))
  {
    var r := Insert(row, rows);
    if rows == [] || row.date >= rows[0].date {
      forall i, j | 0 <= i < j < |r| ensures r[i].id != r[j].id {
        assert r[j] == rows[j - 1];
        if i > 0 { assert r[i] == rows[i - 1]; }
      }
    } else {
      var tail := Insert(row, rows[1..]);
      InsertKeepsDistinctIds(row, rows[1..]);
      assert r == [rows[0]] + tail;
      forall m | 0 <= m < |tail| ensures tail[m].id != rows[0].id {
        assert tail[m] in multiset(tail);
        if tail[m] != row {
          assert tail[m] in multiset(rows[1..]);
          var j :| 0 <= j < |rows[1..]| && rows[1..][j] == tail[m];
          assert rows[j + 1] == tail[m];
        }
      }
      forall i, j | 0 <= i < j < |r| ensures r[i].id != r[j].id {
        assert r[j] == tail[j - 1];
        if i > 0 { assert r[i] == tail[i - 1]; }
      }
    }
  }

  lemma {:induction false} SortKeepsDistinctIds(rows: seq<LatestInvoice>)
    requires DistinctIds(rows)
    ensures DistinctIds(SortNewestFirst(rows))
  {
    if rows != [] {
      var sortedTail := SortNewestFirst(rows[1..]);
      assert DistinctIds(rows[1..]) by {
        forall i, j | 0 <= i < j < |rows[1..]| ensures rows[1..][i].id != rows[1..][j].id {
          assert rows[1..][i] == rows[i + 1] && rows[1..][j] == rows[j + 1];
        }
      }
      SortKeepsDistinctIds(rows[1..]);
      forall m | 0 <= m < |sortedTail| ensures sortedTail[m].id != rows[0].id {
        assert sortedTail[m] in multiset(rows[1..]);
        var j :| 0 <= j < |rows[1..]| && rows[1..][j] == sortedTail[m];
        assert rows[j + 1] == sortedTail[m];
      }
      InsertKeepsDistinctIds(rows[0], sortedTail);
    }
  }

  /** When the invoice ids are distinct, no invoice appears twice in the result. */
  lemma LatestHaveDistinctIds(invoices: seq<Invoice>, customers: seq<Customer>,
                              formatCurrency: int -> string)
    requires AllResolved(invoices, customers)
    requires DistinctInvoiceIds(invoices)
    ensures DistinctIds(FetchLatestInvoices(invoices, customers, formatCurrency).value)
  {
    var joined := Join(invoices, customers, formatCurrency).value;
    assert DistinctIds(joined) by {
      forall i, j | 0 <= i < j < |joined| ensures joined[i].id != joined[j].id {
        assert JoinedFrom(joined[i], invoices[i], customers, formatCurrency);
        assert JoinedFrom(joined[j], invoices[j], customers, formatCurrency);
      }
    }
    SortKeepsDistinctIds(joined);
  }
}

/**
 * The in-memory part of fetchCardData: the number of invoices and of
 * customers, and the amounts of the paid and of the pending invoices, each
 * computed by filtering on the status and folding the amounts from 0.
 */
module CardData {
  import opened Definitions

  const PAID := "paid"
  const PENDING := "pending"

  /**
   * `.filter(invoice => invoice.status === status)`: every invoice with that
   * status, as often as it occurs in the input, and no other.
   */
  function WithStatus(invoices: seq<Invoice>, status: string): (r: seq<Invoice>)
    ensures |r| <= |invoices|
    ensures forall x :: x in r <==> x in invoices && x.status == status
    ensures forall x :: multiset(r)[x] == if x.status == status then multiset(invoices)[x] else 0
  {
    if invoices == [] then []
    else
      assert invoices == [invoices[0]] + invoices[1..];
      assert forall x :: x in invoices <==> x == invoices[0] || x in invoices[1..];
      (if invoices[0].status == status then [invoices[0]] else [])
        + WithStatus(invoices[1..], status)
  }

  /** Sum of all amounts. */
  function TotalAmount(invoices: seq<Invoice>): int {
    if invoices == [] then 0 else invoices[0].amount + TotalAmount(invoices[1..])
  }

  /** Sum of the amounts of the invoices whose status is `status`. */
  function AmountWithStatus(invoices: seq<Invoice>, status: string): int {
    if invoices == [] then 0
    else (if invoices[0].status == status then invoices[0].amount else 0)
         + AmountWithStatus(invoices[1..], status)
  }

  /**
   * `.reduce((sum, invoice) => sum + invoice.amount, sum)`, folding from the
   * left: the start value plus the total of the amounts.
   */
  function SumAmounts(invoices: seq<Invoice>, sum: int): (r: int)
    ensures r == sum + TotalAmount(invoices)
  {
    if invoices == [] then sum else SumAmounts(invoices[1..], sum + invoices[0].amount)
  }

  /** The total of the filtered invoices is the status-restricted sum. */
  lemma {:induction false} FilterTotalIsAmountWithStatus(invoices: seq<Invoice>, status: string)
    ensures TotalAmount(WithStatus(invoices, status)) == AmountWithStatus(invoices, status)
  {
    if invoices != [] {
      FilterTotalIsAmountWithStatus(invoices[1..], status);
      var head := if invoices[0].status == status then [invoices[0]] else [];
      var rest := WithStatus(invoices[1..], status);
      if head == [] {
        assert head + rest == rest;
      } else {
        assert (head + rest)[1..] == rest;
      }
    }
  }

  /**
   * `invoices.filter(status).reduce(add, 0)`: the sum of the amounts of the
   * invoices with that status, each counted once; 0 when there are none.
   */
  function StatusTotal(invoices: seq<Invoice>, status: string): (r: int)
    ensures r == AmountWithStatus(invoices, status)
    ensures (forall i :: 0 <= i < |invoices| ==> invoices[i].status != status) ==> r == 0
  {
    FilterTotalIsAmountWithStatus(invoices, status);
    NoneWithStatus(invoices, status);
    SumAmounts(WithStatus(invoices, status), 0)
  }

  lemma {:induction false} NoneWithStatus(invoices: seq<Invoice>, status: string)
    ensures (forall i :: 0 <= i < |invoices| ==> invoices[i].status != status) ==>
              AmountWithStatus(invoices, status) == 0
  {
    if invoices != [] {
      NoneWithStatus(invoices[1..], status);
      assert forall i :: 0 < i < |invoices| ==> invoices[i] == invoices[1..][i - 1];
    }
  }

  /** When every invoice is paid or pending, the two sums make the total. */
  lemma {:induction false} PaidPlusPendingIsTotal(invoices: seq<Invoice>)
    requires forall i :: 0 <= i < |invoices| ==>
               invoices[i].status == PAID || invoices[i].status == PENDING
    ensures StatusTotal(invoices, PAID) + StatusTotal(invoices, PENDING) == TotalAmount(invoices)
  {
    if invoices != [] {
      assert forall i :: 0 < i < |invoices| ==> invoices[i] == invoices[1..][i - 1];
      PaidPlusPendingIsTotal(invoices[1..]);
    }
  }

  /** What fetchCardData returns; the two sums are formatted as currency. */
  datatype CardSummary = CardSummary(
    numberOfCustomers: nat, numberOfInvoices: nat,
    totalPaidInvoices: string, totalPendingInvoices: string)

  /** fetchCardData on the fetched invoices and customers. */
  function FetchCardData(invoices: seq<Invoice>, customers: seq<Customer>,
                         formatCurrency: int -> string): (r: CardSummary)
    ensures r.numberOfInvoices == |invoices| && r.numberOfCustomers == |customers|
    ensures r.totalPaidInvoices == formatCurrency(AmountWithStatus(invoices, PAID))
    ensures r.totalPendingInvoices == formatCurrency(AmountWithStatus(invoices, PENDING))
  {
    CardSummary(|customers|, |invoices|,
                formatCurrency(StatusTotal(invoices, PAID)),
                formatCurrency(StatusTotal(invoices, PENDING)))
  }
}

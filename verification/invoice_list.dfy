/** The invoice list page's logic (src/pages/InvoiceList.tsx): filtering by
    status and a case-insensitive search over the invoice number and client
    name, and the summary figures shown under the list. */
module InvoiceList {
  import opened Seqs
  import opened InvoiceTypes
  import opened Text

  /** The status drop-down: every status, or one of them. */
  datatype StatusFilter = AllStatuses | OnlyStatus(status: Status)

  predicate MatchesStatus(inv: Invoice, f: StatusFilter)
  {
    f.AllStatuses? || inv.status == f.status
  }

  /** The lower-cased term occurs in the lower-cased invoice number or client name. */
  predicate MatchesSearch(inv: Invoice, term: string)
  {
    Includes(ToLower(inv.invoiceNumber), ToLower(term)) || Includes(ToLower(inv.clientName), ToLower(term))
  }

  /** The list's filter: both the status and the search term match. */
  predicate Matches(inv: Invoice, f: StatusFilter, term: string)
  {
    MatchesStatus(inv, f) && MatchesSearch(inv, term)
  }

  function Matcher(f: StatusFilter, term: string): Invoice -> bool
  {
    (inv: Invoice) => Matches(inv, f, term)
  }

  /** The invoices the list shows: those matching both the status filter and
      the search term, in store order, each as many times as it is stored. */
  function FilteredInvoices(invs: seq<Invoice>, f: StatusFilter, term: string): (r: seq<Invoice>)
    ensures IsSubsequence(r, invs)
    ensures forall x :: x in r <==> x in invs && MatchesStatus(x, f) && MatchesSearch(x, term)
    ensures forall x :: multiset(r)[x] == if Matches(x, f, term) then multiset(invs)[x] else 0
    ensures f.OnlyStatus? ==> forall i :: 0 <= i < |r| ==> r[i].status == f.status
  {
    FilterIsSubsequence(invs, Matcher(f, term));
    FilterMembership(invs, Matcher(f, term));
    FilterCounts(invs, Matcher(f, term));
    var r := Filter(invs, Matcher(f, term));
    assert forall i :: 0 <= i < |r| ==> r[i] in r;
    r
  }

  /** The search is plain substring search on lower-cased text. */
  lemma SearchMeansSubstring(inv: Invoice, term: string)
    ensures MatchesSearch(inv, term) <==>
      (exists k :: OccursAt(ToLower(inv.invoiceNumber), ToLower(term), k)) ||
      (exists k :: OccursAt(ToLower(inv.clientName), ToLower(term), k))
  {
    IncludesIff(ToLower(inv.invoiceNumber), ToLower(term));
    IncludesIff(ToLower(inv.clientName), ToLower(term));
  }

  /** Lower-casing the term first changes nothing: the search ignores the
      case of ASCII letters in the term. */
  lemma SearchIgnoresTermCase(inv: Invoice, term: string)
    ensures MatchesSearch(inv, ToLower(term)) == MatchesSearch(inv, term)
  {
    ToLowerIdempotent(term);
  }

  /** With every status and an empty search term the whole list is shown. */
  lemma UnfilteredShowsAll(invs: seq<Invoice>)
    ensures FilteredInvoices(invs, AllStatuses, "") == invs
  {
    forall i | 0 <= i < |invs|
      ensures Matcher(AllStatuses, "")(invs[i])
    {
      IncludesEmpty(ToLower(invs[i].invoiceNumber));
    }
    FilterKeepsAll(invs, Matcher(AllStatuses, ""));
  }

  /** The figures under the list. */
  datatype Summary = Summary(count: nat, totalAmount: real, paidAmount: real, outstanding: real)

  /** The summary of the shown invoices, present only when at least one is
      shown. The paid amount sums the paid invoices, the outstanding amount
      all others, so together they split the total amount. */
  function Summarize(shown: seq<Invoice>): (r: Option<Summary>)
    ensures r.None? <==> |shown| == 0
    ensures r.Some? ==> r.value.count == |shown|
    ensures r.Some? ==> r.value.totalAmount == Sum(shown, TotalOf)
    ensures r.Some? ==> r.value.paidAmount == Sum(Filter(shown, IsPaid), TotalOf)
    ensures r.Some? ==> r.value.outstanding == Sum(Filter(shown, IsUnpaid), TotalOf)
    ensures r.Some? ==> r.value.paidAmount + r.value.outstanding == r.value.totalAmount
  {
    if |shown| == 0 then None
    else
      SumPartition(shown, IsPaid, IsUnpaid, TotalOf);
      Some(Summary(
        |shown|,
        Sum(shown, TotalOf),
        Sum(Filter(shown, IsPaid), TotalOf),
        Sum(Filter(shown, IsUnpaid), TotalOf)))
  }

  /** When none of the shown invoices is paid the paid amount is zero and all
      of the total is outstanding; when all are paid nothing is outstanding. */
  lemma SummaryExtremes(shown: seq<Invoice>)
    requires |shown| > 0
    ensures (forall i :: 0 <= i < |shown| ==> shown[i].status != Paid) ==>
      Summarize(shown).value.paidAmount == 0.0 &&
      Summarize(shown).value.outstanding == Summarize(shown).value.totalAmount
    ensures (forall i :: 0 <= i < |shown| ==> shown[i].status == Paid) ==>
      Summarize(shown).value.outstanding == 0.0 &&
      Summarize(shown).value.paidAmount == Summarize(shown).value.totalAmount
  {
    if forall i :: 0 <= i < |shown| ==> shown[i].status != Paid {
      FilterNone(shown, IsPaid);
    }
    if forall i :: 0 <= i < |shown| ==> shown[i].status == Paid {
      FilterNone(shown, IsUnpaid);
    }
  }
}

/** The dashboard page's logic (src/pages/Dashboard.tsx): counts per status,
    revenue from paid invoices, and the five most recently created invoices. */
module Dashboard {
  import opened Seqs
  import opened InvoiceTypes
  import InvoiceContext
  import InvoiceList

  /** The four counters on the dashboard; `pending` counts sent invoices. */
  datatype Stats = Stats(total: nat, paid: nat, pending: nat, overdue: nat)

  /** Every invoice has exactly one of the four statuses. */
  lemma {:induction false} StatusCountsPartition(invs: seq<Invoice>)
    ensures |Filter(invs, IsPaid)| + |Filter(invs, IsSent)| + |Filter(invs, IsOverdue)|
            + |Filter(invs, IsDraft)| == |invs|
  {
    if |invs| > 0 {
      StatusCountsPartition(invs[..|invs| - 1]);
    }
  }

  /** The counters: each one is the number of positions holding an invoice of
      its status. Paid, sent and overdue invoices together are at most all
      invoices; the shortfall is the number of drafts. */
  function ComputeStats(invs: seq<Invoice>): (r: Stats)
    ensures r.total == |invs|
    ensures r.paid == |set i | 0 <= i < |invs| && invs[i].status == Paid|
    ensures r.pending == |set i | 0 <= i < |invs| && invs[i].status == Sent|
    ensures r.overdue == |set i | 0 <= i < |invs| && invs[i].status == Overdue|
    ensures r.paid + r.pending + r.overdue + |Filter(invs, IsDraft)| == r.total
    ensures r.paid + r.pending + r.overdue <= r.total
    ensures forall x :: x in invs && x.status == Paid ==> r.paid > 0
  {
    StatusCountsPartition(invs);
    FilterMembership(invs, IsPaid);
    FilterCountsIndices(invs, IsPaid);
    FilterCountsIndices(invs, IsSent);
    FilterCountsIndices(invs, IsOverdue);
    assert IndicesWhere(invs, IsPaid) == set i | 0 <= i < |invs| && invs[i].status == Paid;
    assert IndicesWhere(invs, IsSent) == set i | 0 <= i < |invs| && invs[i].status == Sent;
    assert IndicesWhere(invs, IsOverdue) == set i | 0 <= i < |invs| && invs[i].status == Overdue;
    Stats(|invs|, |Filter(invs, IsPaid)|, |Filter(invs, IsSent)|, |Filter(invs, IsOverdue)|)
  }

  /** The counters depend only on which invoices there are, not on their order. */
  lemma StatsPermutationInvariant(a: seq<Invoice>, b: seq<Invoice>)
    requires multiset(a) == multiset(b)
    ensures ComputeStats(a) == ComputeStats(b)
  {
    FilterPermutation(a, b, IsPaid);
    FilterPermutation(a, b, IsSent);
    FilterPermutation(a, b, IsOverdue);
    assert |multiset(Filter(a, IsPaid))| == |multiset(Filter(b, IsPaid))|;
    assert |multiset(Filter(a, IsSent))| == |multiset(Filter(b, IsSent))|;
    assert |multiset(Filter(a, IsOverdue))| == |multiset(Filter(b, IsOverdue))|;
    assert |multiset(a)| == |multiset(b)|;
  }

  /** Revenue: the sum of the totals of the paid invoices. */
  function TotalRevenue(invs: seq<Invoice>): real
  {
    Sum(Filter(invs, IsPaid), TotalOf)
  }

  /** Revenue is zero when nothing is paid, and never negative when no invoice
      total is. */
  lemma RevenueBounds(invs: seq<Invoice>)
    ensures (forall i :: 0 <= i < |invs| ==> invs[i].status != Paid) ==> TotalRevenue(invs) == 0.0
    ensures (forall i :: 0 <= i < |invs| ==> invs[i].total >= 0.0) ==> TotalRevenue(invs) >= 0.0
  {
    var paid := Filter(invs, IsPaid);
    if forall i :: 0 <= i < |invs| ==> invs[i].status != Paid {
      FilterNone(invs, IsPaid);
    }
    if forall i :: 0 <= i < |invs| ==> invs[i].total >= 0.0 {
      FilterMembership(invs, IsPaid);
      assert forall i :: 0 <= i < |paid| ==> paid[i] in invs;
      SumNonNegative(paid, TotalOf);
    }
  }

  /** The dashboard's revenue equals the paid amount the list page shows for
      the unfiltered list, and with the outstanding amount makes up the total. */
  lemma RevenueMatchesListSummary(invs: seq<Invoice>)
    requires |invs| > 0
    ensures
      var shown := InvoiceList.FilteredInvoices(invs, InvoiceList.AllStatuses, "");
      var summary := InvoiceList.Summarize(shown).value;
      summary.paidAmount == TotalRevenue(invs) &&
      TotalRevenue(invs) + summary.outstanding == Sum(invs, TotalOf)
  {
    InvoiceList.UnfilteredShowsAll(invs);
  }

  /** Revenue too depends only on which invoices there are, not on their order. */
  lemma RevenuePermutationInvariant(a: seq<Invoice>, b: seq<Invoice>)
    requires multiset(a) == multiset(b)
    ensures TotalRevenue(a) == TotalRevenue(b)
  {
    FilterPermutation(a, b, IsPaid);
    SumPermutation(Filter(a, IsPaid), Filter(b, IsPaid), TotalOf);
  }

  /** Newer invoices come first. */
  predicate NewestFirst(s: seq<Invoice>)
  {
    forall i, j :: 0 <= i < j < |s| ==> s[i].createdAt >= s[j].createdAt
  }

  /** Inserts `x` before the first invoice that is not newer than it. */
  function InsertByCreated(x: Invoice, s: seq<Invoice>): seq<Invoice>
  {
    if |s| == 0 then [x]
    else if s[0].createdAt <= x.createdAt then [x] + s
    else [s[0]] + InsertByCreated(x, s[1..])
  }

  /** Insertion adds exactly one copy of `x` and loses nothing. */
  lemma {:induction false} InsertPermutes(x: Invoice, s: seq<Invoice>)
    ensures multiset(InsertByCreated(x, s)) == multiset(s) + multiset{x}
  {
    if |s| > 0 && s[0].createdAt > x.createdAt {
      var tail := s[1..];
      assert s == [s[0]] + tail;
      InsertPermutes(x, tail);
      assert InsertByCreated(x, s) == [s[0]] + InsertByCreated(x, tail);
    } else if |s| > 0 {
      assert InsertByCreated(x, s) == [x] + s;
    }
  }

  /** The head after insertion is `x` or the old head. */
  lemma InsertHead(x: Invoice, s: seq<Invoice>)
    ensures |InsertByCreated(x, s)| > 0
    ensures InsertByCreated(x, s)[0] == x || (|s| > 0 && InsertByCreated(x, s)[0] == s[0])
  {
  }

  /** Putting an invoice no older than the head in front keeps a sequence
      newest first. */
  lemma ConsSorted(x: Invoice, s: seq<Invoice>)
    requires NewestFirst(s)
    requires |s| > 0 ==> s[0].createdAt <= x.createdAt
    ensures NewestFirst([x] + s)
  {
    var r := [x] + s;
    forall i, j | 0 <= i < j < |r|
      ensures r[i].createdAt >= r[j].createdAt
    {
      if i == 0 {
        assert r[j] == s[j - 1];
      } else {
        assert r[i] == s[i - 1] && r[j] == s[j - 1];
      }
    }
  }

  /** Insertion into a newest-first sequence keeps it newest first. */
  lemma {:induction false} InsertSorted(x: Invoice, s: seq<Invoice>)
    requires NewestFirst(s)
    ensures NewestFirst(InsertByCreated(x, s))
  {
    if |s| == 0 || s[0].createdAt <= x.createdAt {
      ConsSorted(x, s);
    } else {
      var tail := s[1..];
      assert NewestFirst(tail);
      InsertSorted(x, tail);
      InsertHead(x, tail);
      ConsSorted(s[0], InsertByCreated(x, tail));
    }
  }

  /** Newest first by creation time; invoices created at the same time keep
      their relative order (JavaScript's sort is stable). */
  function SortNewestFirst(s: seq<Invoice>): seq<Invoice>
  {
    if |s| == 0 then [] else InsertByCreated(s[0], SortNewestFirst(s[1..]))
  }

  /** The sort yields a newest-first permutation of its input. */
  lemma {:induction false} SortSorted(s: seq<Invoice>)
    ensures NewestFirst(SortNewestFirst(s))
    ensures multiset(SortNewestFirst(s)) == multiset(s)
    ensures |SortNewestFirst(s)| == |s|
  {
    if |s| > 0 {
      var tail := s[1..];
      assert s == [s[0]] + tail;
      SortSorted(tail);
      InsertSorted(s[0], SortNewestFirst(tail));
      InsertPermutes(s[0], SortNewestFirst(tail));
    }
    assert |multiset(SortNewestFirst(s))| == |multiset(s)|;
  }

  function CreatedAtIs(t: int): Invoice -> bool
  {
    (inv: Invoice) => inv.createdAt == t
  }

  /** Inserting `x` places it before every invoice created at the same time. */
  lemma {:induction false} InsertStable(x: Invoice, s: seq<Invoice>, t: int)
    ensures Filter(InsertByCreated(x, s), CreatedAtIs(t))
            == (if x.createdAt == t then [x] else []) + Filter(s, CreatedAtIs(t))
  {
    var p := CreatedAtIs(t);
    if |s| == 0 || s[0].createdAt <= x.createdAt {
      assert InsertByCreated(x, s) == [x] + s;
      FilterSingleton(x, p);
      FilterConcat([x], s, p);
    } else {
      var tail := s[1..];
      var rest := InsertByCreated(x, tail);
      assert InsertByCreated(x, s) == [s[0]] + rest;
      assert s == [s[0]] + tail;
      InsertStable(x, tail, t);
      InsertStableStep(x, s[0], tail, rest, t);
    }
  }

  /** The inductive step of InsertStable: `x` passes an invoice `s0` strictly
      newer than it, which is therefore not created at x's time. */
  lemma InsertStableStep(x: Invoice, s0: Invoice, tail: seq<Invoice>, rest: seq<Invoice>, t: int)
    requires s0.createdAt > x.createdAt
    requires Filter(rest, CreatedAtIs(t)) == (if x.createdAt == t then [x] else []) + Filter(tail, CreatedAtIs(t))
    ensures Filter([s0] + rest, CreatedAtIs(t))
            == (if x.createdAt == t then [x] else []) + Filter([s0] + tail, CreatedAtIs(t))
  {
    var p := CreatedAtIs(t);
    FilterSingleton(s0, p);
    FilterConcat([s0], rest, p);
    FilterConcat([s0], tail, p);
  }

  /** The sort is stable: the invoices created at any one time appear in the
      sorted sequence in the same order as in the input. */
  lemma {:induction false} SortStable(s: seq<Invoice>, t: int)
    ensures Filter(SortNewestFirst(s), CreatedAtIs(t)) == Filter(s, CreatedAtIs(t))
  {
    if |s| > 0 {
      var p := CreatedAtIs(t);
      var s0, tail := s[0], s[1..];
      assert s == [s0] + tail;
      assert SortNewestFirst(s) == InsertByCreated(s0, SortNewestFirst(tail));
      SortStable(tail, t);
      InsertStable(s0, SortNewestFirst(tail), t);
      FilterSingleton(s0, p);
      FilterConcat([s0], tail, p);
    }
  }

  /** The sort is stable for every creation time at once. */
  lemma SortStableAll(s: seq<Invoice>)
    ensures forall t :: Filter(SortNewestFirst(s), CreatedAtIs(t)) == Filter(s, CreatedAtIs(t))
  {
    forall t
      ensures Filter(SortNewestFirst(s), CreatedAtIs(t)) == Filter(s, CreatedAtIs(t))
    {
      SortStable(s, t);
    }
  }

  /** A prefix of a newest-first sequence is newest first. */
  lemma PrefixNewestFirst(s: seq<Invoice>, k: nat)
    requires NewestFirst(s) && k <= |s|
    ensures NewestFirst(s[..k])
  {
    assert forall i :: 0 <= i < k ==> s[..k][i] == s[i];
  }

  /** A prefix of the sorted invoices lists those created at any one time as
      an initial segment of those in the store, in store order. */
  lemma SortedPrefixStable(invs: seq<Invoice>, k: nat)
    requires k <= |SortNewestFirst(invs)|
    ensures forall t :: Filter(SortNewestFirst(invs)[..k], CreatedAtIs(t)) <= Filter(invs, CreatedAtIs(t))
  {
    var sorted := SortNewestFirst(invs);
    SortStableAll(invs);
    assert sorted == sorted[..k] + sorted[k..];
    forall t
      ensures Filter(sorted[..k], CreatedAtIs(t)) <= Filter(invs, CreatedAtIs(t))
    {
      FilterConcat(sorted[..k], sorted[k..], CreatedAtIs(t));
    }
  }

  /** The first `k` sorted invoices: newest first, taken from the store, and
      listing the invoices created at any one time in store order. */
  lemma SortedPrefix(invs: seq<Invoice>, k: nat)
    requires k <= |invs|
    ensures |SortNewestFirst(invs)| == |invs|
    ensures NewestFirst(SortNewestFirst(invs)[..k])
    ensures multiset(SortNewestFirst(invs)[..k]) <= multiset(invs)
    ensures forall i :: 0 <= i < k ==> SortNewestFirst(invs)[..k][i] in invs
    ensures forall t :: Filter(SortNewestFirst(invs)[..k], CreatedAtIs(t)) <= Filter(invs, CreatedAtIs(t))
  {
    var sorted := SortNewestFirst(invs);
    SortSorted(invs);
    PrefixNewestFirst(sorted, k);
    SortedPrefixStable(invs, k);
    PrefixSubmultiset(sorted, k);
    forall i | 0 <= i < k
      ensures sorted[..k][i] in invs
    {
      assert sorted[..k][i] in multiset(invs);
    }
  }

  const RecentCount: nat := 5

  /** The five most recently created invoices, newest first (fewer when the
      store holds fewer); invoices created at the same time keep store order. */
  function RecentInvoices(invs: seq<Invoice>): (r: seq<Invoice>)
    ensures |r| == if |invs| < RecentCount then |invs| else RecentCount
    ensures NewestFirst(r)
    ensures multiset(r) <= multiset(invs)
    ensures forall i :: 0 <= i < |r| ==> r[i] in invs
    ensures forall t :: Filter(r, CreatedAtIs(t)) <= Filter(invs, CreatedAtIs(t))
  {
    var k := if |invs| < RecentCount then |invs| else RecentCount;
    SortedPrefix(invs, k);
    SortNewestFirst(invs)[..k]
  }

  /** No invoice left out of the recent ones is newer than any invoice in them. */
  lemma RecentAreNewest(invs: seq<Invoice>)
    ensures forall x, y :: x in multiset(invs) - multiset(RecentInvoices(invs)) && y in RecentInvoices(invs)
              ==> x.createdAt <= y.createdAt
  {
    var sorted := SortNewestFirst(invs);
    SortSorted(invs);
    var recent := RecentInvoices(invs);
    var k := |recent|;
    assert recent == sorted[..k];
    var rest := sorted[k..];
    assert sorted == recent + rest;
    assert multiset(invs) - multiset(recent) == multiset(rest);
    TailNotNewer(sorted, k);
    forall x, y | x in multiset(invs) - multiset(recent) && y in recent
      ensures x.createdAt <= y.createdAt
    {
      assert x in rest;
    }
  }

  /** In a newest-first sequence nothing after position `k` is newer than
      anything before it. */
  lemma TailNotNewer(sorted: seq<Invoice>, k: nat)
    requires NewestFirst(sorted) && k <= |sorted|
    ensures forall x, y :: x in sorted[k..] && y in sorted[..k] ==> x.createdAt <= y.createdAt
  {
    forall x: Invoice, y: Invoice | x in sorted[k..] && y in sorted[..k]
      ensures x.createdAt <= y.createdAt
    {
      var j :| 0 <= j < |sorted[k..]| && sorted[k..][j] == x;
      var i :| 0 <= i < k && sorted[..k][i] == y;
      assert sorted[k + j] == x && sorted[i] == y;
    }
  }

  /** What the dashboard shows. */
  datatype View = View(stats: Stats, revenue: real, recent: seq<Invoice>)

  /** The dashboard as written: counters and revenue are computed first, then
      the store's own invoice array is sorted in place and its first five are
      shown. The returned state is the store after rendering: newest first,
      with invoices created at the same time still in their old order. */
  function RenderAsWritten(s: InvoiceContext.State): (r: (View, InvoiceContext.State))
    ensures r.0 == View(ComputeStats(s.invoices), TotalRevenue(s.invoices), RecentInvoices(s.invoices))
    ensures r.1.loading == s.loading && r.1.error == s.error
    ensures multiset(r.1.invoices) == multiset(s.invoices)
    ensures NewestFirst(r.1.invoices)
    ensures forall t :: Filter(r.1.invoices, CreatedAtIs(t)) == Filter(s.invoices, CreatedAtIs(t))
  {
    var view := View(ComputeStats(s.invoices), TotalRevenue(s.invoices), RecentInvoices(s.invoices));
    SortSorted(s.invoices);
    SortStableAll(s.invoices);
    (view, s.(invoices := SortNewestFirst(s.invoices)))
  }

  /** Rendering the dashboard as written reorders the store: after a visit
      the list page shows two invoices newest first instead of in the order
      they were added. */
  lemma RenderAsWrittenReordersStore()
    ensures
      var a := Invoice("a", "INV-1", "", "", "", "", "", [], 0.0, 0.0, 0.0, 0.0, "", Draft, 1, 1);
      var b := Invoice("b", "INV-2", "", "", "", "", "", [], 0.0, 0.0, 0.0, 0.0, "", Draft, 2, 2);
      var s := InvoiceContext.State([a, b], false, None);
      RenderAsWritten(s).1.invoices == [b, a] &&
      InvoiceList.FilteredInvoices(RenderAsWritten(s).1.invoices, InvoiceList.AllStatuses, "")
        != InvoiceList.FilteredInvoices(s.invoices, InvoiceList.AllStatuses, "")
  {
    var a := Invoice("a", "INV-1", "", "", "", "", "", [], 0.0, 0.0, 0.0, 0.0, "", Draft, 1, 1);
    var b := Invoice("b", "INV-2", "", "", "", "", "", [], 0.0, 0.0, 0.0, 0.0, "", Draft, 2, 2);
    var s := InvoiceContext.State([a, b], false, None);
    assert [a, b][1..] == [b];
    assert [b][1..] == [];
    assert InsertByCreated(b, []) == [b];
    assert SortNewestFirst([b]) == [b];
    assert InsertByCreated(a, []) == [a];
    assert InsertByCreated(a, [b]) == [b] + InsertByCreated(a, []);
    assert SortNewestFirst([a, b]) == [b, a];
    InvoiceList.UnfilteredShowsAll([a, b]);
    InvoiceList.UnfilteredShowsAll([b, a]);
  }

  /** The dashboard as intended: the same view, computed on a copy, so the
      store is left exactly as it was. */
  function Render(s: InvoiceContext.State): (r: (View, InvoiceContext.State))
    ensures r.0 == RenderAsWritten(s).0
    ensures r.1 == s
  {
    (View(ComputeStats(s.invoices), TotalRevenue(s.invoices), RecentInvoices(s.invoices)), s)
  }

  /** The counters and revenue the intended dashboard shows are the ones the
      reordered store would give, so nothing visible on the dashboard depended
      on the in-place sort. That the list page then shows exactly what it
      showed before is immediate from Render leaving the store unchanged. */
  lemma RenderKeepsListOrder(s: InvoiceContext.State, f: InvoiceList.StatusFilter, term: string)
    ensures InvoiceList.FilteredInvoices(Render(s).1.invoices, f, term)
            == InvoiceList.FilteredInvoices(s.invoices, f, term)
    ensures Render(s).0.stats == ComputeStats(RenderAsWritten(s).1.invoices)
    ensures Render(s).0.revenue == TotalRevenue(RenderAsWritten(s).1.invoices)
  {
    StatsPermutationInvariant(s.invoices, RenderAsWritten(s).1.invoices);
    RevenuePermutationInvariant(s.invoices, RenderAsWritten(s).1.invoices);
  }
}

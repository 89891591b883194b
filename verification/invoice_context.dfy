/** The application store (src/context/InvoiceContext.tsx): the state, the
    closed set of actions and the reducer that maps a state and an action to
    the next state. The React provider and hook around it are not modelled. */
module InvoiceContext {
  import opened Seqs
  import opened InvoiceTypes

  datatype State = State(invoices: seq<Invoice>, loading: bool, error: Option<string>)

  /** One constructor per action tag, each carrying its payload. */
  datatype Action =
    | AddInvoice(invoice: Invoice)
    | UpdateInvoice(invoice: Invoice)
    | DeleteInvoice(id: string)
    | SetLoading(loading: bool)
    | SetError(error: Option<string>)
    | LoadInvoices(invoices: seq<Invoice>)

  /** The store starts empty, idle and without an error. */
  function InitialState(): (s: State)
    ensures |s.invoices| == 0 && !s.loading && s.error.None?
  {
    State([], false, None)
  }

  /** Every invoice whose id matches the payload's is replaced by the payload;
      the others stay where they are. */
  function UpdateById(invs: seq<Invoice>, payload: Invoice): (r: seq<Invoice>)
    ensures |r| == |invs|
    ensures forall i :: 0 <= i < |invs| ==>
      r[i] == (if invs[i].id == payload.id then payload else invs[i])
  {
    if |invs| == 0 then []
    else
      var last := invs[|invs| - 1];
      UpdateById(invs[..|invs| - 1], payload) + [if last.id == payload.id then payload else last]
  }

  /** The filter predicate of a deletion: keep invoices whose id is not `id`. */
  function NotWithId(id: string): Invoice -> bool
  {
    (inv: Invoice) => inv.id != id
  }

  /** The invoices whose id differs from `id`, in their original order; every
      copy of such an invoice survives, every copy of the others is gone. */
  function DeleteById(invs: seq<Invoice>, id: string): (r: seq<Invoice>)
    ensures forall x :: x in r <==> x in invs && x.id != id
    ensures forall x :: multiset(r)[x] == if x.id != id then multiset(invs)[x] else 0
    ensures IsSubsequence(r, invs)
  {
    FilterIsSubsequence(invs, NotWithId(id));
    FilterMembership(invs, NotWithId(id));
    FilterCounts(invs, NotWithId(id));
    Filter(invs, NotWithId(id))
  }

  /** The reducer. Every action changes exactly one field of the state. */
  function Reduce(s: State, a: Action): (r: State)
    ensures r.loading == (if a.SetLoading? then a.loading else s.loading)
    ensures r.error == (if a.SetError? then a.error else s.error)
    ensures a.SetLoading? || a.SetError? ==> r.invoices == s.invoices
    ensures a.AddInvoice? ==>
      |r.invoices| == |s.invoices| + 1 &&
      r.invoices[..|s.invoices|] == s.invoices &&
      r.invoices[|s.invoices|] == a.invoice
    ensures a.UpdateInvoice? ==>
      |r.invoices| == |s.invoices| &&
      forall i :: 0 <= i < |s.invoices| ==>
        r.invoices[i] == (if s.invoices[i].id == a.invoice.id then a.invoice else s.invoices[i])
    ensures a.DeleteInvoice? ==>
      IsSubsequence(r.invoices, s.invoices) &&
      (forall x :: x in r.invoices <==> x in s.invoices && x.id != a.id) &&
      forall x :: multiset(r.invoices)[x] == if x.id != a.id then multiset(s.invoices)[x] else 0
    ensures a.LoadInvoices? ==> r.invoices == a.invoices
  {
    match a
    case AddInvoice(inv) => s.(invoices := s.invoices + [inv])
    case UpdateInvoice(inv) => s.(invoices := UpdateById(s.invoices, inv))
    case DeleteInvoice(id) => s.(invoices := DeleteById(s.invoices, id))
    case SetLoading(b) => s.(loading := b)
    case SetError(e) => s.(error := e)
    case LoadInvoices(invs) => s.(invoices := invs)
  }

  /** Dispatches `actions` in order, starting from `s`. */
  function Run(s: State, actions: seq<Action>): State
    decreases |actions|
  {
    if |actions| == 0 then s else Run(Reduce(s, actions[0]), actions[1..])
  }

  function AddAll(invs: seq<Invoice>): (actions: seq<Action>)
    ensures |actions| == |invs|
    ensures forall i :: 0 <= i < |invs| ==> actions[i] == AddInvoice(invs[i])
  {
    if |invs| == 0 then [] else [AddInvoice(invs[0])] + AddAll(invs[1..])
  }

  /** N additions leave the invoices in dispatch order after the existing ones;
      loading and error are untouched. */
  lemma {:induction false} AddsInDispatchOrder(s: State, invs: seq<Invoice>)
    ensures Run(s, AddAll(invs)) == s.(invoices := s.invoices + invs)
    decreases |invs|
  {
    if |invs| > 0 {
      var s' := s.(invoices := s.invoices + [invs[0]]);
      RunFirstAdd(s, invs);
      AddsInDispatchOrder(s', invs[1..]);
      assert s'.invoices + invs[1..] == s.invoices + invs;
    }
  }

  /** Running a batch of additions starts by appending the first invoice. */
  lemma RunFirstAdd(s: State, invs: seq<Invoice>)
    requires |invs| > 0
    ensures Run(s, AddAll(invs)) == Run(s.(invoices := s.invoices + [invs[0]]), AddAll(invs[1..]))
  {
    var actions := AddAll(invs);
    assert actions[1..] == AddAll(invs[1..]);
    assert Reduce(s, actions[0]) == s.(invoices := s.invoices + [invs[0]]);
  }

  /** Updating twice with the same payload is the same as updating once. */
  lemma UpdateIdempotent(s: State, inv: Invoice)
    ensures Reduce(Reduce(s, UpdateInvoice(inv)), UpdateInvoice(inv)) == Reduce(s, UpdateInvoice(inv))
  {
    var once := Reduce(s, UpdateInvoice(inv)).invoices;
    var twice := Reduce(Reduce(s, UpdateInvoice(inv)), UpdateInvoice(inv)).invoices;
    assert twice == once;
  }

  /** After an update, every invoice carrying the payload's id is the payload,
      and the payload is present exactly when its id was. */
  lemma UpdateReplacesMatches(s: State, inv: Invoice)
    ensures forall x :: x in Reduce(s, UpdateInvoice(inv)).invoices && x.id == inv.id ==> x == inv
    ensures HasId(s.invoices, inv.id) <==> inv in Reduce(s, UpdateInvoice(inv)).invoices
  {
    var r := Reduce(s, UpdateInvoice(inv)).invoices;
    if inv in r {
      var i :| 0 <= i < |r| && r[i] == inv;
      assert s.invoices[i].id == inv.id;
    }
  }

  /** An update or a deletion naming an id that is not in the store leaves
      the collection unchanged. */
  lemma UnknownIdIsNoOp(s: State, inv: Invoice, id: string)
    ensures !HasId(s.invoices, inv.id) ==> Reduce(s, UpdateInvoice(inv)) == s
    ensures !HasId(s.invoices, id) ==> Reduce(s, DeleteInvoice(id)) == s
  {
    if !HasId(s.invoices, inv.id) {
      assert Reduce(s, UpdateInvoice(inv)).invoices == s.invoices;
    }
    if !HasId(s.invoices, id) {
      FilterKeepsAll(s.invoices, NotWithId(id));
    }
  }

  /** Deleting an id removes every invoice with that id and nothing else;
      the deleted state has no invoice with that id. */
  lemma DeleteRemovesId(s: State, id: string)
    ensures !HasId(Reduce(s, DeleteInvoice(id)).invoices, id)
    ensures HasId(s.invoices, id) <==> |Reduce(s, DeleteInvoice(id)).invoices| < |s.invoices|
  {
    var r := Reduce(s, DeleteInvoice(id)).invoices;
    forall i | 0 <= i < |r|
      ensures r[i].id != id
    {
      assert r[i] in r;
    }
    FilterKeepsAll(s.invoices, NotWithId(id));
    if HasId(s.invoices, id) {
      var i :| 0 <= i < |s.invoices| && s.invoices[i].id == id;
      assert s.invoices[i] !in r;
      assert r != s.invoices;
      SubsequenceShorter(r, s.invoices);
    } else {
      assert r == s.invoices;
    }
  }

  /** Adding X and then deleting X's id restores the original collection
      exactly when no invoice already carried that id; otherwise the earlier
      invoices with that id are removed as well. */
  lemma AddThenDelete(s: State, x: Invoice)
    ensures Reduce(Reduce(s, AddInvoice(x)), DeleteInvoice(x.id)).invoices == DeleteById(s.invoices, x.id)
    ensures Reduce(Reduce(s, AddInvoice(x)), DeleteInvoice(x.id)) == s <==> !HasId(s.invoices, x.id)
  {
    var p := NotWithId(x.id);
    FilterConcat(s.invoices, [x], p);
    assert Filter([x], p) == [];
    DeleteRemovesId(s, x.id);
    UnknownIdIsNoOp(s, x, x.id);
  }

  /** Adding X and then updating with a payload carrying X's id stores the
      payload in X's place, whole (a full replace, not a merge). */
  lemma AddThenUpdate(s: State, x: Invoice, y: Invoice)
    requires y.id == x.id && !HasId(s.invoices, x.id)
    ensures Reduce(Reduce(s, AddInvoice(x)), UpdateInvoice(y)).invoices == s.invoices + [y]
  {
    var r := Reduce(Reduce(s, AddInvoice(x)), UpdateInvoice(y)).invoices;
    assert forall i :: 0 <= i < |s.invoices| ==> r[i] == s.invoices[i];
  }

  /** The store's invariant: every invoice's totals agree with its items and
      no two invoices share an id. */
  predicate Valid(s: State)
  {
    AllTotalsConsistent(s.invoices) && UniqueIds(s.invoices)
  }

  /** What an action must satisfy for the reducer to keep the store valid:
      payloads carry consistent totals, and an added invoice has a fresh id. */
  predicate Admissible(s: State, a: Action)
  {
    match a
    case AddInvoice(inv) => TotalsConsistent(inv) && !HasId(s.invoices, inv.id)
    case UpdateInvoice(inv) => TotalsConsistent(inv)
    case LoadInvoices(invs) => AllTotalsConsistent(invs) && UniqueIds(invs)
    case _ => true
  }

  lemma InitialStateValid()
    ensures Valid(InitialState())
  {
  }

  /** Filtering never introduces a duplicate id. */
  lemma {:induction false} FilterKeepsUniqueIds(invs: seq<Invoice>, p: Invoice -> bool)
    requires UniqueIds(invs)
    ensures UniqueIds(Filter(invs, p))
    decreases |invs|
  {
    if |invs| > 0 {
      var init := invs[..|invs| - 1];
      var last := invs[|invs| - 1];
      FilterKeepsUniqueIds(init, p);
      var r' := Filter(init, p);
      if p(last) {
        FilterMembership(init, p);
        forall k | 0 <= k < |r'|
          ensures r'[k].id != last.id
        {
          assert r'[k] in init;
        }
      }
    }
  }

  /** Deleting never introduces a duplicate id. */
  lemma DeleteKeepsUniqueIds(invs: seq<Invoice>, id: string)
    requires UniqueIds(invs)
    ensures UniqueIds(DeleteById(invs, id))
  {
    FilterKeepsUniqueIds(invs, NotWithId(id));
  }

  /** The reducer preserves the store's invariant under admissible actions. */
  lemma ReducePreservesValid(s: State, a: Action)
    requires Valid(s) && Admissible(s, a)
    ensures Valid(Reduce(s, a))
  {
    match a
    case AddInvoice(inv) =>
      var r := Reduce(s, a).invoices;
      assert r == s.invoices + [inv];
    case UpdateInvoice(inv) =>
      var r := Reduce(s, a).invoices;
      assert forall i :: 0 <= i < |r| ==> r[i].id == s.invoices[i].id;
    case DeleteInvoice(id) =>
      var r := Reduce(s, a).invoices;
      DeleteKeepsUniqueIds(s.invoices, id);
      forall i | 0 <= i < |r|
        ensures TotalsConsistent(r[i])
      {
        assert r[i] in s.invoices;
      }
    case _ =>
  }
}

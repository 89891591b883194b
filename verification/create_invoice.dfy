/** The invoice calculator and the line-item editing of the create form
    (src/pages/CreateInvoice.tsx), as pure functions on the form's data.
    Ids and the current time, which the page draws from uuid and the clock,
    are parameters. */
module CreateInvoice {
  import opened Seqs
  import opened InvoiceTypes
  import InvoiceContext

  /** The amount of one line: quantity times unit price, without rounding. */
  function ItemAmount(quantity: int, unitPrice: real): real
  {
    quantity as real * unitPrice
  }

  /** A line's amount agrees with its quantity and unit price. */
  predicate AmountMatches(item: InvoiceItem)
  {
    item.amount == ItemAmount(item.quantity, item.unitPrice)
  }

  predicate AllAmountsMatch(items: seq<InvoiceItem>)
  {
    forall i :: 0 <= i < |items| ==> AmountMatches(items[i])
  }

  /** A fresh line as the form creates it: one unit at price zero. */
  function BlankItem(id: string): (item: InvoiceItem)
    ensures item.id == id && item.description == ""
    ensures item.quantity == 1 && item.unitPrice == 0.0
    ensures AmountMatches(item) && item.amount == 0.0
  {
    InvoiceItem(id, "", 1, 0.0, 0.0)
  }

  /** The form as the page first shows it: client fields and notes empty,
      one blank line, no tax. */
  function InitialForm(invoiceNumber: string, date: string, dueDate: string, itemId: string): (f: FormData)
    ensures |f.items| == 1 && f.items[0] == BlankItem(itemId)
    ensures f.taxRate == 0.0
    ensures f.clientName == "" && f.clientEmail == "" && f.clientAddress == "" && f.notes == ""
    ensures f.invoiceNumber == invoiceNumber && f.date == date && f.dueDate == dueDate
  {
    FormData(invoiceNumber, date, dueDate, "", "", "", [BlankItem(itemId)], 0.0, "")
  }

  /** One field of a line and its new value (a `keyof InvoiceItem` paired
      with a value of that field's type). */
  datatype ItemEdit =
    | EditId(id: string)
    | EditDescription(description: string)
    | EditQuantity(quantity: int)
    | EditUnitPrice(unitPrice: real)
    | EditAmount(amount: real)

  function ApplyEdit(item: InvoiceItem, edit: ItemEdit): InvoiceItem
  {
    match edit
    case EditId(v) => item.(id := v)
    case EditDescription(v) => item.(description := v)
    case EditQuantity(v) => item.(quantity := v)
    case EditUnitPrice(v) => item.(unitPrice := v)
    case EditAmount(v) => item.(amount := v)
  }

  /** Sets one field of the line at `index`; an edit of the quantity or the
      unit price also recomputes that line's amount. */
  function UpdateItem(items: seq<InvoiceItem>, index: int, edit: ItemEdit): (r: seq<InvoiceItem>)
    requires 0 <= index < |items|
    ensures |r| == |items|
    ensures forall i :: 0 <= i < |items| && i != index ==> r[i] == items[i]
    ensures r[index].id == (if edit.EditId? then edit.id else items[index].id)
    ensures r[index].description == (if edit.EditDescription? then edit.description else items[index].description)
    ensures r[index].quantity == (if edit.EditQuantity? then edit.quantity else items[index].quantity)
    ensures r[index].unitPrice == (if edit.EditUnitPrice? then edit.unitPrice else items[index].unitPrice)
    ensures r[index].amount ==
      if edit.EditQuantity? || edit.EditUnitPrice? then r[index].quantity as real * r[index].unitPrice
      else if edit.EditAmount? then edit.amount
      else items[index].amount
  {
    var edited := ApplyEdit(items[index], edit);
    var line :=
      if edit.EditQuantity? || edit.EditUnitPrice?
      then edited.(amount := ItemAmount(edited.quantity, edited.unitPrice))
      else edited;
    items[index := line]
  }

  /** Edits other than a direct write of `amount` keep every line's amount in
      agreement with its quantity and unit price; a quantity or price edit
      restores agreement on its line even if it was lost. */
  lemma UpdateItemKeepsAmounts(items: seq<InvoiceItem>, index: int, edit: ItemEdit)
    requires 0 <= index < |items|
    ensures edit.EditQuantity? || edit.EditUnitPrice? ==> AmountMatches(UpdateItem(items, index, edit)[index])
    ensures AllAmountsMatch(items) && !edit.EditAmount? ==> AllAmountsMatch(UpdateItem(items, index, edit))
  {
    var r := UpdateItem(items, index, edit);
    if AllAmountsMatch(items) && !edit.EditAmount? {
      assert AmountMatches(items[index]);
    }
  }

  /** Appends a blank line after the existing ones. */
  function AddItem(items: seq<InvoiceItem>, id: string): (r: seq<InvoiceItem>)
    ensures |r| == |items| + 1
    ensures r[..|items|] == items
    ensures r[|items|] == BlankItem(id)
  {
    items + [BlankItem(id)]
  }

  /** `s` without the element at position `index`; an index outside the
      sequence removes nothing (a filter on positions). */
  function WithoutIndex<T>(s: seq<T>, index: int): (r: seq<T>)
    ensures 0 <= index < |s| ==> r == s[..index] + s[index + 1..]
    ensures !(0 <= index < |s|) ==> r == s
  {
    if |s| == 0 then []
    else
      var init := s[..|s| - 1];
      var kept := WithoutIndex(init, index);
      assert s == init + [s[|s| - 1]];
      if index == |s| - 1 then kept
      else
        assert 0 <= index < |init| ==> s[index + 1..] == init[index + 1..] + [s[|s| - 1]];
        kept + [s[|s| - 1]]
  }

  /** Removes the line at `index`, but never the last remaining line. */
  function RemoveItem(items: seq<InvoiceItem>, index: int): (r: seq<InvoiceItem>)
    ensures |items| <= 1 ==> r == items
    ensures |items| > 1 && 0 <= index < |items| ==> r == items[..index] + items[index + 1..]
    ensures !(0 <= index < |items|) ==> r == items
    ensures |items| >= 1 ==> |r| >= 1
  {
    if |items| > 1 then WithoutIndex(items, index) else items
  }

  /** The derived figures of a form or invoice. */
  datatype Totals = Totals(subtotal: real, taxAmount: real, total: real)

  /** Subtotal is the sum of the line amounts, tax is that percentage of it,
      total is their sum. */
  function TotalsOf(items: seq<InvoiceItem>, taxRate: real): Totals
  {
    var subtotal := Sum(items, AmountOf);
    var taxAmount := subtotal * taxRate / 100.0;
    Totals(subtotal, taxAmount, subtotal + taxAmount)
  }

  /** The page's computation: a running sum over the lines from first to last,
      then tax and total. */
  method CalculateTotals(items: seq<InvoiceItem>, taxRate: real) returns (t: Totals)
    ensures t == TotalsOf(items, taxRate)
  {
    var subtotal := 0.0;
    var i := 0;
    while i < |items|
      invariant 0 <= i <= |items|
      invariant subtotal == Sum(items[..i], AmountOf)
    {
      assert items[..i + 1][..i] == items[..i];
      subtotal := subtotal + items[i].amount;
      i := i + 1;
    }
    assert items[..|items|] == items;
    var taxAmount := subtotal * taxRate / 100.0;
    t := Totals(subtotal, taxAmount, subtotal + taxAmount);
  }

  /** With no lines, every figure is zero. */
  lemma TotalsOfEmpty(taxRate: real)
    ensures TotalsOf([], taxRate) == Totals(0.0, 0.0, 0.0)
  {
  }

  /** With non-negative amounts and tax rate, 0 <= subtotal <= total. */
  lemma TotalsBounds(items: seq<InvoiceItem>, taxRate: real)
    requires forall i :: 0 <= i < |items| ==> items[i].amount >= 0.0
    requires taxRate >= 0.0
    ensures 0.0 <= TotalsOf(items, taxRate).subtotal <= TotalsOf(items, taxRate).total
    ensures TotalsOf(items, taxRate).taxAmount >= 0.0
  {
    SumNonNegative(items, AmountOf);
  }

  /** Reordering the lines does not change any figure. */
  lemma TotalsOrderIndependent(a: seq<InvoiceItem>, b: seq<InvoiceItem>, taxRate: real)
    requires multiset(a) == multiset(b)
    ensures TotalsOf(a, taxRate) == TotalsOf(b, taxRate)
  {
    SumPermutation(a, b, AmountOf);
  }

  /** Adding a blank line leaves the figures as they were. */
  lemma AddItemKeepsTotals(items: seq<InvoiceItem>, id: string, taxRate: real)
    ensures TotalsOf(AddItem(items, id), taxRate) == TotalsOf(items, taxRate)
  {
    assert AddItem(items, id)[..|items|] == items;
  }

  /** Removing a line lowers the subtotal by exactly that line's amount. */
  lemma RemoveItemSubtotal(items: seq<InvoiceItem>, index: int, taxRate: real)
    requires |items| > 1 && 0 <= index < |items|
    ensures TotalsOf(RemoveItem(items, index), taxRate).subtotal
            == TotalsOf(items, taxRate).subtotal - items[index].amount
  {
    assert items == items[..index] + [items[index]] + items[index + 1..];
    SumConcat(items[..index] + [items[index]], items[index + 1..], AmountOf);
    SumConcat(items[..index], [items[index]], AmountOf);
    SumConcat(items[..index], items[index + 1..], AmountOf);
    assert Sum([items[index]], AmountOf) == items[index].amount by {
      assert [items[index]][..0] == [];
    }
  }

  /** Two lines (2 x 50.00 and 1 x 25.50) at 10% tax give 125.50, 12.55 and 138.05. */
  lemma TwoLinesWithTax()
    ensures
      var items := [InvoiceItem("a", "", 2, 50.0, ItemAmount(2, 50.0)),
                    InvoiceItem("b", "", 1, 25.5, ItemAmount(1, 25.5))];
      TotalsOf(items, 10.0) == Totals(125.5, 12.55, 138.05)
  {
    var items := [InvoiceItem("a", "", 2, 50.0, ItemAmount(2, 50.0)),
                  InvoiceItem("b", "", 1, 25.5, ItemAmount(1, 25.5))];
    assert items[..1][..0] == [];
    assert Sum(items, AmountOf) == 125.5;
  }

  /** The invoice the form submits: a fresh id, status draft, the form's fields
      copied, the figures computed from the form's lines and tax rate, and the
      two timestamps, which the page reads from the clock one after the other. */
  function BuildInvoice(form: FormData, id: string, createdAt: int, updatedAt: int): (inv: Invoice)
    ensures inv.id == id && inv.status == Draft
    ensures inv.items == form.items && inv.taxRate == form.taxRate
    ensures inv.invoiceNumber == form.invoiceNumber && inv.date == form.date && inv.dueDate == form.dueDate
    ensures inv.clientName == form.clientName && inv.clientEmail == form.clientEmail
    ensures inv.clientAddress == form.clientAddress && inv.notes == form.notes
    ensures Totals(inv.subtotal, inv.taxAmount, inv.total) == TotalsOf(form.items, form.taxRate)
    ensures TotalsConsistent(inv)
    ensures inv.createdAt == createdAt && inv.updatedAt == updatedAt
  {
    var t := TotalsOf(form.items, form.taxRate);
    Invoice(id, form.invoiceNumber, form.date, form.dueDate, form.clientName,
            form.clientEmail, form.clientAddress, form.items, t.subtotal,
            form.taxRate, t.taxAmount, t.total, form.notes, Draft, createdAt, updatedAt)
  }

  /** Submitting the form dispatches the built invoice to the store. */
  function Submit(s: InvoiceContext.State, form: FormData, id: string, createdAt: int, updatedAt: int): (r: InvoiceContext.State)
    ensures r.invoices == s.invoices + [BuildInvoice(form, id, createdAt, updatedAt)]
    ensures r.loading == s.loading && r.error == s.error
  {
    var a := InvoiceContext.AddInvoice(BuildInvoice(form, id, createdAt, updatedAt));
    assert InvoiceContext.Reduce(s, a).invoices == s.invoices + [a.invoice];
    InvoiceContext.Reduce(s, a)
  }

  /** Submitting keeps a valid store valid when the new id is fresh: the
      stored invoice's figures agree with its lines and tax rate. */
  lemma SubmitKeepsStoreValid(s: InvoiceContext.State, form: FormData, id: string, createdAt: int, updatedAt: int)
    requires InvoiceContext.Valid(s) && !HasId(s.invoices, id)
    ensures InvoiceContext.Valid(Submit(s, form, id, createdAt, updatedAt))
  {
    InvoiceContext.ReducePreservesValid(s, InvoiceContext.AddInvoice(BuildInvoice(form, id, createdAt, updatedAt)));
  }

  /** The initial form's figures are all zero and its lines are consistent. */
  lemma InitialFormTotalsZero(invoiceNumber: string, date: string, dueDate: string, itemId: string)
    ensures TotalsOf(InitialForm(invoiceNumber, date, dueDate, itemId).items, 0.0) == Totals(0.0, 0.0, 0.0)
    ensures AllAmountsMatch(InitialForm(invoiceNumber, date, dueDate, itemId).items)
  {
    var items := InitialForm(invoiceNumber, date, dueDate, itemId).items;
    assert items[..0] == [];
    assert Sum(items, AmountOf) == Sum(items[..0], AmountOf) + items[0].amount;
  }
}

/** The data model shared by the store, the create form and the views
    (src/types/invoice.ts). Money is an exact `real`; timestamps are integers;
    strings are sequences of characters. */
module InvoiceTypes {
  import opened Seqs

  /** A value that may be absent (TypeScript's `T | null`). */
  datatype Option<T> = None | Some(value: T)

  /** The closed set of invoice states. */
  datatype Status = Draft | Sent | Paid | Overdue

  datatype InvoiceItem = InvoiceItem(
    id: string,
    description: string,
    quantity: int,
    unitPrice: real,
    amount: real)

  datatype Invoice = Invoice(
    id: string,
    invoiceNumber: string,
    date: string,
    dueDate: string,
    clientName: string,
    clientEmail: string,
    clientAddress: string,
    items: seq<InvoiceItem>,
    subtotal: real,
    taxRate: real,
    taxAmount: real,
    total: real,
    notes: string,
    status: Status,
    createdAt: int,
    updatedAt: int)

  /** The create form's contents: an invoice without id, derived totals,
      status and timestamps. */
  datatype FormData = FormData(
    invoiceNumber: string,
    date: string,
    dueDate: string,
    clientName: string,
    clientEmail: string,
    clientAddress: string,
    items: seq<InvoiceItem>,
    taxRate: real,
    notes: string)

  function AmountOf(item: InvoiceItem): real { item.amount }

  function TotalOf(inv: Invoice): real { inv.total }

  predicate IsDraft(inv: Invoice) { inv.status == Draft }

  predicate IsSent(inv: Invoice) { inv.status == Sent }

  predicate IsPaid(inv: Invoice) { inv.status == Paid }

  predicate IsOverdue(inv: Invoice) { inv.status == Overdue }

  predicate IsUnpaid(inv: Invoice) { inv.status != Paid }

  /** The derived fields of an invoice agree with its items and tax rate. */
  predicate TotalsConsistent(inv: Invoice)
  {
    && inv.subtotal == Sum(inv.items, AmountOf)
    && inv.taxAmount == inv.subtotal * inv.taxRate / 100.0
    && inv.total == inv.subtotal + inv.taxAmount
  }

  predicate AllTotalsConsistent(invs: seq<Invoice>)
  {
    forall i :: 0 <= i < |invs| ==> TotalsConsistent(invs[i])
  }

  /** No two invoices in the collection share an id. */
  predicate UniqueIds(invs: seq<Invoice>)
  {
    forall i, j :: 0 <= i < j < |invs| ==> invs[i].id != invs[j].id
  }

  predicate HasId(invs: seq<Invoice>, id: string)
  {
    exists i :: 0 <= i < |invs| && invs[i].id == id
  }
}

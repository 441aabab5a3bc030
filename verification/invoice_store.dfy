/** The saved-invoice history: each save prepends a snapshot record, each
    delete drops the records with an id, and every change is written back to
    the stored entry, so this object's list and the entry it last wrote hold
    the same records. */
module InvoiceStore {
  import opened InvoiceTypes
  import opened Calculations
  import opened Records
  import InvoicePreview

  /** A saved invoice: the document plus a summary for the history list. */
  datatype SavedInvoice = SavedInvoice(
    id: string,
    name: string,
    date: string,
    amount: int,
    savedAt: int,
    data: InvoiceData)

  function InvoiceId(inv: SavedInvoice): string {
    inv.id
  }

  /** The total `saveInvoice` computes inline: one fold adding each item's
      amount and then its tax. It agrees with subtotal plus total tax. */
  function SnapshotTotal(items: seq<InvoiceItem>): (r: real)
    ensures r == TotalAmount(items)
  {
    if |items| == 0 then 0.0
    else
      var n := |items| - 1;
      var item := items[n];
      var amount := item.qty * item.rate;
      var tax := amount * (item.taxRate / 100.0);
      var r := SnapshotTotal(items[..n]) + amount + tax;
      assert r == SnapshotTotal(items[..n]) + ItemAmount(items[n]) + ItemTax(items[n]);
      r
  }

  /** The record `saveInvoice` builds, with the fresh id, the timestamp and
      today's date (`YYYY-MM-DD`) as parameters. */
  function BuildRecord(data: InvoiceData, id: string, savedAt: int, today: string): (r: SavedInvoice)
    ensures r.id == id && r.savedAt == savedAt && r.data == data
    ensures data.receiver.name != "" ==> r.name == data.receiver.name
    ensures data.receiver.name == "" ==> r.name == "Unknown"
    ensures data.details.date != "" ==> r.date == data.details.date
    ensures data.details.date == "" ==> r.date == today
    ensures r.amount == Round(TotalAmount(data.items))
    ensures forall t :: r.amount == InvoicePreview.Summarize(data.items, t).finalAmount
  {
    SavedInvoice(
      id,
      if data.receiver.name != "" then data.receiver.name else "Unknown",
      if data.details.date != "" then data.details.date else today,
      Round(SnapshotTotal(data.items)),
      savedAt,
      data)
  }

  /** Saving and then deleting by the new record's id gives back the old list. */
  lemma DeleteUndoesSave(invoices: seq<SavedInvoice>, record: SavedInvoice)
    requires !HasId(invoices, InvoiceId, record.id)
    ensures RemoveId([record] + invoices, InvoiceId, record.id) == invoices
  {
    RemoveIdAppend([record], invoices, InvoiceId, record.id);
    assert [record][1..] == [];
  }

  /** A save with a fresh id keeps ids unique. */
  lemma SaveKeepsUnique(invoices: seq<SavedInvoice>, record: SavedInvoice)
    requires UniqueIds(invoices, InvoiceId) && !HasId(invoices, InvoiceId, record.id)
    ensures UniqueIds([record] + invoices, InvoiceId)
  {
    var xs := [record] + invoices;
    forall i, j | 0 <= i < j < |xs|
      ensures InvoiceId(xs[i]) != InvoiceId(xs[j])
    {
      if i == 0 {
        assert xs[j] == invoices[j - 1];
      } else {
        assert xs[i] == invoices[i - 1] && xs[j] == invoices[j - 1];
      }
    }
  }

  class InvoiceStore {
    var savedInvoices: seq<SavedInvoice>
    ghost var storage: Stored<SavedInvoice>

    /** This object's list is the list its stored entry reads back as. */
    ghost predicate Valid()
      reads this
    {
      Reload(storage) == savedInvoices
    }

    /** The initial load: the stored list when it parses, else empty. */
    constructor Load(stored: Stored<SavedInvoice>)
      ensures Valid()
      ensures storage == stored && savedInvoices == Reload(stored)
    {
      savedInvoices := Reload(stored);
      storage := stored;
    }

    /** `saveToStorage`: replace the list in memory and in storage. */
    method SaveToStorage(invoices: seq<SavedInvoice>)
      modifies this
      ensures Valid()
      ensures savedInvoices == invoices && storage == Written(invoices)
    {
      savedInvoices := invoices;
      storage := Written(invoices);
    }

    /** `saveInvoice`: prepend the snapshot record. */
    method SaveInvoice(data: InvoiceData, id: string, savedAt: int, today: string)
      requires Valid() && !HasId(savedInvoices, InvoiceId, id)
      modifies this
      ensures Valid() && storage == Written(savedInvoices)
      ensures savedInvoices == [BuildRecord(data, id, savedAt, today)] + old(savedInvoices)
      ensures |savedInvoices| == |old(savedInvoices)| + 1
      ensures old(UniqueIds(savedInvoices, InvoiceId)) ==> UniqueIds(savedInvoices, InvoiceId)
    {
      var newInvoice := BuildRecord(data, id, savedAt, today);
      var updated := [newInvoice] + savedInvoices;
      if UniqueIds(savedInvoices, InvoiceId) {
        SaveKeepsUnique(savedInvoices, newInvoice);
      }
      SaveToStorage(updated);
    }

    /** `deleteInvoice`: drop every record with the id, keep the rest in order. */
    method DeleteInvoice(id: string)
      requires Valid()
      modifies this
      ensures Valid() && storage == Written(savedInvoices)
      ensures savedInvoices == RemoveId(old(savedInvoices), InvoiceId, id)
      ensures !HasId(old(savedInvoices), InvoiceId, id) ==> savedInvoices == old(savedInvoices)
      ensures old(UniqueIds(savedInvoices, InvoiceId)) ==> UniqueIds(savedInvoices, InvoiceId)
    {
      var updated := RemoveId(savedInvoices, InvoiceId, id);
      if UniqueIds(savedInvoices, InvoiceId) {
        RemoveIdKeepsUnique(savedInvoices, InvoiceId, id);
      }
      SaveToStorage(updated);
    }
  }
}

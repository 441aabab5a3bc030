/** Invoice arithmetic: per-item amount and tax, and the folds over the item
    list. Every fold is a left fold in list order, as `Array.reduce` with the
    seed 0 computes it; amounts are exact reals, so no rounding happens
    anywhere except in `Round`. */
module Calculations {
  import opened InvoiceTypes

  predicate NonNegative(item: InvoiceItem) {
    item.qty >= 0.0 && item.rate >= 0.0 && item.taxRate >= 0.0
  }

  predicate AllNonNegative(items: seq<InvoiceItem>) {
    forall i :: 0 <= i < |items| ==> NonNegative(items[i])
  }

  predicate AllTaxFree(items: seq<InvoiceItem>) {
    forall i :: 0 <= i < |items| ==> items[i].taxRate == 0.0
  }

  /** `calculateItemAmount`: quantity times rate, unrounded. */
  function ItemAmount(item: InvoiceItem): (r: real)
    ensures item.qty == 0.0 || item.rate == 0.0 ==> r == 0.0
    ensures NonNegative(item) ==> r >= 0.0
  {
    item.qty * item.rate
  }

  /** The tax of one item, charged on that item's own amount. */
  function ItemTax(item: InvoiceItem): (r: real)
    ensures item.taxRate == 0.0 ==> r == 0.0
    ensures NonNegative(item) ==> r >= 0.0
  {
    ItemAmount(item) * (item.taxRate / 100.0)
  }

  /** `calculateSubTotal`: the sum of the item amounts. */
  function SubTotal(items: seq<InvoiceItem>): (r: real)
    ensures AllNonNegative(items) ==> r >= 0.0
  {
    if |items| == 0 then 0.0
    else SubTotal(items[..|items| - 1]) + ItemAmount(items[|items| - 1])
  }

  /** `calculateTotalTax`: the sum of the per-item taxes. */
  function TotalTax(items: seq<InvoiceItem>): (r: real)
    ensures AllNonNegative(items) ==> r >= 0.0
    ensures AllTaxFree(items) ==> r == 0.0
  {
    if |items| == 0 then 0.0
    else TotalTax(items[..|items| - 1]) + ItemTax(items[|items| - 1])
  }

  /** `calculateTotalAmount`: subtotal plus tax. */
  function TotalAmount(items: seq<InvoiceItem>): (r: real)
    ensures AllNonNegative(items) ==> r >= SubTotal(items) >= 0.0
    ensures AllTaxFree(items) ==> r == SubTotal(items)
  {
    SubTotal(items) + TotalTax(items)
  }

  /** `Math.round`: the nearest integer, halves rounded up. */
  function Round(x: real): (r: int)
    ensures x - 0.5 < r as real <= x + 0.5
  {
    (x + 0.5).Floor
  }

  lemma RoundOfInteger(k: int)
    ensures Round(k as real) == k
  {
  }

  lemma {:induction false} SubTotalAppend(xs: seq<InvoiceItem>, ys: seq<InvoiceItem>)
    ensures SubTotal([]) == 0.0
    ensures SubTotal(xs + ys) == SubTotal(xs) + SubTotal(ys)
    decreases |ys|
  {
    if |ys| == 0 {
      assert xs + ys == xs;
    } else {
      var n := |ys| - 1;
      assert (xs + ys)[..|xs + ys| - 1] == xs + ys[..n];
      SubTotalAppend(xs, ys[..n]);
    }
  }

  lemma {:induction false} TotalTaxAppend(xs: seq<InvoiceItem>, ys: seq<InvoiceItem>)
    ensures TotalTax([]) == 0.0
    ensures TotalTax(xs + ys) == TotalTax(xs) + TotalTax(ys)
    decreases |ys|
  {
    if |ys| == 0 {
      assert xs + ys == xs;
    } else {
      var n := |ys| - 1;
      assert (xs + ys)[..|xs + ys| - 1] == xs + ys[..n];
      TotalTaxAppend(xs, ys[..n]);
    }
  }

  lemma TotalAmountAppend(xs: seq<InvoiceItem>, ys: seq<InvoiceItem>)
    ensures TotalAmount([]) == 0.0
    ensures TotalAmount(xs + ys) == TotalAmount(xs) + TotalAmount(ys)
  {
    SubTotalAppend(xs, ys);
    TotalTaxAppend(xs, ys);
  }

  /** The totals of a one-item list are that item's figures. */
  lemma SingleItem(item: InvoiceItem)
    ensures SubTotal([item]) == ItemAmount(item)
    ensures TotalTax([item]) == ItemTax(item)
    ensures TotalAmount([item]) == ItemAmount(item) + ItemTax(item)
  {
    assert [item][..0] == [];
  }

  /** Quantity 5 at rate 260 with 18% tax: amount 1300, tax 234, total 1534. */
  lemma WorkedExample(item: InvoiceItem)
    requires item.qty == 5.0 && item.rate == 260.0 && item.taxRate == 18.0
    ensures ItemAmount(item) == 1300.0
    ensures ItemTax(item) == 234.0
    ensures TotalAmount([item]) == 1534.0
  {
    SingleItem(item);
  }
}

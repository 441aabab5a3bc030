/** The figures the printable invoice derives from the item list: totals,
    round-off, the CGST/SGST or IGST split of the tax, the total quantity and
    the per-row totals. */
module InvoicePreview {
  import opened InvoiceTypes
  import opened Calculations

  /** `taxType`: 'local' splits the tax into CGST and SGST, 'igst' reports it whole. */
  datatype TaxType = Local | Igst

  datatype Summary = Summary(
    subTotal: real,
    totalTax: real,
    totalAmount: real,
    roundOff: real,
    finalAmount: int,
    cgst: real,
    sgst: real,
    igst: real,
    totalQty: real)

  /** The sum of the item quantities. */
  function TotalQty(items: seq<InvoiceItem>): (r: real)
    ensures (forall i :: 0 <= i < |items| ==> items[i].qty >= 0.0) ==> r >= 0.0
  {
    if |items| == 0 then 0.0
    else TotalQty(items[..|items| - 1]) + items[|items| - 1].qty
  }

  /** The figures computed at the top of the preview. */
  function Summarize(items: seq<InvoiceItem>, taxType: TaxType): (s: Summary)
    ensures s.subTotal == SubTotal(items) && s.totalTax == TotalTax(items)
    ensures s.totalAmount == s.subTotal + s.totalTax && s.totalQty == TotalQty(items)
    ensures s.finalAmount == Round(s.totalAmount)
    ensures s.totalAmount + s.roundOff == s.finalAmount as real
    ensures -0.5 < s.roundOff <= 0.5
    ensures s.cgst + s.sgst + s.igst == s.totalTax
    ensures taxType == Local ==> s.cgst == s.sgst == s.totalTax / 2.0 && s.igst == 0.0
    ensures taxType == Igst ==> s.cgst == 0.0 && s.sgst == 0.0 && s.igst == s.totalTax
  {
    var subTotal := SubTotal(items);
    var totalTax := TotalTax(items);
    var totalAmount := TotalAmount(items);
    var roundOff := Round(totalAmount) as real - totalAmount;
    var finalAmount := Round(totalAmount);
    var isLocal := taxType == Local;
    Summary(
      subTotal, totalTax, totalAmount, roundOff, finalAmount,
      if isLocal then totalTax / 2.0 else 0.0,
      if isLocal then totalTax / 2.0 else 0.0,
      if !isLocal then totalTax else 0.0,
      TotalQty(items))
  }

  /** The "Total Amount" cell of one printed row. */
  function RowTotal(item: InvoiceItem): (r: real)
    ensures r == ItemAmount(item) + ItemTax(item)
    ensures NonNegative(item) ==> r >= ItemAmount(item)
  {
    var amount := ItemAmount(item);
    var taxAmt := amount * (item.taxRate / 100.0);
    amount + taxAmt
  }

  /** The printed row totals, in item order. */
  function RowTotals(items: seq<InvoiceItem>): (r: seq<real>)
    ensures |r| == |items|
    ensures forall i :: 0 <= i < |items| ==> r[i] == RowTotal(items[i])
  {
    seq(|items|, i requires 0 <= i < |items| => RowTotal(items[i]))
  }

  function Sum(xs: seq<real>): real {
    if |xs| == 0 then 0.0 else Sum(xs[..|xs| - 1]) + xs[|xs| - 1]
  }

  /** The printed row totals add up to the invoice total. */
  lemma {:induction false} RowTotalsAddUp(items: seq<InvoiceItem>)
    ensures Sum(RowTotals(items)) == TotalAmount(items)
    decreases |items|
  {
    if |items| > 0 {
      var n := |items| - 1;
      assert RowTotals(items)[..n] == RowTotals(items[..n]);
      RowTotalsAddUp(items[..n]);
    }
  }

  lemma {:induction false} TotalQtyAppend(xs: seq<InvoiceItem>, ys: seq<InvoiceItem>)
    ensures TotalQty([]) == 0.0
    ensures TotalQty(xs + ys) == TotalQty(xs) + TotalQty(ys)
    decreases |ys|
  {
    if |ys| == 0 {
      assert xs + ys == xs;
    } else {
      var n := |ys| - 1;
      assert (xs + ys)[..|xs + ys| - 1] == xs + ys[..n];
      TotalQtyAppend(xs, ys[..n]);
    }
  }

  /** For the one-row worked example the invoice reads 1534.00 with no round-off. */
  lemma WorkedExampleSummary(item: InvoiceItem)
    requires item.qty == 5.0 && item.rate == 260.0 && item.taxRate == 18.0
    ensures var s := Summarize([item], Local);
      && s.subTotal == 1300.0 && s.totalTax == 234.0 && s.totalAmount == 1534.0
      && s.finalAmount == 1534 && s.roundOff == 0.0
      && s.cgst == 117.0 && s.sgst == 117.0 && s.igst == 0.0 && s.totalQty == 5.0
  {
    WorkedExample(item);
    SingleItem(item);
    assert [item][..0] == [];
    assert TotalQty([item]) == TotalQty([]) + item.qty;
    RoundOfInteger(1534);
  }
}

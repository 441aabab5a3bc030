/** The editing rules of the invoice form: every handler takes the current
    document and yields the next one, changing one field of one record, or
    the item list, and nothing else. */
module InvoiceForm {
  import opened InvoiceTypes
  import opened Calculations
  import InvoicePreview

  // ---------------------------------------------------------------- parties

  /** The keys the form edits on a party; `Title` and `SubTitle` exist on the sender only. */
  datatype PartyField = Name | Address | Gstin | Phone | Title | SubTitle

  predicate IsInvoicePartyKey(f: PartyField) {
    f != Title && f != SubTitle
  }

  function PartyGet(p: InvoiceParty, f: PartyField): string {
    match f
    case Name => p.name
    case Address => p.address
    case Gstin => p.gstin
    case Phone => p.phone
    case Title => p.title
    case SubTitle => p.subTitle
  }

  /** `{ ...party, [field]: value }` */
  function PartySet(p: InvoiceParty, f: PartyField, v: string): (r: InvoiceParty)
    ensures PartyGet(r, f) == v
    ensures forall g :: g != f ==> PartyGet(r, g) == PartyGet(p, g)
  {
    match f
    case Name => p.(name := v)
    case Address => p.(address := v)
    case Gstin => p.(gstin := v)
    case Phone => p.(phone := v)
    case Title => p.(title := v)
    case SubTitle => p.(subTitle := v)
  }

  /** `handleSenderChange` */
  function HandleSenderChange(data: InvoiceData, f: PartyField, v: string): (r: InvoiceData)
    ensures PartyGet(r.sender, f) == v
    ensures forall g :: g != f ==> PartyGet(r.sender, g) == PartyGet(data.sender, g)
    ensures r.receiver == data.receiver && r.details == data.details && r.items == data.items
  {
    data.(sender := PartySet(data.sender, f, v))
  }

  /** `handleReceiverChange`; its field is typed as a key of the plain party record. */
  function HandleReceiverChange(data: InvoiceData, f: PartyField, v: string): (r: InvoiceData)
    requires IsInvoicePartyKey(f)
    ensures PartyGet(r.receiver, f) == v
    ensures forall g :: g != f ==> PartyGet(r.receiver, g) == PartyGet(data.receiver, g)
    ensures r.sender == data.sender && r.details == data.details && r.items == data.items
  {
    data.(receiver := PartySet(data.receiver, f, v))
  }

  // ---------------------------------------------------------------- details

  datatype DetailField =
    | InvoiceNo | Date | Time | PaymentTerms | Signatory | VehicleNumber | TermsAndConditions
    | PoNumber | PoDate | DespatchedThrough | LrNumber | LrDate | Freight | DcNumber | DcDate

  function DetailGet(d: InvoiceDetails, f: DetailField): string {
    match f
    case InvoiceNo => d.invoiceNo
    case Date => d.date
    case Time => d.time
    case PaymentTerms => d.paymentTerms
    case Signatory => d.signatory
    case VehicleNumber => d.vehicleNumber
    case TermsAndConditions => d.termsAndConditions
    case PoNumber => d.poNumber
    case PoDate => d.poDate
    case DespatchedThrough => d.despatchedThrough
    case LrNumber => d.lrNumber
    case LrDate => d.lrDate
    case Freight => d.freight
    case DcNumber => d.dcNumber
    case DcDate => d.dcDate
  }

  /** `{ ...details, [field]: value }` */
  function DetailSet(d: InvoiceDetails, f: DetailField, v: string): (r: InvoiceDetails)
    ensures DetailGet(r, f) == v
    ensures forall g :: g != f ==> DetailGet(r, g) == DetailGet(d, g)
  {
    match f
    case InvoiceNo => d.(invoiceNo := v)
    case Date => d.(date := v)
    case Time => d.(time := v)
    case PaymentTerms => d.(paymentTerms := v)
    case Signatory => d.(signatory := v)
    case VehicleNumber => d.(vehicleNumber := v)
    case TermsAndConditions => d.(termsAndConditions := v)
    case PoNumber => d.(poNumber := v)
    case PoDate => d.(poDate := v)
    case DespatchedThrough => d.(despatchedThrough := v)
    case LrNumber => d.(lrNumber := v)
    case LrDate => d.(lrDate := v)
    case Freight => d.(freight := v)
    case DcNumber => d.(dcNumber := v)
    case DcDate => d.(dcDate := v)
  }

  /** `handleDetailChange` */
  function HandleDetailChange(data: InvoiceData, f: DetailField, v: string): (r: InvoiceData)
    ensures DetailGet(r.details, f) == v
    ensures forall g :: g != f ==> DetailGet(r.details, g) == DetailGet(data.details, g)
    ensures r.sender == data.sender && r.receiver == data.receiver && r.items == data.items
  {
    data.(details := DetailSet(data.details, f, v))
  }

  // ------------------------------------------------------------------ items

  datatype ItemField = Id | Description | HsnCode | Qty | Unit | Rate | TaxRate

  /** The `string | number` value a field is set to. */
  datatype FieldValue = Text(text: string) | Number(number: real)

  /** The numeric fields take numbers, the others text, as the item record types them. */
  predicate Fits(f: ItemField, v: FieldValue) {
    if f == Qty || f == Rate || f == TaxRate then v.Number? else v.Text?
  }

  function ItemGet(item: InvoiceItem, f: ItemField): (v: FieldValue)
    ensures Fits(f, v)
  {
    match f
    case Id => Text(item.id)
    case Description => Text(item.description)
    case HsnCode => Text(item.hsnCode)
    case Qty => Number(item.qty)
    case Unit => Text(item.unit)
    case Rate => Number(item.rate)
    case TaxRate => Number(item.taxRate)
  }

  /** `{ ...item, [field]: value }` */
  function ItemSet(item: InvoiceItem, f: ItemField, v: FieldValue): (r: InvoiceItem)
    requires Fits(f, v)
    ensures ItemGet(r, f) == v
    ensures forall g :: g != f ==> ItemGet(r, g) == ItemGet(item, g)
  {
    match f
    case Id => item.(id := v.text)
    case Description => item.(description := v.text)
    case HsnCode => item.(hsnCode := v.text)
    case Qty => item.(qty := v.number)
    case Unit => item.(unit := v.text)
    case Rate => item.(rate := v.number)
    case TaxRate => item.(taxRate := v.number)
  }

  /** `products.find(p => p.description === productName)`: the first product
      whose description is exactly the given text. */
  function FindByDescription(products: seq<Product>, description: string): (r: Option<Product>)
    ensures r.None? <==> forall i :: 0 <= i < |products| ==> products[i].description != description
    ensures r.Some? ==> r.value.description == description
    ensures r.Some? ==>
      exists k :: 0 <= k < |products| && products[k] == r.value
        && forall j :: 0 <= j < k ==> products[j].description != description
  {
    if |products| == 0 then None
    else if products[0].description == description then Some(products[0])
    else
      FindByDescription(products[1..], description)
  }

  /** `handleItemChange`: copy the list, then overwrite one entry of the copy. */
  method HandleItemChange(data: InvoiceData, index: nat, f: ItemField, v: FieldValue) returns (r: InvoiceData)
    requires index < |data.items| && Fits(f, v)
    ensures |r.items| == |data.items|
    ensures ItemGet(r.items[index], f) == v
    ensures forall g :: g != f ==> ItemGet(r.items[index], g) == ItemGet(data.items[index], g)
    ensures forall j :: 0 <= j < |data.items| && j != index ==> r.items[j] == data.items[j]
    ensures r.sender == data.sender && r.receiver == data.receiver && r.details == data.details
  {
    var newItems := new InvoiceItem[|data.items|](i requires 0 <= i < |data.items| => data.items[i]);
    newItems[index] := ItemSet(newItems[index], f, v);
    r := data.(items := newItems[..]);
  }

  /** `handleProductSelect`: always set the description; when a catalog
      product has exactly that description, the first one also supplies the
      HSN code, rate, unit and tax rate. */
  method HandleProductSelect(data: InvoiceData, products: seq<Product>, index: nat, productName: string)
    returns (r: InvoiceData)
    requires index < |data.items|
    ensures |r.items| == |data.items|
    ensures forall j :: 0 <= j < |data.items| && j != index ==> r.items[j] == data.items[j]
    ensures r.sender == data.sender && r.receiver == data.receiver && r.details == data.details
    ensures var old_, new_ := data.items[index], r.items[index];
      && new_.description == productName
      && new_.id == old_.id && new_.qty == old_.qty
      && match FindByDescription(products, productName)
         case Some(p) =>
           new_.hsnCode == p.hsnCode && new_.rate == p.rate && new_.unit == p.unit && new_.taxRate == p.taxRate
         case None =>
           new_ == old_.(description := productName)
  {
    var product := FindByDescription(products, productName);
    var newItems := new InvoiceItem[|data.items|](i requires 0 <= i < |data.items| => data.items[i]);
    newItems[index] := newItems[index].(description := productName);
    if product.Some? {
      var p := product.value;
      newItems[index] := newItems[index].(hsnCode := p.hsnCode, rate := p.rate, unit := p.unit, taxRate := p.taxRate);
    }
    r := data.(items := newItems[..]);
  }

  /** The row `addItem` appends. */
  function BlankItem(id: string): (item: InvoiceItem)
    ensures item.qty == 0.0 && item.rate == 0.0 && item.taxRate == 18.0
    ensures item.description == "" && item.hsnCode == "" && item.unit == "" && item.id == id
  {
    InvoiceItem(id, "", "", 0.0, "", 0.0, 18.0)
  }

  /** `addItem`, with the timestamp id as a parameter. */
  function AddItem(data: InvoiceData, id: string): (r: InvoiceData)
    ensures |r.items| == |data.items| + 1
    ensures r.items[..|data.items|] == data.items && r.items[|data.items|] == BlankItem(id)
    ensures r.sender == data.sender && r.receiver == data.receiver && r.details == data.details
  {
    data.(items := data.items + [BlankItem(id)])
  }

  /** `removeItem`: keep every position but `index`; an index outside the
      list removes nothing. */
  function RemoveItem(data: InvoiceData, index: int): (r: InvoiceData)
    ensures 0 <= index < |data.items| ==>
      && |r.items| == |data.items| - 1
      && (forall j :: 0 <= j < index ==> r.items[j] == data.items[j])
      && (forall j :: index <= j < |r.items| ==> r.items[j] == data.items[j + 1])
    ensures !(0 <= index < |data.items|) ==> r.items == data.items
    ensures r.sender == data.sender && r.receiver == data.receiver && r.details == data.details
  {
    if 0 <= index < |data.items| then data.(items := data.items[..index] + data.items[index + 1..])
    else data
  }

  /** The row `handleProductSelectFromManager` appends. */
  function ItemFromProduct(product: Product, id: string): (item: InvoiceItem)
    ensures item.description == product.description && item.hsnCode == product.hsnCode
    ensures item.unit == product.unit && item.rate == product.rate && item.taxRate == product.taxRate
    ensures item.qty == 1.0 && item.id == id
  {
    InvoiceItem(id, product.description, product.hsnCode, 1.0, product.unit, product.rate, product.taxRate)
  }

  /** `handleProductSelectFromManager`, with the timestamp id as a parameter. */
  function AddProductItem(data: InvoiceData, product: Product, id: string): (r: InvoiceData)
    ensures |r.items| == |data.items| + 1
    ensures r.items[..|data.items|] == data.items && r.items[|data.items|] == ItemFromProduct(product, id)
    ensures r.sender == data.sender && r.receiver == data.receiver && r.details == data.details
  {
    data.(items := data.items + [ItemFromProduct(product, id)])
  }

  // ------------------------------------------------ effects on the figures

  /** A blank row changes no figure of the invoice. */
  lemma BlankItemChangesNoTotal(data: InvoiceData, id: string)
    ensures SubTotal(AddItem(data, id).items) == SubTotal(data.items)
    ensures TotalTax(AddItem(data, id).items) == TotalTax(data.items)
    ensures TotalAmount(AddItem(data, id).items) == TotalAmount(data.items)
    ensures InvoicePreview.TotalQty(AddItem(data, id).items) == InvoicePreview.TotalQty(data.items)
  {
    var blank := BlankItem(id);
    SubTotalAppend(data.items, [blank]);
    TotalTaxAppend(data.items, [blank]);
    SingleItem(blank);
    InvoicePreview.TotalQtyAppend(data.items, [blank]);
    assert [blank][..0] == [];
  }

  /** A product picked from the catalog adds one unit at its rate plus its tax. */
  lemma ProductItemAddsOneUnit(data: InvoiceData, product: Product, id: string)
    ensures TotalAmount(AddProductItem(data, product, id).items)
      == TotalAmount(data.items) + product.rate + product.rate * (product.taxRate / 100.0)
  {
    var item := ItemFromProduct(product, id);
    TotalAmountAppend(data.items, [item]);
    SingleItem(item);
  }

  /** Removing a row takes exactly that row's figures off the totals. */
  lemma RemoveItemSubtractsRow(data: InvoiceData, index: int)
    requires 0 <= index < |data.items|
    ensures SubTotal(RemoveItem(data, index).items) == SubTotal(data.items) - ItemAmount(data.items[index])
    ensures TotalTax(RemoveItem(data, index).items) == TotalTax(data.items) - ItemTax(data.items[index])
  {
    var xs, ys := data.items[..index], data.items[index + 1..];
    var item := data.items[index];
    assert data.items == xs + [item] + ys;
    SubTotalAppend(xs + [item], ys);
    SubTotalAppend(xs, [item]);
    SubTotalAppend(xs, ys);
    TotalTaxAppend(xs + [item], ys);
    TotalTaxAppend(xs, [item]);
    TotalTaxAppend(xs, ys);
    SingleItem(item);
  }

  /** Removing the row just added restores the document. */
  lemma RemoveUndoesAdd(data: InvoiceData, id: string)
    ensures RemoveItem(AddItem(data, id), |data.items|) == data
  {
    assert (data.items + [BlankItem(id)])[..|data.items|] == data.items;
  }
}

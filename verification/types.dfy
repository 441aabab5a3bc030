/** The invoice document and catalog records.
    Optional text fields of the TypeScript records are plain strings here;
    the empty string stands for an absent value, and every reader in the
    invoice app treats an absent value like the empty string. */
module InvoiceTypes {

  datatype Option<+T> = None | Some(value: T)

  /** One row of an invoice. */
  datatype InvoiceItem = InvoiceItem(
    id: string,
    description: string,
    hsnCode: string,
    qty: real,
    unit: string,
    rate: real,
    taxRate: real)

  /** A party of the invoice. `title` and `subTitle` exist only on the
      sender; a receiver carries them empty. */
  datatype InvoiceParty = InvoiceParty(
    name: string,
    address: string,
    gstin: string,
    phone: string,
    title: string,
    subTitle: string)

  /** Invoice metadata, with the logistics fields the editing form reads. */
  datatype InvoiceDetails = InvoiceDetails(
    invoiceNo: string,
    date: string,
    time: string,
    paymentTerms: string,
    signatory: string,
    vehicleNumber: string,
    termsAndConditions: string,
    poNumber: string,
    poDate: string,
    despatchedThrough: string,
    lrNumber: string,
    lrDate: string,
    freight: string,
    dcNumber: string,
    dcDate: string)

  datatype InvoiceData = InvoiceData(
    sender: InvoiceParty,
    receiver: InvoiceParty,
    details: InvoiceDetails,
    items: seq<InvoiceItem>)

  /** A catalog entry. */
  datatype Product = Product(
    id: string,
    description: string,
    hsnCode: string,
    rate: real,
    unit: string,
    taxRate: real)
}

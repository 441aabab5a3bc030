# Invoice app core, modelled in Dafny

This project models the logic of a GST invoice generator. That logic covers:

- the invoice arithmetic;
- the derived figures printed on the invoice: totals, round-off, the CGST/SGST or IGST split, total quantity and row totals;
- the amount-in-words converter on the Indian scale (thousand, lakh, crore);
- the editing rules of the invoice form;
- the two persisted collections: the saved-invoice history and the product catalog.

Money and quantities are exact `real`s. `Math.round(x)` is `(x + 1/2).Floor`, which is what JavaScript does: halves go up.

Modules:

| file | module | models |
|---|---|---|
| types.dfy | `InvoiceTypes` | the invoice document and catalog records |
| calculations.dfy | `Calculations` | `calculateItemAmount`, `calculateSubTotal`, `calculateTotalTax`, `calculateTotalAmount`, `Math.round` |
| invoice_preview.dfy | `InvoicePreview` | the figures the printable invoice derives |
| number_to_words.dfy | `NumberToWords` | `numberToWords` and its recursive `convert` |
| invoice_form.dfy | `InvoiceForm` | the form's change handlers |
| records.dfy | `Records` | the stored-entry outcome and removal by id, shared by both stores |
| invoice_store.dfy | `InvoiceStore` | the saved-invoice history (`useInvoiceStore`) |
| product_store.dfy | `ProductStore` | the product catalog (`useProductStore`) |

How the model represents the TypeScript code:

- Every fold (`reduce` with seed 0) is a left fold in list order.
- `handleItemChange` and `handleProductSelect` copy the item list into an array and overwrite one entry, as the invoice app does. The other handlers are pure record updates.
- Each store is a class:
  - it holds the in-memory list as a `seq` field;
  - a ghost `storage` field stands for the `localStorage` entry;
  - `Valid()` says the list in memory is what the stored entry reads back as;
  - every method keeps `Valid()` and writes the new list to both places.
- Nondeterministic inputs become parameters: the fresh id (`crypto.randomUUID` / `Date.now().toString()`), the timestamp (`Date.now()`) and today's date.

## Model

| member | source | states |
|---|---|---|
| Calculations.ItemAmount | src/utils/calculations.ts:3-5 | the item amount is 0 when quantity or rate is 0, and non-negative for non-negative inputs |
| Calculations.ItemTax | src/utils/calculations.ts:11-19 | an item's tax is 0 at a 0% rate, and non-negative for non-negative inputs |
| Calculations.SubTotal | src/utils/calculations.ts:7-9 | the subtotal of non-negative items is non-negative |
| Calculations.TotalTax | src/utils/calculations.ts:11-19 | the total tax is non-negative for non-negative items, and 0 when every rate is 0 |
| Calculations.TotalAmount | src/utils/calculations.ts:21-25 | the total is at least the subtotal for non-negative items, and equals the subtotal when every rate is 0 |
| Calculations.Round | src/components/InvoicePreview.tsx:16-17 | `Math.round` gives the integer within half a unit of x, halves going up |
| Calculations.RoundOfInteger | src/components/InvoicePreview.tsx:16-17 | rounding an integer gives it back |
| Calculations.SubTotalAppend | src/utils/calculations.ts:7-9 | the subtotal of no items is 0, and the subtotal is additive over concatenation |
| Calculations.TotalTaxAppend | src/utils/calculations.ts:11-19 | the total tax of no items is 0, and the total tax is additive over concatenation |
| Calculations.TotalAmountAppend | src/utils/calculations.ts:21-25 | the total of no items is 0, and the total is additive over concatenation |
| Calculations.SingleItem | src/utils/calculations.ts:3-25 | the totals of a one-item list are that item's amount, tax and their sum |
| Calculations.WorkedExample | src/utils/calculations.ts:12-13 | quantity 5 at rate 260 and 18% tax gives amount 1300, tax 234 and total 1534 |
| InvoicePreview.TotalQty | src/components/InvoicePreview.tsx:26 | the total quantity of non-negative quantities is non-negative |
| InvoicePreview.Summarize | src/components/InvoicePreview.tsx:13-26 | subtotal, tax and total quantity match the arithmetic functions and the total is their sum; the final amount is the rounded total; total plus round-off is the integer final amount; round-off lies in (-1/2, 1/2]; CGST + SGST + IGST is the total tax; local mode splits it evenly between CGST and SGST, IGST mode puts it all in IGST |
| InvoicePreview.RowTotal | src/components/InvoicePreview.tsx:116-118 | a row's total is its amount plus its tax, and at least its amount for non-negative inputs |
| InvoicePreview.RowTotals | src/components/InvoicePreview.tsx:116-118 | one row total per item, in item order |
| InvoicePreview.RowTotalsAddUp | src/components/InvoicePreview.tsx:116-118 | the printed row totals add up to the invoice total |
| InvoicePreview.TotalQtyAppend | src/components/InvoicePreview.tsx:26 | the total quantity is 0 for no items and additive over concatenation |
| InvoicePreview.WorkedExampleSummary | src/components/InvoicePreview.tsx:13-26 | the one-row worked example prints total 1534, no round-off, CGST = SGST = 117 and quantity 5 |
| NumberToWords.Convert | src/utils/numberToWords.ts:9-16 | the words of every positive number are non-empty and start with a lower-case letter |
| NumberToWords.Capitalize | src/utils/numberToWords.ts:25 | the length is kept, the first character becomes its upper-case form, and every later character is unchanged |
| NumberToWords.AmountInWords | src/utils/numberToWords.ts:18-25 | 0 reads "zero"; for an amount of at least 1 the text is the words of its integer part with the first letter, always a lower-case one, made upper case and the rest unchanged |
| NumberToWords.UpperCase | src/utils/numberToWords.ts:25 | a lower-case letter becomes its upper-case letter, and any other character is unchanged |
| NumberToWords.TablesStartWithLetters | src/utils/numberToWords.ts:2-7 | every table word except the empty entries starts with a lower-case letter |
| NumberToWords.ConvertEmptyIffZero | src/utils/numberToWords.ts:9-16 | `convert` gives the empty text exactly for 0 |
| NumberToWords.TrailingClauseOmitted | src/utils/numberToWords.ts:11-15 | in every tier, the text is the head alone exactly when the remainder is 0 |
| NumberToWords.IntegerPartOnly | src/utils/numberToWords.ts:21 | the fraction is dropped, so an amount and its floor read the same |
| NumberToWords.ZeroInWords | src/utils/numberToWords.ts:18 | 0 reads "zero" |
| NumberToWords.WordsOfRoundAmounts | src/utils/numberToWords.ts:12-15 | 100, 100000 and 10000000 convert to "one hundred", "one lakh" and "one crore" |
| NumberToWords.RoundAmountsInWords | src/utils/numberToWords.ts:12-25 | 100, 100000 and 10000000 read "One hundred", "One lakh" and "One crore" |
| NumberToWords.WordsOf534 | src/utils/numberToWords.ts:11-12 | 534 is "five" + " hundred" + " and " + "thirty four" |
| NumberToWords.WordsOf1534 | src/utils/numberToWords.ts:13 | 1534 is "one" + " thousand" + " " + the words of 534 |
| NumberToWords.CapitalOf1534 | src/utils/numberToWords.ts:24-25 | capitalising the words of 1534 only changes the first letter |
| NumberToWords.ThousandsInWords | src/utils/numberToWords.ts:12-25 | 1534 reads "One thousand five hundred and thirty four" |
| NumberToWords.WordsOfCroreCrore | src/utils/numberToWords.ts:15 | 10^14 converts to "one crore crore" |
| NumberToWords.CroreOfCroresInWords | src/utils/numberToWords.ts:15-25 | 10^14 reads "One crore crore" |
| InvoiceForm.PartySet | src/components/InvoiceForm.tsx:16-22 | the chosen party field takes the value, and every other field is unchanged |
| InvoiceForm.HandleSenderChange | src/components/InvoiceForm.tsx:16-18 | exactly one sender field changes; receiver, details and items are untouched |
| InvoiceForm.HandleReceiverChange | src/components/InvoiceForm.tsx:20-22 | exactly one receiver field changes; sender, details and items are untouched |
| InvoiceForm.DetailSet | src/components/InvoiceForm.tsx:24-26 | the chosen detail field takes the value, and every other field is unchanged |
| InvoiceForm.HandleDetailChange | src/components/InvoiceForm.tsx:24-26 | exactly one detail field changes; parties and items are untouched |
| InvoiceForm.ItemGet | src/components/InvoiceForm.tsx:28 | the numeric fields read numbers and the others read text |
| InvoiceForm.ItemSet | src/components/InvoiceForm.tsx:30 | the chosen item field takes the value, and every other field is unchanged |
| InvoiceForm.FindByDescription | src/components/InvoiceForm.tsx:36 | no result exactly when no product has that description; otherwise the result is the first product with exactly that description |
| InvoiceForm.HandleItemChange | src/components/InvoiceForm.tsx:28-32 | the item count is kept; only the chosen field of the chosen item changes; every other item and the parties and details are unchanged |
| InvoiceForm.HandleProductSelect | src/components/InvoiceForm.tsx:35-53 | the description is always set; id and quantity are kept; a match supplies HSN code, rate, unit and tax rate from the first matching product; with no match only the description changes; other items are unchanged |
| InvoiceForm.BlankItem | src/components/InvoiceForm.tsx:56-64 | a new row has empty texts, quantity 0, rate 0 and 18% tax |
| InvoiceForm.AddItem | src/components/InvoiceForm.tsx:55-66 | exactly one blank row is appended, and the existing rows are unchanged |
| InvoiceForm.RemoveItem | src/components/InvoiceForm.tsx:68-71 | an index in range drops exactly that row and keeps the others in order; any other index changes nothing |
| InvoiceForm.ItemFromProduct | src/components/InvoiceForm.tsx:74-82 | the row copies the product's description, HSN code, unit, rate and tax rate, with quantity 1 |
| InvoiceForm.AddProductItem | src/components/InvoiceForm.tsx:73-84 | exactly one row for the product is appended, and the existing rows are unchanged |
| InvoiceForm.BlankItemChangesNoTotal | src/components/InvoiceForm.tsx:55-66 | appending a blank row changes neither subtotal, tax, total nor quantity |
| InvoiceForm.ProductItemAddsOneUnit | src/components/InvoiceForm.tsx:73-84 | appending a catalog product raises the total by one unit of its rate plus tax |
| InvoiceForm.RemoveItemSubtractsRow | src/components/InvoiceForm.tsx:68-71 | removing a row lowers the subtotal by its amount and the tax by its tax |
| InvoiceForm.RemoveUndoesAdd | src/components/InvoiceForm.tsx:55-71 | removing the row just added restores the document |
| Records.Reload | invoice-app/src/utils/useInvoiceStore.ts:18-26 | a parsed stored list is loaded; a missing or unparseable entry leaves the empty list |
| Records.RemoveId | invoice-app/src/utils/useInvoiceStore.ts:56 | the result keeps exactly the records whose id differs; it is unchanged when no record has the id, and strictly shorter when some record has it |
| Records.RemoveIdAppend | invoice-app/src/utils/useProductStore.ts:36 | removal works record by record, so what remains keeps its order |
| Records.RemoveIdIdempotent | invoice-app/src/utils/useInvoiceStore.ts:55-57 | deleting the same id twice is deleting it once |
| Records.RemoveIdKeepsUnique | invoice-app/src/utils/useProductStore.ts:35-38 | removal keeps ids unique |
| InvoiceStore.SnapshotTotal | invoice-app/src/utils/useInvoiceStore.ts:36-40 | the inline total fold, adding each item's amount and then its tax, equals subtotal plus total tax |
| InvoiceStore.BuildRecord | invoice-app/src/utils/useInvoiceStore.ts:42-49 | the name is the receiver's name, or "Unknown" when that is empty; the date is the invoice date, or today when that is empty; the amount is the rounded total, the same as the preview's final amount |
| InvoiceStore.DeleteUndoesSave | invoice-app/src/utils/useInvoiceStore.ts:51-57 | deleting the id of a record just saved under a fresh id gives back the old list |
| InvoiceStore.SaveKeepsUnique | invoice-app/src/utils/useInvoiceStore.ts:43-51 | prepending a record with a fresh id keeps ids unique |
| InvoiceStore.InvoiceStore.Load | invoice-app/src/utils/useInvoiceStore.ts:16-27 | memory holds the stored list, or the empty list when the entry is missing or unparseable |
| InvoiceStore.InvoiceStore.SaveToStorage | invoice-app/src/utils/useInvoiceStore.ts:29-32 | memory and storage both hold the given list |
| InvoiceStore.InvoiceStore.SaveInvoice | invoice-app/src/utils/useInvoiceStore.ts:34-53 | the new list is the snapshot record followed by the old list, written to storage; unique ids stay unique |
| InvoiceStore.InvoiceStore.DeleteInvoice | invoice-app/src/utils/useInvoiceStore.ts:55-58 | the new list drops the records with the id, or is unchanged when none has it, and is written to storage |
| ProductStore.NewProduct | invoice-app/src/utils/useProductStore.ts:26 | the product carries the submitted fields and the fresh id |
| ProductStore.Merge | invoice-app/src/utils/useProductStore.ts:31 | every field present in the patch wins, and every absent field keeps its value |
| ProductStore.MergeLaws | invoice-app/src/utils/useProductStore.ts:31 | an empty patch changes nothing, and applying a patch twice is applying it once |
| ProductStore.UpdateById | invoice-app/src/utils/useProductStore.ts:31 | length and order are kept; products with the id are merged and the others are unchanged |
| ProductStore.UpdateAbsentId | invoice-app/src/utils/useProductStore.ts:30-33 | updating an id no product has leaves the catalog unchanged |
| ProductStore.DeleteAfterUpdate | invoice-app/src/utils/useProductStore.ts:30-38 | an update that keeps the id is erased by a delete of that id |
| ProductStore.DeleteUndoesAdd | invoice-app/src/utils/useProductStore.ts:25-38 | adding under a fresh id and then deleting that id gives back the catalog |
| ProductStore.ProductStore.Load | invoice-app/src/utils/useProductStore.ts:7-18 | memory holds the stored list, or the empty list when the entry is missing or unparseable |
| ProductStore.ProductStore.SaveProducts | invoice-app/src/utils/useProductStore.ts:20-23 | memory and storage both hold the given list |
| ProductStore.ProductStore.AddProduct | invoice-app/src/utils/useProductStore.ts:25-28 | the new product is appended under the fresh id, written to storage, and deleting that id restores the old list |
| ProductStore.ProductStore.UpdateProduct | invoice-app/src/utils/useProductStore.ts:30-33 | the new list is the merge-by-id of the old one, unchanged for an absent id, and is written to storage |
| ProductStore.ProductStore.DeleteProduct | invoice-app/src/utils/useProductStore.ts:35-38 | the new list drops every product with the id, and is written to storage |

## Left out

- JSX rendering, layout, dialogs and navigation. The fixed "9.00"/"18.00" tax-rate labels in the preview are display text, not computed values.
- `toFixed` formatting of figures: it only produces display strings.
- IEEE-754 floating point. Amounts are exact reals, so a total such as 0.1 + 0.2 has no rounding error here.
- `localStorage`, `JSON.parse`/`JSON.stringify`, `useState`/`useEffect` and `console.error`. The stored entry is a ghost field, and the parse outcome is an input of `Load`. An empty stored string counts as missing, as the app's truthiness test treats it. A stored value that parses to something other than a list is not modelled.
- The render before the initial load completes, when the list is still empty. `Load` is the state after the effect has run.
- `crypto.randomUUID`, `Date.now()` and `new Date().toISOString()`. They are parameters, and the ids are required to be fresh.
- Several tabs writing the same entry: last writer wins, and the app does not handle it.
- InvoiceStore.InvoiceStore, ProductStore.ProductStore: one saved entry shared by two in-memory lists in the same tab is not modelled. The app mounts two copies of each store hook: invoices are saved through one copy and listed and deleted through another, and products are looked up through one copy and edited through another. Each copy loads the entry once and writes its own list back. A copy can therefore overwrite a newer write by the other copy (a saved invoice lost by a later delete in the history, a deleted one restored by the next save), and products added in the catalog stay invisible to the form's lookup until it remounts. Each class here owns its entry, so "memory and storage hold the same list" holds only for the object that wrote last.
- NumberToWords.AmountInWords: requires a non-negative amount. A negative amount would index the table out of range, and its result is not modelled. An amount strictly between 0 and 1 gives the empty text, as the app does.
- NumberToWords.UpperCase: covers ASCII letters only. The converter only produces ASCII lower-case words, so full Unicode `toUpperCase` is not needed.
- InvoiceForm.HandleSenderChange: the TypeScript handler accepts any string as a key and can add new keys to the sender. The model allows only the six party fields.
- InvoiceForm.HandleReceiverChange: the title and sub-title keys are excluded, because the TypeScript code types the key as a field of the plain party record.
- InvoiceForm.HandleItemChange: a value whose type does not match its field (text into a numeric field) is excluded. The handler's `string | number` parameter would allow it.
- ProductStore.Merge: a patch field explicitly set to `undefined`, which the spread would copy over the old value, is treated as absent.
- ProductStore.NewProduct: extra keys the caller might pass alongside the product fields are not modelled.

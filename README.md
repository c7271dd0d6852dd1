# ReceiptPro in Dafny

ReceiptPro is a browser application for small businesses. It keeps business
profiles, creates receipts and invoices from line items, stores everything in
the browser's `localStorage`, shows a dashboard of the stored receipts,
exports a receipt as a PDF and sends it by e-mail. This project models the
logic under the React markup and the browser calls, and proves what that
logic promises:

- **Totals engine** (`ReceiptHelpers`, `InvoiceHelpers`). Receipt and invoice
  totals follow one rule: the subtotal is the sum of the line amounts, the
  discount is a percentage of it, tax is charged on the discounted amount,
  and the total is subtotal minus discount plus tax. The document numbers
  have the form `RCP-yyyymmdd-nnn` / `INV-yyyymmdd-nnn`, and the lookups map
  status and payment method to a colour class and an icon. Amounts are exact
  `real`s.
- **Key-value store** (`Storage`, `ById`). `localStorage` is a class holding
  a `map` from the store's keys to stored values. Each collection is read as
  a whole list, upserted by id (first match replaced in place, otherwise
  appended) or filtered by id, and written back under its own key.
- **Receipt and invoice editors** (`ReceiptCreator`, `InvoiceCreator`).
  Each editor is a class holding the draft record, the profile list and the
  selected profile. It adds, updates and removes line items, recomputes the
  totals after every change, and runs the save guards before building and
  storing the record. Loading lays the stored settings over the draft.
- **PDF export** (`PdfGenerator`). The jsPDF document is an append-only
  log of drawing calls. The model covers:
  - the rasterised path's `heightLeft` loop, which gives the page count and
    each page's image offset;
  - the fallback text layout, with its `yPosition` cursor and the page-break
    check inside the item loop.
- **Dashboard** (`Dashboard`). This covers the statistics, the success rate,
  the number of unique customers, the search and status filter, the
  ten-row table and the delete handler.
- **Business-profile manager** (`BusinessProfiles`). A state machine over
  `profiles`, `currentProfile`, `isEditing`, `isCreating` and `formData`.
- **E-mail service** (`EmailService`). This covers the mutable three-field
  configuration and its validity test, and builds the e-mail payload from a
  receipt.

Several things the source reads from its environment become parameters:

- the clock (`now`, `today`, the date fields);
- `Math.random()` (a real in [0, 1));
- `Date.now()` ids (`newId`);
- `window.confirm` (`confirmed`);
- the outcome of `html2canvas` and of `emailjs.send`;
- the currency and date formatters.

JavaScript's `||` on strings treats `''` and `undefined` alike. `Strings.Or`
and `Strings.OrOpt` model that.

Four behaviours of the code a reader may not expect:

- **Settings when editing.** `loadData` lays the settings' currency, tax
  rate, template and notes over a receipt loaded for editing too, so the
  stored values are overwritten in the editor.
- **Page count.** The rasterised path's page count is `1 + floor(h / 297)`,
  not the ceiling of `h / 297`. An image exactly one page tall gets two
  pages (`PageCountVsCeiling`).
- **New profile replaces the current one.** `handleCreateNew` keeps the
  current profile, so saving a "new" profile reuses the current profile's id
  and replaces it instead of adding one (`NewProfileReplacesCurrent`).
- **Stale dashboard statistics.** Deleting a receipt on the dashboard does
  not recompute the statistics.

## Model

| member | source | states |
|---|---|---|
| ReceiptHelpers.RandomPart | src/utils/receiptHelpers.ts:9 | `Math.floor(random * 1000)` lies in 0..999 and is the floor of `random * 1000` |
| ReceiptHelpers.DateStampFields | src/utils/receiptHelpers.ts:6-11 | for a four-digit year the part after `RCP-` is 12 characters: year, two-digit month+1, two-digit day, `-`, three-digit random, each field decoding back to its number |
| ReceiptHelpers.ReceiptNumberShape | src/utils/receiptHelpers.ts:3-12 | for a four-digit year the receipt number has length 16, starts with `RCP-`, has `-` at position 12 and continues with the date stamp |
| ReceiptHelpers.CalculateReceiptTotals | src/utils/receiptHelpers.ts:24 | the subtotal is the sum of the line amounts in order; the other three outputs are stated by the lemmas below |
| ReceiptHelpers.SubtotalConcat | src/utils/receiptHelpers.ts:24 | the subtotal of two item lists joined is the sum of their subtotals |
| ReceiptHelpers.SubtotalNonNegative | src/utils/receiptHelpers.ts:24 | non-negative amounts give a non-negative subtotal |
| ReceiptHelpers.TotalsOfNoItems | src/utils/receiptHelpers.ts:24-28 | no items give all-zero totals for any rates |
| ReceiptHelpers.TotalIsDiscountThenTax | src/utils/receiptHelpers.ts:25-28 | discount = subtotal × rate / 100, tax = (subtotal − discount) × rate / 100, total = subtotal − discount + tax, hence total = subtotal × (100 − discount rate) × (100 + tax rate) / 10000 |
| ReceiptHelpers.TaxIsNotOnGross | src/utils/receiptHelpers.ts:26-27 | with a non-zero subtotal, tax rate and discount, the tax differs from tax on the raw subtotal |
| ReceiptHelpers.TotalsNonNegative | src/utils/receiptHelpers.ts:24-28 | non-negative amounts, a discount of at most 100% and a non-negative tax rate give four non-negative outputs, and the discount is at most the subtotal |
| ReceiptHelpers.DiscountThenTaxExample | src/utils/receiptHelpers.ts:24-28 | amounts summing to 100, 10% discount and 20% tax give discount 10, tax 18 and total 108 |
| ReceiptHelpers.SingleItemExample | src/utils/receiptHelpers.ts:24-28 | one line of 3 × 10 with 10% tax gives subtotal 30, tax 3 and total 33 |
| ReceiptHelpers.StatusLookupsTotal | src/utils/receiptHelpers.ts:45-69 | the colour and icon lookups give the default exactly for strings that name no status |
| ReceiptHelpers.StatusLookupsDistinct | src/utils/receiptHelpers.ts:45-69 | different statuses get different colours and different icons |
| ReceiptHelpers.PaymentIconTotal | src/utils/receiptHelpers.ts:71-86 | the payment icon is the default exactly for `other` and strings that name no method |
| ReceiptHelpers.PaymentIconDistinct | src/utils/receiptHelpers.ts:71-86 | the five named methods get five different icons |
| InvoiceHelpers.InvoiceNumberShape | src/utils/invoiceHelpers.ts:3-12 | the invoice number has length 16, starts with `INV-`, has `-` at position 12, and after the three-letter tag equals the receipt number for the same inputs |
| InvoiceHelpers.CalculateInvoiceTotals | src/utils/invoiceHelpers.ts:24 | the subtotal is the sum of the line amounts in order |
| InvoiceHelpers.AsReceiptItems | src/utils/invoiceHelpers.ts:24 | an invoice line as a receipt line, position by position, with `rate` as the price |
| InvoiceHelpers.SubtotalAgrees | src/utils/invoiceHelpers.ts:24 | the invoice subtotal equals the receipt subtotal of the same lines |
| InvoiceHelpers.TotalsAgree | src/utils/invoiceHelpers.ts:14-36 | `calculateInvoiceTotals` returns exactly what `calculateReceiptTotals` returns for the same amounts and rates |
| InvoiceHelpers.InvoiceTotalIsDiscountThenTax | src/utils/invoiceHelpers.ts:25-28 | the invoice total is subtotal × (100 − discount rate) × (100 + tax rate) / 10000: discount first, then tax on the rest |
| InvoiceHelpers.StatusLookupsTotal | src/utils/invoiceHelpers.ts:45-73 | the colour is gray, and the icon 📝, exactly when the status is `draft` or names no status |
| InvoiceHelpers.StatusLookupsDistinct | src/utils/invoiceHelpers.ts:45-73 | the four statuses get four different colours and four different icons |
| Storage.Store.constructor | src/utils/storage.ts:3-8 | the store starts empty |
| Storage.Store.GetBusinessProfiles | src/utils/storage.ts:47-53 | an absent key reads as the empty list |
| Storage.Store.GetCurrentProfile | src/utils/storage.ts:75-81 | an absent key reads as `null` |
| Storage.Store.GetReceipts | src/utils/storage.ts:88-94 | an absent key reads as the empty list |
| Storage.Store.GetReceiptById | src/utils/storage.ts:115-118 | `null` exactly when no stored receipt has the id; otherwise the first stored receipt with that id |
| Storage.Store.GetSettings | src/utils/storage.ts:121-129 | with nothing stored: currency `USD`, tax rate 0, language `en`, date format `MM/dd/yyyy` |
| Storage.Store.GetInvoices | src/components/Invoice/InvoiceCreator.tsx:65 | an absent key reads as the empty list |
| Storage.Store.GetInvoiceById | src/components/Invoice/InvoiceCreator.tsx:65 | `null` exactly when no stored invoice has the id; otherwise the first stored invoice with that id |
| Storage.Store.SaveBusinessProfile | src/utils/storage.ts:55-66 | only the profiles key changes, to the upserted list; the profile is then found by its id |
| Storage.Store.DeleteBusinessProfile | src/utils/storage.ts:68-72 | only the profiles key changes; what remains is exactly the profiles with another id, in order; the current profile is untouched even when it was deleted |
| Storage.Store.SetCurrentProfile | src/utils/storage.ts:83-85 | only the current-profile key changes; reading it back gives the profile |
| Storage.Store.SaveReceipt | src/utils/storage.ts:96-107 | only the receipts key changes, to the upserted list; `getReceiptById(r.id)` then gives r; lookups of every other id are unchanged |
| Storage.Store.DeleteReceipt | src/utils/storage.ts:109-113 | only the receipts key changes; the rest keep their order, exactly the receipts with another id remain, and the id is no longer found |
| Storage.Store.SaveSettings | src/utils/storage.ts:131-133 | only the settings key changes and reads back as the saved settings |
| Storage.Store.SaveInvoice | src/components/Invoice/InvoiceCreator.tsx:188 | only the invoices key changes, to the upserted list; the invoice is then found by its id |
| Storage.KeysDistinct | src/utils/storage.ts:3-8 | the storage keys are pairwise distinct, so a write under one never touches another |
| ById.FindIndex | src/utils/storage.ts:57 | `findIndex`: the first position with the id, or -1 when there is none |
| ById.Find | src/utils/storage.ts:117 | `find`: none exactly when no element has the id, else the element at the first position holding it |
| ById.UpsertReplaces | src/utils/storage.ts:59-60 | with a first match at i, the length is kept, position i holds the new element and every other position is unchanged |
| ById.UpsertAppends | src/utils/storage.ts:61-62 | with no match the element is appended at the end |
| ById.FindAfterUpsert | src/utils/storage.ts:96-118 | after an upsert, finding the element's id gives the element |
| ById.FindOtherAfterUpsert | src/utils/storage.ts:96-118 | an upsert does not change what any other id finds |
| ById.RemoveIdSpec | src/utils/storage.ts:70 | filtering out an id keeps exactly the other elements, in order, removes as many as carried the id, and leaves none with it |
| ReceiptCreator.InitialDraft | src/components/Receipt/ReceiptCreator.tsx:19-38 | the new draft has no id, no items, zero tax and discount rates, and zero subtotal, tax, discount and total |
| ReceiptCreator.UpdateItems | src/components/Receipt/ReceiptCreator.tsx:108-122 | length and ids are kept and other lines are unchanged; a matching line gets the new field; a quantity or price change sets amount = quantity × price; a description change keeps the amount |
| ReceiptCreator.UpdateKeepsConsistent | src/components/Receipt/ReceiptCreator.tsx:108-122 | an update keeps every line's amount equal to quantity × price, and after a quantity or price change the matching lines satisfy it |
| ReceiptCreator.AddKeepsConsistent | src/components/Receipt/ReceiptCreator.tsx:94-106 | appending the new blank line keeps every amount equal to quantity × price |
| ReceiptCreator.RemoveKeepsConsistent | src/components/Receipt/ReceiptCreator.tsx:124-129 | removing lines keeps every amount equal to quantity × price |
| ReceiptCreator.AddItemKeepsSubtotal | src/components/Receipt/ReceiptCreator.tsx:94-106 | the new blank line does not change the subtotal |
| ReceiptCreator.WithTotals | src/components/Receipt/ReceiptCreator.tsx:131-135 | the totals effect keeps items and rates and writes the four totals |
| ReceiptCreator.WithTotalsSpec | src/components/Receipt/ReceiptCreator.tsx:131-139 | afterwards the totals are those of the items and rates; recomputing again changes nothing; a draft already current is unchanged; only the four totals fields change |
| ReceiptCreator.BuildReceipt | src/components/Receipt/ReceiptCreator.tsx:160-183 | the record reuses the draft's id, else the new id; it takes the selected profile and the items; phone, address and notes default to `''`; an existing createdAt is kept |
| ReceiptCreator.ResaveKeepsIdentity | src/components/Receipt/ReceiptCreator.tsx:160-183 | saving a loaded receipt again keeps its id and its creation time |
| ReceiptCreator.SaveCheck | src/components/Receipt/ReceiptCreator.tsx:141-155 | the guards in order (no profile, then missing customer name or e-mail, then no items), each as an if-and-only-if |
| ReceiptCreator.DefaultSettingsApplied | src/components/Receipt/ReceiptCreator.tsx:80-88 | with no stored settings the draft gets currency `USD`, tax rate 0, template `modern` and empty notes, and keeps its items, customer and id |
| ReceiptCreator.EditTarget | src/components/Receipt/ReceiptCreator.tsx:68-70 | the receipt opened for editing, when there is one, has the requested id |
| ReceiptCreator.ReceiptEditor.constructor | src/components/Receipt/ReceiptCreator.tsx:16-38 | the initial draft, no profiles, no selection, the dialog closed |
| ReceiptCreator.ReceiptEditor.CalculateTotals | src/components/Receipt/ReceiptCreator.tsx:131-135 | the draft's totals become current; nothing else changes |
| ReceiptCreator.ReceiptEditor.AddItem | src/components/Receipt/ReceiptCreator.tsx:94-106 | exactly one line is appended (description `''`, quantity 1, price 0, amount 0); the subtotal is unchanged; consistency is kept; totals are current |
| ReceiptCreator.ReceiptEditor.UpdateItem | src/components/Receipt/ReceiptCreator.tsx:108-122 | the items become `UpdateItems` of the old items; consistency is kept; totals are current; nothing else changes |
| ReceiptCreator.ReceiptEditor.RemoveItem | src/components/Receipt/ReceiptCreator.tsx:124-129 | the lines left are exactly those with another id, in order; totals are current; nothing else changes |
| ReceiptCreator.ReceiptEditor.SetTaxRate | src/components/Receipt/ReceiptCreator.tsx:137-139 | the tax rate changes and the totals follow; nothing else changes |
| ReceiptCreator.ReceiptEditor.SetDiscountRate | src/components/Receipt/ReceiptCreator.tsx:137-139 | the discount rate changes and the totals follow; nothing else changes |
| ReceiptCreator.ReceiptEditor.LoadData | src/components/Receipt/ReceiptCreator.tsx:61-92 | the stored profiles; the edited receipt, when found, replaces the draft; the selection follows the current, else the first, profile; the settings are laid over the draft even when editing; totals are current |
| ReceiptCreator.ReceiptEditor.LoadStored | src/components/Receipt/ReceiptCreator.tsx:62-78 | the part of loading before the settings: profiles, the edited receipt and the selection |
| ReceiptCreator.ReceiptEditor.HandleSave | src/components/Receipt/ReceiptCreator.tsx:141-185 | a failing guard returns its reason with the store untouched; otherwise the built record is upserted into the stored receipts and found by its id |
| ReceiptCreator.ReceiptEditor.HandleSendEmail | src/components/Receipt/ReceiptCreator.tsx:235-247 | the dialog opens exactly when a profile is selected and a customer e-mail is entered; nothing else changes |
| InvoiceCreator.InitialDraft | src/components/Invoice/InvoiceCreator.tsx:19-43 | the new draft has no id, no items, status `draft`, issue date now and a due date 30 days later |
| InvoiceCreator.UpdateItems | src/components/Invoice/InvoiceCreator.tsx:106-120 | as for receipts, with `rate` in place of `price` |
| InvoiceCreator.UpdateKeepsConsistent | src/components/Invoice/InvoiceCreator.tsx:106-120 | an update keeps every amount equal to quantity × rate |
| InvoiceCreator.AddKeepsConsistent | src/components/Invoice/InvoiceCreator.tsx:92-104 | appending the blank line keeps every amount equal to quantity × rate |
| InvoiceCreator.RemoveKeepsConsistent | src/components/Invoice/InvoiceCreator.tsx:122-127 | removing lines keeps every amount equal to quantity × rate |
| InvoiceCreator.AddItemKeepsSubtotal | src/components/Invoice/InvoiceCreator.tsx:92-104 | the new blank line does not change the subtotal |
| InvoiceCreator.WithTotals | src/components/Invoice/InvoiceCreator.tsx:129-133 | the totals effect keeps items and rates and writes the four totals |
| InvoiceCreator.WithTotalsSpec | src/components/Invoice/InvoiceCreator.tsx:129-137 | afterwards the totals are those of `calculateInvoiceTotals`; recomputing again changes nothing; only the totals fields change |
| InvoiceCreator.DueDays | src/components/Invoice/InvoiceCreator.tsx:85 | `defaultDueDays \|\| 30`: 30 when absent or 0, else the stored number |
| InvoiceCreator.ApplySettings | src/components/Invoice/InvoiceCreator.tsx:76-86 | the due date becomes the moment of loading plus the due days, in milliseconds |
| InvoiceCreator.DefaultSettingsApplied | src/components/Invoice/InvoiceCreator.tsx:76-86 | with no stored settings: `USD`, tax 0, `modern`, empty notes and terms, due in 30 days |
| InvoiceCreator.BuildInvoice | src/components/Invoice/InvoiceCreator.tsx:158-186 | the id is the draft's, else the new one; the client's phone, address, city, state, zip and country and the notes and terms default to `''`; an existing createdAt is kept |
| InvoiceCreator.ResaveKeepsIdentity | src/components/Invoice/InvoiceCreator.tsx:158-186 | saving a loaded invoice again keeps its id and its creation time |
| InvoiceCreator.SaveCheck | src/components/Invoice/InvoiceCreator.tsx:139-153 | the guards in order (no profile, missing client name or e-mail, no items), each as an if-and-only-if |
| InvoiceCreator.EditTarget | src/components/Invoice/InvoiceCreator.tsx:64-66 | the invoice opened for editing, when there is one, has the requested id |
| InvoiceCreator.InvoiceEditor.constructor | src/components/Invoice/InvoiceCreator.tsx:16-43 | the initial draft, no profiles, no selection, the dialog closed |
| InvoiceCreator.InvoiceEditor.CalculateTotals | src/components/Invoice/InvoiceCreator.tsx:129-133 | the totals become current; nothing else changes |
| InvoiceCreator.InvoiceEditor.AddItem | src/components/Invoice/InvoiceCreator.tsx:92-104 | one line appended (quantity 1, rate 0, amount 0); subtotal unchanged; totals current |
| InvoiceCreator.InvoiceEditor.UpdateItem | src/components/Invoice/InvoiceCreator.tsx:106-120 | the items become `UpdateItems` of the old ones; totals current; nothing else changes |
| InvoiceCreator.InvoiceEditor.RemoveItem | src/components/Invoice/InvoiceCreator.tsx:122-127 | exactly the lines with another id remain, in order; totals current |
| InvoiceCreator.InvoiceEditor.SetTaxRate | src/components/Invoice/InvoiceCreator.tsx:135-137 | the tax rate changes and the totals follow |
| InvoiceCreator.InvoiceEditor.SetDiscountRate | src/components/Invoice/InvoiceCreator.tsx:135-137 | the discount rate changes and the totals follow |
| InvoiceCreator.InvoiceEditor.LoadData | src/components/Invoice/InvoiceCreator.tsx:57-90 | as for receipts, and the due date becomes now plus the settings' due days |
| InvoiceCreator.InvoiceEditor.LoadStored | src/components/Invoice/InvoiceCreator.tsx:58-74 | profiles, the edited invoice and the selection |
| InvoiceCreator.InvoiceEditor.HandleSave | src/components/Invoice/InvoiceCreator.tsx:139-188 | a failing guard returns its reason with the store untouched; otherwise the built invoice is upserted into the stored invoices and found by its id |
| InvoiceCreator.InvoiceEditor.HandleSendEmail | src/components/Invoice/InvoiceCreator.tsx:243-255 | the dialog opens exactly when a profile is selected and a client e-mail is entered |
| PdfGenerator.PdfDoc.constructor | src/utils/pdfGenerator.ts:38-43 | a new document has an empty draw log |
| PdfGenerator.CountPagesConcat | src/utils/pdfGenerator.ts:54 | the pages added by two logs joined are the sum of their pages |
| PdfGenerator.ColumnTextsConcat | src/utils/pdfGenerator.ts:158 | the texts at one column of two logs joined are the first's then the second's |
| PdfGenerator.FileNameParts | src/utils/pdfGenerator.ts:200-201 | the file name is `receipt-`, the receipt number, `-`, the day and `.pdf` |
| PdfGenerator.ImageHeight | src/utils/pdfGenerator.ts:32-34 | the image is 210 wide and keeps the canvas's aspect ratio |
| PdfGenerator.PageCount | src/utils/pdfGenerator.ts:48-57 | the document always has at least one page |
| PdfGenerator.FloorStep | src/utils/pdfGenerator.ts:49-57 | a k-th extra page is added exactly while k page heights fit in the image |
| PdfGenerator.ImageLogLayout | src/utils/pdfGenerator.ts:45-57 | n pages: one image per page, page k at offset −k × 297, separated by n − 1 new pages |
| PdfGenerator.PagesCoverImage | src/utils/pdfGenerator.ts:34-57 | the pages reach past the image's bottom, and the last page starts within the image |
| PdfGenerator.PageCountVsCeiling | src/utils/pdfGenerator.ts:34-57 | the count is the ceiling of height/297, except that an exact multiple gets one extra page (297 gives 2) |
| PdfGenerator.Paginate | src/utils/pdfGenerator.ts:45-57 | the loop appends exactly the page log of `1 + floor(h/297)` pages, and terminates |
| PdfGenerator.GenerateReceiptPdf | src/utils/pdfGenerator.ts:6-70 | a missing element ends the call before any PDF work and without the fallback; a failed rasterisation gives the fallback document; otherwise the paged images and one save |
| PdfGenerator.RenderedDocument | src/utils/pdfGenerator.ts:32-63 | the rasterised document adds `PageCount − 1` pages, ends with its save, and its page count is `1 + floor(height × 210 / (width × 297))` |
| PdfGenerator.NonEmptySpec | src/utils/pdfGenerator.ts:111-130 | `filter(Boolean)` keeps exactly the non-empty lines, in order, never more of them, and all of them when none is empty |
| PdfGenerator.LinesLog | src/utils/pdfGenerator.ts:120-134 | one text call per line |
| PdfGenerator.WriteLines | src/utils/pdfGenerator.ts:120-134 | the `forEach` over the lines appends exactly one text call per line |
| PdfGenerator.ItemsLogSnoc | src/utils/pdfGenerator.ts:152-163 | one more item appends its step at the cursor where the shorter run ended, and advances the cursor by 6 past the break check |
| PdfGenerator.WriteItems | src/utils/pdfGenerator.ts:152-163 | the item loop appends exactly the item log and returns its end cursor |
| PdfGenerator.WriteItem | src/utils/pdfGenerator.ts:153-162 | one item: a new page and a reset to 20 exactly when the cursor is past 257, then four texts, then 6 down |
| PdfGenerator.ItemsInOrder | src/utils/pdfGenerator.ts:152-163 | the descriptions column holds every item's description exactly once, in order |
| PdfGenerator.RowColumns | src/utils/pdfGenerator.ts:158-161 | a row writes its description, and nothing else, at column 20 |
| PdfGenerator.ItemRowsAboveBreak | src/utils/pdfGenerator.ts:153-162 | every item text is drawn at y ≤ 297 − 40 |
| PdfGenerator.ItemPageBreaks | src/utils/pdfGenerator.ts:152-163 | a fresh page holds 40 rows: from cursor `20 + 6j`, n items need `(j + n − 1) / 40` new pages |
| PdfGenerator.StepPages | src/utils/pdfGenerator.ts:153-156 | one item adds a page exactly when the cursor is past the break line |
| PdfGenerator.WriteHeader | src/utils/pdfGenerator.ts:82-98 | the title block's calls at their fixed positions |
| PdfGenerator.WriteParties | src/utils/pdfGenerator.ts:100-136 | the From/To titles and columns; the cursor ends at `73 + max(from, to) × 5 + 15` |
| PdfGenerator.WriteTableHeader | src/utils/pdfGenerator.ts:138-148 | four titles and a rule; the rows begin 13 below |
| PdfGenerator.WriteTop | src/utils/pdfGenerator.ts:80-148 | everything above the item rows; returns where the rows begin |
| PdfGenerator.WriteTotals | src/utils/pdfGenerator.ts:165-186 | the rule and the totals lines; returns the cursor of the `Total:` line |
| PdfGenerator.WriteNotes | src/utils/pdfGenerator.ts:188-198 | the notes block is drawn only for non-empty notes |
| PdfGenerator.WriteBottom | src/utils/pdfGenerator.ts:165-202 | totals, notes and the save |
| PdfGenerator.WriteRest | src/utils/pdfGenerator.ts:150-202 | the item loop and everything after it |
| PdfGenerator.WriteLayout | src/utils/pdfGenerator.ts:80-202 | the whole fallback document, for a given printed payment label |
| PdfGenerator.GenerateQuickPdf | src/utils/pdfGenerator.ts:72-207 | `generateQuickPDF` draws exactly the fallback layout |
| PdfGenerator.TotalsColumn | src/utils/pdfGenerator.ts:170-186 | the totals column reads subtotal, then discount if any, then tax if any, then total |
| PdfGenerator.TotalsLines | src/utils/pdfGenerator.ts:174-186 | the discount line appears exactly when the discount is positive, the tax line exactly when the tax is positive, and the total line always, as the last call |
| PdfGenerator.OnlyItemsBreakPages | src/utils/pdfGenerator.ts:152-198 | every page the fallback document adds comes from the item loop; no break check happens elsewhere |
| PdfGenerator.LayoutPages | src/utils/pdfGenerator.ts:80-202 | the pages of the layout are those of its item rows |
| PdfGenerator.TopHasNoPages | src/utils/pdfGenerator.ts:80-148 | nothing above the item rows adds a page |
| PdfGenerator.BottomHasNoPages | src/utils/pdfGenerator.ts:165-202 | nothing after the item rows adds a page |
| PdfGenerator.PartiesAboveTable | src/utils/pdfGenerator.ts:106-136 | the From/To lines lie between 73 and 20 above the table header and none is empty |
| Dashboard.ComputeStats | src/components/Dashboard/Dashboard.tsx:29-48 | the total is the number of receipts; completed and cash + card each are at most the total |
| Dashboard.CashCardBound | src/components/Dashboard/Dashboard.tsx:37-38 | the cash and card counts together are at most the number of receipts |
| Dashboard.StatusCountsPartition | src/components/Dashboard/Dashboard.tsx:34-36 | completed + refunded + partial refunds = total receipts |
| Dashboard.RevenueIgnoresRefunds | src/components/Dashboard/Dashboard.tsx:31-33 | a receipt that is not completed adds nothing to the revenue, wherever it sits |
| Dashboard.RevenueBounds | src/components/Dashboard/Dashboard.tsx:31-33 | with non-negative totals the revenue lies between 0 and the sum of all totals |
| Dashboard.AllCompletedRevenue | src/components/Dashboard/Dashboard.tsx:31-34 | when every receipt is completed the revenue is the sum of all totals |
| Dashboard.Round | src/components/Dashboard/Dashboard.tsx:145 | `Math.round`: the nearest integer, halves rounding up |
| Dashboard.SuccessRate | src/components/Dashboard/Dashboard.tsx:145 | 0 with no receipts; otherwise `100 × completed / total` rounded, and always within 0..100 |
| Dashboard.UniqueCustomersBounds | src/components/Dashboard/Dashboard.tsx:149 | the distinct e-mails number at most the receipts, and at least one when there are receipts |
| Dashboard.SameEmailOneCustomer | src/components/Dashboard/Dashboard.tsx:149 | receipts all with one e-mail count as one customer |
| Dashboard.KeepSpec | src/components/Dashboard/Dashboard.tsx:58-69 | `filter` gives an order-preserving subsequence holding exactly the elements that pass |
| Dashboard.KeepAll | src/components/Dashboard/Dashboard.tsx:58-69 | a filter every element passes keeps the list |
| Dashboard.FilteredSpec | src/components/Dashboard/Dashboard.tsx:54-72 | the filtered list is an order-preserving subsequence; a receipt is in it exactly when it matches the status filter and, for a non-empty term, its number, name or e-mail contains the lowercased term |
| Dashboard.NoFilterShowsAll | src/components/Dashboard/Dashboard.tsx:54-72 | an empty search and status `all` show every receipt |
| Dashboard.EmptySearchKeepsAll | src/components/Dashboard/Dashboard.tsx:58-63 | the empty term matches every receipt |
| Dashboard.Visible | src/components/Dashboard/Dashboard.tsx:268 | at most 10 rows: the first min(10, n) receipts |
| Dashboard.DashboardView.constructor | src/components/Dashboard/Dashboard.tsx:10-22 | no receipts, empty search, status `all`, zero statistics |
| Dashboard.DashboardView.ApplyFilters | src/components/Dashboard/Dashboard.tsx:54-72 | the filtered list is recomputed from the current receipts and filters; nothing else changes |
| Dashboard.DashboardView.LoadReceipts | src/components/Dashboard/Dashboard.tsx:24-52 | the stored receipts and their statistics, whose status counts add up to the total |
| Dashboard.DashboardView.SetSearchTerm | src/components/Dashboard/Dashboard.tsx:54-72 | the new term and the list it filters to; receipts and statistics unchanged |
| Dashboard.DashboardView.SetStatusFilter | src/components/Dashboard/Dashboard.tsx:54-72 | the new filter and the list it filters to; receipts and statistics unchanged |
| Dashboard.DashboardView.HandleDeleteReceipt | src/components/Dashboard/Dashboard.tsx:74-80 | without confirmation nothing changes; with it, exactly the receipts with the id are removed from the list and the store, in order, and the filter is reapplied; the statistics stay as they were |
| BusinessProfiles.FormOf | src/components/Profile/BusinessProfile.tsx:113-118 | the form shows the profile's fields |
| BusinessProfiles.SaveId | src/components/Profile/BusinessProfile.tsx:60 | the current profile's id when it has one, else the new id |
| BusinessProfiles.BuildProfile | src/components/Profile/BusinessProfile.tsx:59-74 | the form's fields; website, tax number and logo default to `''`; the current profile's creation time when there is one |
| BusinessProfiles.EditSaveRoundTrip | src/components/Profile/BusinessProfile.tsx:53-118 | editing a profile and saving the untouched form gives the profile back, with a new update time and its absent optional fields `''` |
| BusinessProfiles.NewProfileReplacesCurrent | src/components/Profile/BusinessProfile.tsx:59-111 | a profile saved from "create new" while a profile is current replaces that profile in place, and the list does not grow |
| BusinessProfiles.Persist | src/components/Profile/BusinessProfile.tsx:76-77 | the store's profile list is upserted and the current-profile key is set to the profile |
| BusinessProfiles.ProfileManager.constructor | src/components/Profile/BusinessProfile.tsx:7-23 | no profiles, no current profile, both flags down, the blank form |
| BusinessProfiles.ProfileManager.LoadProfiles | src/components/Profile/BusinessProfile.tsx:25-39 | the stored profiles and current profile; the form shows the current profile when there is one |
| BusinessProfiles.ProfileManager.HandleSave | src/components/Profile/BusinessProfile.tsx:53-93 | with the name or e-mail empty nothing changes; otherwise the profile is saved and made current in the store and on screen, upserted into the list, and both flags drop |
| BusinessProfiles.ProfileManager.UpsertListed | src/components/Profile/BusinessProfile.tsx:80-88 | the list is upserted by id and the profile is then found in it |
| BusinessProfiles.ProfileManager.HandleCreateNew | src/components/Profile/BusinessProfile.tsx:95-111 | the blank form, creating on, editing off; the current profile stays |
| BusinessProfiles.ProfileManager.HandleEdit | src/components/Profile/BusinessProfile.tsx:113-118 | the profile fills the form and becomes current; editing on, creating off |
| BusinessProfiles.ProfileManager.HandleDelete | src/components/Profile/BusinessProfile.tsx:120-142 | when confirmed, exactly the profiles with another id remain, in order, in the store and on screen; the current profile and form are cleared only when the deleted id was current |
| BusinessProfiles.ProfileManager.HandleSetCurrent | src/components/Profile/BusinessProfile.tsx:144-148 | the profile becomes current in the store and on screen and fills the form |
| EmailService.EmailConfig.constructor | src/utils/emailService.ts:7-11 | the three placeholders, which make the configuration valid |
| EmailService.EmailConfig.UpdateEmailConfiguration | src/utils/emailService.ts:85-97 | the three fields become the given ones, and the configuration is valid exactly when all three are non-empty |
| EmailService.NotesPart | src/utils/emailService.ts:75 | the notes paragraph appears exactly when the notes are non-empty |
| EmailService.MessageFrame | src/utils/emailService.ts:64-83 | the default message opens with `Dear <customer>,` and ends with the signature block of name, e-mail and phone |
| EmailService.BuildEmailData | src/utils/emailService.ts:37-48 | to/from come from the customer and the profile; the subject names the receipt and the business; the message is the custom one when non-empty, else the default |
| EmailService.SubjectShape | src/utils/emailService.ts:42 | the subject starts with `Receipt <number>` and ends with the business name |
| EmailService.SendReceiptEmail | src/utils/emailService.ts:26-62 | the request carries the configuration and the payload; the result is true exactly when the call answers status 200, false when it throws or answers otherwise |
| Strings.OrOpt | src/utils/storage.ts:117 | JavaScript `x \|\| d` on an optional string: `d` when absent or `''` |
| Strings.ReplaceFirst | src/utils/pdfGenerator.ts:96 | `replace('_', ' ')` replaces only the first underscore, and changes nothing when there is none |
| Strings.ZeroPadded | src/utils/receiptHelpers.ts:7-9 | `padStart(w, '0')` of a number below 10^w has length w and reads back as the number |

## Left out

- `localStorage`, `JSON.stringify`/`JSON.parse` and their failures are not modelled. The store is a map of typed values. The JSON round trip is taken as the identity, and a stored value of the wrong kind reads as absent.
- `convertDatesToObjects` (src/utils/storage.ts:11-43) is not modelled: it depends on a regular expression and on JavaScript `Date` parsing. Dates are millisecond timestamps throughout.
- `Invoice`, `InvoiceItem`, `saveInvoice` and `getInvoiceById` are used by the invoice editor but declared nowhere in the source. They are modelled by mirroring the receipt versions, with the fields the invoice editor builds. The storage key `receipt_invoices` is an assumption.
- `generateInvoicePDF` and both editors' `handleDownloadPDF` are not modelled. The first is imported but not defined in `pdfGenerator.ts`; the second only builds the same record as `handleSave` and calls the PDF export.
- Floating point is not modelled: amounts and rates are exact reals, and no cent-level rounding is claimed. `toFixed(2)`, `Intl.NumberFormat` and `date-fns` `format` are formatting parameters.
- html2canvas, jsPDF drawing, fonts, colours, text alignment, `splitTextToSize` and `pdf.save` are not modelled. They become entries of the draw log, so exceptions jsPDF could throw on the rasterised path are folded into the rasterisation-failure case. The fallback's own `catch`/`alert` is not modelled.
- GenerateReceiptPdf: requires a canvas of positive width. A zero-width canvas of positive height gives an infinite image height and the page loop never ends; a zero-height canvas is excluded with it (there `0/0` is NaN, the loop adds no page, and the source produces a one-page document).
- The fallback layout uses a 210 × 297 page. jsPDF reports 210.0016 × 297.0004, which does not change any comparison of the integer cursor. The centred and right-aligned columns are kept at their integer positions.
- PdfGenerator.PaymentLabel: the printed payment labels are not proved for each method. The page lemmas are stated for any printed label, so they hold whatever the label is.
- BusinessProfiles.BuildProfile, InvoiceCreator.InitialDraft: one clock reading `now` stands for the separate `new Date()` and `Date.now()` calls of the source (BusinessProfile.tsx:72-73, InvoiceCreator.tsx:38-39), so `createdAt == updatedAt` for a new profile and a due date exactly 30 days after the issue date hold in the model, but in the source only up to the milliseconds between the calls.
- `alert`, `window.confirm`, navigation, `isSaving` and the asynchronous `await` are not modelled. Confirmation is a parameter.
- React effects and batching are not modelled as such. Each handler applies its follow-on effect (the totals recomputation, the filter) at its end.
- `emailjs.init` and `emailjs.send` are not modelled. The guard `!emailjs.init` is never true, so `init` is never called; the send is an abstract result. The `attachmentUrl` parameter is unused in the source.
- Both EmailModal components, the template files, the Settings screen and the logo upload (`FileReader`) are not modelled: they are presentation or browser I/O.
- `toLowerCase` and `toUpperCase` are ASCII only.
- The search filter is modelled on JavaScript strings as sequences of characters; Unicode case mapping is not modelled.

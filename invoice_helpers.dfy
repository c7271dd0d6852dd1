/** The invoice helpers: the invoice-number formatter, the invoice totals
    engine and the invoice status badges. The totals engine is the
    receipt one over lines that carry a `rate` instead of a `price`. */
module InvoiceHelpers {
  import opened Types
  import opened Strings
  import ReceiptHelpers

  /** `generateInvoiceNumber`, with the date read and the random draw as parameters. */
  function GenerateInvoiceNumber(year: nat, month: nat, day: nat, random: real): string
    requires 0.0 <= random < 1.0
  {
    "INV" + "-" + ReceiptHelpers.DateStamp(year, month, day, random)
  }

  /** An invoice number and the receipt number drawn at the same moment with
      the same random value differ only in their three-letter prefix; with a
      four-digit year both are 16 characters long. */
  lemma InvoiceNumberShape(year: nat, month: nat, day: nat, random: real)
    requires 1000 <= year <= 9999 && month < 12 && 1 <= day <= 31 && 0.0 <= random < 1.0
    ensures var n := GenerateInvoiceNumber(year, month, day, random);
      && |n| == 16 && n[..4] == "INV-" && n[12] == '-'
      && n[3..] == ReceiptHelpers.GenerateReceiptNumber(year, month, day, random)[3..]
  {
    ReceiptHelpers.ReceiptNumberShape(year, month, day, random);
    SamePrefixLength("INV", "RCP", ReceiptHelpers.DateStamp(year, month, day, random));
  }

  /** Two tags of the same length in front of the same stamp give numbers
      of the same length that agree after the tag. */
  lemma SamePrefixLength(a: string, b: string, s: string)
    requires |a| == |b|
    ensures |a + "-" + s| == |b + "-" + s|
    ensures (a + "-" + s)[..|a| + 1] == a + "-"
    ensures (a + "-" + s)[|a|..] == (b + "-" + s)[|b|..] == "-" + s
    ensures forall i :: |a| <= i < |a + "-" + s| ==> (a + "-" + s)[i] == (b + "-" + s)[i]
  {
    assert (a + "-" + s)[..|a| + 1] == a + "-";
    assert (a + "-" + s)[|a|..] == "-" + s;
    assert (b + "-" + s)[|b|..] == "-" + s;
  }

  /** `items.reduce((sum, item) => sum + item.amount, 0)` over invoice lines. */
  function Subtotal(items: seq<InvoiceItem>): real
  {
    if items == [] then 0.0 else Subtotal(items[..|items| - 1]) + items[|items| - 1].amount
  }

  /** `calculateInvoiceTotals`. */
  function CalculateInvoiceTotals(items: seq<InvoiceItem>, taxRate: real, discountRate: real): (t: Totals)
    ensures t.subtotal == Subtotal(items)
  {
    var subtotal := Subtotal(items);
    var discountAmount := subtotal * (discountRate / 100.0);
    var taxableAmount := subtotal - discountAmount;
    var taxAmount := taxableAmount * (taxRate / 100.0);
    var total := subtotal - discountAmount + taxAmount;
    Totals(subtotal, taxAmount, discountAmount, total)
  }

  /** An invoice line read as a receipt line, `rate` standing for `price`. */
  function AsReceiptItem(x: InvoiceItem): ReceiptItem
  {
    ReceiptItem(x.id, x.description, x.quantity, x.rate, x.amount)
  }

  function AsReceiptItems(items: seq<InvoiceItem>): (r: seq<ReceiptItem>)
    ensures |r| == |items|
    ensures forall i :: 0 <= i < |items| ==> r[i] == AsReceiptItem(items[i])
  {
    seq(|items|, i requires 0 <= i < |items| => AsReceiptItem(items[i]))
  }

  /** The invoice subtotal is the receipt subtotal of the same amounts. */
  lemma {:induction false} SubtotalAgrees(items: seq<InvoiceItem>)
    ensures Subtotal(items) == ReceiptHelpers.Subtotal(AsReceiptItems(items))
  {
    if items != [] {
      var init := items[..|items| - 1];
      SubtotalAgrees(init);
      assert AsReceiptItems(items)[..|items| - 1] == AsReceiptItems(init);
    }
  }

  /** Invoices and receipts share one totals engine: every total of an
      invoice is the receipt total of the same lines and rates. */
  lemma TotalsAgree(items: seq<InvoiceItem>, taxRate: real, discountRate: real)
    ensures CalculateInvoiceTotals(items, taxRate, discountRate)
      == ReceiptHelpers.CalculateReceiptTotals(AsReceiptItems(items), taxRate, discountRate)
  {
    SubtotalAgrees(items);
  }

  /** So the invoice total is also discount first, then tax on the rest. */
  lemma InvoiceTotalIsDiscountThenTax(items: seq<InvoiceItem>, taxRate: real, discountRate: real)
    ensures var t := CalculateInvoiceTotals(items, taxRate, discountRate);
      t.total == t.subtotal * (100.0 - discountRate) * (100.0 + taxRate) / 10000.0
  {
    TotalsAgree(items, taxRate, discountRate);
    ReceiptHelpers.TotalIsDiscountThenTax(AsReceiptItems(items), taxRate, discountRate);
  }

  // ---------------------------------------------------------------------
  // Badge lookups

  const Gray := "bg-gray-100 text-gray-800"
  const DraftIcon := "\U{1F4DD}"

  /** `getStatusColor` for invoices: `draft` and the default branch share gray. */
  function GetStatusColor(status: string): string
  {
    if status == "draft" then Gray
    else if status == "sent" then "bg-blue-100 text-blue-800"
    else if status == "paid" then "bg-green-100 text-green-800"
    else if status == "overdue" then "bg-red-100 text-red-800"
    else Gray
  }

  /** `getStatusIcon` for invoices: `draft` and the default branch share the memo icon. */
  function GetStatusIcon(status: string): string
  {
    if status == "draft" then DraftIcon
    else if status == "sent" then "\U{1F4E7}"
    else if status == "paid" then "\U{2705}"
    else if status == "overdue" then "\U{26A0}\U{FE0F}"
    else DraftIcon
  }

  /** A status string gets the gray badge and the memo icon exactly when it
      is `draft` or names no invoice status; sent, paid and overdue each get
      a colour and an icon of their own. */
  lemma StatusLookupsTotal(status: string)
    ensures GetStatusColor(status) == Gray
      <==> forall s: InvoiceStatus :: s != Draft ==> status != InvoiceStatusName(s)
    ensures GetStatusIcon(status) == DraftIcon
      <==> forall s: InvoiceStatus :: s != Draft ==> status != InvoiceStatusName(s)
  {
    if forall s: InvoiceStatus :: s != Draft ==> status != InvoiceStatusName(s) {
      assert status != InvoiceStatusName(Sent) && status != InvoiceStatusName(Paid)
        && status != InvoiceStatusName(Overdue);
    } else {
      var s: InvoiceStatus :| s != Draft && status == InvoiceStatusName(s);
    }
  }

  lemma StatusLookupsDistinct(a: InvoiceStatus, b: InvoiceStatus)
    requires a != b
    ensures GetStatusColor(InvoiceStatusName(a)) != GetStatusColor(InvoiceStatusName(b))
    ensures GetStatusIcon(InvoiceStatusName(a)) != GetStatusIcon(InvoiceStatusName(b))
  {
  }
}

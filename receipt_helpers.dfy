/** The receipt helpers: the document-number formatter, the totals engine
    (subtotal, then discount, then tax on the discounted amount, then total)
    and the badge lookups for status and payment method. The clock and
    `Math.random()` are parameters of the number formatter. */
module ReceiptHelpers {
  import opened Types
  import opened Strings

  // ---------------------------------------------------------------------
  // Receipt number

  /** `Math.floor(random * 1000)` for `random` in [0, 1). */
  function RandomPart(random: real): (r: nat)
    requires 0.0 <= random < 1.0
    ensures r < 1000
    ensures r as real <= random * 1000.0 < r as real + 1.0
  {
    (random * 1000.0).Floor
  }

  /** The `YYYYMMDD-NNN` tail shared by receipt and invoice numbers, from the
      full year, the zero-based month (`getMonth()`), the day of the month
      and a `Math.random()` draw. */
  function DateStamp(year: nat, month: nat, day: nat, random: real): string
    requires 0.0 <= random < 1.0
  {
    NatToString(year) + PadStart(NatToString(month + 1), 2, '0') + PadStart(NatToString(day), 2, '0')
    + "-" + PadStart(NatToString(RandomPart(random)), 3, '0')
  }

  /** `generateReceiptNumber`, with the date read and the random draw as parameters. */
  function GenerateReceiptNumber(year: nat, month: nat, day: nat, random: real): string
    requires 0.0 <= random < 1.0
  {
    "RCP" + "-" + DateStamp(year, month, day, random)
  }

  /** For a year of four digits the stamp is 12 characters: eight date digits
      that read back as year, one-based month and day, a dash, then three
      digits that read back as the random part. */
  lemma DateStampFields(year: nat, month: nat, day: nat, random: real)
    requires 1000 <= year <= 9999 && month < 12 && 1 <= day <= 31 && 0.0 <= random < 1.0
    ensures var s := DateStamp(year, month, day, random);
      && |s| == 12 && s[8] == '-'
      && AllDigits(s[..4]) && DecimalValue(s[..4]) == year
      && AllDigits(s[4..6]) && DecimalValue(s[4..6]) == month + 1
      && AllDigits(s[6..8]) && DecimalValue(s[6..8]) == day
      && AllDigits(s[9..]) && DecimalValue(s[9..]) == RandomPart(random)
  {
    var y := NatToString(year);
    var m := PadStart(NatToString(month + 1), 2, '0');
    var d := PadStart(NatToString(day), 2, '0');
    var r := PadStart(NatToString(RandomPart(random)), 3, '0');
    assert Pow10(4) == 10000 && Pow10(3) == 1000 && Pow10(2) == 100;
    NatToStringLength(year, 4);
    NatToStringRoundTrip(year);
    ZeroPadded(month + 1, 2);
    ZeroPadded(day, 2);
    ZeroPadded(RandomPart(random), 3);
    StampLayout(y, m, d, r);
  }

  /** Where the four fields sit in `year + month + day + "-" + random`. */
  lemma StampLayout(y: string, m: string, d: string, r: string)
    requires |y| == 4 && |m| == 2 && |d| == 2 && |r| == 3
    ensures var s := y + m + d + "-" + r;
      && |s| == 12 && s[8] == '-' && s[..4] == y && s[4..6] == m && s[6..8] == d && s[9..] == r
  {
    var s := y + m + d + "-" + r;
    assert s[..4] == y && s[4..6] == m && s[6..8] == d && s[9..] == r;
  }

  /** The receipt number is `RCP-` followed by the date stamp; with a
      four-digit year it is 16 characters long. */
  lemma ReceiptNumberShape(year: nat, month: nat, day: nat, random: real)
    requires 1000 <= year <= 9999 && month < 12 && 1 <= day <= 31 && 0.0 <= random < 1.0
    ensures var n := GenerateReceiptNumber(year, month, day, random);
      && |n| == 16 && n[..4] == "RCP-" && n[12] == '-'
      && n[4..] == DateStamp(year, month, day, random)
  {
    DateStampFields(year, month, day, random);
    var s := DateStamp(year, month, day, random);
    var n := GenerateReceiptNumber(year, month, day, random);
    assert n == "RCP-" + s;
    assert n[4..] == s;
  }

  // ---------------------------------------------------------------------
  // Totals engine

  /** `items.reduce((sum, item) => sum + item.amount, 0)`, accumulated left to right. */
  function Subtotal(items: seq<ReceiptItem>): real
  {
    if items == [] then 0.0 else Subtotal(items[..|items| - 1]) + items[|items| - 1].amount
  }

  /** `calculateReceiptTotals`. */
  function CalculateReceiptTotals(items: seq<ReceiptItem>, taxRate: real, discountRate: real): (t: Totals)
    ensures t.subtotal == Subtotal(items)
  {
    var subtotal := Subtotal(items);
    var discountAmount := subtotal * (discountRate / 100.0);
    var taxableAmount := subtotal - discountAmount;
    var taxAmount := taxableAmount * (taxRate / 100.0);
    var total := subtotal - discountAmount + taxAmount;
    Totals(subtotal, taxAmount, discountAmount, total)
  }

  /** The subtotal of a list that ends in `x` is the subtotal of the rest plus `x.amount`. */
  lemma SubtotalAppend(items: seq<ReceiptItem>, x: ReceiptItem)
    ensures Subtotal(items + [x]) == Subtotal(items) + x.amount
  {
    assert (items + [x])[..|items|] == items;
  }

  /** The subtotal of a concatenation is the sum of the subtotals. */
  lemma {:induction false} SubtotalConcat(a: seq<ReceiptItem>, b: seq<ReceiptItem>)
    ensures Subtotal(a + b) == Subtotal(a) + Subtotal(b)
    decreases |b|
  {
    if b == [] {
      assert a + b == a;
    } else {
      var c := b[..|b| - 1];
      var x := b[|b| - 1];
      assert b == c + [x];
      assert a + b == (a + c) + [x];
      SubtotalAppend(a + c, x);
      SubtotalAppend(c, x);
      SubtotalConcat(a, c);
    }
  }

  /** The subtotal is the sum of every amount, the first one included. */
  lemma SubtotalCons(x: ReceiptItem, rest: seq<ReceiptItem>)
    ensures Subtotal([x] + rest) == x.amount + Subtotal(rest)
  {
    SubtotalConcat([x], rest);
    assert [x][..0] == [];
  }

  /** With no amount negative the subtotal is not negative either. */
  lemma {:induction false} SubtotalNonNegative(items: seq<ReceiptItem>)
    requires forall i :: 0 <= i < |items| ==> items[i].amount >= 0.0
    ensures Subtotal(items) >= 0.0
  {
    if items != [] {
      SubtotalNonNegative(items[..|items| - 1]);
    }
  }

  /** An empty item list gives four zero totals, whatever the rates. */
  lemma TotalsOfNoItems(taxRate: real, discountRate: real)
    ensures CalculateReceiptTotals([], taxRate, discountRate) == Totals(0.0, 0.0, 0.0, 0.0)
  {
  }

  /** The total is the subtotal scaled by the discount and then by the tax:
      tax is charged on the discounted amount, never on the raw subtotal. */
  lemma TotalIsDiscountThenTax(items: seq<ReceiptItem>, taxRate: real, discountRate: real)
    ensures var t := CalculateReceiptTotals(items, taxRate, discountRate);
      && t.discountAmount == t.subtotal * discountRate / 100.0
      && t.taxAmount == (t.subtotal - t.discountAmount) * taxRate / 100.0
      && t.total == t.subtotal - t.discountAmount + t.taxAmount
      && t.total == t.subtotal * (100.0 - discountRate) * (100.0 + taxRate) / 10000.0
  {
    var s := Subtotal(items);
    calc {
      s - s * (discountRate / 100.0) + (s - s * (discountRate / 100.0)) * (taxRate / 100.0);
      == s * (1.0 - discountRate / 100.0) * (1.0 + taxRate / 100.0);
      == s * (100.0 - discountRate) * (100.0 + taxRate) / 10000.0;
    }
  }

  /** The tax differs from tax on the gross subtotal whenever there is a
      subtotal, a discount and a tax rate. */
  lemma TaxIsNotOnGross(items: seq<ReceiptItem>, taxRate: real, discountRate: real)
    requires Subtotal(items) != 0.0 && taxRate != 0.0 && discountRate != 0.0
    ensures CalculateReceiptTotals(items, taxRate, discountRate).taxAmount
      != Subtotal(items) * taxRate / 100.0
  {
    var s := Subtotal(items);
    var t := CalculateReceiptTotals(items, taxRate, discountRate);
    assert t.taxAmount == s * taxRate / 100.0 - s * discountRate * taxRate / 10000.0;
    assert s * discountRate * taxRate != 0.0;
  }

  /** Non-negative amounts, a discount between 0 and 100 per cent and a
      non-negative tax rate give four non-negative totals, and the discount
      never exceeds the subtotal. */
  lemma TotalsNonNegative(items: seq<ReceiptItem>, taxRate: real, discountRate: real)
    requires forall i :: 0 <= i < |items| ==> items[i].amount >= 0.0
    requires 0.0 <= discountRate <= 100.0 && taxRate >= 0.0
    ensures var t := CalculateReceiptTotals(items, taxRate, discountRate);
      && t.subtotal >= 0.0 && t.discountAmount >= 0.0 && t.taxAmount >= 0.0 && t.total >= 0.0
      && t.discountAmount <= t.subtotal
  {
    SubtotalNonNegative(items);
    var s := Subtotal(items);
    var d := discountRate / 100.0;
    var r := taxRate / 100.0;
    assert 0.0 <= d <= 1.0 && r >= 0.0;
    MulBounds(s, d);
    MulBounds(s - s * d, r);
  }

  /** `a * b` is non-negative for non-negative factors, and at most `a` when `b <= 1`. */
  lemma MulBounds(a: real, b: real)
    requires a >= 0.0 && b >= 0.0
    ensures a * b >= 0.0
    ensures b <= 1.0 ==> a * b <= a
  {
  }

  /** Amounts summing to 100 with a 10% discount and 20% tax: discount 10,
      taxable 90, tax 18, total 108 (not 110). */
  lemma DiscountThenTaxExample(items: seq<ReceiptItem>)
    requires Subtotal(items) == 100.0
    ensures CalculateReceiptTotals(items, 20.0, 10.0) == Totals(100.0, 18.0, 10.0, 108.0)
  {
  }

  /** A single line of 3 at 10.00 with 10% tax and no discount: subtotal 30,
      tax 3, total 33. */
  lemma SingleItemExample(id: string, description: string)
    ensures CalculateReceiptTotals([ReceiptItem(id, description, 3.0, 10.0, 3.0 * 10.0)], 10.0, 0.0)
      == Totals(30.0, 3.0, 0.0, 33.0)
  {
    var items := [ReceiptItem(id, description, 3.0, 10.0, 3.0 * 10.0)];
    assert items[..0] == [];
    assert Subtotal(items) == 30.0;
  }

  // ---------------------------------------------------------------------
  // Badge lookups

  const DefaultStatusColor := "bg-gray-100 text-gray-800"
  const DefaultStatusIcon := "\U{1F4C4}"
  const DefaultPaymentIcon := "\U{1F4B0}"

  /** `getStatusColor`: a switch on the status string with a default branch. */
  function GetStatusColor(status: string): string
  {
    if status == "completed" then "bg-green-100 text-green-800"
    else if status == "refunded" then "bg-red-100 text-red-800"
    else if status == "partial_refund" then "bg-yellow-100 text-yellow-800"
    else DefaultStatusColor
  }

  /** `getStatusIcon`. */
  function GetStatusIcon(status: string): string
  {
    if status == "completed" then "\U{2705}"
    else if status == "refunded" then "\U{21A9}\U{FE0F}"
    else if status == "partial_refund" then "\U{26A0}\U{FE0F}"
    else DefaultStatusIcon
  }

  /** `getPaymentMethodIcon`; `other` has no case of its own and takes the default. */
  function GetPaymentMethodIcon(pm: string): string
  {
    if pm == "cash" then "\U{1F4B5}"
    else if pm == "card" then "\U{1F4B3}"
    else if pm == "bank_transfer" then "\U{1F3E6}"
    else if pm == "mobile_money" then "\U{1F4F1}"
    else if pm == "check" then "\U{1F4DD}"
    else DefaultPaymentIcon
  }

  /** Every status gets a colour and an icon of its own, distinct from the
      other statuses' and from the default; a string that names no status
      gets the default colour and icon. */
  lemma StatusLookupsTotal(status: string)
    ensures GetStatusColor(status) == DefaultStatusColor <==> forall s: ReceiptStatus :: status != StatusName(s)
    ensures GetStatusIcon(status) == DefaultStatusIcon <==> forall s: ReceiptStatus :: status != StatusName(s)
  {
    if forall s: ReceiptStatus :: status != StatusName(s) {
      assert status != StatusName(Completed) && status != StatusName(Refunded)
        && status != StatusName(PartialRefund);
    } else {
      var s: ReceiptStatus :| status == StatusName(s);
    }
  }

  lemma StatusLookupsDistinct(a: ReceiptStatus, b: ReceiptStatus)
    requires a != b
    ensures GetStatusColor(StatusName(a)) != GetStatusColor(StatusName(b))
    ensures GetStatusIcon(StatusName(a)) != GetStatusIcon(StatusName(b))
  {
  }

  /** The five payment methods with a case get an icon of their own; `other`
      and any unknown string share the default icon. */
  lemma PaymentIconTotal(pm: string)
    ensures GetPaymentMethodIcon(pm) == DefaultPaymentIcon
      <==> forall m: PaymentMethod :: m != OtherMethod ==> pm != PaymentMethodName(m)
  {
    if forall m: PaymentMethod :: m != OtherMethod ==> pm != PaymentMethodName(m) {
      assert pm != PaymentMethodName(Cash) && pm != PaymentMethodName(Card)
        && pm != PaymentMethodName(BankTransfer) && pm != PaymentMethodName(MobileMoney)
        && pm != PaymentMethodName(Check);
    } else {
      var m: PaymentMethod :| m != OtherMethod && pm == PaymentMethodName(m);
      assert "cash" != "card" by { assert "cash"[2] != "card"[2]; }
    }
  }

  lemma PaymentIconDistinct(a: PaymentMethod, b: PaymentMethod)
    requires a != b && a != OtherMethod && b != OtherMethod
    ensures GetPaymentMethodIcon(PaymentMethodName(a)) != GetPaymentMethodIcon(PaymentMethodName(b))
  {
    assert "cash" != "card" by { assert "cash"[2] != "card"[2]; }
  }
}

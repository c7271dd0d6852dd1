/** The PDF export. The jsPDF document is an append-only log of drawing
    operations. The primary path rasterises the receipt preview and lays
    the image over as many A4 pages as the `heightLeft` loop decides; the
    fallback path writes the receipt as text with a `yPosition` cursor that
    breaks to a new page inside the item loop. Rasterisation, date and
    number formatting and line splitting are parameters. */
module PdfGenerator {
  import opened Types
  import opened Strings
  import ById

  /** Width and height of an A4 page in millimetres. */
  const PageWidth := 210
  const PageHeight := 297
  /** The fallback layout breaks to a new page once the cursor is below this. */
  const BreakLine := PageHeight - 40
  /** Where the cursor starts, on the first page and after every break. */
  const TopMargin := 20

  /** One drawing call on the document. `NewPage` is `addPage()`. */
  datatype Op =
    | NewPage
    | Image(x: int, top: real, width: real, height: real)
    | Text(s: string, x: int, y: int)
    | TextBlock(lines: seq<string>, x: int, y: int)
    | Line(x1: int, y1: int, x2: int, y2: int)
    | Save(fileName: string)

  /** The formatting and measuring calls the layout makes into libraries:
      `format(date, 'MM/dd/yyyy')`, `toFixed(2)`, `toString()` and
      `splitTextToSize`. */
  datatype Formats = Formats(
    date: Timestamp -> string,
    fixed2: real -> string,
    number: real -> string,
    split: string -> seq<string>)

  /** What `html2canvas` produced: a canvas of some pixel size, or a failure. */
  datatype Raster = RasterFailed | Canvas(width: real, height: real)

  /** How a call of `generateReceiptPDF` ends: the missing-element error
      (thrown before any PDF work), the rasterised document, or the
      fallback text document. */
  datatype PdfOutcome = ElementNotFound | Rendered(ops: seq<Op>) | QuickFallback(ops: seq<Op>)

  /** The jsPDF document. */
  class PdfDoc {
    var ops: seq<Op>

    constructor()
      ensures ops == []
    {
      ops := [];
    }

    method AddPage()
      modifies this
      ensures ops == old(ops) + [NewPage]
    {
      ops := ops + [NewPage];
    }

    method AddImage(x: int, top: real, width: real, height: real)
      modifies this
      ensures ops == old(ops) + [Image(x, top, width, height)]
    {
      ops := ops + [Image(x, top, width, height)];
    }

    method DrawText(s: string, x: int, y: int)
      modifies this
      ensures ops == old(ops) + [Text(s, x, y)]
    {
      ops := ops + [Text(s, x, y)];
    }

    method DrawTextBlock(lines: seq<string>, x: int, y: int)
      modifies this
      ensures ops == old(ops) + [TextBlock(lines, x, y)]
    {
      ops := ops + [TextBlock(lines, x, y)];
    }

    method DrawLine(x1: int, y1: int, x2: int, y2: int)
      modifies this
      ensures ops == old(ops) + [Line(x1, y1, x2, y2)]
    {
      ops := ops + [Line(x1, y1, x2, y2)];
    }

    method SaveAs(fileName: string)
      modifies this
      ensures ops == old(ops) + [Save(fileName)]
    {
      ops := ops + [Save(fileName)];
    }
  }

  /** How many `addPage` calls a log holds. */
  function CountPages(ops: seq<Op>): nat
  {
    if ops == [] then 0 else (if ops[0].NewPage? then 1 else 0) + CountPages(ops[1..])
  }

  lemma {:induction false} CountPagesConcat(a: seq<Op>, b: seq<Op>)
    ensures CountPages(a + b) == CountPages(a) + CountPages(b)
  {
    if a != [] {
      assert (a + b)[0] == a[0];
      assert (a + b)[1..] == a[1..] + b;
      CountPagesConcat(a[1..], b);
    } else {
      assert a + b == b;
    }
  }

  lemma CountPagesOne(op: Op)
    ensures CountPages([op]) == if op.NewPage? then 1 else 0
  {
    assert [op][1..] == [];
  }

  /** The contents of the text calls at column `x`, in drawing order. */
  function ColumnTexts(ops: seq<Op>, x: int): seq<string>
  {
    if ops == [] then []
    else (if ops[0].Text? && ops[0].x == x then [ops[0].s] else []) + ColumnTexts(ops[1..], x)
  }

  lemma {:induction false} ColumnTextsConcat(a: seq<Op>, b: seq<Op>, x: int)
    ensures ColumnTexts(a + b, x) == ColumnTexts(a, x) + ColumnTexts(b, x)
  {
    if a != [] {
      assert (a + b)[0] == a[0];
      assert (a + b)[1..] == a[1..] + b;
      ColumnTextsConcat(a[1..], b, x);
    } else {
      assert a + b == b;
    }
  }

  lemma ColumnTextsOne(op: Op, x: int)
    ensures ColumnTexts([op], x) == if op.Text? && op.x == x then [op.s] else []
  {
    assert [op][1..] == [];
  }

  /** The file name both paths save under; `today` is `format(new Date(), 'yyyy-MM-dd')`. */
  function FileName(receiptNumber: string, today: string): (f: string)
  {
    "receipt-" + receiptNumber + "-" + today + ".pdf"
  }

  /** The file name starts with `receipt-`, ends with `.pdf`, and carries
      the receipt number and the day in between. */
  lemma FileNameParts(receiptNumber: string, today: string)
    ensures var f := FileName(receiptNumber, today);
      && |f| == |receiptNumber| + |today| + 13
      && f[..8] == "receipt-" && f[|f| - 4..] == ".pdf"
      && f[8..8 + |receiptNumber|] == receiptNumber
      && f[9 + |receiptNumber|..|f| - 4] == today
  {
    var f := FileName(receiptNumber, today);
    assert f == "receipt-" + receiptNumber + "-" + today + ".pdf";
  }

  // ---------------------------------------------------------------------
  // Primary path: the rasterised preview over A4 pages

  /** The image is drawn 210 mm wide and keeps the canvas's aspect ratio. */
  function ImageHeight(canvasWidth: real, canvasHeight: real): (h: real)
    requires canvasWidth > 0.0 && canvasHeight >= 0.0
    ensures h >= 0.0
    ensures h * canvasWidth == canvasHeight * PageWidth as real
  {
    (canvasHeight * PageWidth as real) / canvasWidth
  }

  /** The number of pages the `heightLeft` loop produces: one for the first
      image, then one more each time `heightLeft` is still at least zero. */
  function PageCount(imgHeight: real): (n: nat)
    requires imgHeight >= 0.0
    ensures n >= 1
  {
    1 + (imgHeight / PageHeight as real).Floor
  }

  /** The draw log of the first `n` pages: page `k` shows the whole image
      shifted up by `k` page heights. */
  function ImageLog(n: nat, imgHeight: real): seq<Op>
    requires n >= 1
  {
    if n == 1 then [Image(0, 0.0, PageWidth as real, imgHeight)]
    else ImageLog(n - 1, imgHeight) + [NewPage, Image(0, -((n - 1) * PageHeight) as real, PageWidth as real, imgHeight)]
  }

  /** `k` more pages follow the first exactly while `k` page heights still fit in the image. */
  lemma FloorStep(imgHeight: real, k: int)
    requires imgHeight >= 0.0
    ensures (k * PageHeight) as real <= imgHeight <==> k < PageCount(imgHeight)
  {
    var f := (imgHeight / PageHeight as real).Floor;
    assert f as real <= imgHeight / 297.0 < f as real + 1.0;
    if k <= f {
      assert (k as real) * 297.0 <= (f as real) * 297.0;
    } else {
      assert k as real >= f as real + 1.0;
    }
  }

  /** The log of `n` pages has one image per page, page `k` at offset
      `-k * 297`, separated by exactly `n - 1` new pages. */
  lemma {:induction false} ImageLogLayout(n: nat, imgHeight: real)
    requires n >= 1
    ensures |ImageLog(n, imgHeight)| == 2 * n - 1
    ensures CountPages(ImageLog(n, imgHeight)) == n - 1
    ensures forall k :: 0 <= k < n ==>
      ImageLog(n, imgHeight)[2 * k] == Image(0, -(k * PageHeight) as real, PageWidth as real, imgHeight)
    ensures forall k :: 0 < k < n ==> ImageLog(n, imgHeight)[2 * k - 1] == NewPage
  {
    if n > 1 {
      ImageLogLayout(n - 1, imgHeight);
      var prev := ImageLog(n - 1, imgHeight);
      var tail := [NewPage, Image(0, -((n - 1) * PageHeight) as real, PageWidth as real, imgHeight)];
      CountPagesConcat(prev, tail);
      CountPagesConcat([tail[0]], [tail[1]]);
      CountPagesOne(tail[0]);
      CountPagesOne(tail[1]);
      assert tail == [tail[0]] + [tail[1]];
    }
  }

  /** The pages reach past the bottom of the image, and the last page
      starts no lower than the image's bottom edge. */
  lemma PagesCoverImage(imgHeight: real)
    requires imgHeight >= 0.0
    ensures (PageCount(imgHeight) * PageHeight) as real > imgHeight
    ensures ((PageCount(imgHeight) - 1) * PageHeight) as real <= imgHeight
  {
    FloorStep(imgHeight, PageCount(imgHeight));
    FloorStep(imgHeight, PageCount(imgHeight) - 1);
  }

  /** The page count is the ceiling of height over page height, except that
      an image whose height is an exact multiple of the page height gets
      one extra, blank-tailed page: 297 gives two pages. */
  lemma PageCountVsCeiling(imgHeight: real, m: int)
    requires imgHeight >= 0.0
    ensures imgHeight == (m * PageHeight) as real ==> PageCount(imgHeight) == m + 1
    ensures ((m - 1) * PageHeight) as real < imgHeight && imgHeight < (m * PageHeight) as real
      ==> PageCount(imgHeight) == m
  {
    PagesCoverImage(imgHeight);
    var n := PageCount(imgHeight);
    if imgHeight == (m * PageHeight) as real {
      FloorStep(imgHeight, m);
      FloorStep(imgHeight, m + 1);
    }
    if ((m - 1) * PageHeight) as real < imgHeight && imgHeight < (m * PageHeight) as real {
      FloorStep(imgHeight, m);
      FloorStep(imgHeight, m - 1);
    }
  }

  /** The page-adding loop of `generateReceiptPDF`, after the first image. */
  method Paginate(pdf: PdfDoc, imgHeight: real)
    requires imgHeight >= 0.0
    modifies pdf
    ensures pdf.ops == old(pdf.ops) + ImageLog(PageCount(imgHeight), imgHeight)
  {
    var heightLeft := imgHeight;
    var position := 0.0;
    pdf.AddImage(0, position, PageWidth as real, imgHeight);
    heightLeft := heightLeft - PageHeight as real;
    ghost var k: nat := 1;
    FloorStep(imgHeight, 1);
    while heightLeft >= 0.0
      invariant 1 <= k <= PageCount(imgHeight)
      invariant heightLeft == imgHeight - (k * PageHeight) as real
      invariant pdf.ops == old(pdf.ops) + ImageLog(k, imgHeight)
      decreases PageCount(imgHeight) - k
    {
      FloorStep(imgHeight, k);
      position := heightLeft - imgHeight;
      pdf.AddPage();
      pdf.AddImage(0, position, PageWidth as real, imgHeight);
      heightLeft := heightLeft - PageHeight as real;
      k := k + 1;
    }
    FloorStep(imgHeight, k);
  }

  /** `generateReceiptPDF`. A missing element ends the call before any PDF
      work; a failed rasterisation falls back to the text layout. */
  method GenerateReceiptPdf(receipt: Receipt, elementFound: bool, raster: Raster, fmt: Formats, today: string)
    returns (out: PdfOutcome)
    requires raster.Canvas? ==> raster.width > 0.0 && raster.height >= 0.0
    ensures !elementFound <==> out.ElementNotFound?
    ensures elementFound && raster.RasterFailed? ==> out == QuickFallback(QuickLayout(receipt, fmt, today))
    ensures elementFound && raster.Canvas? ==>
      var h := ImageHeight(raster.width, raster.height);
      out == Rendered(ImageLog(PageCount(h), h) + [Save(FileName(receipt.receiptNumber, today))])
  {
    if !elementFound {
      return ElementNotFound;
    }
    match raster {
      case RasterFailed =>
        var ops := GenerateQuickPdf(receipt, fmt, today);
        out := QuickFallback(ops);
      case Canvas(width, height) =>
        var imgHeight := ImageHeight(width, height);
        var pdf := new PdfDoc();
        Paginate(pdf, imgHeight);
        pdf.SaveAs(FileName(receipt.receiptNumber, today));
        out := Rendered(pdf.ops);
    }
  }

  /** The rasterised document has at least one page, one image per page
      and a single save at the end. */
  lemma RenderedDocument(canvasWidth: real, canvasHeight: real, receiptNumber: string, today: string)
    requires canvasWidth > 0.0 && canvasHeight >= 0.0
    ensures var h := ImageHeight(canvasWidth, canvasHeight);
      var ops := ImageLog(PageCount(h), h) + [Save(FileName(receiptNumber, today))];
      && CountPages(ops) + 1 == PageCount(h)
      && ops[|ops| - 1] == Save(FileName(receiptNumber, today))
      && PageCount(h) == 1 + (canvasHeight * 210.0 / (canvasWidth * 297.0)).Floor
  {
    var h := ImageHeight(canvasWidth, canvasHeight);
    ImageLogLayout(PageCount(h), h);
    CountPagesConcat(ImageLog(PageCount(h), h), [Save(FileName(receiptNumber, today))]);
    assert h / 297.0 == canvasHeight * 210.0 / (canvasWidth * 297.0);
  }

  // ---------------------------------------------------------------------
  // Fallback path: the text layout of `generateQuickPDF`

  /** `paymentMethod.replace('_', ' ').toUpperCase()`. */
  function PaymentLabel(m: PaymentMethod): string
  {
    Printed(PaymentMethodName(m))
  }

  /** A stored name as the layout prints it: first underscore to a space, upper case. */
  function Printed(name: string): string
  {
    Upper(ReplaceFirst(name, '_', ' '))
  }

  /** `[...].filter(Boolean)` on strings: the empty ones are dropped. */
  function NonEmpty(lines: seq<string>): (r: seq<string>)
  {
    if lines == [] then []
    else (if lines[0] != "" then [lines[0]] else []) + NonEmpty(lines[1..])
  }

  /** Filtering keeps exactly the non-empty lines, in order, and drops at
      least nothing it should keep. */
  lemma {:induction false} NonEmptySpec(lines: seq<string>)
    ensures forall s :: s in NonEmpty(lines) <==> s in lines && s != ""
    ensures |NonEmpty(lines)| <= |lines|
    ensures (forall i :: 0 <= i < |lines| ==> lines[i] != "") ==> NonEmpty(lines) == lines
    ensures ById.IsSubsequence(NonEmpty(lines), lines)
  {
    if lines != [] {
      NonEmptySpec(lines[1..]);
      assert lines == [lines[0]] + lines[1..];
      if lines[0] == "" {
        assert NonEmpty(lines) == NonEmpty(lines[1..]);
        ById.SubsequenceDropHead(NonEmpty(lines[1..]), lines);
      } else {
        assert NonEmpty(lines) == [lines[0]] + NonEmpty(lines[1..]);
        assert NonEmpty(lines)[1..] == NonEmpty(lines[1..]);
      }
    }
  }

  /** The `From:` column: the profile's contact lines, the city line always present. */
  function FromLines(p: BusinessProfile): seq<string>
  {
    NonEmpty([p.name, p.email, p.phone, p.address, p.city + ", " + p.state + " " + p.zipCode, p.country])
  }

  /** The `To:` column; an absent phone or address is dropped like an empty one. */
  function ToLines(r: Receipt): seq<string>
  {
    NonEmpty([r.customerName, r.customerEmail, OrOpt(r.customerPhone, ""), OrOpt(r.customerAddress, "")])
  }

  /** `lines.forEach((line, index) => pdf.text(line, x, y + index * 5))`. */
  function LinesLog(lines: seq<string>, x: int, y: int): (ops: seq<Op>)
    ensures |ops| == |lines|
  {
    seq(|lines|, i requires 0 <= i < |lines| => Text(lines[i], x, y + 5 * i))
  }

  method WriteLines(pdf: PdfDoc, lines: seq<string>, x: int, y: int)
    modifies pdf
    ensures pdf.ops == old(pdf.ops) + LinesLog(lines, x, y)
  {
    var index := 0;
    while index < |lines|
      invariant 0 <= index <= |lines|
      invariant pdf.ops == old(pdf.ops) + LinesLog(lines[..index], x, y)
    {
      pdf.DrawText(lines[index], x, y + index * 5);
      assert LinesLog(lines[..index + 1], x, y) == LinesLog(lines[..index], x, y) + [Text(lines[index], x, y + index * 5)];
      index := index + 1;
    }
    assert lines[..index] == lines;
  }

  /** The title block, at fixed positions; `payment` is the printed payment method. */
  function HeaderLog(r: Receipt, fmt: Formats, payment: string): seq<Op>
  {
    [ Text("RECEIPT", PageWidth / 2, 20),
      Text("Receipt #: " + r.receiptNumber, 20, 35),
      Text("Date: " + fmt.date(r.transactionDate), PageWidth - 20, 35),
      Text("Payment: " + payment, PageWidth - 20, 45),
      Text("From:", 20, 65),
      Text("To:", PageWidth / 2 + 10, 65) ]
  }

  /** The cursor where the From/To lines begin. */
  const PartiesTop := 73

  function PartiesLog(r: Receipt): seq<Op>
  {
    LinesLog(FromLines(r.businessProfile), 20, PartiesTop) + LinesLog(ToLines(r), PageWidth / 2 + 10, PartiesTop)
  }

  function Max(a: int, b: int): int { if a >= b then a else b }

  /** The cursor after the From/To block: the longer column's lines plus 15. */
  function TableTop(r: Receipt): int
  {
    PartiesTop + Max(|FromLines(r.businessProfile)|, |ToLines(r)|) * 5 + 15
  }

  function TableHeaderLog(y: int): seq<Op>
  {
    [ Text("Description", 20, y), Text("Qty", PageWidth - 80, y),
      Text("Price", PageWidth - 60, y), Text("Amount", PageWidth - 20, y),
      Line(20, y + 5, PageWidth - 20, y + 5) ]
  }

  /** The four texts of one item row at cursor `y`. */
  function RowOps(item: ReceiptItem, currency: string, fmt: Formats, y: int): seq<Op>
  {
    [ Text(item.description, 20, y),
      Text(fmt.number(item.quantity), PageWidth - 80, y),
      Text(currency + " " + fmt.fixed2(item.price), PageWidth - 60, y),
      Text(currency + " " + fmt.fixed2(item.amount), PageWidth - 20, y) ]
  }

  /** The cursor after the page-break check. */
  function RowY(y: int): int
  {
    if y > BreakLine then TopMargin else y
  }

  /** One iteration of the item loop: a new page when the cursor is past
      the break line, then the row. */
  function ItemStep(item: ReceiptItem, currency: string, fmt: Formats, y: int): seq<Op>
  {
    (if y > BreakLine then [NewPage] else []) + RowOps(item, currency, fmt, RowY(y))
  }

  /** The item loop's draw log from cursor `y`. */
  function ItemsLog(items: seq<ReceiptItem>, currency: string, fmt: Formats, y: int): seq<Op>
  {
    if items == [] then []
    else ItemStep(items[0], currency, fmt, y) + ItemsLog(items[1..], currency, fmt, RowY(y) + 6)
  }

  /** The cursor after the item loop. */
  function ItemsEndY(items: seq<ReceiptItem>, y: int): int
  {
    if items == [] then y else ItemsEndY(items[1..], RowY(y) + 6)
  }

  /** Running the loop one item longer appends that item's step at the cursor the shorter run ended on. */
  lemma {:induction false} ItemsLogSnoc(items: seq<ReceiptItem>, x: ReceiptItem, currency: string, fmt: Formats, y: int)
    ensures ItemsLog(items + [x], currency, fmt, y)
      == ItemsLog(items, currency, fmt, y) + ItemStep(x, currency, fmt, ItemsEndY(items, y))
    ensures ItemsEndY(items + [x], y) == RowY(ItemsEndY(items, y)) + 6
  {
    if items != [] {
      assert (items + [x])[1..] == items[1..] + [x];
      ItemsLogSnoc(items[1..], x, currency, fmt, RowY(y) + 6);
    } else {
      assert ([x])[1..] == [];
    }
  }

  /** `receipt.items.forEach(...)` with its page-break check. */
  method WriteItems(pdf: PdfDoc, items: seq<ReceiptItem>, currency: string, fmt: Formats, y0: int)
    returns (y: int)
    modifies pdf
    ensures pdf.ops == old(pdf.ops) + ItemsLog(items, currency, fmt, y0)
    ensures y == ItemsEndY(items, y0)
  {
    y := y0;
    var i := 0;
    while i < |items|
      invariant 0 <= i <= |items|
      invariant pdf.ops == old(pdf.ops) + ItemsLog(items[..i], currency, fmt, y0)
      invariant y == ItemsEndY(items[..i], y0)
    {
      var item := items[i];
      ItemsLogSnoc(items[..i], item, currency, fmt, y0);
      assert items[..i + 1] == items[..i] + [item];
      y := WriteItem(pdf, item, currency, fmt, y);
      i := i + 1;
    }
    assert items[..i] == items;
  }

  /** One pass of the item loop's body. */
  method WriteItem(pdf: PdfDoc, item: ReceiptItem, currency: string, fmt: Formats, y0: int)
    returns (y: int)
    modifies pdf
    ensures pdf.ops == old(pdf.ops) + ItemStep(item, currency, fmt, y0)
    ensures y == RowY(y0) + 6
  {
    y := y0;
    if y > BreakLine {
      pdf.AddPage();
      y := TopMargin;
    }
    ghost var start := pdf.ops;
    pdf.DrawText(item.description, 20, y);
    pdf.DrawText(fmt.number(item.quantity), PageWidth - 80, y);
    pdf.DrawText(currency + " " + fmt.fixed2(item.price), PageWidth - 60, y);
    pdf.DrawText(currency + " " + fmt.fixed2(item.amount), PageWidth - 20, y);
    assert pdf.ops == start + RowOps(item, currency, fmt, y);
    y := y + 6;
  }

  /** Every item is written exactly once and in order: the description
      column of the item loop is the list of descriptions. */
  lemma {:induction false} ItemsInOrder(items: seq<ReceiptItem>, currency: string, fmt: Formats, y: int)
    ensures ColumnTexts(ItemsLog(items, currency, fmt, y), 20)
      == seq(|items|, i requires 0 <= i < |items| => items[i].description)
  {
    if items != [] {
      var step := ItemStep(items[0], currency, fmt, y);
      var rest := ItemsLog(items[1..], currency, fmt, RowY(y) + 6);
      ItemsInOrder(items[1..], currency, fmt, RowY(y) + 6);
      ColumnTextsConcat(step, rest, 20);
      var row := RowOps(items[0], currency, fmt, RowY(y));
      RowColumns(items[0], currency, fmt, RowY(y));
      ColumnTextsConcat(if y > BreakLine then [NewPage] else [], row, 20);
      ColumnTextsOne(NewPage, 20);
    }
  }

  /** A row writes the description, and nothing else, at column 20. */
  lemma RowColumns(item: ReceiptItem, currency: string, fmt: Formats, y: int)
    ensures ColumnTexts(RowOps(item, currency, fmt, y), 20) == [item.description]
  {
    var row := RowOps(item, currency, fmt, y);
    assert row == [row[0]] + row[1..];
    ColumnTextsConcat([row[0]], row[1..], 20);
    ColumnTextsOne(row[0], 20);
    NoColumnTexts(row[1..], 20);
  }

  /** A log with no text at column `x` contributes nothing to that column. */
  lemma {:induction false} NoColumnTexts(ops: seq<Op>, x: int)
    requires forall i :: 0 <= i < |ops| ==> !(ops[i].Text? && ops[i].x == x)
    ensures ColumnTexts(ops, x) == []
  {
    if ops != [] {
      NoColumnTexts(ops[1..], x);
    }
  }

  /** Every item row is written at or above the break line. */
  lemma {:induction false} ItemRowsAboveBreak(items: seq<ReceiptItem>, currency: string, fmt: Formats, y: int)
    ensures forall op :: op in ItemsLog(items, currency, fmt, y) && op.Text? ==> op.y <= BreakLine
  {
    if items != [] {
      ItemRowsAboveBreak(items[1..], currency, fmt, RowY(y) + 6);
    }
  }

  /** A fresh page holds 40 item rows: from a cursor `20 + 6 * j` with
      `j <= 40`, `n` items need `(j + n - 1) / 40` page breaks. */
  lemma {:induction false} ItemPageBreaks(items: seq<ReceiptItem>, currency: string, fmt: Formats, j: nat)
    requires j <= 40
    ensures CountPages(ItemsLog(items, currency, fmt, TopMargin + 6 * j))
      == if items == [] then 0 else (j + |items| - 1) / 40
  {
    if items != [] {
      var y := TopMargin + 6 * j;
      var step := ItemStep(items[0], currency, fmt, y);
      var next: nat := if j == 40 then 1 else j + 1;
      assert RowY(y) + 6 == TopMargin + 6 * next;
      CountPagesConcat(step, ItemsLog(items[1..], currency, fmt, TopMargin + 6 * next));
      StepPages(items[0], currency, fmt, y);
      ItemPageBreaks(items[1..], currency, fmt, next);
      BreakCount(j, |items|);
    }
  }

  /** The count of breaks after one more row: one now when the page is full, plus those of the rest. */
  lemma BreakCount(j: nat, n: nat)
    requires j <= 40 && n >= 1
    ensures (if j == 40 then 1 else 0) + (if n == 1 then 0 else ((if j == 40 then 1 else j + 1) + (n - 1) - 1) / 40)
      == (j + n - 1) / 40
  {
  }

  /** One pass of the item loop adds a page exactly when the cursor is past the break line. */
  lemma StepPages(item: ReceiptItem, currency: string, fmt: Formats, y: int)
    ensures CountPages(ItemStep(item, currency, fmt, y)) == if y > BreakLine then 1 else 0
  {
    var row := RowOps(item, currency, fmt, RowY(y));
    NoPagesIn(row);
    CountPagesConcat(if y > BreakLine then [NewPage] else [], row);
    CountPagesOne(NewPage);
  }

  function DiscountText(r: Receipt, fmt: Formats): string
  {
    "Discount: " + r.currency + " " + fmt.fixed2(r.discountAmount)
  }

  function TaxText(r: Receipt, fmt: Formats): string
  {
    "Tax: " + r.currency + " " + fmt.fixed2(r.taxAmount)
  }

  function TotalText(r: Receipt, fmt: Formats): string
  {
    "Total: " + r.currency + " " + fmt.fixed2(r.total)
  }

  /** The cursor of the `Total:` line, given the cursor after the item loop. */
  function TotalLineY(r: Receipt, y: int): int
  {
    y + 10 + 8 + 6 + (if r.discountAmount > 0.0 then 6 else 0) + (if r.taxAmount > 0.0 then 6 else 0)
  }

  /** The totals block, from the cursor after the item loop. */
  function TotalsLog(r: Receipt, fmt: Formats, y: int): seq<Op>
  {
    var yRule := y + 10;
    var ySub := yRule + 8;
    var yDisc := ySub + 6;
    var yTax := yDisc + (if r.discountAmount > 0.0 then 6 else 0);
    [Line(PageWidth - 100, yRule, PageWidth - 20, yRule),
     Text(SubtotalText(r, fmt), PageWidth - 100, ySub)]
    + (if r.discountAmount > 0.0 then [Text(DiscountText(r, fmt), PageWidth - 100, yDisc)] else [])
    + (if r.taxAmount > 0.0 then [Text(TaxText(r, fmt), PageWidth - 100, yTax)] else [])
    + [Text(TotalText(r, fmt), PageWidth - 100, TotalLineY(r, y))]
  }

  /** The notes block: only when the receipt has non-empty notes. */
  function NotesLog(r: Receipt, fmt: Formats, y: int): seq<Op>
  {
    if r.notes.Some? && r.notes.value != "" then
      [Text("Notes:", 20, y + 20), TextBlock(fmt.split(r.notes.value), 20, y + 26)]
    else []
  }

  /** Everything above the item rows: title block, From/To columns and table header. */
  function TopLog(r: Receipt, fmt: Formats, payment: string): seq<Op>
  {
    HeaderLog(r, fmt, payment) + PartiesLog(r) + TableHeaderLog(TableTop(r))
  }

  /** Everything after the item rows: totals, notes and the save. */
  function BottomLog(r: Receipt, fmt: Formats, today: string, itemsEnd: int): seq<Op>
  {
    TotalsLog(r, fmt, itemsEnd) + NotesLog(r, fmt, TotalLineY(r, itemsEnd))
    + [Save(FileName(r.receiptNumber, today))]
  }

  /** The item rows and everything after them, from the cursor where the rows begin. */
  function RestLog(r: Receipt, fmt: Formats, today: string, itemsTop: int): seq<Op>
  {
    ItemsLog(r.items, r.currency, fmt, itemsTop) + BottomLog(r, fmt, today, ItemsEndY(r.items, itemsTop))
  }

  /** The whole draw log of `generateQuickPDF`. */
  function QuickLayout(r: Receipt, fmt: Formats, today: string): seq<Op>
  {
    LayoutWith(r, fmt, today, PaymentLabel(r.paymentMethod))
  }

  /** The fallback document with the payment label it prints given. */
  function LayoutWith(r: Receipt, fmt: Formats, today: string, payment: string): seq<Op>
  {
    TopLog(r, fmt, payment) + RestLog(r, fmt, today, TableTop(r) + 13)
  }

  method WriteHeader(pdf: PdfDoc, r: Receipt, fmt: Formats, payment: string)
    modifies pdf
    ensures pdf.ops == old(pdf.ops) + HeaderLog(r, fmt, payment)
  {
    var log := HeaderLog(r, fmt, payment);
    var y := 20;
    pdf.DrawText("RECEIPT", PageWidth / 2, y);
    assert pdf.ops == old(pdf.ops) + log[..1];
    y := y + 15;
    pdf.DrawText("Receipt #: " + r.receiptNumber, 20, y);
    assert pdf.ops == old(pdf.ops) + log[..2];
    pdf.DrawText("Date: " + fmt.date(r.transactionDate), PageWidth - 20, y);
    assert pdf.ops == old(pdf.ops) + log[..3];
    y := y + 10;
    pdf.DrawText("Payment: " + payment, PageWidth - 20, y);
    assert pdf.ops == old(pdf.ops) + log[..4];
    y := y + 20;
    pdf.DrawText("From:", 20, y);
    assert pdf.ops == old(pdf.ops) + log[..5];
    pdf.DrawText("To:", PageWidth / 2 + 10, y);
    assert log[5] == Text("To:", PageWidth / 2 + 10, y);
    assert log == log[..5] + [log[5]];
  }

  method WriteTotals(pdf: PdfDoc, r: Receipt, fmt: Formats, y0: int) returns (y: int)
    modifies pdf
    ensures pdf.ops == old(pdf.ops) + TotalsLog(r, fmt, y0)
    ensures y == TotalLineY(r, y0)
  {
    y := y0 + 10;
    pdf.DrawLine(PageWidth - 100, y, PageWidth - 20, y);
    y := y + 8;
    var totalsX := PageWidth - 100;
    pdf.DrawText(SubtotalText(r, fmt), totalsX, y);
    y := y + 6;
    if r.discountAmount > 0.0 {
      pdf.DrawText(DiscountText(r, fmt), totalsX, y);
      y := y + 6;
    }
    if r.taxAmount > 0.0 {
      pdf.DrawText(TaxText(r, fmt), totalsX, y);
      y := y + 6;
    }
    pdf.DrawText(TotalText(r, fmt), totalsX, y);
  }

  method WriteNotes(pdf: PdfDoc, r: Receipt, fmt: Formats, y0: int)
    modifies pdf
    ensures pdf.ops == old(pdf.ops) + NotesLog(r, fmt, y0)
  {
    if r.notes.Some? && r.notes.value != "" {
      var y := y0 + 20;
      pdf.DrawText("Notes:", 20, y);
      y := y + 6;
      var noteLines := fmt.split(r.notes.value);
      pdf.DrawTextBlock(noteLines, 20, y);
    }
  }

  /** The part of `generateQuickPDF` above the item loop; returns the cursor where the rows begin. */
  method WriteTop(pdf: PdfDoc, r: Receipt, fmt: Formats, payment: string) returns (y: int)
    modifies pdf
    ensures pdf.ops == old(pdf.ops) + TopLog(r, fmt, payment)
    ensures y == TableTop(r) + 13
  {
    WriteHeader(pdf, r, fmt, payment);
    ghost var afterHeader := pdf.ops;
    y := WriteParties(pdf, r);
    ghost var afterParties := pdf.ops;
    y := WriteTableHeader(pdf, y);
    assert pdf.ops == afterParties + TableHeaderLog(TableTop(r));
  }

  /** The From and To columns; the cursor ends below the longer one. */
  method WriteParties(pdf: PdfDoc, r: Receipt) returns (y: int)
    modifies pdf
    ensures pdf.ops == old(pdf.ops) + PartiesLog(r)
    ensures y == TableTop(r)
  {
    y := PartiesTop;
    var fromLines := FromLines(r.businessProfile);
    WriteLines(pdf, fromLines, 20, y);
    var toLines := ToLines(r);
    WriteLines(pdf, toLines, PageWidth / 2 + 10, y);
    y := y + Max(|fromLines|, |toLines|) * 5 + 15;
  }

  /** The table header at cursor `y0`: four titles and a rule; the rows start 13 below. */
  method WriteTableHeader(pdf: PdfDoc, y0: int) returns (y: int)
    modifies pdf
    ensures pdf.ops == old(pdf.ops) + TableHeaderLog(y0)
    ensures y == y0 + 13
  {
    y := y0;
    pdf.DrawText("Description", 20, y);
    pdf.DrawText("Qty", PageWidth - 80, y);
    pdf.DrawText("Price", PageWidth - 60, y);
    pdf.DrawText("Amount", PageWidth - 20, y);
    y := y + 5;
    pdf.DrawLine(20, y, PageWidth - 20, y);
    y := y + 8;
  }

  /** The part of `generateQuickPDF` after the item loop. */
  method WriteBottom(pdf: PdfDoc, r: Receipt, fmt: Formats, today: string, y0: int)
    modifies pdf
    ensures pdf.ops == old(pdf.ops) + BottomLog(r, fmt, today, y0)
  {
    var y := WriteTotals(pdf, r, fmt, y0);
    ghost var afterTotals := pdf.ops;
    WriteNotes(pdf, r, fmt, y);
    ghost var afterNotes := pdf.ops;
    pdf.SaveAs(FileName(r.receiptNumber, today));
    assert afterNotes == old(pdf.ops) + TotalsLog(r, fmt, y0) + NotesLog(r, fmt, y);
  }

  /** The item loop and everything after it, from the cursor `y0` where the rows begin. */
  method WriteRest(pdf: PdfDoc, r: Receipt, fmt: Formats, today: string, y0: int)
    modifies pdf
    ensures pdf.ops == old(pdf.ops) + RestLog(r, fmt, today, y0)
  {
    var y := WriteItems(pdf, r.items, r.currency, fmt, y0);
    ghost var afterItems := pdf.ops;
    WriteBottom(pdf, r, fmt, today, y);
    assert pdf.ops == afterItems + BottomLog(r, fmt, today, ItemsEndY(r.items, y0));
  }

  /** The whole fallback document onto `pdf`, printing the given payment label. */
  method WriteLayout(pdf: PdfDoc, r: Receipt, fmt: Formats, today: string, payment: string)
    modifies pdf
    ensures pdf.ops == old(pdf.ops) + LayoutWith(r, fmt, today, payment)
  {
    var y := WriteTop(pdf, r, fmt, payment);
    ghost var afterTop := pdf.ops;
    WriteRest(pdf, r, fmt, today, y);
    assert pdf.ops == afterTop + RestLog(r, fmt, today, TableTop(r) + 13);
  }

  /** `generateQuickPDF`, returning the finished document's log. */
  method GenerateQuickPdf(r: Receipt, fmt: Formats, today: string) returns (ops: seq<Op>)
    ensures ops == QuickLayout(r, fmt, today)
  {
    var pdf := new PdfDoc();
    WriteLayout(pdf, r, fmt, today, PaymentLabel(r.paymentMethod));
    ops := pdf.ops;
  }

  function SubtotalText(r: Receipt, fmt: Formats): string
  {
    "Subtotal: " + r.currency + " " + fmt.fixed2(r.subtotal)
  }

  /** The column texts of a totals-shaped block: a rule, then the texts
      at `x`, the two middle ones optional. */
  lemma {:induction false} BlockColumn(x: int, yRule: int, sub: string, ys: int, dOn: bool, ds: string, yd: int,
                                       tOn: bool, ts: string, yt: int, tot: string, ytot: int)
    ensures ColumnTexts([Line(x, yRule, PageWidth - 20, yRule), Text(sub, x, ys)]
                        + (if dOn then [Text(ds, x, yd)] else [])
                        + (if tOn then [Text(ts, x, yt)] else [])
                        + [Text(tot, x, ytot)], x)
      == [sub] + (if dOn then [ds] else []) + (if tOn then [ts] else []) + [tot]
  {
    var a := [Line(x, yRule, PageWidth - 20, yRule), Text(sub, x, ys)];
    var d := if dOn then [Text(ds, x, yd)] else [];
    var tx := if tOn then [Text(ts, x, yt)] else [];
    var e := [Text(tot, x, ytot)];
    RuleThenText(x, yRule, sub, ys);
    OptionalText(dOn, ds, x, yd);
    OptionalText(tOn, ts, x, yt);
    ColumnTextsOne(e[0], x);
    ColumnTextsConcat(a, d, x);
    ColumnTextsConcat(a + d, tx, x);
    ColumnTextsConcat(a + d + tx, e, x);
  }

  lemma RuleThenText(x: int, yRule: int, sub: string, ys: int)
    ensures ColumnTexts([Line(x, yRule, PageWidth - 20, yRule), Text(sub, x, ys)], x) == [sub]
  {
    var a := [Line(x, yRule, PageWidth - 20, yRule), Text(sub, x, ys)];
    ColumnTextsConcat([a[0]], [a[1]], x);
    assert a == [a[0]] + [a[1]];
    ColumnTextsOne(a[0], x);
    ColumnTextsOne(a[1], x);
  }

  lemma OptionalText(on: bool, s: string, x: int, y: int)
    ensures ColumnTexts(if on then [Text(s, x, y)] else [], x) == if on then [s] else []
  {
    if on {
      ColumnTextsOne(Text(s, x, y), x);
    }
  }

  /** The texts of the totals column, top to bottom. */
  lemma TotalsColumn(r: Receipt, fmt: Formats, y: int)
    ensures ColumnTexts(TotalsLog(r, fmt, y), PageWidth - 100)
      == [SubtotalText(r, fmt)]
         + (if r.discountAmount > 0.0 then [DiscountText(r, fmt)] else [])
         + (if r.taxAmount > 0.0 then [TaxText(r, fmt)] else [])
         + [TotalText(r, fmt)]
  {
    var yDisc := y + 24;
    BlockColumn(PageWidth - 100, y + 10, SubtotalText(r, fmt), y + 18,
      r.discountAmount > 0.0, DiscountText(r, fmt), yDisc,
      r.taxAmount > 0.0, TaxText(r, fmt), yDisc + (if r.discountAmount > 0.0 then 6 else 0),
      TotalText(r, fmt), TotalLineY(r, y));
  }

  /** The discount line is drawn exactly when there is a discount, the tax
      line exactly when there is tax, and the total line always, last. */
  lemma TotalsLines(r: Receipt, fmt: Formats, y: int)
    ensures var t := TotalsLog(r, fmt, y);
      var c := ColumnTexts(t, PageWidth - 100);
      && (DiscountText(r, fmt) in c <==> r.discountAmount > 0.0)
      && (TaxText(r, fmt) in c <==> r.taxAmount > 0.0)
      && t[|t| - 1] == Text(TotalText(r, fmt), PageWidth - 100, TotalLineY(r, y))
  {
    TotalsColumn(r, fmt, y);
    var ds := DiscountText(r, fmt);
    var ts := TaxText(r, fmt);
    assert ds[0] == 'D' && ts[0] == 'T' && ts[1] == 'a' && TotalText(r, fmt)[1] == 'o';
    assert SubtotalText(r, fmt)[0] == 'S';
  }

  /** No page-break check happens outside the item loop: every page the
      fallback document adds comes from the item loop. */
  lemma OnlyItemsBreakPages(r: Receipt, fmt: Formats, today: string, payment: string)
    ensures CountPages(LayoutWith(r, fmt, today, payment))
      == CountPages(ItemsLog(r.items, r.currency, fmt, TableTop(r) + 13))
  {
    LayoutPages(r, fmt, today, payment, TableTop(r) + 13);
  }

  lemma LayoutPages(r: Receipt, fmt: Formats, today: string, payment: string, itemsTop: int)
    ensures CountPages(TopLog(r, fmt, payment) + RestLog(r, fmt, today, itemsTop))
      == CountPages(ItemsLog(r.items, r.currency, fmt, itemsTop))
  {
    var top := TopLog(r, fmt, payment);
    var items := ItemsLog(r.items, r.currency, fmt, itemsTop);
    var bottom := BottomLog(r, fmt, today, ItemsEndY(r.items, itemsTop));
    TopHasNoPages(r, fmt, payment);
    BottomHasNoPages(r, fmt, today, ItemsEndY(r.items, itemsTop));
    CountPagesConcat(items, bottom);
    CountPagesConcat(top, items + bottom);
  }

  lemma TopHasNoPages(r: Receipt, fmt: Formats, payment: string)
    ensures CountPages(TopLog(r, fmt, payment)) == 0
  {
    var a := HeaderLog(r, fmt, payment);
    var b := PartiesLog(r);
    var c := TableHeaderLog(TableTop(r));
    NoPagesIn(a);
    NoPagesIn(b);
    NoPagesIn(c);
    CountPagesConcat(a, b);
    CountPagesConcat(a + b, c);
  }

  lemma BottomHasNoPages(r: Receipt, fmt: Formats, today: string, y: int)
    ensures CountPages(BottomLog(r, fmt, today, y)) == 0
  {
    var a := TotalsLog(r, fmt, y);
    var b := NotesLog(r, fmt, TotalLineY(r, y));
    var c := [Save(FileName(r.receiptNumber, today))];
    NoPagesIn(a);
    NoPagesIn(b);
    NoPagesIn(c);
    CountPagesConcat(a, b);
    CountPagesConcat(a + b, c);
  }

  /** A log with no `addPage` call counts no pages. */
  lemma {:induction false} NoPagesIn(ops: seq<Op>)
    requires forall i :: 0 <= i < |ops| ==> !ops[i].NewPage?
    ensures CountPages(ops) == 0
  {
    if ops != [] {
      NoPagesIn(ops[1..]);
    }
  }

  /** The From/To lines sit above the table header, which begins 15 below
      the longer column's last line. */
  lemma PartiesAboveTable(r: Receipt)
    ensures forall op :: op in PartiesLog(r) ==> op.Text? && PartiesTop <= op.y <= TableTop(r) - 20
    ensures forall s :: s in FromLines(r.businessProfile) ==> s != ""
    ensures forall s :: s in ToLines(r) ==> s != ""
  {
    NonEmptySpec([r.businessProfile.name, r.businessProfile.email, r.businessProfile.phone,
      r.businessProfile.address,
      r.businessProfile.city + ", " + r.businessProfile.state + " " + r.businessProfile.zipCode,
      r.businessProfile.country]);
    NonEmptySpec([r.customerName, r.customerEmail, OrOpt(r.customerPhone, ""), OrOpt(r.customerAddress, "")]);
  }

}

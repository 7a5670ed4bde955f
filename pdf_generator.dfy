/**
 * `generateInvoicePDF`: the sales invoice. A header with the bill-to and
 * invoice blocks, one order table, the production block and the totals
 * under it, and a footer. The subtotal is the stored order price as it is,
 * not quantity times price. The PDF library is left out: the order
 * table's height is an input, and the document is the list of what is
 * drawn where.
 */
module PdfGenerator {
  import opened Common
  import opened Decimals
  import opened JsValues
  import opened InvoiceCommon

  /** `invoiceData.orderDetails`. */
  datatype OrderDetails = OrderDetails(customerName: Value, address: Value, mobileNumber: Value, email: Value,
                                       jobName: Value, quantity: Value, orderPrice: Value)

  /** `invoiceData.productionManagerDetails.production_details`. */
  datatype Production = Production(rollSize: Value, cylinderSize: Value, quantityKgs: Value)

  /**
   * The argument `invoiceData`; a missing part is None, and `production`
   * is None when either `productionManagerDetails` or its
   * `production_details` is missing.
   */
  datatype InvoiceData = InvoiceData(invoiceId: Value, orderId: Value, status: Value,
                                     order: Option<OrderDetails>, production: Option<Production>)

  /** What `?.` reads from a missing part: every field `undefined`. */
  const NoOrder := OrderDetails(Undefined, Undefined, Undefined, Undefined, Undefined, Undefined, Undefined)
  const NoProduction := Production(Undefined, Undefined, Undefined)

  function OrderOf(data: InvoiceData): OrderDetails { data.order.GetOr(NoOrder) }
  function ProductionOf(data: InvoiceData): Production { data.production.GetOr(NoProduction) }

  // ---------------------------------------------------------------- amounts

  /** `Number(orderPrice) || 0`: the stored price is the subtotal. */
  function Subtotal(data: InvoiceData): (r: Dec)
    ensures ToNumber(OrderOf(data).orderPrice).Some? ==> Val(r) == Val(ToNumber(OrderOf(data).orderPrice).value)
    ensures ToNumber(OrderOf(data).orderPrice).None? ==> r == Dec(0, 0)
  {
    NumberOrZero(OrderOf(data).orderPrice)
  }

  /** The quantity plays no part: two invoices with the same order price have the same totals. */
  lemma QuantityIgnored(a: InvoiceData, b: InvoiceData)
    requires OrderOf(a).orderPrice == OrderOf(b).orderPrice
    ensures TotalsOf(Subtotal(a)) == TotalsOf(Subtotal(b))
  {
    assert Subtotal(a) == Subtotal(b);
  }

  /** A stored price of 500 gives 500, 90 GST and 590 in all, whatever the quantity. */
  lemma PriceFiveHundred(data: InvoiceData)
    requires OrderOf(data).orderPrice == Num(Dec(500, 0))
    ensures Val(Subtotal(data)) == 500.0
    ensures Val(TotalsOf(Subtotal(data)).gst) == 90.0
    ensures Val(TotalsOf(Subtotal(data)).total) == 590.0
  {
    var s := Subtotal(data);
    assert s == Dec(500, 0) by {
      assert ToNumber(OrderOf(data).orderPrice) == Some(Dec(500, 0));
      assert !IsZero(Dec(500, 0));
    }
    assert Val(s) == 500.0 by {
      assert Pow10(0) == 1;
    }
  }

  /** A price that is missing, blank or not a number gives 0 throughout. */
  lemma MissingPriceIsZero(data: InvoiceData)
    requires var p := OrderOf(data).orderPrice; p.Undefined? || p.Null? || p.NaN? || (p.Str? && Text.AllSpace(p.s))
    ensures Subtotal(data) == Dec(0, 0)
    ensures Val(TotalsOf(Subtotal(data)).gst) == 0.0 && Val(TotalsOf(Subtotal(data)).total) == 0.0
  {
    MissingIsZero(OrderOf(data).orderPrice);
    assert IsZero(Dec(0, 0));
  }

  // ---------------------------------------------------------------- the document

  datatype Caption = CompanyName | CompanyAddress | CompanyEmail | CompanyPhone | InvoiceTitle | BillTo
                   | CustomerName | Address | Phone | Email | InvoiceNo | OrderNo | Date | Status
                   | ProductionHeading | RollSize | CylinderSize | QuantityKgs
                   | SubtotalLabel | GstLabel | TotalLabel | Amount | ThankYou | Terms

  function CaptionText(c: Caption): string {
    match c
    case CompanyName => "Company Name"
    case CompanyAddress => "Address: 123 Business Street, City"
    case CompanyEmail => "Email: info@company.com"
    case CompanyPhone => "Phone: +1-234-567-890"
    case InvoiceTitle => "INVOICE"
    case BillTo => "Bill To:"
    case CustomerName => "Customer Name: "
    case Address => "Address: "
    case Phone => "Phone: "
    case Email => "Email: "
    case InvoiceNo => "Invoice No: "
    case OrderNo => "Order No: "
    case Date => "Date: "
    case Status => "Status: "
    case ProductionHeading => "Production Details:"
    case RollSize => "Roll Size: "
    case CylinderSize => "Cylinder Size: "
    case QuantityKgs => "Quantity (Kgs): "
    case SubtotalLabel => "Subtotal:"
    case GstLabel => "GST (18%):"
    case TotalLabel => "Total:"
    case Amount => ""
    case ThankYou => "Thank you for your business!"
    case Terms => "Terms & Conditions Apply"
  }

  /** One line of a block of text: a caption followed by a value. */
  datatype Line = Line(caption: Caption, value: string)

  /** The logo, one line of text, a block of lines drawn from one point, and the rule under the header. */
  datatype Mark = Logo(y: int) | Text(x: Anchor, y: int, caption: Caption, value: string)
                | Lines(x: Anchor, y: int, lines: seq<Line>) | Rule(y: int)

  /** Where a mark starts down the page. */
  function Top(m: Mark): int {
    match m
    case Logo(y) => y
    case Text(_, y, _, _) => y
    case Lines(_, y, _) => y
    case Rule(y) => y
  }

  /** The `autoTable` call; its columns are `TableColumns`. */
  datatype Table = Table(startY: int, body: seq<seq<string>>)

  const TableColumns := ["Job Name", "Quantity", "Order Price"]

  datatype Invoice = Invoice(marks: seq<Mark>, table: Table, fileName: string)

  /** The bill-to block: customer name, address, phone and email, each or `N/A`. */
  function BillToLines(data: InvoiceData): (r: seq<Line>)
    ensures |r| == 4
    ensures r[0].caption == CustomerName && r[1].caption == Address && r[2].caption == Phone && r[3].caption == Email
    ensures forall i :: 0 <= i < 4 ==> r[i].value != ""
    ensures data.order.None? ==> forall i :: 0 <= i < 4 ==> r[i].value == "N/A"
  {
    var o := OrderOf(data);
    [Line(CustomerName, OrNA(o.customerName)), Line(Address, OrNA(o.address)),
     Line(Phone, OrNA(o.mobileNumber)), Line(Email, OrNA(o.email))]
  }

  /**
   * The invoice block: invoice number, order number and status or `N/A`,
   * and the date as the locale writes `createdAt`, with no fallback.
   */
  function InfoLines(data: InvoiceData, dateText: string): (r: seq<Line>)
    ensures |r| == 4
    ensures r[0].caption == InvoiceNo && r[1].caption == OrderNo && r[2].caption == Date && r[3].caption == Status
    ensures r[0].value != "" && r[1].value != "" && r[3].value != ""
    ensures r[2].value == dateText
    ensures !Truthy(data.invoiceId) ==> r[0].value == "N/A"
    ensures !Truthy(data.orderId) ==> r[1].value == "N/A"
    ensures !Truthy(data.status) ==> r[3].value == "N/A"
  {
    [Line(InvoiceNo, OrNA(data.invoiceId)), Line(OrderNo, OrNA(data.orderId)),
     Line(Date, dateText), Line(Status, OrNA(data.status))]
  }

  /** The production block: roll size, cylinder size and quantity in kg, each or `N/A`. */
  function ProductionLines(data: InvoiceData): (r: seq<Line>)
    ensures |r| == 3
    ensures r[0].caption == RollSize && r[1].caption == CylinderSize && r[2].caption == QuantityKgs
    ensures forall i :: 0 <= i < 3 ==> r[i].value != ""
    ensures data.production.None? ==> forall i :: 0 <= i < 3 ==> r[i].value == "N/A"
  {
    var p := ProductionOf(data);
    [Line(RollSize, OrNA(p.rollSize)), Line(CylinderSize, OrNA(p.cylinderSize)), Line(QuantityKgs, OrNA(p.quantityKgs))]
  }

  /** The order table's one row: job name, quantity and price as stored, each or `N/A`. */
  function OrderCells(data: InvoiceData): (r: seq<string>)
    ensures |r| == 3 && r[0] != "" && r[1] != "" && r[2] != ""
    ensures Truthy(OrderOf(data).quantity) ==> r[1] == Render(OrderOf(data).quantity)
    ensures !Truthy(OrderOf(data).quantity) ==> r[1] == "N/A"
    ensures Truthy(OrderOf(data).orderPrice) ==> r[2] == Render(OrderOf(data).orderPrice)
    ensures !Truthy(OrderOf(data).orderPrice) ==> r[2] == "N/A"
    ensures data.order.None? ==> r == ["N/A", "N/A", "N/A"]
  {
    var o := OrderOf(data);
    [OrNA(o.jobName), OrNA(o.quantity), OrNA(o.orderPrice)]
  }

  /** The header, top to bottom: logo and company block, the rule at 55, the title at 70, and the two blocks under `Bill To:` at 90. */
  function HeaderMarks(billTo: seq<Line>, info: seq<Line>): seq<Mark> {
    [Logo(20), Text(FromRight(80), 25, CompanyName, ""), Text(FromRight(80), 32, CompanyAddress, ""),
     Text(FromRight(80), 39, CompanyEmail, ""), Text(FromRight(80), 46, CompanyPhone, ""), Rule(55)]
    + [Text(Centered, 70, InvoiceTitle, "")]
    + [Text(FromLeft(MarginLeft), 90, BillTo, ""), Lines(FromLeft(MarginLeft), 100, billTo),
       Lines(FromRight(80), 100, info)]
  }

  /** The three totals from `y` down, 10 apart: each label, and its amount to two decimals on the same line. */
  function TotalsMarks(cells: seq<string>, y: int): seq<Mark>
    requires |cells| == 3
  {
    [Text(FromRight(80), y, SubtotalLabel, ""), Text(FromRight(40), y, Amount, cells[0]),
     Text(FromRight(80), y + 10, GstLabel, ""), Text(FromRight(40), y + 10, Amount, cells[1]),
     Text(FromRight(80), y + 20, TotalLabel, ""), Text(FromRight(40), y + 20, Amount, cells[2])]
  }

  /** Below the order table, which ends at `e`: the production block at `e + 10`, then the totals from `e + 30`. */
  function BodyMarks(production: seq<Line>, cells: seq<string>, e: int): seq<Mark>
    requires |cells| == 3
  {
    [Text(FromLeft(MarginLeft), e + 10, ProductionHeading, ""), Lines(FromLeft(MarginLeft), e + 20, production)]
    + TotalsMarks(cells, e + 30)
  }

  /** The footer, at fixed heights. */
  const FooterMarks := [Text(Centered, 260, ThankYou, ""), Text(Centered, 265, Terms, "")]

  /** `Invoice_<invoice_id>.pdf`, with `N/A` for a missing id; the order id plays no part. */
  function FileName(data: InvoiceData): (r: string)
    ensures Truthy(data.invoiceId) ==> r == "Invoice_" + Render(data.invoiceId) + ".pdf"
    ensures !Truthy(data.invoiceId) ==> r == "Invoice_N/A.pdf"
  {
    "Invoice_" + OrNA(data.invoiceId) + ".pdf"
  }

  /** The saved invoice for an order table `tableHeight` tall: the table at 120 and everything else around it. */
  predicate InvoiceOf(inv: Invoice, data: InvoiceData, tableHeight: nat, dateText: string) {
    Laid(inv, BillToLines(data), InfoLines(data, dateText), OrderCells(data), ProductionLines(data),
         TotalsCells(TotalsOf(Subtotal(data))), FileName(data), tableHeight)
  }

  /** The invoice drawn from its blocks: the header, the one-row order table at 120, the body under it and the footer. */
  predicate Laid(inv: Invoice, billTo: seq<Line>, info: seq<Line>, row: seq<string>, production: seq<Line>,
                 cells: seq<string>, fileName: string, tableHeight: nat)
  {
    && |cells| == 3
    && inv.marks == HeaderMarks(billTo, info) + BodyMarks(production, cells, 120 + tableHeight) + FooterMarks
    && inv.table == Table(120, [row])
    && inv.fileName == fileName
  }

  /** The header, drawn from `currentY = 20`; the order table goes at the returned height. */
  method DrawHeader(billTo: seq<Line>, info: seq<Line>) returns (marks: seq<Mark>, nextY: int)
    ensures marks == HeaderMarks(billTo, info)
    ensures nextY == 120
  {
    var currentY := 20;
    marks := [Logo(currentY), Text(FromRight(80), currentY + 5, CompanyName, ""),
              Text(FromRight(80), currentY + 12, CompanyAddress, ""),
              Text(FromRight(80), currentY + 19, CompanyEmail, ""),
              Text(FromRight(80), currentY + 26, CompanyPhone, ""), Rule(currentY + 35)];
    currentY := currentY + 50;
    marks := marks + [Text(Centered, currentY, InvoiceTitle, "")];
    currentY := currentY + 20;
    marks := marks + [Text(FromLeft(MarginLeft), currentY, BillTo, ""),
                      Lines(FromLeft(MarginLeft), currentY + 10, billTo),
                      Lines(FromRight(80), currentY + 10, info)];
    nextY := currentY + 30;
  }

  /** What follows the order table, drawn from `finalY = lastAutoTable.finalY + 10`. */
  method DrawBody(production: seq<Line>, cells: seq<string>, tableEnd: int) returns (marks: seq<Mark>)
    requires |cells| == 3
    ensures marks == BodyMarks(production, cells, tableEnd)
  {
    var finalY := tableEnd + 10;
    marks := [Text(FromLeft(MarginLeft), finalY, ProductionHeading, ""),
              Lines(FromLeft(MarginLeft), finalY + 10, production)];
    finalY := finalY + 20;
    marks := marks + [Text(FromRight(80), finalY, SubtotalLabel, ""), Text(FromRight(40), finalY, Amount, cells[0]),
                      Text(FromRight(80), finalY + 10, GstLabel, ""), Text(FromRight(40), finalY + 10, Amount, cells[1]),
                      Text(FromRight(80), finalY + 20, TotalLabel, ""), Text(FromRight(40), finalY + 20, Amount, cells[2])];
  }

  /**
   * `generateInvoicePDF(invoiceData)`, which returns true with the file
   * saved. `tableHeight` is `lastAutoTable.finalY - startY`; `dateText` is
   * what `toLocaleDateString` writes for `createdAt`.
   */
  method GenerateInvoicePdf(data: InvoiceData, tableHeight: nat, dateText: string) returns (inv: Invoice)
    ensures InvoiceOf(inv, data, tableHeight, dateText)
  {
    var subtotal := Subtotal(data);
    var totals := TotalsOf(subtotal);
    inv := Draw(BillToLines(data), InfoLines(data, dateText), OrderCells(data), ProductionLines(data),
                TotalsCells(totals), FileName(data), tableHeight);
  }

  /** The drawing itself, from the blocks already filled in. */
  method Draw(billTo: seq<Line>, info: seq<Line>, row: seq<string>, production: seq<Line>,
              cells: seq<string>, fileName: string, tableHeight: nat) returns (inv: Invoice)
    requires |cells| == 3
    ensures Laid(inv, billTo, info, row, production, cells, fileName, tableHeight)
  {
    var header, currentY := DrawHeader(billTo, info);
    var table := Table(currentY, [row]);
    var body := DrawBody(production, cells, currentY + tableHeight);
    inv := Invoice(header + body + FooterMarks, table, fileName);
  }

  /** Everything in the header is above the order table, and everything drawn after it is below its end. */
  lemma HeaderAboveBodyBelow(billTo: seq<Line>, info: seq<Line>, production: seq<Line>, cells: seq<string>, e: int)
    requires |cells| == 3 && e >= 120
    ensures forall i :: 0 <= i < |HeaderMarks(billTo, info)| ==> Top(HeaderMarks(billTo, info)[i]) < 120
    ensures forall i :: 0 <= i < |BodyMarks(production, cells, e)| ==> e < Top(BodyMarks(production, cells, e)[i]) <= e + 50
  {
    var h := HeaderMarks(billTo, info);
    forall i | 0 <= i < |h|
      ensures Top(h[i]) < 120
    {
      HeaderTop(billTo, info, i);
    }
    var b := BodyMarks(production, cells, e);
    forall i | 0 <= i < |b|
      ensures e < Top(b[i]) <= e + 50
    {
      BodyTop(production, cells, e, i);
    }
  }

  lemma HeaderTop(billTo: seq<Line>, info: seq<Line>, i: int)
    requires 0 <= i < |HeaderMarks(billTo, info)|
    ensures Top(HeaderMarks(billTo, info)[i]) <= 100
  {
  }

  lemma BodyTop(production: seq<Line>, cells: seq<string>, e: int, i: int)
    requires |cells| == 3 && 0 <= i < |BodyMarks(production, cells, e)|
    ensures e + 10 <= Top(BodyMarks(production, cells, e)[i]) <= e + 50
  {
  }

  /** Each amount is written on its label's line. */
  lemma TotalsLines(cells: seq<string>, y: int)
    requires |cells| == 3
    ensures |TotalsMarks(cells, y)| == 6
    ensures TotalsMarks(cells, y)[0].y == TotalsMarks(cells, y)[1].y == y
    ensures TotalsMarks(cells, y)[2].y == TotalsMarks(cells, y)[3].y == y + 10
    ensures TotalsMarks(cells, y)[4].y == TotalsMarks(cells, y)[5].y == y + 20
    ensures TotalsMarks(cells, y)[1].value == cells[0]
    ensures TotalsMarks(cells, y)[3].value == cells[1]
    ensures TotalsMarks(cells, y)[5].value == cells[2]
  {
  }
}

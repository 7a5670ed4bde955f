/**
 * `pdfFinishedProduct`: the invoice of a finished order. A header, six
 * tables stacked down the page (the order, the bag, the production, the
 * packages, the delivery and the totals), a footer and a file name. The
 * PDF library is left out: a table's height is an input, and the document
 * is the list of what is drawn where.
 */
module PdfFinishedProduct {
  import opened Common
  import opened Decimals
  import opened JsValues
  import opened InvoiceCommon

  /** `orderDetails.bagDetails`; `kind` is its `type` field. */
  datatype Bag = Bag(kind: Value, size: Value, color: Value, printColor: Value, gsm: Value)

  datatype OrderDetails = OrderDetails(customerName: Value, createdAt: Value, quantity: Value, orderPrice: Value,
                                       jobName: Value, bag: Option<Bag>)

  /** `productionManagerDetails.production_details`. */
  datatype Production = Production(rollSize: Value, cylinderSize: Value, quantityKgs: Value, remarks: Value, progress: Value)

  /** One entry of `packageDetails.package_details`. */
  datatype PackageSize = PackageSize(length: Value, width: Value, height: Value, weight: Value)

  datatype Delivery = Delivery(driverName: Value, driverContact: Value, vehicleNo: Value, deliveryDate: Value)

  /**
   * The argument `Details`. Each part is None when it is missing; when
   * either `productionManagerDetails` or its `production_details` is
   * missing, `production` is None, and likewise for `packages`. An entry
   * of `packages` that is None is a `null` in the array.
   */
  datatype Details = Details(orderId: Value, order: Option<OrderDetails>, production: Option<Production>,
                             packages: Option<seq<Option<PackageSize>>>, delivery: Option<Delivery>)

  /** What `?.` reads from a missing part: every field `undefined`. */
  const NoOrder := OrderDetails(Undefined, Undefined, Undefined, Undefined, Undefined, None)
  const NoBag := Bag(Undefined, Undefined, Undefined, Undefined, Undefined)
  const NoProduction := Production(Undefined, Undefined, Undefined, Undefined, Undefined)
  const NoDelivery := Delivery(Undefined, Undefined, Undefined, Undefined)

  function OrderOf(d: Details): OrderDetails { d.order.GetOr(NoOrder) }
  function BagOf(d: Details): Bag { OrderOf(d).bag.GetOr(NoBag) }
  function ProductionOf(d: Details): Production { d.production.GetOr(NoProduction) }
  function DeliveryOf(d: Details): Delivery { d.delivery.GetOr(NoDelivery) }

  // ---------------------------------------------------------------- amounts

  /** `Number(quantity) || 0`. */
  function Quantity(d: Details): Dec { NumberOrZero(OrderOf(d).quantity) }

  /** `Number(orderPrice) || 0`. */
  function Price(d: Details): Dec { NumberOrZero(OrderOf(d).orderPrice) }

  /** The subtotal is the quantity times the unit price; GST and total follow at 18%. */
  function Amounts(quantity: Dec, price: Dec): (r: Totals)
    ensures Val(r.subtotal) == Val(quantity) * Val(price)
    ensures Val(r.gst) == Val(r.subtotal) * 18.0 / 100.0
    ensures Val(r.total) == Val(r.subtotal) + Val(r.gst)
  {
    TotalsOf(Mul(quantity, price))
  }

  /** Ten pieces at 50 make 500, with 90 GST and 590 in all. */
  lemma TenAtFifty(d: Details)
    requires OrderOf(d).quantity == Num(Dec(10, 0)) && OrderOf(d).orderPrice == Num(Dec(50, 0))
    ensures Val(Amounts(Quantity(d), Price(d)).subtotal) == 500.0
    ensures Val(Amounts(Quantity(d), Price(d)).gst) == 90.0
    ensures Val(Amounts(Quantity(d), Price(d)).total) == 590.0
  {
    var q, p := Quantity(d), Price(d);
    assert q == FromInt(10) && p == FromInt(50);
    var t := Amounts(q, p);
    assert Val(t.subtotal) == 500.0;
  }

  /** A quantity that is missing, blank or not a number counts as 0: the cell shows `N/A` and every total is 0. */
  lemma MissingQuantityIsZero(d: Details)
    requires var q := OrderOf(d).quantity; q.Undefined? || q.Null? || q.NaN? || (q.Str? && Text.AllSpace(q.s))
    ensures Quantity(d) == Dec(0, 0)
    ensures OrderRow(OrderOf(d).jobName, Quantity(d), Price(d), Amounts(Quantity(d), Price(d)).subtotal)[1] == "N/A"
    ensures var t := Amounts(Quantity(d), Price(d)); Val(t.subtotal) == 0.0 && Val(t.gst) == 0.0 && Val(t.total) == 0.0
  {
    MissingIsZero(OrderOf(d).quantity);
    assert IsZero(Dec(0, 0));
    NoneAtAnyPrice(Price(d));
  }

  /** No pieces make nothing, whatever the price. */
  lemma NoneAtAnyPrice(price: Dec)
    ensures Val(Amounts(Dec(0, 0), price).subtotal) == 0.0
    ensures Val(Amounts(Dec(0, 0), price).gst) == 0.0
    ensures Val(Amounts(Dec(0, 0), price).total) == 0.0
  {
    var t := Amounts(Dec(0, 0), price);
    var v := Val(price);
    assert Val(Dec(0, 0)) == 0.0;
    assert Val(t.subtotal) == 0.0 * v;
    assert 0.0 * v == 0.0;
  }

  // ---------------------------------------------------------------- table rows

  /** The order table's one row: the job name, the quantity (`N/A` for 0), the unit price and the subtotal. */
  function OrderRow(jobName: Value, quantity: Dec, price: Dec, subtotal: Dec): (r: seq<string>)
    ensures |r| == 4 && r[0] != ""
    ensures IsZero(quantity) ==> r[1] == "N/A"
    ensures !IsZero(quantity) ==> r[1] == ToDisplay(quantity)
  {
    [OrNA(jobName), QuantityCell(quantity), ToFixed(price, 2), ToFixed(subtotal, 2)]
  }

  /** `quantity || 'N/A'` for the number the quantity field reads as. */
  function QuantityCell(quantity: Dec): (c: string)
    ensures IsZero(quantity) ==> c == "N/A"
    ensures !IsZero(quantity) ==> c == ToDisplay(quantity)
  {
    RenderOr(Num(quantity), "N/A")
  }

  /** The price and subtotal cells have exactly two decimals, and read back as the amounts rounded to cents. */
  lemma OrderRowCents(jobName: Value, quantity: Dec, price: Dec, subtotal: Dec)
    ensures HasDecimals(OrderRow(jobName, quantity, price, subtotal)[2], 2)
    ensures HasDecimals(OrderRow(jobName, quantity, price, subtotal)[3], 2)
    ensures ParseFloat(OrderRow(jobName, quantity, price, subtotal)[2]) == Some(Round(price, 2))
    ensures ParseFloat(OrderRow(jobName, quantity, price, subtotal)[3]) == Some(Round(subtotal, 2))
  {
    var r := OrderRow(jobName, quantity, price, subtotal);
    assert r[2] == ToFixed(price, 2) && r[3] == ToFixed(subtotal, 2);
    ToFixedShape(price, 2);
    ToFixedShape(subtotal, 2);
    assert EndsNumber("");
    ParseFloatToFixed(price, 2, "");
    EmptyAppend(r[2]);
    ParseFloatToFixed(subtotal, 2, "");
    EmptyAppend(r[3]);
  }

  /** The bag table's row: type, size, colour, print colour and GSM, each or `N/A`. */
  function BagRow(d: Details): (r: seq<string>)
    ensures |r| == 5 && forall i :: 0 <= i < 5 ==> r[i] != ""
    ensures OrderOf(d).bag.None? ==> r == ["N/A", "N/A", "N/A", "N/A", "N/A"]
  {
    var b := BagOf(d);
    [OrNA(b.kind), OrNA(b.size), OrNA(b.color), OrNA(b.printColor), OrNA(b.gsm)]
  }

  /** The production table's row: roll size, cylinder size, quantity in kg, remarks and progress, each or `N/A`. */
  function ProductionRow(d: Details): (r: seq<string>)
    ensures |r| == 5 && forall i :: 0 <= i < 5 ==> r[i] != ""
    ensures d.production.None? ==> r == ["N/A", "N/A", "N/A", "N/A", "N/A"]
  {
    var p := ProductionOf(d);
    [OrNA(p.rollSize), OrNA(p.cylinderSize), OrNA(p.quantityKgs), OrNA(p.remarks), OrNA(p.progress)]
  }

  /** `` [`${length}x${width}x${height} cm`, `${weight} kg`] ``: the sizes as they are, `undefined` included. */
  function PackageRow(p: PackageSize): (r: seq<string>)
    ensures |r| == 2
    ensures r[0] == Render(p.length) + "x" + Render(p.width) + "x" + Render(p.height) + " cm"
    ensures r[1] == Render(p.weight) + " kg"
  {
    [Render(p.length) + "x" + Render(p.width) + "x" + Render(p.height) + " cm", Render(p.weight) + " kg"]
  }

  /** `package_details.map(...)`: one row per entry in order, and a failure at a `null` entry. */
  function PackageRows(ps: seq<Option<PackageSize>>): (r: Option<seq<seq<string>>>)
    ensures r.None? <==> exists i :: 0 <= i < |ps| && ps[i].None?
    ensures r.Some? ==> |r.value| == |ps| && forall i :: 0 <= i < |ps| ==> r.value[i] == PackageRow(ps[i].value)
  {
    if ps == [] then Some([])
    else if ps[0].None? then None
    else match PackageRows(ps[1..])
      case None => None
      case Some(rest) => Some([PackageRow(ps[0].value)] + rest)
  }

  /** The package table's body: the rows, or the single row `N/A`, `N/A` when there is no list at all. */
  function PackageBody(d: Details): (r: Option<seq<seq<string>>>)
    ensures d.packages.None? ==> r == Some([["N/A", "N/A"]])
    ensures d.packages.Some? ==> r == PackageRows(d.packages.value)
  {
    match d.packages
    case None => Some([["N/A", "N/A"]])
    case Some(ps) => PackageRows(ps)
  }

  /** An empty list is not missing: it gives a table with no rows. */
  lemma NoPackagesNoRows(d: Details)
    requires d.packages == Some([])
    ensures PackageBody(d) == Some([])
  {
  }

  /** The delivery table's row: driver, contact and vehicle or `N/A`, and the date as the locale writes it, or `N/A`. */
  function DeliveryRow(d: Details, deliveryDateText: string): (r: seq<string>)
    ensures |r| == 4 && r[0] != "" && r[1] != "" && r[2] != ""
    ensures Truthy(DeliveryOf(d).deliveryDate) ==> r[3] == deliveryDateText
    ensures !Truthy(DeliveryOf(d).deliveryDate) ==> r[3] == "N/A"
  {
    var v := DeliveryOf(d);
    [OrNA(v.driverName), OrNA(v.driverContact), OrNA(v.vehicleNo),
     if Truthy(v.deliveryDate) then deliveryDateText else "N/A"]
  }

  // ---------------------------------------------------------------- the document

  datatype Caption = CompanyName | CompanyAddress | CompanyEmail | CompanyPhone | CustomerInformation
                   | CustomerName | OrderDate | ThankYou | Inquiries

  function CaptionText(c: Caption): string {
    match c
    case CompanyName => "Company Name"
    case CompanyAddress => "123 Business Street, City"
    case CompanyEmail => "Email: info@company.com"
    case CompanyPhone => "Phone: +1-234-567-890"
    case CustomerInformation => "Customer Information"
    case CustomerName => "Customer Name: "
    case OrderDate => "Order Date: "
    case ThankYou => "Thank you for your business!"
    case Inquiries => "For inquiries, contact: support@company.com"
  }

  /** What is drawn outside the tables: the logo, a caption followed by a value, and the rule under the header. */
  datatype Mark = Logo(y: int) | Text(x: Anchor, y: int, caption: Caption, value: string) | Rule(y: int)

  datatype Kind = OrderTable | BagTable | ProductionTable | PackageTable | DeliveryTable | TotalsTable

  function Head(k: Kind): seq<string> {
    match k
    case OrderTable => ["Description", "Quantity", "Unit Price", "Total Price"]
    case BagTable => ["Type", "Size", "Color", "Print Color", "GSM"]
    case ProductionTable => ["Roll Size", "Cylinder Size", "Quantity (Kgs)", "Remarks", "Progress"]
    case PackageTable => ["Package Size", "Weight"]
    case DeliveryTable => ["Driver", "Contact", "Vehicle No", "Delivery Date"]
    case TotalsTable => ["Subtotal", "GST (18%)", "Total"]
  }

  /** An `autoTable` call: its columns are `Head(kind)`. */
  datatype Table = Table(kind: Kind, startY: int, body: seq<seq<string>>)

  datatype Invoice = Invoice(marks: seq<Mark>, tables: seq<Table>, fileName: string)

  /** The call returns true with a saved file, or throws `'Failed to generate PDF'`. */
  datatype Outcome = Saved(invoice: Invoice) | Thrown(message: string)

  /** The header, top to bottom: the logo and the company block, the rule at 60, and the customer lines. */
  function HeaderMarks(d: Details, orderDateText: string): seq<Mark> {
    [Logo(20), Text(FromRight(90), 25, CompanyName, ""), Text(FromRight(90), 35, CompanyAddress, ""),
     Text(FromRight(90), 42, CompanyEmail, ""), Text(FromRight(90), 49, CompanyPhone, ""), Rule(60)]
    + [Text(FromLeft(MarginLeft), 70, CustomerInformation, "")]
    + [Text(FromLeft(MarginLeft), 78, CustomerName, OrNA(OrderOf(d).customerName)),
       Text(FromRight(80), 78, OrderDate, if Truthy(OrderOf(d).createdAt) then orderDateText else "N/A")]
  }

  /** The footer, at fixed heights near the bottom of the page. */
  const FooterMarks := [Text(Centered, 280, ThankYou, ""), Text(Centered, 285, Inquiries, "")]

  /** Each table starts 10 below where the one before it ended, the first at `first`. */
  predicate Stacked(ts: seq<Table>, first: int, heights: seq<nat>) {
    && |ts| == |heights|
    && (|ts| > 0 ==> ts[0].startY == first)
    && forall k :: 0 <= k < |ts| - 1 ==> ts[k + 1].startY == ts[k].startY + heights[k] + 10
  }

  /** Stacked tables go strictly down the page. */
  lemma {:induction false} StackedGoesDown(ts: seq<Table>, first: int, heights: seq<nat>, j: nat, k: nat)
    requires Stacked(ts, first, heights) && j < k < |ts|
    ensures ts[j].startY + heights[j] + 10 <= ts[k].startY
    decreases k - j
  {
    if j + 1 < k {
      StackedGoesDown(ts, first, heights, j + 1, k);
    }
  }

  /** Six tables in order. */
  function Six(t0: Table, t1: Table, t2: Table, t3: Table, t4: Table, t5: Table): (r: seq<Table>)
    ensures |r| == 6 && r[0] == t0 && r[1] == t1 && r[2] == t2 && r[3] == t3 && r[4] == t4 && r[5] == t5
  {
    [t0, t1, t2, t3, t4, t5]
  }

  /** Six tables, each placed 10 below where the one before it ended, are stacked. */
  lemma StackedSix(t0: Table, t1: Table, t2: Table, t3: Table, t4: Table, t5: Table, first: int, heights: seq<nat>)
    requires |heights| == 6 && t0.startY == first
    requires t1.startY == t0.startY + heights[0] + 10
    requires t2.startY == t1.startY + heights[1] + 10
    requires t3.startY == t2.startY + heights[2] + 10
    requires t4.startY == t3.startY + heights[3] + 10
    requires t5.startY == t4.startY + heights[4] + 10
    ensures Stacked(Six(t0, t1, t2, t3, t4, t5), first, heights)
  {
  }

  /** The file name: `Invoice_<order_id>.pdf`, with `N/A` for a missing id. */
  function FileName(d: Details): (r: string)
    ensures Truthy(d.orderId) ==> r == "Invoice_" + Render(d.orderId) + ".pdf"
    ensures !Truthy(d.orderId) ==> r == "Invoice_N/A.pdf"
  {
    "Invoice_" + OrNA(d.orderId) + ".pdf"
  }

  /** The six tables, with these rows in this order, stacked from `first`. */
  predicate TablesOf(ts: seq<Table>, d: Details, heights: seq<nat>, first: int, deliveryDateText: string)
    requires PackageBody(d).Some?
  {
    && |ts| == 6
    && ts[0].kind == OrderTable && ts[0].body == [OrderRow(OrderOf(d).jobName, Quantity(d), Price(d), Amounts(Quantity(d), Price(d)).subtotal)]
    && ts[1].kind == BagTable && ts[1].body == [BagRow(d)]
    && ts[2].kind == ProductionTable && ts[2].body == [ProductionRow(d)]
    && ts[3].kind == PackageTable && ts[3].body == PackageBody(d).value
    && ts[4].kind == DeliveryTable && ts[4].body == [DeliveryRow(d, deliveryDateText)]
    && ts[5].kind == TotalsTable && ts[5].body == [TotalsCells(Amounts(Quantity(d), Price(d)))]
    && Stacked(ts, first, heights)
  }

  /** A saved invoice: the header and footer, the six tables stacked from 93, and the file name. */
  predicate InvoiceOf(inv: Invoice, d: Details, heights: seq<nat>, orderDateText: string, deliveryDateText: string)
    requires PackageBody(d).Some?
  {
    && inv.marks == HeaderMarks(d, orderDateText) + FooterMarks
    && TablesOf(inv.tables, d, heights, 93, deliveryDateText)
    && inv.fileName == FileName(d)
  }

  /** The header: the company block from `currentY = 20`, then the customer lines; the first table goes at the returned height. */
  method DrawHeader(d: Details, orderDateText: string) returns (marks: seq<Mark>, nextY: int)
    ensures marks == HeaderMarks(d, orderDateText)
    ensures nextY == 93
  {
    var currentY := 20;
    marks := [Logo(currentY), Text(FromRight(90), currentY + 5, CompanyName, ""),
              Text(FromRight(90), currentY + 15, CompanyAddress, ""),
              Text(FromRight(90), currentY + 22, CompanyEmail, ""),
              Text(FromRight(90), currentY + 29, CompanyPhone, ""), Rule(currentY + 40)];
    currentY := currentY + 50;
    marks := marks + [Text(FromLeft(MarginLeft), currentY, CustomerInformation, "")];
    currentY := currentY + 8;
    var o := OrderOf(d);
    var dateText := if Truthy(o.createdAt) then orderDateText else "N/A";
    marks := marks + [Text(FromLeft(MarginLeft), currentY, CustomerName, OrNA(o.customerName)),
                      Text(FromRight(80), currentY, OrderDate, dateText)];
    nextY := currentY + 15;
  }

  /**
   * The six `autoTable` calls, each 10 below where the one before ended
   * (`heights[k]` is how far the `k`-th table reaches below its start);
   * None where building the package rows throws.
   */
  method DrawTables(d: Details, heights: seq<nat>, startY: int, deliveryDateText: string)
    returns (tables: Option<seq<Table>>)
    requires |heights| == 6
    ensures tables.None? <==> PackageBody(d).None?
    ensures tables.Some? ==> PackageBody(d).Some? && TablesOf(tables.value, d, heights, startY, deliveryDateText)
  {
    var o := OrderOf(d);
    var quantity := Quantity(d);
    var orderPrice := Price(d);
    var totals := Amounts(quantity, orderPrice);
    var orderTable := Table(OrderTable, startY, [OrderRow(o.jobName, quantity, orderPrice, totals.subtotal)]);
    var finalY := startY + heights[0] + 10;
    var bagTable := Table(BagTable, finalY, [BagRow(d)]);
    finalY := finalY + heights[1] + 10;
    var productionTable := Table(ProductionTable, finalY, [ProductionRow(d)]);
    finalY := finalY + heights[2] + 10;
    var packageData := PackageBody(d);
    if packageData.None? {
      return None;
    }
    var packageTable := Table(PackageTable, finalY, packageData.value);
    finalY := finalY + heights[3] + 10;
    var deliveryTable := Table(DeliveryTable, finalY, [DeliveryRow(d, deliveryDateText)]);
    finalY := finalY + heights[4] + 10;
    var totalsTable := Table(TotalsTable, finalY, [TotalsCells(totals)]);
    var ts := Six(orderTable, bagTable, productionTable, packageTable, deliveryTable, totalsTable);
    StackedSix(orderTable, bagTable, productionTable, packageTable, deliveryTable, totalsTable, startY, heights);
    tables := Some(ts);
  }

  /**
   * `pdfFinishedProduct(Details)`: the header, the tables, the footer and
   * the save; a throw inside is rethrown as `'Failed to generate PDF'`. The
   * two date texts are what the locale writes for `createdAt` and
   * `deliveryDate`.
   */
  method GenerateInvoice(d: Details, heights: seq<nat>, orderDateText: string, deliveryDateText: string)
    returns (outcome: Outcome)
    requires |heights| == 6
    ensures outcome.Thrown? <==> PackageBody(d).None?
    ensures outcome.Thrown? ==> outcome.message == "Failed to generate PDF"
    ensures outcome.Saved? ==> PackageBody(d).Some? && InvoiceOf(outcome.invoice, d, heights, orderDateText, deliveryDateText)
  {
    var marks, currentY := DrawHeader(d, orderDateText);
    var tables := DrawTables(d, heights, currentY, deliveryDateText);
    if tables.None? {
      return Thrown("Failed to generate PDF");
    }
    outcome := Saved(Invoice(marks + FooterMarks, tables.value, FileName(d)));
  }
}

/**
 * The packaging screen: the searchable order table, the per-order lists of
 * package drafts that are typed in before saving, the edit of a saved
 * package, and the package label. Package-service calls are returned as
 * requests, and their outcome is handed back to the screen.
 */
module PackagingManagement {
  import opened Common
  import opened Text
  import opened Decimals
  import opened JsValues

  /** The bag specification of an order; `kind` is its `type` field, the fabric. */
  datatype Bag = Bag(kind: Option<string>, color: Option<string>, gsm: Value)

  /** The sales order a packaging order carries, with the fields the table and the label show. */
  datatype SalesOrder = SalesOrder(orderId: Value, customerName: Option<string>, email: Option<string>,
                                   mobileNumber: Option<string>, address: Option<string>,
                                   jobName: Option<string>, orderPrice: Value, bagDetails: Option<Bag>)

  /** A row of the order table: the business key `order_id`, the embedded sales order and the status. */
  datatype PackagingOrder = PackagingOrder(orderId: string, order: Option<SalesOrder>, status: Option<string>)

  /** A package typed in before saving; every input starts empty. */
  datatype Draft = Draft(length: string, width: string, height: string, weight: string)

  const BlankDraft := Draft("", "", "", "")

  /** The four inputs of a package. */
  datatype Dimension = Length | Width | Height | Weight

  /** One saved entry of `package_details`: each input read by `parseFloat`, None standing for `NaN`. */
  datatype Measured = Measured(length: Option<Dec>, width: Option<Dec>, height: Option<Dec>, weight: Option<Dec>)

  /** A package record as the server sends it. */
  datatype Package = Package(id: Value, length: Value, width: Value, height: Value, weight: Value,
                             rollNo: Value, grossWeight: Value, netWeight: Value, gsm: Value)

  /** The edit dialog's four inputs, prefilled from the package being edited. */
  datatype Sizes = Sizes(length: Value, width: Value, height: Value, weight: Value)

  datatype Request =
    | AddPackages(orderId: string, details: seq<Measured>)
    | UpdatePackage(orderId: string, packageId: Value, package: Package)

  // ---------------------------------------------------------------- the order table

  /** The search box: the customer name or the order id contains the query, ignoring case. */
  predicate MatchesSearch(o: PackagingOrder, query: string) {
    || ContainsIgnoreCase(if o.order.Some? then OrText(o.order.value.customerName, "") else "", query)
    || ContainsIgnoreCase(o.orderId, query)
  }

  /** The status select: the empty choice keeps every order, any other keeps the orders with exactly that status. */
  predicate MatchesStatus(o: PackagingOrder, statusFilter: string) {
    statusFilter == "" || o.status == Some(statusFilter)
  }

  /** `filteredOrders`: the search filter, then the status filter. */
  function Filtered(os: seq<PackagingOrder>, query: string, statusFilter: string): (r: seq<PackagingOrder>)
    ensures |r| <= |os|
  {
    Filter(Filter(os, o => MatchesSearch(o, query)), o => MatchesStatus(o, statusFilter))
  }

  /** An order is listed exactly when it passes both filters, and the list keeps the table's order. */
  lemma FilteredMembers(os: seq<PackagingOrder>, query: string, statusFilter: string)
    ensures forall o :: o in Filtered(os, query, statusFilter) <==>
              o in os && MatchesSearch(o, query) && MatchesStatus(o, statusFilter)
    ensures IsSubsequence(Filtered(os, query, statusFilter), os)
  {
    var search, status := o => MatchesSearch(o, query), o => MatchesStatus(o, statusFilter);
    FilterMembers(os, search);
    FilterMembers(Filter(os, search), status);
    FilterSubsequence(os, search);
    FilterSubsequence(Filter(os, search), status);
    SubsequenceTrans(Filtered(os, query, statusFilter), Filter(os, search), os);
  }

  /** With an empty search box and no status chosen, every order is listed. */
  lemma NoFilterKeepsAll(os: seq<PackagingOrder>)
    ensures Filtered(os, "", "") == os
  {
    forall i | 0 <= i < |os| ensures MatchesSearch(os[i], "") {
      ContainsEmpty(ToLower(os[i].orderId));
    }
    FilterAll(os, o => MatchesSearch(o, ""));
    FilterAll(os, o => MatchesStatus(o, ""));
  }

  /** `orders.find(o => o.order_id === id)`: the first order with that id. */
  function FindOrder(os: seq<PackagingOrder>, id: string): (r: Option<PackagingOrder>)
    ensures r.Some? <==> exists i :: 0 <= i < |os| && os[i].orderId == id
    ensures r.Some? ==> r.value in os && r.value.orderId == id
  {
    match FindFirst(os, (o: PackagingOrder) => o.orderId == id)
    case None => None
    case Some(i) => Some(os[i])
  }

  // ---------------------------------------------------------------- drafts

  /** `packages[id] || []`: the drafts of an order, none when it has no list yet. */
  function DraftsOf(drafts: map<string, seq<Draft>>, id: string): (r: seq<Draft>)
    ensures id in drafts ==> r == drafts[id]
    ensures id !in drafts ==> r == []
  {
    if id in drafts then drafts[id] else []
  }

  /** The value a draft holds in one of its inputs. */
  function DimensionOf(d: Draft, f: Dimension): string {
    match f
    case Length => d.length
    case Width => d.width
    case Height => d.height
    case Weight => d.weight
  }

  /** `pkg[field] = value`: the draft with that one input changed. */
  function SetDimension(d: Draft, f: Dimension, value: string): (r: Draft)
    ensures DimensionOf(r, f) == value
    ensures forall g :: g != f ==> DimensionOf(r, g) == DimensionOf(d, g)
  {
    match f
    case Length => d.(length := value)
    case Width => d.(width := value)
    case Height => d.(height := value)
    case Weight => d.(weight := value)
  }

  /** Changing an input to the value it already holds changes nothing. */
  lemma SetDimensionSame(d: Draft, f: Dimension)
    ensures SetDimension(d, f, DimensionOf(d, f)) == d
  {
  }

  /** One entry of `package_details`: every input of the draft read by `parseFloat`. */
  function MeasureDraft(d: Draft): Measured {
    Measured(ParseFloat(d.length), ParseFloat(d.width), ParseFloat(d.height), ParseFloat(d.weight))
  }

  /** The `package_details` of a save: one entry per draft, in order. */
  function Measure(ds: seq<Draft>): (r: seq<Measured>)
    ensures |r| == |ds|
    ensures forall i :: 0 <= i < |ds| ==> r[i] == MeasureDraft(ds[i])
  {
    seq(|ds|, i requires 0 <= i < |ds| => MeasureDraft(ds[i]))
  }

  /** A blank draft is saved with every input `NaN`. */
  lemma BlankMeasuresNothing()
    ensures Measure([BlankDraft]) == [Measured(None, None, None, None)]
  {
    assert TrimStart("") == "";
  }

  // ---------------------------------------------------------------- saved packages

  /** `{...pkg, length, width, height, weight}`: the package with the dialog's four inputs. */
  function Edited(p: Package, s: Sizes): (r: Package)
    ensures r.id == p.id && r.rollNo == p.rollNo && r.grossWeight == p.grossWeight
    ensures r.netWeight == p.netWeight && r.gsm == p.gsm
    ensures r.length == s.length && r.width == s.width && r.height == s.height && r.weight == s.weight
  {
    p.(length := s.length, width := s.width, height := s.height, weight := s.weight)
  }

  /** `packages.map(pkg => pkg._id === id ? updated : pkg)`. */
  function ReplaceById(ps: seq<Package>, id: Value, updated: Package): (r: seq<Package>)
    ensures |r| == |ps|
    ensures forall i :: 0 <= i < |ps| ==> r[i] == if StrictEquals(ps[i].id, id) then updated else ps[i]
  {
    if ps == [] then []
    else [if StrictEquals(ps[0].id, id) then updated else ps[0]] + ReplaceById(ps[1..], id, updated)
  }

  /** No package has the id: nothing is replaced. A `NaN` id is such a case. */
  lemma ReplaceMissing(ps: seq<Package>, id: Value, updated: Package)
    requires forall i :: 0 <= i < |ps| ==> !StrictEquals(ps[i].id, id)
    ensures ReplaceById(ps, id, updated) == ps
  {
  }

  /** Replacing a second time with the same package changes nothing more. */
  lemma ReplaceTwice(ps: seq<Package>, id: Value, updated: Package)
    ensures ReplaceById(ReplaceById(ps, id, updated), id, updated) == ReplaceById(ps, id, updated)
  {
    var once := ReplaceById(ps, id, updated);
    var twice := ReplaceById(once, id, updated);
    assert forall i :: 0 <= i < |ps| ==> twice[i] == once[i];
  }

  // ---------------------------------------------------------------- the package list

  /** One record of the `packages` that `fetchPackagesByOrderId` answers with: its `_id` and its `package_details`. */
  datatype PackageRecord = PackageRecord(id: Value, details: seq<Package>)

  /** The body `fetchPackagesByOrderId` resolves to; `packages` is None when the body has no such field. */
  datatype PackagesResponse = PackagesResponse(packages: Option<seq<PackageRecord>>)

  /** An element of the record list: a fetched record, or the edited package the local `map` put in its place. */
  datatype Entry = Record(record: PackageRecord) | Detail(package: Package)

  function EntryId(e: Entry): Value {
    match e
    case Record(r) => r.id
    case Detail(p) => p.id
  }

  /**
   * What the state variable `packages` holds: the map of drafts keyed by
   * `order_id` (`{}` included), an array of fetched records, the whole
   * response object, or `undefined`.
   */
  datatype PackagesState =
    | DraftMap(drafts: map<string, seq<Draft>>)
    | RecordList(entries: seq<Entry>)
    | Response(response: PackagesResponse)
    | Missing

  /** The drafts `packages[order_id]` finds: none unless the state is the draft map. */
  function DraftsIn(s: PackagesState): map<string, seq<Draft>> {
    if s.DraftMap? then s.drafts else map[]
  }

  /**
   * The rows of the package-list dialog: `packages.length > 0 ?
   * packages[0].package_details.map(...) : "No packages found"`. An object
   * has no `length`, so it lists nothing; None stands for the render
   * throwing, on `undefined.length` or on a first entry without
   * `package_details`.
   */
  function ListedRows(s: PackagesState): (r: Option<seq<Package>>)
    ensures s.DraftMap? || s.Response? ==> r == Some([])
    ensures s.RecordList? && |s.entries| == 0 ==> r == Some([])
    ensures s.RecordList? && |s.entries| > 0 && s.entries[0].Record? ==> r == Some(s.entries[0].record.details)
    ensures r.None? <==> s.Missing? || (s.RecordList? && |s.entries| > 0 && s.entries[0].Detail?)
  {
    match s
    case DraftMap(_) => Some([])
    case Response(_) => Some([])
    case Missing => None
    case RecordList(es) =>
      if |es| == 0 then Some([])
      else if es[0].Record? then Some(es[0].record.details)
      else None
  }

  /** The fetched records as the list stores them. */
  function Records(rs: seq<PackageRecord>): (r: seq<Entry>)
    ensures |r| == |rs| && forall i :: 0 <= i < |rs| ==> r[i] == Record(rs[i])
  {
    if rs == [] then [] else [Record(rs[0])] + Records(rs[1..])
  }

  /** What `const { packages } = response; setPackages(packages)` stores. */
  function Destructured(r: PackagesResponse): PackagesState {
    match r.packages
    case None => Missing
    case Some(rs) => RecordList(Records(rs))
  }

  /** `packages.map(pkg => pkg._id === id ? updated : pkg)` on the record list. */
  function MapById(es: seq<Entry>, id: Value, updated: Package): (r: seq<Entry>)
    ensures |r| == |es|
    ensures forall i :: 0 <= i < |es| ==> r[i] == if StrictEquals(EntryId(es[i]), id) then Detail(updated) else es[i]
  {
    if es == [] then []
    else [if StrictEquals(EntryId(es[0]), id) then Detail(updated) else es[0]] + MapById(es[1..], id, updated)
  }

  /**
   * As written, the local update of `handleUpdatePackage` compares the
   * records' `_id`s with the `_id` of a listed detail entry: when no record
   * shares it, the list is left as it was and still shows the old sizes.
   */
  lemma LocalUpdateMissesDetail(es: seq<Entry>, p: Package, updated: Package)
    requires forall i :: 0 <= i < |es| ==> !StrictEquals(EntryId(es[i]), p.id)
    ensures MapById(es, p.id, updated) == es
    ensures ListedRows(RecordList(MapById(es, p.id, updated))) == ListedRows(RecordList(es))
  {
    var r := MapById(es, p.id, updated);
    assert forall i :: 0 <= i < |es| ==> r[i] == es[i];
  }

  /**
   * As written, the refresh after an update stores the whole response
   * (`setPackages(fetchedPackages || [])`): whatever the server answers,
   * the dialog then lists no package.
   */
  lemma RefreshShowsNothing(fetched: Option<PackagesResponse>)
    ensures ListedRows(if fetched.Some? then Response(fetched.value) else RecordList([])) == Some([])
  {
  }

  /** The intended refresh, as the view and the create paths do it: `const { packages } = ...; setPackages(packages || [])`. */
  function IntendedRefresh(r: PackagesResponse): PackagesState {
    RecordList(Records(r.packages.GetOr([])))
  }

  /** After the intended refresh the dialog lists the first record's `package_details`, or nothing. */
  lemma IntendedRefreshLists(r: PackagesResponse)
    ensures r.packages.Some? && |r.packages.value| > 0 ==>
              ListedRows(IntendedRefresh(r)) == Some(r.packages.value[0].details)
    ensures r.packages.None? || |r.packages.value| == 0 ==> ListedRows(IntendedRefresh(r)) == Some([])
  {
  }

  /** The intended local update: the edited package replaces the listed entries with its `_id` inside the first record. */
  function IntendedUpdate(es: seq<Entry>, id: Value, updated: Package): (r: seq<Entry>)
    ensures |r| == |es|
    ensures |es| > 0 && es[0].Record? ==>
              r[0] == Record(es[0].record.(details := ReplaceById(es[0].record.details, id, updated))) && r[1..] == es[1..]
    ensures |es| == 0 || es[0].Detail? ==> r == es
  {
    if |es| > 0 && es[0].Record? then
      [Record(es[0].record.(details := ReplaceById(es[0].record.details, id, updated)))] + es[1..]
    else es
  }

  /** With the intended local update, the edited entry is listed with its new sizes and every other entry stays. */
  lemma IntendedUpdateLists(es: seq<Entry>, id: Value, updated: Package, i: nat)
    requires |es| > 0 && es[0].Record? && i < |es[0].record.details|
    ensures ListedRows(RecordList(IntendedUpdate(es, id, updated))).Some?
    ensures |ListedRows(RecordList(IntendedUpdate(es, id, updated))).value| == |es[0].record.details|
    ensures ListedRows(RecordList(IntendedUpdate(es, id, updated))).value[i] ==
              if StrictEquals(es[0].record.details[i].id, id) then updated else es[0].record.details[i]
  {
  }

  // ---------------------------------------------------------------- the label

  /** Where a text starts across the page: the left margin, the middle or the company block on the right. */
  datatype Column = Left | Middle | Right

  /** The fixed text at the start of each line of the label. */
  datatype Caption =
    | CompanyName | CompanyAddress | CompanyEmail | CompanyPhone
    | OrderIdCaption | CustomerCaption | EmailCaption | MobileCaption | AddressCaption | JobNameCaption
    | OrderPriceCaption
    | FabricCaption | ColorCaption | UnitCaption | CustomerCodeCaption | RollsCaption
    | GsmCaption | WidthCaption | LengthCaption | GrossWeightCaption | NetWeightCaption

  function CaptionText(c: Caption): string {
    match c
    case CompanyName => "Company Name"
    case CompanyAddress => "Address: 123 Business Street, City"
    case CompanyEmail => "GSM Email: info@company.com"
    case CompanyPhone => "Phone: +1-234-567-890"
    case OrderIdCaption => "Order ID    : "
    case CustomerCaption => "Customer   : "
    case EmailCaption => "Email      : "
    case MobileCaption => "Mobile     : "
    case AddressCaption => "Address    : "
    case JobNameCaption => "Job Name   : "
    case OrderPriceCaption => "Order Price: "
    case FabricCaption => "TYPE OF FABRIC : "
    case ColorCaption => "COLOR       : "
    case UnitCaption => "UNIT No.    : "
    case CustomerCodeCaption => "CUST. Code  : "
    case RollsCaption => "Rolls In bundle : "
    case GsmCaption => "GSM         : "
    case WidthCaption => "WIDTH       : "
    case LengthCaption => "LENGTH      : "
    case GrossWeightCaption => "GROSS WT.   : "
    case NetWeightCaption => "NET WT.     : "
  }

  /** What the label draws, each at its height `y`; a text is its caption followed by a value. */
  datatype Mark = Text(column: Column, y: int, caption: Caption, value: string) | Separator(y: int) | BarcodeImage(y: int)

  /** The string a mark writes. */
  function MarkText(m: Mark): string {
    if m.Text? then CaptionText(m.caption) + m.value else ""
  }

  /** The label PDF: the logo's height when it loaded, the marks in drawing order, the barcode's text and the file name. */
  datatype Label = Label(logoAt: Option<int>, marks: seq<Mark>, barcodeText: string, fileName: string)

  /** The outcome of `generatePackageLabel`: refused with its toast, a failure while drawing (no file, no toast), or a saved label with its toast. */
  datatype LabelResult = Invalid(notice: Notice) | Broken | Saved(document: Label, notice: Notice)

  const InvalidLabelMessage := "Invalid package or sales order data"
  const LabelSavedMessage := "Package label downloaded successfully"

  const TopMargin := 10
  const LineHeight := 12

  /** The order lines and the price line, in drawing order. */
  const OrderCaptions := [OrderIdCaption, CustomerCaption, EmailCaption, MobileCaption, AddressCaption,
                          JobNameCaption, OrderPriceCaption]

  const FabricCaptions := [FabricCaption, ColorCaption, UnitCaption, CustomerCodeCaption, RollsCaption]

  const SizeCaptions := [GsmCaption, WidthCaption, LengthCaption, GrossWeightCaption, NetWeightCaption]

  /** The values after the order captions: each field, or `N/A` when it is missing or empty. */
  function OrderValues(o: SalesOrder): (r: seq<string>)
    ensures |r| == 7
    ensures forall i :: 0 <= i < 7 ==> r[i] != ""
    ensures r[0] == OrNA(o.orderId) && r[6] == OrNA(o.orderPrice)
    ensures r[1] == OrText(o.customerName, "N/A") && r[5] == OrText(o.jobName, "N/A")
  {
    [OrNA(o.orderId), OrText(o.customerName, "N/A"), OrText(o.email, "N/A"), OrText(o.mobileNumber, "N/A"),
     OrText(o.address, "N/A"), OrText(o.jobName, "N/A"), OrNA(o.orderPrice)]
  }

  /** The left column of the fabric block: the bag's type and colour, then three fixed values. */
  function FabricValues(o: SalesOrder): (r: seq<string>)
    ensures |r| == 5 && r[2] == "1" && r[3] == "SW350" && r[4] == "1"
    ensures o.bagDetails.None? ==> r[0] == "N/A" && r[1] == "N/A"
  {
    var bag := o.bagDetails;
    [if bag.Some? then OrText(bag.value.kind, "N/A") else "N/A",
     if bag.Some? then OrText(bag.value.color, "N/A") else "N/A",
     "1", "SW350", "1"]
  }

  /** The middle column: the bag's GSM, then the package's width, length and weights. */
  function SizeValues(p: Package, o: SalesOrder): (r: seq<string>)
    ensures |r| == 5
    ensures forall i :: 0 <= i < 5 ==> r[i] != ""
    ensures r[1] == OrNA(p.width) && r[2] == OrNA(p.length) && r[3] == OrNA(p.grossWeight) && r[4] == OrNA(p.netWeight)
  {
    [if o.bagDetails.Some? then OrNA(o.bagDetails.value.gsm) else "N/A",
     OrNA(p.width), OrNA(p.length), OrNA(p.grossWeight), OrNA(p.netWeight)]
  }

  /** The company block in the top right corner, every 10 from just below the top margin. */
  const CompanyBlock := [Text(Right, 15, CompanyName, ""), Text(Right, 25, CompanyAddress, ""),
                         Text(Right, 35, CompanyEmail, ""), Text(Right, 45, CompanyPhone, "")]

  /** The six order lines a line height apart from `y`, then the price line once the cursor has moved six lines down. */
  function OrderBlock(y: int, v: seq<string>): (r: seq<Mark>)
    requires |v| == 7
    ensures |r| == 7
  {
    [Text(Left, y, OrderIdCaption, v[0]), Text(Left, y + LineHeight, CustomerCaption, v[1]),
     Text(Left, y + LineHeight * 2, EmailCaption, v[2]), Text(Left, y + LineHeight * 3, MobileCaption, v[3]),
     Text(Left, y + LineHeight * 4, AddressCaption, v[4]), Text(Left, y + LineHeight * 5, JobNameCaption, v[5])]
    + [Text(Left, y + LineHeight * 6, OrderPriceCaption, v[6])]
  }

  /** The left column of the fabric block, a line height apart from `y`. */
  function FabricBlock(y: int, v: seq<string>): (r: seq<Mark>)
    requires |v| == 5
    ensures |r| == 5
  {
    [Text(Left, y, FabricCaption, v[0]), Text(Left, y + LineHeight, ColorCaption, v[1]),
     Text(Left, y + LineHeight * 2, UnitCaption, v[2]), Text(Left, y + LineHeight * 3, CustomerCodeCaption, v[3]),
     Text(Left, y + LineHeight * 4, RollsCaption, v[4])]
  }

  /** The middle column beside it. */
  function SizeBlock(y: int, v: seq<string>): (r: seq<Mark>)
    requires |v| == 5
    ensures |r| == 5
  {
    [Text(Middle, y, GsmCaption, v[0]), Text(Middle, y + LineHeight, WidthCaption, v[1]),
     Text(Middle, y + LineHeight * 2, LengthCaption, v[2]), Text(Middle, y + LineHeight * 3, GrossWeightCaption, v[3]),
     Text(Middle, y + LineHeight * 4, NetWeightCaption, v[4])]
  }

  /** The order block is a stack: line `i` carries the `i`-th caption and value, `i` line heights below the first. */
  lemma OrderBlockLines(y: int, v: seq<string>)
    requires |v| == 7
    ensures forall i :: 0 <= i < 7 ==> OrderBlock(y, v)[i] == Text(Left, y + LineHeight * i, OrderCaptions[i], v[i])
  {
    var b := OrderBlock(y, v);
    forall i | 0 <= i < 7
      ensures b[i] == Text(Left, y + LineHeight * i, OrderCaptions[i], v[i])
    {
      if i == 0 { } else if i == 1 { } else if i == 2 { } else if i == 3 { } else if i == 4 { } else if i == 5 { } else { }
    }
  }

  /** So are the two columns of the fabric block. */
  lemma FabricBlockLines(y: int, fv: seq<string>, sv: seq<string>)
    requires |fv| == 5 && |sv| == 5
    ensures forall i :: 0 <= i < 5 ==> FabricBlock(y, fv)[i] == Text(Left, y + LineHeight * i, FabricCaptions[i], fv[i])
    ensures forall i :: 0 <= i < 5 ==> SizeBlock(y, sv)[i] == Text(Middle, y + LineHeight * i, SizeCaptions[i], sv[i])
  {
    var b, c := FabricBlock(y, fv), SizeBlock(y, sv);
    forall i | 0 <= i < 5
      ensures b[i] == Text(Left, y + LineHeight * i, FabricCaptions[i], fv[i])
      ensures c[i] == Text(Middle, y + LineHeight * i, SizeCaptions[i], sv[i])
    {
      if i == 0 { } else if i == 1 { } else if i == 2 { } else if i == 3 { } else { }
    }
  }

  /**
   * The marks of a label, top to bottom down the left margin: the company
   * block on the right, a separator at 55, the six order lines and the
   * price from 65, the two columns of the fabric block side by side from
   * 157, and the barcode at 249.
   */
  function Layout(orderValues: seq<string>, fabricValues: seq<string>, sizeValues: seq<string>): (r: seq<Mark>)
    requires |orderValues| == 7 && |fabricValues| == 5 && |sizeValues| == 5
    ensures |r| == 23
  {
    CompanyBlock + [Separator(55)] + OrderBlock(65, orderValues)
    + FabricBlock(157, fabricValues) + SizeBlock(157, sizeValues) + [BarcodeImage(249)]
  }

  /** The marks of the label of package `p` for sales order `o`. */
  function LabelMarks(p: Package, o: SalesOrder): seq<Mark> {
    Layout(OrderValues(o), FabricValues(o), SizeValues(p, o))
  }

  /**
   * What a saved label holds: the logo at the top margin when it loaded,
   * the marks above, the barcode of the roll number or `000000`, and a file
   * named after the package's GSM.
   */
  predicate LabelOf(l: Label, p: Package, o: SalesOrder, logoLoaded: bool) {
    && l.logoAt == (if logoLoaded then Some(TopMargin) else None)
    && l.marks == LabelMarks(p, o)
    && l.barcodeText == RenderOr(p.rollNo, "000000")
    && l.fileName == "package-label-" + Render(p.gsm) + ".pdf"
  }

  /**
   * `generatePackageLabel(pkg, salesOrder)` once the logo has loaded or
   * failed to: every block is placed by the running cursor `currentY`. A
   * packaging order without its sales order makes the drawing fail.
   */
  method ComposeLabel(pkg: Option<Package>, salesOrder: Option<PackagingOrder>, logoLoaded: bool)
    returns (result: LabelResult)
    ensures pkg.None? || salesOrder.None? <==> result == Invalid(Failed(InvalidLabelMessage))
    ensures result.Broken? <==> pkg.Some? && salesOrder.Some? && salesOrder.value.order.None?
    ensures result.Saved? ==> pkg.Some? && salesOrder.Some? && salesOrder.value.order.Some?
    ensures result.Saved? ==> LabelOf(result.document, pkg.value, salesOrder.value.order.value, logoLoaded)
    ensures result.Saved? ==> result.notice == Succeeded(LabelSavedMessage)
  {
    if pkg.None? || salesOrder.None? {
      return Invalid(Failed(InvalidLabelMessage));
    }
    if salesOrder.value.order.None? {
      return Broken;
    }
    var p, o := pkg.value, salesOrder.value.order.value;
    var marks := Draw(OrderValues(o), FabricValues(o), SizeValues(p, o));
    var logoAt := if logoLoaded then Some(TopMargin) else None;
    result := Saved(Label(logoAt, marks, RenderOr(p.rollNo, "000000"), "package-label-" + Render(p.gsm) + ".pdf"),
                    Succeeded(LabelSavedMessage));
  }

  /** The drawing itself: each block written at the running cursor `currentY`, which only moves down. */
  method Draw(orderValues: seq<string>, fabricValues: seq<string>, sizeValues: seq<string>) returns (marks: seq<Mark>)
    requires |orderValues| == 7 && |fabricValues| == 5 && |sizeValues| == 5
    ensures marks == Layout(orderValues, fabricValues, sizeValues)
  {
    var currentY := TopMargin;
    var company := [Text(Right, currentY + 5, CompanyName, ""), Text(Right, currentY + 15, CompanyAddress, ""),
                    Text(Right, currentY + 25, CompanyEmail, ""), Text(Right, currentY + 35, CompanyPhone, "")];
    currentY := currentY + 45;
    var separator := [Separator(currentY)];
    currentY := currentY + 10;
    var ov, fv, sv := orderValues, fabricValues, sizeValues;
    var orderBlock := [Text(Left, currentY, OrderIdCaption, ov[0]),
                       Text(Left, currentY + LineHeight, CustomerCaption, ov[1]),
                       Text(Left, currentY + LineHeight * 2, EmailCaption, ov[2]),
                       Text(Left, currentY + LineHeight * 3, MobileCaption, ov[3]),
                       Text(Left, currentY + LineHeight * 4, AddressCaption, ov[4]),
                       Text(Left, currentY + LineHeight * 5, JobNameCaption, ov[5])];
    currentY := currentY + LineHeight * 6;
    orderBlock := orderBlock + [Text(Left, currentY, OrderPriceCaption, ov[6])];
    currentY := currentY + 20;
    var fabricBlock := [Text(Left, currentY, FabricCaption, fv[0]),
                        Text(Left, currentY + LineHeight, ColorCaption, fv[1]),
                        Text(Left, currentY + LineHeight * 2, UnitCaption, fv[2]),
                        Text(Left, currentY + LineHeight * 3, CustomerCodeCaption, fv[3]),
                        Text(Left, currentY + LineHeight * 4, RollsCaption, fv[4])];
    var sizeBlock := [Text(Middle, currentY, GsmCaption, sv[0]),
                      Text(Middle, currentY + LineHeight, WidthCaption, sv[1]),
                      Text(Middle, currentY + LineHeight * 2, LengthCaption, sv[2]),
                      Text(Middle, currentY + LineHeight * 3, GrossWeightCaption, sv[3]),
                      Text(Middle, currentY + LineHeight * 4, NetWeightCaption, sv[4])];
    currentY := currentY + LineHeight * 6;
    currentY := currentY + 20;
    marks := company + separator + orderBlock + fabricBlock + sizeBlock + [BarcodeImage(currentY)];
  }

  /** The height of a mark. */
  function MarkY(m: Mark): int {
    match m
    case Text(_, y, _, _) => y
    case Separator(y) => y
    case BarcodeImage(y) => y
  }

  /** Where each line of a label is drawn and what follows its caption. */
  lemma LayoutPositions(ov: seq<string>, fv: seq<string>, sv: seq<string>)
    requires |ov| == 7 && |fv| == 5 && |sv| == 5
    ensures Layout(ov, fv, sv)[0] == Text(Right, 15, CompanyName, "")
    ensures Layout(ov, fv, sv)[1] == Text(Right, 25, CompanyAddress, "")
    ensures Layout(ov, fv, sv)[2] == Text(Right, 35, CompanyEmail, "")
    ensures Layout(ov, fv, sv)[3] == Text(Right, 45, CompanyPhone, "")
    ensures Layout(ov, fv, sv)[4] == Separator(55)
    ensures forall i :: 5 <= i < 12 ==> Layout(ov, fv, sv)[i] == Text(Left, 65 + 12 * (i - 5), OrderCaptions[i - 5], ov[i - 5])
    ensures forall i :: 12 <= i < 17 ==> Layout(ov, fv, sv)[i] == Text(Left, 157 + 12 * (i - 12), FabricCaptions[i - 12], fv[i - 12])
    ensures forall i :: 17 <= i < 22 ==> Layout(ov, fv, sv)[i] == Text(Middle, 157 + 12 * (i - 17), SizeCaptions[i - 17], sv[i - 17])
    ensures Layout(ov, fv, sv)[22] == BarcodeImage(249)
  {
    var b, c, d := OrderBlock(65, ov), FabricBlock(157, fv), SizeBlock(157, sv);
    OrderBlockLines(65, ov);
    FabricBlockLines(157, fv, sv);
    assert Layout(ov, fv, sv) == CompanyBlock + [Separator(55)] + b + c + d + [BarcodeImage(249)];
    Pieces(CompanyBlock, [Separator(55)], b, c, d, [BarcodeImage(249)]);
  }

  /** Where each of six consecutive pieces of a sequence sits. */
  lemma Pieces(a: seq<Mark>, s: seq<Mark>, b: seq<Mark>, c: seq<Mark>, d: seq<Mark>, e: seq<Mark>)
    requires |a| == 4 && |s| == 1 && |b| == 7 && |c| == 5 && |d| == 5 && |e| == 1
    ensures |a + s + b + c + d + e| == 23
    ensures (a + s + b + c + d + e)[0] == a[0] && (a + s + b + c + d + e)[1] == a[1]
    ensures (a + s + b + c + d + e)[2] == a[2] && (a + s + b + c + d + e)[3] == a[3]
    ensures (a + s + b + c + d + e)[4] == s[0]
    ensures forall i :: 5 <= i < 12 ==> (a + s + b + c + d + e)[i] == b[i - 5]
    ensures forall i :: 12 <= i < 17 ==> (a + s + b + c + d + e)[i] == c[i - 12]
    ensures forall i :: 17 <= i < 22 ==> (a + s + b + c + d + e)[i] == d[i - 17]
    ensures (a + s + b + c + d + e)[22] == e[0]
  {
  }

  /** The height of the `i`-th mark of a label, for the separator, the order and fabric lines and the barcode. */
  function LeftY(i: nat): int {
    if i == 4 then 55 else if i < 12 then 65 + 12 * (i - 5) else if i < 17 then 157 + 12 * (i - 12) else 249
  }

  lemma LayoutLeftY(ov: seq<string>, fv: seq<string>, sv: seq<string>, i: nat)
    requires |ov| == 7 && |fv| == 5 && |sv| == 5
    requires 4 <= i < 17 || i == 22
    ensures MarkY(Layout(ov, fv, sv)[i]) == LeftY(i)
  {
    LayoutPositions(ov, fv, sv);
  }

  /** Down the left margin the label only moves down: the separator, the order lines, the price, the fabric block and the barcode. */
  lemma LayoutMovesDown(ov: seq<string>, fv: seq<string>, sv: seq<string>, i: nat, j: nat)
    requires |ov| == 7 && |fv| == 5 && |sv| == 5
    requires 4 <= i < j < 17
    ensures MarkY(Layout(ov, fv, sv)[i]) < MarkY(Layout(ov, fv, sv)[j]) < MarkY(Layout(ov, fv, sv)[22])
  {
    LayoutLeftY(ov, fv, sv, i);
    LayoutLeftY(ov, fv, sv, j);
    LayoutLeftY(ov, fv, sv, 22);
    LeftYIncreasing(i, j);
  }

  lemma LeftYIncreasing(i: nat, j: nat)
    requires 4 <= i < j < 17
    ensures LeftY(i) < LeftY(j) < LeftY(22)
  {
  }

  /** Every order line of a label ends in a value: the field, or `N/A` when it is missing. */
  lemma LabelNeverBlank(p: Package, o: SalesOrder, i: nat)
    requires i < 7
    ensures |LabelMarks(p, o)| == 23 && LabelMarks(p, o)[5 + i].Text?
    ensures LabelMarks(p, o)[5 + i].value != "" && LabelMarks(p, o)[5 + i].value == OrderValues(o)[i]
  {
    var ov := OrderValues(o);
    LayoutPositions(ov, FabricValues(o), SizeValues(p, o));
    assert LabelMarks(p, o)[5 + i] == Text(Left, 65 + 12 * i, OrderCaptions[i], ov[i]);
  }

  // ---------------------------------------------------------------- the screen

  /**
   * The screen state. `packages` is the one state variable the source uses
   * both for the drafts typed in and for the records fetched for an order.
   */
  class PackagingScreen {
    var orders: seq<PackagingOrder>
    var selectedOrder: Option<PackagingOrder>
    var packages: PackagesState
    var selectedPackage: Option<Package>
    var sizes: Sizes
    var addOpen: bool
    var editOpen: bool
    var listOpen: bool
    var searchQuery: string
    var statusFilter: string
    var page: nat
    var rowsPerPage: nat

    constructor ()
      ensures orders == [] && selectedOrder == None && packages == RecordList([])
      ensures selectedPackage == None && sizes == Sizes(Str(""), Str(""), Str(""), Str(""))
      ensures !addOpen && !editOpen && !listOpen
      ensures searchQuery == "" && statusFilter == "" && page == 0 && rowsPerPage == 10
    {
      orders := [];
      selectedOrder := None;
      packages := RecordList([]);
      selectedPackage := None;
      sizes := Sizes(Str(""), Str(""), Str(""), Str(""));
      addOpen := false;
      editOpen := false;
      listOpen := false;
      searchQuery := "";
      statusFilter := "";
      page := 0;
      rowsPerPage := 10;
    }

    /** `filteredOrders`, the rows the pagination counts. */
    function Rows(): seq<PackagingOrder>
      reads this
    {
      Filtered(orders, searchQuery, statusFilter)
    }

    /** The rows on the current page. */
    function Shown(): (r: seq<PackagingOrder>)
      reads this
      ensures IsPageOf(r, Rows(), page, rowsPerPage)
    {
      Page(Rows(), page, rowsPerPage)
    }

    /** `fetchOrders` succeeded. */
    method Loaded(data: seq<PackagingOrder>)
      modifies this
      ensures orders == data
      ensures selectedOrder == old(selectedOrder) && packages == old(packages)
      ensures selectedPackage == old(selectedPackage) && sizes == old(sizes)
      ensures addOpen == old(addOpen) && editOpen == old(editOpen) && listOpen == old(listOpen)
      ensures searchQuery == old(searchQuery) && statusFilter == old(statusFilter)
      ensures page == old(page) && rowsPerPage == old(rowsPerPage)
    {
      orders := data;
    }

    /**
     * `handleOrderChange`: the order with that id becomes the selected one
     * (none when no order has it), and a known order's drafts restart from
     * one blank draft in `{ ...packages, [id]: [blank] }`; the other
     * orders' drafts stay as they were.
     */
    method SelectOrder(id: string)
      modifies this
      ensures selectedOrder == FindOrder(orders, id)
      ensures selectedOrder.Some? ==> packages == DraftMap(DraftsIn(old(packages))[id := [BlankDraft]])
      ensures selectedOrder.None? ==> packages == old(packages)
      ensures forall k :: k != id && k in DraftsIn(old(packages)) ==>
                k in DraftsIn(packages) && DraftsIn(packages)[k] == DraftsIn(old(packages))[k]
      ensures orders == old(orders)
      ensures selectedPackage == old(selectedPackage) && sizes == old(sizes)
      ensures addOpen == old(addOpen) && editOpen == old(editOpen) && listOpen == old(listOpen)
      ensures searchQuery == old(searchQuery) && statusFilter == old(statusFilter)
      ensures page == old(page) && rowsPerPage == old(rowsPerPage)
    {
      var order := FindOrder(orders, id);
      selectedOrder := order;
      if order.Some? {
        packages := DraftMap(DraftsIn(packages)[id := [BlankDraft]]);
      }
    }

    /**
     * `handleAddPackage`: one more blank draft at the end of the selected
     * order's list; nothing without a selected order, and nothing when
     * `packages` is `undefined`, where `packages[order_id]` throws.
     */
    method AddDraft()
      modifies this
      ensures selectedOrder.None? || old(packages).Missing? ==> unchanged(this)
      ensures selectedOrder.Some? && !old(packages).Missing? ==>
                packages == DraftMap(DraftsIn(old(packages))[selectedOrder.value.orderId :=
                                       DraftsOf(DraftsIn(old(packages)), selectedOrder.value.orderId) + [BlankDraft]])
      ensures selectedOrder.Some? && !old(packages).Missing? ==>
                |DraftsOf(DraftsIn(packages), selectedOrder.value.orderId)| ==
                |DraftsOf(DraftsIn(old(packages)), selectedOrder.value.orderId)| + 1
      ensures selectedOrder == old(selectedOrder) && orders == old(orders)
      ensures selectedPackage == old(selectedPackage) && sizes == old(sizes)
      ensures addOpen == old(addOpen) && editOpen == old(editOpen) && listOpen == old(listOpen)
      ensures searchQuery == old(searchQuery) && statusFilter == old(statusFilter)
      ensures page == old(page) && rowsPerPage == old(rowsPerPage)
    {
      if selectedOrder.Some? && !packages.Missing? {
        var id := selectedOrder.value.orderId;
        var ds := DraftsIn(packages);
        packages := DraftMap(ds[id := DraftsOf(ds, id) + [BlankDraft]]);
      }
    }

    /**
     * `handlePackageChange(orderId, index, field, value)`, which the inputs
     * of the listed drafts call: exactly one input of one draft changes.
     */
    method ChangeDraft(orderId: string, index: nat, field: Dimension, value: string)
      requires packages.DraftMap? && orderId in packages.drafts && index < |packages.drafts[orderId]|
      modifies this
      ensures packages.DraftMap? && orderId in packages.drafts
      ensures |packages.drafts[orderId]| == |old(packages).drafts[orderId]|
      ensures packages.drafts[orderId][index] == SetDimension(old(packages).drafts[orderId][index], field, value)
      ensures forall i :: 0 <= i < |packages.drafts[orderId]| && i != index ==>
                packages.drafts[orderId][i] == old(packages).drafts[orderId][i]
      ensures packages.drafts.Keys == old(packages).drafts.Keys
      ensures forall k :: k != orderId && k in packages.drafts ==> packages.drafts[k] == old(packages).drafts[k]
      ensures selectedOrder == old(selectedOrder) && orders == old(orders)
      ensures selectedPackage == old(selectedPackage) && sizes == old(sizes)
      ensures addOpen == old(addOpen) && editOpen == old(editOpen) && listOpen == old(listOpen)
      ensures searchQuery == old(searchQuery) && statusFilter == old(statusFilter)
      ensures page == old(page) && rowsPerPage == old(rowsPerPage)
    {
      var ds := packages.drafts;
      var updated := ds[orderId];
      updated := updated[index := SetDimension(updated[index], field, value)];
      packages := DraftMap(ds[orderId := updated]);
    }

    /**
     * `handleSavePackages`: without a selected order it reports an error;
     * when `packages[order_id]` is no draft list the payload throws and the
     * save fails; otherwise it sends the order id and one measured entry per
     * draft, in order.
     */
    method SavePackages() returns (request: Option<Request>, notice: Option<Notice>)
      ensures selectedOrder.None? ==> request == None && notice == Some(Failed("Please select an order."))
      ensures selectedOrder.Some? && selectedOrder.value.orderId !in DraftsIn(packages) ==>
                request == None && notice == Some(Failed("Failed to save packages."))
      ensures selectedOrder.Some? && selectedOrder.value.orderId in DraftsIn(packages) ==>
                notice == None &&
                request == Some(AddPackages(selectedOrder.value.orderId, Measure(DraftsIn(packages)[selectedOrder.value.orderId])))
    {
      if selectedOrder.None? {
        return None, Some(Failed("Please select an order."));
      }
      var id := selectedOrder.value.orderId;
      var ds := DraftsIn(packages);
      if id !in ds {
        return None, Some(Failed("Failed to save packages."));
      }
      request := Some(AddPackages(id, Measure(ds[id])));
      notice := None;
    }

    /** The save finished: on success the screen is cleared as by Cancel, on failure nothing changes. */
    method PackagesSaved(ok: bool) returns (notice: Notice)
      modifies this
      ensures notice == if ok then Succeeded("Packages saved successfully") else Failed("Failed to save packages.")
      ensures ok ==> selectedOrder == None && packages == DraftMap(map[]) && !addOpen && !editOpen
      ensures ok ==> orders == old(orders) && selectedPackage == old(selectedPackage) && sizes == old(sizes)
      ensures ok ==> listOpen == old(listOpen) && searchQuery == old(searchQuery) && statusFilter == old(statusFilter)
      ensures ok ==> page == old(page) && rowsPerPage == old(rowsPerPage)
      ensures !ok ==> unchanged(this)
    {
      if ok {
        Cancel();
        notice := Succeeded("Packages saved successfully");
      } else {
        notice := Failed("Failed to save packages.");
      }
    }

    /** `handleCancel`: no order selected, `packages` the empty object `{}`, both dialogs closed. */
    method Cancel()
      modifies this
      ensures selectedOrder == None && packages == DraftMap(map[]) && !addOpen && !editOpen
      ensures ListedRows(packages) == Some([])
      ensures orders == old(orders) && selectedPackage == old(selectedPackage) && sizes == old(sizes)
      ensures listOpen == old(listOpen) && searchQuery == old(searchQuery) && statusFilter == old(statusFilter)
      ensures page == old(page) && rowsPerPage == old(rowsPerPage)
    {
      selectedOrder := None;
      packages := DraftMap(map[]);
      addOpen := false;
      editOpen := false;
    }

    /**
     * `handleViewPackages`: the order is selected and the list opens at
     * once. When `fetchPackagesByOrderId` answers, the `packages` field of
     * its body is stored and the first record's details are listed; when it
     * fails (None) only a console message follows and `packages` stays.
     */
    method ViewPackages(order: PackagingOrder, fetched: Option<PackagesResponse>)
      modifies this
      ensures selectedOrder == Some(order) && listOpen
      ensures fetched.Some? ==> packages == Destructured(fetched.value)
      ensures fetched.None? ==> packages == old(packages)
      ensures fetched.Some? && fetched.value.packages.Some? && |fetched.value.packages.value| > 0 ==>
                ListedRows(packages) == Some(fetched.value.packages.value[0].details)
      ensures fetched.Some? && fetched.value.packages.None? ==> ListedRows(packages).None?
      ensures orders == old(orders)
      ensures selectedPackage == old(selectedPackage) && sizes == old(sizes)
      ensures addOpen == old(addOpen) && editOpen == old(editOpen)
      ensures searchQuery == old(searchQuery) && statusFilter == old(statusFilter)
      ensures page == old(page) && rowsPerPage == old(rowsPerPage)
    {
      selectedOrder := Some(order);
      listOpen := true;
      if fetched.Some? {
        packages := Destructured(fetched.value);
      }
    }

    /** `handleEditPackage`, from a listed row: the package is selected and the dialog opens with its four sizes. */
    method EditPackage(p: Package)
      modifies this
      ensures selectedPackage == Some(p) && sizes == Sizes(p.length, p.width, p.height, p.weight) && editOpen
      ensures Edited(p, sizes) == p
      ensures orders == old(orders) && selectedOrder == old(selectedOrder) && packages == old(packages)
      ensures addOpen == old(addOpen) && listOpen == old(listOpen)
      ensures searchQuery == old(searchQuery) && statusFilter == old(statusFilter)
      ensures page == old(page) && rowsPerPage == old(rowsPerPage)
    {
      selectedPackage := Some(p);
      sizes := Sizes(p.length, p.width, p.height, p.weight);
      editOpen := true;
    }

    /** One input of the edit dialog. */
    method ChangeSize(field: Dimension, value: string)
      modifies this
      ensures field == Length ==> sizes == old(sizes).(length := Str(value))
      ensures field == Width ==> sizes == old(sizes).(width := Str(value))
      ensures field == Height ==> sizes == old(sizes).(height := Str(value))
      ensures field == Weight ==> sizes == old(sizes).(weight := Str(value))
      ensures orders == old(orders) && selectedOrder == old(selectedOrder) && packages == old(packages)
      ensures selectedPackage == old(selectedPackage)
      ensures addOpen == old(addOpen) && editOpen == old(editOpen) && listOpen == old(listOpen)
      ensures searchQuery == old(searchQuery) && statusFilter == old(statusFilter)
      ensures page == old(page) && rowsPerPage == old(rowsPerPage)
    {
      match field
      case Length => sizes := sizes.(length := Str(value));
      case Width => sizes := sizes.(width := Str(value));
      case Height => sizes := sizes.(height := Str(value));
      case Weight => sizes := sizes.(weight := Str(value));
    }

    /**
     * `handleUpdatePackage`: refused unless a package and an order are
     * selected. `packages.map(...)` then runs before the request and throws
     * unless `packages` is an array, so nothing is sent and nothing changes.
     * On an array, every entry whose `_id` is the package's is replaced by the
     * edited package, the list keeps its length, and the update is sent.
     */
    method UpdateSelected() returns (request: Option<Request>, notice: Option<Notice>)
      modifies this
      ensures selectedPackage.None? || selectedOrder.None? ==>
                request == None && notice == Some(Failed("Please select a package and order to edit.")) && unchanged(this)
      ensures selectedPackage.Some? && selectedOrder.Some? && !old(packages).RecordList? ==>
                request == None && notice == None && unchanged(this)
      ensures selectedPackage.Some? && selectedOrder.Some? && old(packages).RecordList? ==>
                notice == None
                && request == Some(UpdatePackage(selectedOrder.value.orderId, selectedPackage.value.id,
                                                 Edited(selectedPackage.value, sizes)))
                && packages == RecordList(MapById(old(packages).entries, selectedPackage.value.id,
                                                  Edited(selectedPackage.value, sizes)))
      ensures orders == old(orders) && selectedOrder == old(selectedOrder)
      ensures selectedPackage == old(selectedPackage) && sizes == old(sizes)
      ensures addOpen == old(addOpen) && editOpen == old(editOpen) && listOpen == old(listOpen)
      ensures searchQuery == old(searchQuery) && statusFilter == old(statusFilter)
      ensures page == old(page) && rowsPerPage == old(rowsPerPage)
    {
      if selectedPackage.None? || selectedOrder.None? {
        return None, Some(Failed("Please select a package and order to edit."));
      }
      if !packages.RecordList? {
        return None, None;
      }
      var updated := Edited(selectedPackage.value, sizes);
      packages := RecordList(MapById(packages.entries, selectedPackage.value.id, updated));
      request := Some(UpdatePackage(selectedOrder.value.orderId, selectedPackage.value.id, updated));
      notice := None;
    }

    /**
     * The update finished. On success the refetched body is stored whole
     * (`fetchedPackages || []`, None standing for a nullish body), so the
     * dialog lists no package, and the edit dialog closes; on failure
     * nothing changes.
     */
    method PackageUpdated(ok: bool, fetched: Option<PackagesResponse>) returns (notice: Notice)
      modifies this
      ensures notice == if ok then Succeeded("Package updated successfully") else Failed("Failed to update package.")
      ensures ok ==> packages == (if fetched.Some? then Response(fetched.value) else RecordList([])) && !editOpen
      ensures ok ==> ListedRows(packages) == Some([])
      ensures ok ==> orders == old(orders) && selectedOrder == old(selectedOrder)
      ensures ok ==> selectedPackage == old(selectedPackage) && sizes == old(sizes)
      ensures ok ==> addOpen == old(addOpen) && listOpen == old(listOpen)
      ensures ok ==> searchQuery == old(searchQuery) && statusFilter == old(statusFilter)
      ensures ok ==> page == old(page) && rowsPerPage == old(rowsPerPage)
      ensures !ok ==> unchanged(this)
    {
      if ok {
        packages := if fetched.Some? then Response(fetched.value) else RecordList([]);
        RefreshShowsNothing(fetched);
        editOpen := false;
        notice := Succeeded("Package updated successfully");
      } else {
        notice := Failed("Failed to update package.");
      }
    }

    /** The search box; the page is not reset. */
    method Search(query: string)
      modifies this
      ensures searchQuery == query
      ensures orders == old(orders) && selectedOrder == old(selectedOrder) && packages == old(packages)
      ensures selectedPackage == old(selectedPackage) && sizes == old(sizes)
      ensures addOpen == old(addOpen) && editOpen == old(editOpen) && listOpen == old(listOpen)
      ensures statusFilter == old(statusFilter) && page == old(page) && rowsPerPage == old(rowsPerPage)
    {
      searchQuery := query;
    }

    /** The status select; the page is not reset. */
    method FilterStatus(status: string)
      modifies this
      ensures statusFilter == status
      ensures orders == old(orders) && selectedOrder == old(selectedOrder) && packages == old(packages)
      ensures selectedPackage == old(selectedPackage) && sizes == old(sizes)
      ensures addOpen == old(addOpen) && editOpen == old(editOpen) && listOpen == old(listOpen)
      ensures searchQuery == old(searchQuery) && page == old(page) && rowsPerPage == old(rowsPerPage)
    {
      statusFilter := status;
    }

    /** The `Add Package` button: the add dialog opens and nothing else changes. */
    method OpenAdd()
      modifies this
      ensures addOpen
      ensures orders == old(orders) && selectedOrder == old(selectedOrder) && packages == old(packages)
      ensures selectedPackage == old(selectedPackage) && sizes == old(sizes)
      ensures editOpen == old(editOpen) && listOpen == old(listOpen)
      ensures searchQuery == old(searchQuery) && statusFilter == old(statusFilter)
      ensures page == old(page) && rowsPerPage == old(rowsPerPage)
    {
      addOpen := true;
    }

    /** `handleChangePage`. */
    method ChangePage(newPage: nat)
      modifies this
      ensures page == newPage
      ensures orders == old(orders) && selectedOrder == old(selectedOrder) && packages == old(packages)
      ensures selectedPackage == old(selectedPackage) && sizes == old(sizes)
      ensures addOpen == old(addOpen) && editOpen == old(editOpen) && listOpen == old(listOpen)
      ensures searchQuery == old(searchQuery) && statusFilter == old(statusFilter) && rowsPerPage == old(rowsPerPage)
    {
      page := newPage;
    }

    /** `handleChangeRowsPerPage`: the new size, back on the first page. */
    method ChangeRowsPerPage(n: nat)
      modifies this
      ensures rowsPerPage == n && page == 0
      ensures orders == old(orders) && selectedOrder == old(selectedOrder) && packages == old(packages)
      ensures selectedPackage == old(selectedPackage) && sizes == old(sizes)
      ensures addOpen == old(addOpen) && editOpen == old(editOpen) && listOpen == old(listOpen)
      ensures searchQuery == old(searchQuery) && statusFilter == old(statusFilter)
    {
      rowsPerPage := n;
      page := 0;
    }
  }
}

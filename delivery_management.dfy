/**
 * The delivery management screen: the searchable, paginated delivery table
 * and the edit dialog whose save first creates or updates the driver of the
 * vehicle and then updates the delivery. Delivery-service calls are returned
 * as requests, and their replies are parameters.
 */
module DeliveryManagement {
  import opened Common
  import opened Text
  import opened JsValues

  /** The order a delivery belongs to, with the fields the search looks at. */
  datatype OrderDetails = OrderDetails(customerName: Option<string>, jobName: Option<string>,
                                       mobileNumber: Option<string>, agent: Option<string>)

  /** A delivery record as the server sends it. */
  datatype Delivery = Delivery(id: Option<string>, orderId: Value, orderDetails: Option<OrderDetails>,
                               vehicleNo: Option<string>, driverName: Option<string>,
                               driverContact: Option<string>, deliveryDate: Option<string>,
                               status: Option<string>)

  /** A driver's `vehicleNumber`: a string, `null`, or absent. */
  datatype Plate = Plate(number: string) | NullPlate | NoPlate

  datatype Driver = Driver(id: string, vehicleNumber: Plate, name: string, contact: string)

  /** The edit dialog's fields. */
  datatype Form = Form(id: string, vehicleNo: string, driverName: string, driverContact: string,
                       deliveryDate: string, status: string)

  /** The inputs `handleChange` serves, by their `name`. */
  datatype Field = DriverName | DriverContact | DeliveryDate | Status

  /** What `updateDelivery` is sent. */
  datatype Payload = Payload(vehicleNo: string, driverName: string, driverContact: string,
                             deliveryDate: string, status: string)

  datatype Request =
    | CreateDriver(name: string, contact: string, vehicleNumber: string)
    | UpdateDriver(driverId: string, name: string, contact: string, vehicleNumber: string)
    | UpdateDelivery(deliveryId: string, payload: Payload)

  /** A service reply: success, or a failure carrying `error.response.data.message` when the server sent one. */
  datatype Reply = Done | Refused(serverMessage: Option<string>)

  /** The requests a save sends, in order, what it reports, and whether the dialog closes and the table reloads. */
  datatype SaveResult = SaveResult(requests: seq<Request>, notice: Notice, closes: bool)

  const BlankForm := Form("", "", "", "", "", "")

  /** The statuses the edit dialog offers; `delivered` is not among them. */
  const EditStatuses := ["pending", "in_transit", "cancelled"]

  const SaveFailed := "Failed to update delivery details"

  /** The search box: one of the order's texts contains the query ignoring case, or the order id contains it as typed. */
  predicate MatchesSearch(d: Delivery, query: string) {
    var o := d.orderDetails;
    || ContainsIgnoreCase(if o.Some? then OrText(o.value.customerName, "") else "", query)
    || ContainsIgnoreCase(if o.Some? then OrText(o.value.jobName, "") else "", query)
    || Contains(TextOf(d.orderId), query)
    || ContainsIgnoreCase(if o.Some? then OrText(o.value.mobileNumber, "") else "", query)
    || ContainsIgnoreCase(if o.Some? then OrText(o.value.agent, "") else "", query)
  }

  /** The status select: the empty choice keeps every row, any other keeps the rows with exactly that status. */
  predicate MatchesStatus(d: Delivery, statusFilter: string) {
    statusFilter == "" || d.status == Some(statusFilter)
  }

  /** `filteredOrders`: the search filter, then the status filter. */
  function Filtered(ds: seq<Delivery>, query: string, statusFilter: string): (r: seq<Delivery>)
    ensures |r| <= |ds|
  {
    Filter(Filter(ds, d => MatchesSearch(d, query)), d => MatchesStatus(d, statusFilter))
  }

  /** A delivery is listed exactly when it passes both the search and the status filter. */
  lemma FilteredMembers(ds: seq<Delivery>, query: string, statusFilter: string)
    ensures forall d :: d in Filtered(ds, query, statusFilter) <==>
              d in ds && MatchesSearch(d, query) && MatchesStatus(d, statusFilter)
    ensures IsSubsequence(Filtered(ds, query, statusFilter), ds)
  {
    var search, status := d => MatchesSearch(d, query), d => MatchesStatus(d, statusFilter);
    FilterMembers(ds, search);
    FilterMembers(Filter(ds, search), status);
    FilterSubsequence(ds, search);
    FilterSubsequence(Filter(ds, search), status);
    SubsequenceTrans(Filtered(ds, query, statusFilter), Filter(ds, search), ds);
  }

  /** With an empty search box and no status chosen, the table lists every delivery. */
  lemma NoFilterKeepsAll(ds: seq<Delivery>)
    ensures Filtered(ds, "", "") == ds
  {
    forall i | 0 <= i < |ds| ensures MatchesSearch(ds[i], "") {
      ContainsEmpty(TextOf(ds[i].orderId));
    }
    FilterAll(ds, d => MatchesSearch(d, ""));
    FilterAll(ds, d => MatchesStatus(d, ""));
  }

  /** The status chip's colour. */
  function StatusColor(status: Option<string>): (r: Color)
    ensures status == Some("delivered") <==> r == Success
    ensures status == Some("pending") <==> r == Warning
    ensures status == Some("in_transit") <==> r == Info
    ensures r in {Success, Warning, Info, Default}
  {
    if status == Some("delivered") then Success
    else if status == Some("pending") then Warning
    else if status == Some("in_transit") then Info
    else Default
  }

  /** The edit button is disabled exactly for delivered rows. */
  predicate CanEdit(d: Delivery) {
    d.status != Some("delivered")
  }

  /** `handleEdit`: each field or `''`, and the current time when the record has no delivery date. */
  function EditForm(d: Delivery, now: string): (r: Form)
    ensures r.id == OrText(d.id, "") && r.vehicleNo == OrText(d.vehicleNo, "")
    ensures r.driverName == OrText(d.driverName, "") && r.driverContact == OrText(d.driverContact, "")
    ensures r.status == OrText(d.status, "")
    ensures d.deliveryDate.None? || d.deliveryDate == Some("") ==> r.deliveryDate == now
    ensures d.deliveryDate.Some? && d.deliveryDate != Some("") ==> r.deliveryDate == d.deliveryDate.value
    ensures CanEdit(d) ==> r.status != "delivered"
  {
    Form(OrText(d.id, ""), OrText(d.vehicleNo, ""), OrText(d.driverName, ""), OrText(d.driverContact, ""),
         OrText(d.deliveryDate, now), OrText(d.status, ""))
  }

  /** `handleChange`: only the named field takes the new value. */
  function ChangeField(f: Form, field: Field, value: string): (r: Form)
    ensures r.id == f.id && r.vehicleNo == f.vehicleNo
    ensures r.driverName == (if field == DriverName then value else f.driverName)
    ensures r.driverContact == (if field == DriverContact then value else f.driverContact)
    ensures r.deliveryDate == (if field == DeliveryDate then value else f.deliveryDate)
    ensures r.status == (if field == Status then value else f.status)
  {
    match field
    case DriverName => f.(driverName := value)
    case DriverContact => f.(driverContact := value)
    case DeliveryDate => f.(deliveryDate := value)
    case Status => f.(status := value)
  }

  /** `d.vehicleNumber === newValue`, the cleared choice being `null`. */
  predicate PlateIs(p: Plate, chosen: Option<string>) {
    if chosen.Some? then p == Plate(chosen.value) else p == NullPlate
  }

  /**
   * The Autocomplete's `find`: the first driver whose vehicle number is
   * exactly the chosen value; a cleared choice finds a driver whose vehicle
   * number is `null`.
   */
  function FindExact(drivers: seq<Driver>, chosen: Option<string>): (r: Option<nat>)
    ensures r.Some? ==> r.value < |drivers| && PlateIs(drivers[r.value].vehicleNumber, chosen)
    ensures r.Some? ==> forall j :: 0 <= j < r.value ==> !PlateIs(drivers[j].vehicleNumber, chosen)
    ensures r.None? ==> forall j :: 0 <= j < |drivers| ==> !PlateIs(drivers[j].vehicleNumber, chosen)
  {
    FindFirst(drivers, (d: Driver) => PlateIs(d.vehicleNumber, chosen))
  }

  /**
   * Choosing in the vehicle Autocomplete (`chosen` is `null` when it is
   * cleared): a known vehicle fills in its driver, any other value clears
   * the driver; the id, date and status are untouched. A driver matched on
   * a `null` vehicle number puts `null` in the field, here `""`, which
   * every later reader (`!vehicleNo`, the Autocomplete) treats alike.
   */
  function Prefill(f: Form, drivers: seq<Driver>, chosen: Option<string>): (r: Form)
    ensures r.id == f.id && r.deliveryDate == f.deliveryDate && r.status == f.status
    ensures FindExact(drivers, chosen).Some? ==>
      var d := drivers[FindExact(drivers, chosen).value];
      r.vehicleNo == OrText(chosen, "") && r.driverName == d.name && r.driverContact == d.contact
    ensures FindExact(drivers, chosen).None? ==>
      r.vehicleNo == OrText(chosen, "") && r.driverName == "" && r.driverContact == ""
  {
    match FindExact(drivers, chosen)
    case Some(i) =>
      var d := drivers[i];
      f.(vehicleNo := if d.vehicleNumber.Plate? then d.vehicleNumber.number else "", driverName := d.name,
         driverContact := d.contact)
    case None => f.(vehicleNo := OrText(chosen, ""), driverName := "", driverContact := "")
  }

  /** Clearing the Autocomplete fills in the first driver stored with a `null` vehicle number, when there is one. */
  lemma ClearedChoiceFindsNullPlate(f: Form, drivers: seq<Driver>, i: nat)
    requires i < |drivers| && drivers[i].vehicleNumber == NullPlate
    ensures FindExact(drivers, None).Some? && FindExact(drivers, None).value <= i
    ensures Prefill(f, drivers, None).driverName == drivers[FindExact(drivers, None).value].name
    ensures Prefill(f, drivers, None).vehicleNo == ""
  {
    assert PlateIs(drivers[i].vehicleNumber, None);
  }

  /** `validateForm`: the message of the first missing field, in the order the checks run. */
  function Validate(f: Form): (r: Option<string>)
    ensures r.None? <==> Trim(f.vehicleNo) != "" && Trim(f.driverName) != "" && Trim(f.driverContact) != ""
                         && f.deliveryDate != "" && f.status != ""
    ensures Trim(f.vehicleNo) == "" ==> r == Some("Vehicle number is required")
    ensures Trim(f.vehicleNo) != "" && Trim(f.driverName) == "" ==> r == Some("Driver name is required")
    ensures Trim(f.vehicleNo) != "" && Trim(f.driverName) != "" && Trim(f.driverContact) == "" ==>
      r == Some("Driver contact is required")
    ensures (Trim(f.vehicleNo) != "" && Trim(f.driverName) != "" && Trim(f.driverContact) != ""
             && f.deliveryDate == "") ==> r == Some("Delivery date is required")
    ensures (Trim(f.vehicleNo) != "" && Trim(f.driverName) != "" && Trim(f.driverContact) != ""
             && f.deliveryDate != "" && f.status == "") ==> r == Some("Status is required")
  {
    if Trim(f.vehicleNo) == "" then Some("Vehicle number is required")
    else if Trim(f.driverName) == "" then Some("Driver name is required")
    else if Trim(f.driverContact) == "" then Some("Driver contact is required")
    else if f.deliveryDate == "" then Some("Delivery date is required")
    else if f.status == "" then Some("Status is required")
    else None
  }

  /** A field made only of white space is missing, just as an empty one. */
  lemma BlankIsMissing(f: Form)
    requires AllSpace(f.vehicleNo) || AllSpace(f.driverName) || AllSpace(f.driverContact)
    ensures Validate(f).Some?
  {
    TrimEmptyIffBlank(f.vehicleNo);
    TrimEmptyIffBlank(f.driverName);
    TrimEmptyIffBlank(f.driverContact);
  }

  /** The driver whose vehicle number equals the form's, ignoring case; a driver without a vehicle number never matches. */
  function FindDriver(drivers: seq<Driver>, vehicleNo: string): (r: Option<nat>)
    ensures r.Some? ==> r.value < |drivers| && SameVehicle(drivers[r.value], vehicleNo)
    ensures r.Some? ==> forall j :: 0 <= j < r.value ==> !SameVehicle(drivers[j], vehicleNo)
    ensures r.None? ==> forall j :: 0 <= j < |drivers| ==> !SameVehicle(drivers[j], vehicleNo)
  {
    FindFirst(drivers, (d: Driver) => SameVehicle(d, vehicleNo))
  }

  predicate SameVehicle(d: Driver, vehicleNo: string) {
    d.vehicleNumber.Plate? && ToLower(d.vehicleNumber.number) == ToLower(vehicleNo)
  }

  /** The driver request: update the matching driver, or create one; both carry the fields as typed. */
  function DriverRequest(f: Form, drivers: seq<Driver>): (r: Request)
    ensures FindDriver(drivers, f.vehicleNo).Some? <==> r.UpdateDriver?
    ensures r.UpdateDriver? ==> r.driverId == drivers[FindDriver(drivers, f.vehicleNo).value].id
    ensures !r.UpdateDelivery? && r.name == f.driverName && r.contact == f.driverContact && r.vehicleNumber == f.vehicleNo
  {
    match FindDriver(drivers, f.vehicleNo)
    case Some(i) => UpdateDriver(drivers[i].id, f.driverName, f.driverContact, f.vehicleNo)
    case None => CreateDriver(f.driverName, f.driverContact, f.vehicleNo)
  }

  /** The delivery update: the three text fields trimmed, the date as converted, the status as chosen. */
  function DeliveryRequest(f: Form, isoDate: string): (r: Request)
    ensures r.UpdateDelivery? && r.deliveryId == f.id
    ensures r.payload == Payload(Trim(f.vehicleNo), Trim(f.driverName), Trim(f.driverContact), isoDate, f.status)
  {
    UpdateDelivery(f.id, Payload(Trim(f.vehicleNo), Trim(f.driverName), Trim(f.driverContact), isoDate, f.status))
  }

  /** `error?.response?.data?.message || "Failed to update delivery details"`. */
  function FailureText(reply: Reply): string {
    if reply.Refused? then OrText(reply.serverMessage, SaveFailed) else SaveFailed
  }

  /**
   * `handleSave` as it is meant to work. `isoDate` is `new Date(deliveryDate).toISOString()`,
   * None when that throws. A failing `createDriver` rethrows a plain `Error`, so the
   * server's message never reaches the toast.
   */
  function SavePlan(f: Form, drivers: seq<Driver>, isoDate: Option<string>, driverReply: Reply, deliveryReply: Reply)
    : SaveResult
  {
    if Validate(f).Some? then SaveResult([], Failed(Validate(f).value), false)
    else
      var first := DriverRequest(f, drivers);
      if driverReply.Refused? then
        SaveResult([first], Failed(if first.CreateDriver? then SaveFailed else FailureText(driverReply)), false)
      else if isoDate.None? then SaveResult([first], Failed(SaveFailed), false)
      else
        var second := DeliveryRequest(f, isoDate.value);
        if deliveryReply.Refused? then SaveResult([first, second], Failed(FailureText(deliveryReply)), false)
        else SaveResult([first, second], Succeeded("Delivery details updated successfully"), true)
  }
  /**
   * An invalid form sends nothing and reports the first missing field; a valid one sends the
   * driver request first and the delivery update second, and only a save whose every step
   * succeeds closes the dialog.
   */
  lemma SaveSteps(f: Form, drivers: seq<Driver>, isoDate: Option<string>, driverReply: Reply, deliveryReply: Reply,
                  r: SaveResult)
    requires r == SavePlan(f, drivers, isoDate, driverReply, deliveryReply)
    ensures Validate(f).Some? ==> r == SaveResult([], Failed(Validate(f).value), false)
    ensures Validate(f).None? ==> |r.requests| >= 1 && r.requests[0] == DriverRequest(f, drivers)
    ensures |r.requests| <= 2
    ensures |r.requests| == 2 ==> isoDate.Some? && r.requests[1] == DeliveryRequest(f, isoDate.value)
    ensures r.closes <==> r.notice.Succeeded?
    ensures r.closes <==> Validate(f).None? && driverReply.Done? && isoDate.Some? && deliveryReply.Done?
    ensures r.closes ==> |r.requests| == 2 && r.notice == Succeeded("Delivery details updated successfully")
  {
  }


  /**
   * `handleSave` as written: `deliveryService` has no `updateDriver`, so
   * for a known vehicle the call throws a TypeError before any request,
   * and the save always fails.
   */
  function SaveAsWritten(f: Form, drivers: seq<Driver>, isoDate: Option<string>, driverReply: Reply, deliveryReply: Reply)
    : (r: SaveResult)
    ensures Validate(f).Some? || FindDriver(drivers, f.vehicleNo).None? ==>
      r == SavePlan(f, drivers, isoDate, driverReply, deliveryReply)
  {
    if Validate(f).None? && FindDriver(drivers, f.vehicleNo).Some? then SaveResult([], Failed(SaveFailed), false)
    else SavePlan(f, drivers, isoDate, driverReply, deliveryReply)
  }

  /** As written, a delivery whose vehicle already has a driver can never be saved. */
  lemma KnownVehicleNeverSaves(f: Form, drivers: seq<Driver>, isoDate: Option<string>, driverReply: Reply, deliveryReply: Reply)
    requires Validate(f).None? && FindDriver(drivers, f.vehicleNo).Some?
    ensures SaveAsWritten(f, drivers, isoDate, driverReply, deliveryReply).requests == []
    ensures !SaveAsWritten(f, drivers, isoDate, driverReply, deliveryReply).closes
    ensures SavePlan(f, drivers, isoDate, Done, Done).closes <==> isoDate.Some?
  {
  }

  /** Whatever is saved has no white space at either end of its vehicle number, driver name and contact, and none is empty. */
  lemma SavedFieldsAreTrimmed(f: Form, drivers: seq<Driver>, isoDate: Option<string>, driverReply: Reply, deliveryReply: Reply,
                              r: SaveResult)
    requires r == SavePlan(f, drivers, isoDate, driverReply, deliveryReply) && |r.requests| == 2
    ensures r.requests[1].UpdateDelivery? && r.requests[1].payload.status == f.status
    ensures Clean(r.requests[1].payload.vehicleNo) && Clean(r.requests[1].payload.driverName)
    ensures Clean(r.requests[1].payload.driverContact)
  {
    SaveSteps(f, drivers, isoDate, driverReply, deliveryReply, r);
    TrimIsInfix(f.vehicleNo);
    TrimIsInfix(f.driverName);
    TrimIsInfix(f.driverContact);
  }

  /** Non-empty, and neither end is white space. */
  predicate Clean(s: string) {
    s != [] && !IsSpace(s[0]) && !IsSpace(s[|s| - 1])
  }

  /** The screen state. */
  class DeliveryScreen {
    var deliveries: seq<Delivery>
    var drivers: seq<Driver>
    var selected: Option<Delivery>
    var form: Form
    var saving: bool
    var searchQuery: string
    var statusFilter: string
    var page: nat
    var rowsPerPage: nat

    /** The dialog never holds the status `delivered`: delivered rows cannot be edited and the menu does not offer it. */
    predicate Valid()
      reads this
    {
      selected.Some? ==> form.status != "delivered"
    }

    constructor ()
      ensures Valid() && deliveries == [] && drivers == [] && selected == None && form == BlankForm
      ensures !saving && searchQuery == "" && statusFilter == "" && page == 0 && rowsPerPage == 10
    {
      deliveries := [];
      drivers := [];
      selected := None;
      form := BlankForm;
      saving := false;
      searchQuery := "";
      statusFilter := "";
      page := 0;
      rowsPerPage := 10;
    }

    /** `filteredOrders`, the rows the pagination counts. */
    function Rows(): seq<Delivery>
      reads this
    {
      Filtered(deliveries, searchQuery, statusFilter)
    }

    /** `paginatedOrders`: the rows on the current page. */
    function Shown(): (r: seq<Delivery>)
      reads this
      ensures IsPageOf(r, Rows(), page, rowsPerPage)
    {
      Page(Rows(), page, rowsPerPage)
    }

    /** `fetchDeliveries` succeeded: `response.data || []` and `drivers.data || []`. */
    method Loaded(newDeliveries: Option<seq<Delivery>>, newDrivers: Option<seq<Driver>>)
      requires Valid()
      modifies this
      ensures Valid()
      ensures deliveries == newDeliveries.GetOr([]) && drivers == newDrivers.GetOr([])
      ensures selected == old(selected) && form == old(form) && saving == old(saving)
      ensures searchQuery == old(searchQuery) && statusFilter == old(statusFilter)
      ensures page == old(page) && rowsPerPage == old(rowsPerPage)
    {
      deliveries := newDeliveries.GetOr([]);
      drivers := newDrivers.GetOr([]);
    }

    /** The edit button of a row that is not delivered. */
    method Edit(d: Delivery, now: string)
      requires Valid() && CanEdit(d)
      modifies this
      ensures Valid() && selected == Some(d) && form == EditForm(d, now)
      ensures deliveries == old(deliveries) && drivers == old(drivers) && saving == old(saving)
      ensures searchQuery == old(searchQuery) && statusFilter == old(statusFilter)
      ensures page == old(page) && rowsPerPage == old(rowsPerPage)
    {
      selected := Some(d);
      form := EditForm(d, now);
    }

    /** A text input or the status select of the dialog; the select only offers the edit statuses. */
    method Change(field: Field, value: string)
      requires Valid() && (field == Status ==> value in EditStatuses)
      modifies this
      ensures Valid() && form == ChangeField(old(form), field, value)
      ensures deliveries == old(deliveries) && drivers == old(drivers) && selected == old(selected)
      ensures saving == old(saving) && searchQuery == old(searchQuery) && statusFilter == old(statusFilter)
      ensures page == old(page) && rowsPerPage == old(rowsPerPage)
    {
      form := ChangeField(form, field, value);
    }

    /** The Autocomplete's `onChange`. */
    method ChooseVehicle(chosen: Option<string>)
      requires Valid()
      modifies this
      ensures Valid() && form == Prefill(old(form), drivers, chosen)
      ensures deliveries == old(deliveries) && drivers == old(drivers) && selected == old(selected)
      ensures saving == old(saving) && searchQuery == old(searchQuery) && statusFilter == old(statusFilter)
      ensures page == old(page) && rowsPerPage == old(rowsPerPage)
    {
      form := Prefill(form, drivers, chosen);
    }

    /** The Autocomplete's `onInputChange`: typing sets the vehicle number alone. */
    method TypeVehicle(text: string)
      requires Valid()
      modifies this
      ensures Valid() && form == old(form).(vehicleNo := text)
      ensures deliveries == old(deliveries) && drivers == old(drivers) && selected == old(selected)
      ensures saving == old(saving) && searchQuery == old(searchQuery) && statusFilter == old(statusFilter)
      ensures page == old(page) && rowsPerPage == old(rowsPerPage)
    {
      form := form.(vehicleNo := text);
    }

    /** Cancel, or a click outside the dialog. */
    method Close()
      requires Valid()
      modifies this
      ensures Valid() && selected == None && form == old(form)
      ensures deliveries == old(deliveries) && drivers == old(drivers)
      ensures saving == old(saving) && searchQuery == old(searchQuery) && statusFilter == old(statusFilter)
      ensures page == old(page) && rowsPerPage == old(rowsPerPage)
    {
      selected := None;
    }

    /**
     * Save Changes as written, with the service replies as parameters. The
     * requests go out in the returned order; a success closes the dialog and
     * asks for a reload. A valid form whose vehicle already has a driver
     * fails before any request. `saving` is false again when the save is over.
     */
    method Save(isoDate: Option<string>, driverReply: Reply, deliveryReply: Reply) returns (r: SaveResult)
      requires Valid() && selected.Some?
      modifies this
      ensures Valid() && r == SaveAsWritten(old(form), old(drivers), isoDate, driverReply, deliveryReply)
      ensures FindDriver(old(drivers), old(form).vehicleNo).None? ==>
                r == SavePlan(old(form), old(drivers), isoDate, driverReply, deliveryReply)
      ensures Validate(old(form)).None? && FindDriver(old(drivers), old(form).vehicleNo).Some? ==>
                r.requests == [] && !r.closes && r.notice == Failed(SaveFailed)
      ensures selected == if r.closes then None else old(selected)
      ensures |r.requests| == 2 ==> r.requests[1].payload.status != "delivered"
      ensures !saving && form == old(form) && deliveries == old(deliveries) && drivers == old(drivers)
      ensures searchQuery == old(searchQuery) && statusFilter == old(statusFilter)
      ensures page == old(page) && rowsPerPage == old(rowsPerPage)
    {
      r := SaveAsWritten(form, drivers, isoDate, driverReply, deliveryReply);
      if |r.requests| == 2 {
        SavedFieldsAreTrimmed(form, drivers, isoDate, driverReply, deliveryReply, r);
      }
      Settle(r.closes);
    }

    /** The end of a save: `saving` is cleared and a successful save closes the dialog. */
    method Settle(closes: bool)
      requires Valid()
      modifies this
      ensures Valid() && !saving && selected == if closes then None else old(selected)
      ensures form == old(form) && deliveries == old(deliveries) && drivers == old(drivers)
      ensures searchQuery == old(searchQuery) && statusFilter == old(statusFilter)
      ensures page == old(page) && rowsPerPage == old(rowsPerPage)
    {
      if closes {
        selected := None;
      }
      saving := false;
    }

    method Search(query: string)
      requires Valid()
      modifies this
      ensures Valid() && searchQuery == query && statusFilter == old(statusFilter)
      ensures deliveries == old(deliveries) && drivers == old(drivers) && selected == old(selected)
      ensures form == old(form) && saving == old(saving) && page == old(page) && rowsPerPage == old(rowsPerPage)
    {
      searchQuery := query;
    }

    method FilterStatus(status: string)
      requires Valid()
      modifies this
      ensures Valid() && statusFilter == status && searchQuery == old(searchQuery)
      ensures deliveries == old(deliveries) && drivers == old(drivers) && selected == old(selected)
      ensures form == old(form) && saving == old(saving) && page == old(page) && rowsPerPage == old(rowsPerPage)
    {
      statusFilter := status;
    }

    method ChangePage(newPage: nat)
      requires Valid()
      modifies this
      ensures Valid() && page == newPage && rowsPerPage == old(rowsPerPage)
      ensures deliveries == old(deliveries) && drivers == old(drivers) && selected == old(selected)
      ensures form == old(form) && saving == old(saving)
      ensures searchQuery == old(searchQuery) && statusFilter == old(statusFilter)
    {
      page := newPage;
    }

    /** A new page size, back on the first page. */
    method ChangeRowsPerPage(n: nat)
      requires Valid()
      modifies this
      ensures Valid() && page == 0 && rowsPerPage == n
      ensures deliveries == old(deliveries) && drivers == old(drivers) && selected == old(selected)
      ensures form == old(form) && saving == old(saving)
      ensures searchQuery == old(searchQuery) && statusFilter == old(statusFilter)
    {
      rowsPerPage := n;
      page := 0;
    }
  }
}

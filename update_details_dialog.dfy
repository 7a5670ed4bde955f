/**
 * The production-details dialog of the W-cut production page: the form
 * is filled from the record it opens on, edited field by field, and sent;
 * the reply decides what the operator is told and whether the dialog
 * closes and the list reloads.
 */
module UpdateDetailsDialog {
  import opened Common
  import opened JsValues

  /** `record.production_details`. */
  datatype ProductionDetails = ProductionDetails(rollSize: Value, cylinderSize: Value, quantityKgs: Value,
                                                 quantityRolls: Value, remarks: Value)

  /** The `record` prop; `details` is None when `production_details` is missing or `null`. */
  datatype Record = Record(details: Option<ProductionDetails>)

  /** `formData`. `kind` is its `type` key, which no input edits. */
  datatype Form = Form(kind: Value, rollSize: Value, cylinderSize: Value, quantityKgs: Value,
                       quantityRolls: Value, remarks: Value)

  /** The `name` of each text input. */
  datatype Field = RollSize | CylinderSize | QuantityKgs | QuantityRolls | Remarks

  /** `v || ''`. */
  function OrEmpty(v: Value): (r: Value)
    ensures Truthy(v) ==> r == v
    ensures !Truthy(v) ==> r == Str("")
  {
    if Truthy(v) then v else Str("")
  }

  /** Every field empty, and the type from the prop. */
  function BlankForm(kind: Value): Form {
    Form(OrEmpty(kind), Str(""), Str(""), Str(""), Str(""), Str(""))
  }

  /** The effect on `[record, type]`: the record's details, each or `''`, or a blank form when there are none. */
  function InitialForm(record: Option<Record>, kind: Value): (r: Form)
    ensures r.kind == OrEmpty(kind)
    ensures record.None? || record.value.details.None? ==> r == BlankForm(kind)
    ensures record.Some? && record.value.details.Some? ==>
              var p := record.value.details.value;
              && r.rollSize == OrEmpty(p.rollSize) && r.cylinderSize == OrEmpty(p.cylinderSize)
              && r.quantityKgs == OrEmpty(p.quantityKgs) && r.quantityRolls == OrEmpty(p.quantityRolls)
              && r.remarks == OrEmpty(p.remarks)
  {
    match record
    case Some(Record(Some(p))) =>
      Form(OrEmpty(kind), OrEmpty(p.rollSize), OrEmpty(p.cylinderSize), OrEmpty(p.quantityKgs),
           OrEmpty(p.quantityRolls), OrEmpty(p.remarks))
    case _ => BlankForm(kind)
  }

  /** Read one field of the form. */
  function Get(f: Form, field: Field): Value {
    match field
    case RollSize => f.rollSize
    case CylinderSize => f.cylinderSize
    case QuantityKgs => f.quantityKgs
    case QuantityRolls => f.quantityRolls
    case Remarks => f.remarks
  }

  /** `{ ...prev, [name]: value }`: the named field takes the typed text and nothing else changes. */
  function ChangeField(f: Form, field: Field, value: string): (r: Form)
    ensures Get(r, field) == Str(value)
    ensures forall other :: other != field ==> Get(r, other) == Get(f, other)
    ensures r.kind == f.kind
  {
    match field
    case RollSize => f.(rollSize := Str(value))
    case CylinderSize => f.(cylinderSize := Str(value))
    case QuantityKgs => f.(quantityKgs := Str(value))
    case QuantityRolls => f.(quantityRolls := Str(value))
    case Remarks => f.(remarks := Str(value))
  }

  /** Typing a field's current text again leaves the form as it was. */
  lemma ChangeSameText(f: Form, field: Field, value: string)
    requires Get(f, field) == Str(value)
    ensures ChangeField(f, field, value) == f
  {
    var r := ChangeField(f, field, value);
    assert Get(r, field) == Get(f, field);
    forall other
      ensures Get(r, other) == Get(f, other)
    {
    }
  }

  /** The four inputs marked `required`; Remarks is the only optional one. */
  predicate Required(field: Field) {
    field != Remarks
  }

  /**
   * The browser's constraint check on the `<form>`: while a required input
   * holds the empty string, submitting is refused and `handleSubmit` never
   * runs. (The fields only ever hold a typed string or `v || ''`.)
   */
  function SubmitBlocked(f: Form): (r: bool)
    ensures r <==> exists field :: Required(field) && Get(f, field) == Str("")
  {
    assert Get(f, RollSize) == f.rollSize && Get(f, CylinderSize) == f.cylinderSize;
    assert Get(f, QuantityKgs) == f.quantityKgs && Get(f, QuantityRolls) == f.quantityRolls;
    f.rollSize == Str("") || f.cylinderSize == Str("") || f.quantityKgs == Str("") || f.quantityRolls == Str("")
  }

  /** A dialog opened on a record without details cannot be submitted before something is typed. */
  lemma BlankFormBlocked(kind: Value)
    ensures SubmitBlocked(BlankForm(kind))
  {
    assert Get(BlankForm(kind), RollSize) == Str("");
  }

  /** Emptying a required input blocks the submit, and the remarks never decide it. */
  lemma ChangeBlocks(f: Form, field: Field, value: string)
    ensures Required(field) && value == "" ==> SubmitBlocked(ChangeField(f, field, value))
    ensures field == Remarks ==> SubmitBlocked(ChangeField(f, field, value)) == SubmitBlocked(f)
  {
    var r := ChangeField(f, field, value);
    if field == Remarks {
      assert forall other :: Required(other) ==> Get(r, other) == Get(f, other);
    }
  }

  /** What `production_manager` holds in the reply's `data`. */
  datatype Member = Missing | NullMember | Present

  /** `updatedRecord.data`, when the reply has one. */
  datatype ReplyData = ReplyData(productionManager: Member)

  /** `error.response.data`, when the error response has one. */
  datatype ErrorData = ErrorData(message: Value)

  /**
   * How `updateProductionRecord` ends: it returns `updatedRecord` (None
   * for a falsy one, and `data` None for a falsy `data`), or it throws an
   * error with or without a `response`.
   */
  datatype Reply = Returned(updated: Option<Option<ReplyData>>)
                 | Threw(response: Option<Option<ErrorData>>)

  /** `updateProductionRecord(formData, orderId)`. */
  datatype Request = UpdateProductionRecord(form: Form, orderId: string)

  /** The toast, whether `onClose` is called, and whether `fetchRecords` is called. */
  datatype Outcome = Outcome(notice: Notice, closes: bool, refreshes: bool)

  const UnexpectedMessage := "Unexpected response from server. Please try again."
  const MissingManagerMessage := "Production Manager data is missing"
  const UpdatedMessage := "Record updated successfully"
  const FailedMessage := "Failed to update record"
  const GenericMessage := "Oops! Something went wrong. Please try again."

  /** `handleSubmit` after the request: the checks on the reply in order, and the catch. */
  function Classify(reply: Reply, hasFetchRecords: bool): (r: Outcome)
    ensures r.closes <==> reply.Returned? && reply.updated.Some? && reply.updated.value.Some?
                          && reply.updated.value.value.productionManager != NullMember
    ensures r.closes <==> r.notice.Succeeded?
    ensures r.refreshes <==> r.closes && hasFetchRecords
    ensures reply.Returned? && (reply.updated.None? || reply.updated.value.None?) ==> r.notice == Failed(UnexpectedMessage)
    ensures reply.Returned? && reply.updated == Some(Some(ReplyData(NullMember))) ==> r.notice == Failed(MissingManagerMessage)
    ensures r.notice.Succeeded? ==> r.notice.message == UpdatedMessage
    ensures reply.Threw? && reply.response.None? ==> r.notice == Failed(GenericMessage)
    ensures reply.Threw? && reply.response.Some? ==>
              r.notice == Failed(if reply.response.value.Some? then RenderOr(reply.response.value.value.message, FailedMessage)
                                 else FailedMessage)
  {
    match reply
    case Returned(updated) =>
      if updated.None? || updated.value.None? then Outcome(Failed(UnexpectedMessage), false, false)
      else if updated.value.value.productionManager == NullMember then Outcome(Failed(MissingManagerMessage), false, false)
      else Outcome(Succeeded(UpdatedMessage), true, hasFetchRecords)
    case Threw(response) =>
      if response.None? then Outcome(Failed(GenericMessage), false, false)
      else Outcome(Failed(if response.value.Some? then RenderOr(response.value.value.message, FailedMessage)
                          else FailedMessage), false, false)
  }

  /** `undefined` is not `null`: a reply whose data lacks `production_manager` altogether still counts as a success. */
  lemma MissingManagerPasses(hasFetchRecords: bool)
    ensures Classify(Returned(Some(Some(ReplyData(Missing)))), hasFetchRecords).notice == Succeeded(UpdatedMessage)
  {
  }

  /** An error response without a message of its own shows the fixed message. */
  lemma ErrorWithoutMessage(data: Option<ErrorData>)
    requires data.None? || !Truthy(data.value.message)
    ensures Classify(Threw(Some(data)), false).notice == Failed(FailedMessage)
    ensures Classify(Threw(Some(data)), true).notice == Failed(FailedMessage)
  {
  }

  /** The dialog's state. */
  class DetailsDialog {
    var form: Form

    /** `useState`: blank fields and the type from the prop. */
    constructor (kind: Value)
      ensures form == BlankForm(kind)
    {
      form := BlankForm(kind);
    }

    /** The effect that runs when `record` or `type` changes. */
    method Load(record: Option<Record>, kind: Value)
      modifies this
      ensures form == InitialForm(record, kind)
    {
      if record.Some? && record.value.details.Some? {
        var p := record.value.details.value;
        form := Form(OrEmpty(kind), OrEmpty(p.rollSize), OrEmpty(p.cylinderSize), OrEmpty(p.quantityKgs),
                     OrEmpty(p.quantityRolls), OrEmpty(p.remarks));
      } else {
        form := Form(OrEmpty(kind), Str(""), Str(""), Str(""), Str(""), Str(""));
      }
    }

    /** `handleChange` for the input named `field`. */
    method Change(field: Field, value: string)
      modifies this
      ensures form == ChangeField(old(form), field, value)
      ensures Get(form, field) == Str(value) && form.kind == old(form).kind
    {
      form := ChangeField(form, field, value);
    }

    /**
     * Submitting the form: while a required input is empty the browser
     * refuses, and nothing is sent or shown. Otherwise `handleSubmit` sends
     * the form as it is, with the order id the dialog was opened for;
     * `reply` is how the request ended. The form is not touched.
     */
    method Submit(orderId: string, reply: Reply, hasFetchRecords: bool) returns (request: Option<Request>, outcome: Option<Outcome>)
      ensures request.None? <==> SubmitBlocked(form)
      ensures request.None? ==> outcome.None?
      ensures request.Some? ==> request.value == UpdateProductionRecord(form, orderId)
                                && outcome == Some(Classify(reply, hasFetchRecords))
      ensures outcome.Some? && outcome.value.refreshes ==> outcome.value.closes && outcome.value.notice == Succeeded(UpdatedMessage)
    {
      if SubmitBlocked(form) {
        return None, None;
      }
      request := Some(UpdateProductionRecord(form, orderId));
      match reply
      case Returned(updated) =>
        if updated.None? || updated.value.None? {
          outcome := Some(Outcome(Failed(UnexpectedMessage), false, false));
          return;
        }
        if updated.value.value.productionManager == NullMember {
          outcome := Some(Outcome(Failed(MissingManagerMessage), false, false));
          return;
        }
        outcome := Some(Outcome(Succeeded(UpdatedMessage), true, hasFetchRecords));
      case Threw(response) =>
        if response.Some? {
          var message := if response.value.Some? then RenderOr(response.value.value.message, FailedMessage)
                         else FailedMessage;
          outcome := Some(Outcome(Failed(message), false, false));
        } else {
          outcome := Some(Outcome(Failed(GenericMessage), false, false));
        }
    }
  }
}

/**
 * The admin endpoint for shipments. POST checks the five required fields in
 * order, sanitises them, fills in the defaults, rejects a malformed or an
 * already used tracking number, then inserts the shipment and its first
 * history row (two separate statements, no transaction). GET lists the 50
 * most recently created shipments.
 */
module AddShipment {
  import opened Wrappers
  import opened PhpStrings
  import opened Schema
  import opened Config
  import opened Store
  import Sorting
  import Track

  /** The decoded JSON body: None when it is not a JSON object (or not JSON at all). */
  type Body = Option<map<string, string>>

  /** The fields a POST must carry, in the order they are checked. */
  const RequiredFields: seq<string> := ["tracking_number", "origin", "destination", "weight", "service_type"]

  const DefaultCarrier := "MAX Logistics"
  const DefaultStatus := "Processing"
  const DefaultDescription := "Package received and being processed"

  const MsgDuplicate := "Tracking number already exists"
  const MsgCreated := "Shipment created successfully"
  const NoteCreated := "Shipment added successfully"
  const MsgListed := "Shipments retrieved successfully"
  const MsgListFailed := "Failed to retrieve shipments"

  /** `$input[$name]`, when the body is an object holding that key. */
  function Field(input: Body, name: string): Option<string> {
    if input.Some? && name in input.value then Some(input.value[name]) else None
  }

  /** `$input[$name] ?? $default`. */
  function FieldOr(input: Body, name: string, default: string): string {
    if input.Some? && name in input.value then input.value[name] else default
  }

  /** The 400 message naming an empty required field. */
  function MissingMessage(field: string): string {
    "Field '" + field + "' is required"
  }

  /** The index of the first required field, from `from` on, that PHP's empty() rejects. */
  function FirstMissing(input: Body, from: nat): (r: Option<nat>)
    requires from <= |RequiredFields|
    decreases |RequiredFields| - from
    ensures r.Some? ==> from <= r.value < |RequiredFields| && IsEmptyValue(Field(input, RequiredFields[r.value]))
    ensures r.Some? ==> forall j :: from <= j < r.value ==> !IsEmptyValue(Field(input, RequiredFields[j]))
    ensures r.None? <==> forall j :: from <= j < |RequiredFields| ==> !IsEmptyValue(Field(input, RequiredFields[j]))
  {
    if from == |RequiredFields| then None
    else if IsEmptyValue(Field(input, RequiredFields[from])) then Some(from)
    else FirstMissing(input, from + 1)
  }

  /** The `foreach` over the required fields, stopping at the first empty one. */
  method CheckRequiredFields(input: Body) returns (missing: Option<nat>)
    ensures missing == FirstMissing(input, 0)
  {
    var k := 0;
    while k < |RequiredFields|
      invariant k <= |RequiredFields|
      invariant FirstMissing(input, 0) == FirstMissing(input, k)
    {
      if IsEmptyValue(Field(input, RequiredFields[k])) {
        return Some(k);
      }
      k := k + 1;
    }
    return None;
  }

  /** Where the statements of a POST can fail; the PDO message travels into the answer. */
  datatype Fault =
    | NoFault
    | ConnectFails(reason: string)
    | LookupFails(reason: string)
    | ShipmentInsertFails(reason: string)
    | HistoryInsertFails(reason: string)

  /**
   * `$e->getMessage()` of the exception a fault raises: the PDO message, after
   * the connection helper's own prefix when the connection fails.
   */
  function FaultMessage(fault: Fault): (m: string)
    requires !fault.NoFault?
    ensures |fault.reason| <= |m| && m[|m| - |fault.reason|..] == fault.reason
    ensures !fault.ConnectFails? ==> m == fault.reason
  {
    match fault
    case ConnectFails(reason) => "Database connection failed: " + reason
    case LookupFails(reason) => reason
    case ShipmentInsertFails(reason) => reason
    case HistoryInsertFails(reason) => reason
  }

  const FailedPrefix := "Failed to add shipment: "

  /** The 500 a fault turns into; the PDO message reaches the client. */
  function FailedAnswer(fault: Fault): (e: Envelope)
    requires !fault.NoFault?
    ensures e.code == 500 && !e.success && e.data == NoData
    ensures |FailedPrefix| <= |e.message| && e.message[..|FailedPrefix|] == FailedPrefix
    ensures |fault.reason| <= |e.message| && e.message[|e.message| - |fault.reason|..] == fault.reason
  {
    var e := SendResponse(NoData, 500, FailedPrefix + FaultMessage(fault));
    assert e.message[|e.message| - |fault.reason|..] == FaultMessage(fault)[|FaultMessage(fault)| - |fault.reason|..];
    e
  }

  /**
   * The row the shipment INSERT writes; the id is assigned by the insert.
   * Every text field but the weight is sanitised, so none holds `<` or `>`.
   */
  function NewShipment(input: Body, trackingNumber: string, now: int): (s: Shipment)
    ensures s.trackingNumber == trackingNumber && s.createdAt == now && s.updatedAt == now
    ensures s.weight == FieldOr(input, "weight", "")
    ensures HtmlUnescape(s.origin) == StripSlashes(Trim(FieldOr(input, "origin", "")))
    ensures HtmlUnescape(s.destination) == StripSlashes(Trim(FieldOr(input, "destination", "")))
    ensures HtmlUnescape(s.serviceType) == StripSlashes(Trim(FieldOr(input, "service_type", "")))
    ensures HtmlUnescape(s.carrier) == StripSlashes(Trim(FieldOr(input, "carrier", DefaultCarrier)))
    ensures HtmlUnescape(s.estimatedDelivery) == StripSlashes(Trim(FieldOr(input, "estimated_delivery", "")))
    ensures HtmlUnescape(s.currentStatus) == StripSlashes(Trim(FieldOr(input, "current_status", DefaultStatus)))
    ensures HtmlUnescape(s.currentStatusDescription)
         == StripSlashes(Trim(FieldOr(input, "current_status_description", DefaultDescription)))
    ensures NoAngleBrackets(s.origin) && NoAngleBrackets(s.destination) && NoAngleBrackets(s.serviceType)
    ensures NoAngleBrackets(s.carrier) && NoAngleBrackets(s.estimatedDelivery)
    ensures NoAngleBrackets(s.currentStatus) && NoAngleBrackets(s.currentStatusDescription)
  {
    var origin, destination := FieldOr(input, "origin", ""), FieldOr(input, "destination", "");
    var serviceType, carrier := FieldOr(input, "service_type", ""), FieldOr(input, "carrier", DefaultCarrier);
    var estimated := FieldOr(input, "estimated_delivery", "");
    var status := FieldOr(input, "current_status", DefaultStatus);
    var description := FieldOr(input, "current_status_description", DefaultDescription);
    SanitizeIsReversibleEscape(origin);
    SanitizeIsReversibleEscape(destination);
    SanitizeIsReversibleEscape(serviceType);
    SanitizeIsReversibleEscape(carrier);
    SanitizeIsReversibleEscape(estimated);
    SanitizeIsReversibleEscape(status);
    SanitizeIsReversibleEscape(description);
    Shipment(0, trackingNumber,
             SanitizeInput(origin), SanitizeInput(destination), FieldOr(input, "weight", ""),
             SanitizeInput(serviceType), SanitizeInput(carrier), SanitizeInput(estimated),
             SanitizeInput(status), SanitizeInput(description),
             now, now)
  }

  /**
   * Each column holds its own field: when every text field that was sent is
   * plain text, the row stores it as it was sent, an absent optional field
   * stores its default, and the weight is the text that was sent.
   */
  lemma StoredFieldsOfPlainInput(input: Body, trackingNumber: string, now: int)
    requires PlainText(FieldOr(input, "origin", "")) && PlainText(FieldOr(input, "destination", ""))
    requires PlainText(FieldOr(input, "service_type", "")) && PlainText(FieldOr(input, "estimated_delivery", ""))
    requires input.Some? && "carrier" in input.value ==> PlainText(input.value["carrier"])
    requires input.Some? && "current_status" in input.value ==> PlainText(input.value["current_status"])
    requires input.Some? && "current_status_description" in input.value
             ==> PlainText(input.value["current_status_description"])
    ensures var s := NewShipment(input, trackingNumber, now);
      && s.origin == FieldOr(input, "origin", "") && s.destination == FieldOr(input, "destination", "")
      && s.weight == FieldOr(input, "weight", "") && s.serviceType == FieldOr(input, "service_type", "")
      && s.carrier == FieldOr(input, "carrier", "MAX Logistics")
      && s.estimatedDelivery == FieldOr(input, "estimated_delivery", "")
      && s.currentStatus == FieldOr(input, "current_status", "Processing")
      && s.currentStatusDescription == FieldOr(input, "current_status_description", "Package received and being processed")
  {
    SanitizeKeepsPlainText(FieldOr(input, "origin", ""));
    SanitizeKeepsPlainText(FieldOr(input, "destination", ""));
    SanitizeKeepsPlainText(FieldOr(input, "service_type", ""));
    SanitizeKeepsPlainText(FieldOr(input, "estimated_delivery", ""));
    if input.Some? && "carrier" in input.value {
      SanitizeKeepsPlainText(input.value["carrier"]);
    } else {
      DefaultCarrierSurvives();
    }
    if input.Some? && "current_status" in input.value {
      SanitizeKeepsPlainText(input.value["current_status"]);
    } else {
      DefaultStatusSurvives();
    }
    if input.Some? && "current_status_description" in input.value {
      SanitizeKeepsPlainText(input.value["current_status_description"]);
    } else {
      DefaultDescriptionSurvives();
    }
  }

  /** The first history row: the shipment's own status, at its origin, dated now. */
  function InitialRow(s: Shipment, now: int): HistoryRow {
    HistoryRow(s.id, s.currentStatus, s.currentStatusDescription, s.origin, now)
  }

  /** The answer to a POST and the tables it leaves behind. */
  datatype Outcome = Outcome(envelope: Envelope, shipments: seq<Shipment>, history: seq<HistoryRow>, nextId: nat)

  /** `strtoupper(sanitizeInput($input['tracking_number'] ?? ''))`. */
  function SubmittedNumber(input: Body): string {
    ToUpper(SanitizeInput(FieldOr(input, "tracking_number", "")))
  }

  /**
   * A POST, with the format check as written. Only 201 succeeds; a 400 or a
   * 409 writes nothing; the shipments table at most gains the submitted
   * shipment, under the next id, and only when its number passed the check,
   * so the tables keep every stored number one the check accepts.
   */
  function PostOutcome(input: Body, shipments: seq<Shipment>, history: seq<HistoryRow>, nextId: nat,
                       now: int, fault: Fault): (o: Outcome)
    ensures o.envelope.code in {201, 400, 409, 500}
    ensures o.envelope.success <==> o.envelope.code == 201
    ensures o.envelope.code == 400 <==> FirstMissing(input, 0).Some? || !ValidateTrackingNumber(SubmittedNumber(input))
    ensures o.envelope.code in {400, 409} ==> o.shipments == shipments && o.history == history && o.nextId == nextId
    ensures || o.shipments == shipments
            || (&& FirstMissing(input, 0).None? && ValidateTrackingNumber(SubmittedNumber(input))
                && o.shipments == shipments + [NewShipment(input, SubmittedNumber(input), now).(id := nextId)])
    ensures o.nextId == nextId + |o.shipments| - |shipments|
    ensures NumbersAccepted(shipments) ==> NumbersAccepted(o.shipments)
  {
    match FirstMissing(input, 0)
    case Some(k) =>
      Outcome(SendResponse(NoData, 400, MissingMessage(RequiredFields[k])), shipments, history, nextId)
    case None =>
      var trackingNumber := SubmittedNumber(input);
      if !ValidateTrackingNumber(trackingNumber) then
        Outcome(SendResponse(NoData, 400, Track.MsgInvalid), shipments, history, nextId)
      else
        AppendKeepsAccepted(shipments, NewShipment(input, trackingNumber, now).(id := nextId));
        StoreOutcome(NewShipment(input, trackingNumber, now), shipments, history, nextId, now, fault)
  }

  /**
   * The database half of a POST whose fields passed: connect, look for a
   * duplicate, insert. It answers 201 exactly when no statement fails and the
   * number is new, 409 exactly when the lookup runs and finds the number; a
   * history row is only ever written together with its shipment.
   */
  function StoreOutcome(shipment: Shipment, shipments: seq<Shipment>, history: seq<HistoryRow>, nextId: nat,
                        now: int, fault: Fault): (o: Outcome)
    ensures o.envelope.code in {201, 409, 500}
    ensures o.envelope.success <==> o.envelope.code == 201
    ensures o.envelope.code == 201 <==> fault.NoFault? && FindByTrackingNumber(shipments, shipment.trackingNumber).None?
    ensures o.envelope.code == 409 <==>
              !fault.ConnectFails? && !fault.LookupFails? && FindByTrackingNumber(shipments, shipment.trackingNumber).Some?
    ensures o.shipments == shipments || o.shipments == shipments + [shipment.(id := nextId)]
    ensures o.nextId == nextId + |o.shipments| - |shipments|
    ensures o.history == history || (o.envelope.code == 201 && o.history == history + [InitialRow(shipment.(id := nextId), now)])
  {
    var trackingNumber := shipment.trackingNumber;
    if fault.ConnectFails? || fault.LookupFails? then
      Outcome(FailedAnswer(fault), shipments, history, nextId)
    else if FindByTrackingNumber(shipments, trackingNumber).Some? then
      Outcome(SendResponse(NoData, 409, MsgDuplicate), shipments, history, nextId)
    else if fault.ShipmentInsertFails? then
      Outcome(FailedAnswer(fault), shipments, history, nextId)
    else
      var s := shipment.(id := nextId);
      if fault.HistoryInsertFails? then
        Outcome(FailedAnswer(fault), shipments + [s], history, nextId + 1)
      else
        Outcome(SendResponse(Created(nextId, trackingNumber, NoteCreated), 201, MsgCreated),
                shipments + [s], history + [InitialRow(s, now)], nextId + 1)
  }

  /** The POST handler: check the required fields and the number, then store. */
  method HandlePost(db: Db, input: Body, now: int, fault: Fault) returns (e: Envelope)
    requires db.Valid()
    modifies db`shipments, db`history, db`nextId
    ensures db.Valid()
    ensures var o := PostOutcome(input, old(db.shipments), old(db.history), old(db.nextId), now, fault);
      e == o.envelope && db.shipments == o.shipments && db.history == o.history && db.nextId == o.nextId
  {
    var missing := CheckRequiredFields(input);
    if missing.Some? {
      return SendResponse(NoData, 400, MissingMessage(RequiredFields[missing.value]));
    }
    var trackingNumber := SubmittedNumber(input);
    if !ValidateTrackingNumber(trackingNumber) {
      return SendResponse(NoData, 400, Track.MsgInvalid);
    }
    e := StoreNew(db, NewShipment(input, trackingNumber, now), now, fault);
  }

  /** The database half of the handler. */
  method StoreNew(db: Db, shipment: Shipment, now: int, fault: Fault) returns (e: Envelope)
    requires db.Valid()
    modifies db`shipments, db`history, db`nextId
    ensures db.Valid()
    ensures var o := StoreOutcome(shipment, old(db.shipments), old(db.history), old(db.nextId), now, fault);
      e == o.envelope && db.shipments == o.shipments && db.history == o.history && db.nextId == o.nextId
  {
    if fault.ConnectFails? || fault.LookupFails? {
      return FailedAnswer(fault);
    }
    if FindByTrackingNumber(db.shipments, shipment.trackingNumber).Some? {
      return SendResponse(NoData, 409, MsgDuplicate);
    }
    if fault.ShipmentInsertFails? {
      return FailedAnswer(fault);
    }
    var shipmentId := db.InsertShipment(shipment);
    if fault.HistoryInsertFails? {
      return FailedAnswer(fault);
    }
    assert db.shipments[|db.shipments| - 1].id == shipmentId;
    db.InsertHistory(InitialRow(shipment.(id := shipmentId), now));
    e := SendResponse(Created(shipmentId, shipment.trackingNumber, NoteCreated), 201, MsgCreated);
  }

  /**
   * The POST as intended: a number that passes the written check only because
   * of its final "\n" is refused as malformed. It answers like the written
   * POST on every other input, and it keeps every stored number `MAX` and
   * nine digits.
   */
  function CorrectedPostOutcome(input: Body, shipments: seq<Shipment>, history: seq<HistoryRow>, nextId: nat,
                                now: int, fault: Fault): (o: Outcome)
    ensures NumbersWellFormed(shipments) ==> NumbersWellFormed(o.shipments)
    ensures o != PostOutcome(input, shipments, history, nextId, now, fault) ==>
      && |SubmittedNumber(input)| == 13 && SubmittedNumber(input)[12] == '\n'
      && o == Outcome(SendResponse(NoData, 400, Track.MsgInvalid), shipments, history, nextId)
  {
    var trackingNumber := SubmittedNumber(input);
    if FirstMissing(input, 0).None? && !IsValidTrackingNumber(trackingNumber) then
      IntendedCheckIsStricter(trackingNumber);
      Outcome(SendResponse(NoData, 400, Track.MsgInvalid), shipments, history, nextId)
    else
      AppendKeepsWellFormed(shipments, NewShipment(input, trackingNumber, now).(id := nextId));
      PostOutcome(input, shipments, history, nextId, now, fault)
  }

  // ------------------------------------------------------- what POST promises

  /**
   * The written check lets "MAX123456789\n\" through: the POST stores the
   * thirteen-character number "MAX123456789\n" and answers 201, leaving a
   * number no GET for "MAX123456789" finds. The intended POST answers 400
   * and writes nothing.
   */
  lemma NewlineNumberStored(input: Body, shipments: seq<Shipment>, history: seq<HistoryRow>, nextId: nat, now: int)
    requires FirstMissing(input, 0).None?
    requires FieldOr(input, "tracking_number", "") == "MAX123456789\n\\"
    requires FindByTrackingNumber(shipments, "MAX123456789\n").None?
    ensures var o := PostOutcome(input, shipments, history, nextId, now, NoFault);
      && o.envelope.code == 201
      && o.shipments == shipments + [NewShipment(input, "MAX123456789\n", now).(id := nextId)]
      && |o.shipments[|shipments|].trackingNumber| == 13
      && !NumbersWellFormed(o.shipments)
    ensures CorrectedPostOutcome(input, shipments, history, nextId, now, NoFault)
         == Outcome(SendResponse(NoData, 400, Track.MsgInvalid), shipments, history, nextId)
  {
    SanitizedNumberWithFinalNewline();
    var s := NewShipment(input, "MAX123456789\n", now).(id := nextId);
    SuccessOutcome(input, shipments, history, nextId, now);
    assert (shipments + [s])[|shipments|] == s;
  }

  /**
   * The first empty required field, in the order tracking_number, origin,
   * destination, weight, service_type, is named in a 400 and nothing is written.
   */
  lemma MissingFieldIs400(input: Body, shipments: seq<Shipment>, history: seq<HistoryRow>, nextId: nat,
                          now: int, fault: Fault, k: nat)
    requires k < |RequiredFields| && IsEmptyValue(Field(input, RequiredFields[k]))
    requires forall j :: 0 <= j < k ==> !IsEmptyValue(Field(input, RequiredFields[j]))
    ensures PostOutcome(input, shipments, history, nextId, now, fault)
         == Outcome(SendResponse(NoData, 400, MissingMessage(RequiredFields[k])), shipments, history, nextId)
  {
    var m := FirstMissing(input, 0);
    assert m.Some?;
    assert m.value == k;
  }

  /** A body that is not a JSON object is reported as lacking the tracking number. */
  lemma NoBodyNamesTrackingNumber(shipments: seq<Shipment>, history: seq<HistoryRow>, nextId: nat, now: int, fault: Fault)
    ensures PostOutcome(None, shipments, history, nextId, now, fault).envelope
         == SendResponse(NoData, 400, MissingMessage("tracking_number"))
  {
    MissingFieldIs400(None, shipments, history, nextId, now, fault, 0);
  }

  /** A number that is malformed after sanitising and upper-casing is a 400 that writes nothing. */
  lemma MalformedNumberIs400(input: Body, shipments: seq<Shipment>, history: seq<HistoryRow>, nextId: nat,
                             now: int, fault: Fault)
    requires FirstMissing(input, 0).None?
    requires !ValidateTrackingNumber(ToUpper(SanitizeInput(FieldOr(input, "tracking_number", ""))))
    ensures PostOutcome(input, shipments, history, nextId, now, fault)
         == Outcome(SendResponse(NoData, 400, Track.MsgInvalid), shipments, history, nextId)
  {
  }

  /** A number some shipment already carries is a 409 that writes nothing. */
  lemma DuplicateIs409(input: Body, shipments: seq<Shipment>, history: seq<HistoryRow>, nextId: nat,
                       now: int, fault: Fault, k: nat)
    requires FirstMissing(input, 0).None? && k < |shipments|
    requires ToUpper(SanitizeInput(FieldOr(input, "tracking_number", ""))) == shipments[k].trackingNumber
    requires ValidateTrackingNumber(shipments[k].trackingNumber)
    requires !fault.ConnectFails? && !fault.LookupFails?
    ensures PostOutcome(input, shipments, history, nextId, now, fault)
         == Outcome(SendResponse(NoData, 409, MsgDuplicate), shipments, history, nextId)
  {
  }

  /**
   * A POST that gets past the checks and meets no fault adds exactly one
   * shipment, with the next id, and exactly one history row for it, and
   * answers 201 with that id and the upper-cased tracking number.
   */
  lemma SuccessAddsOneOfEach(input: Body, shipments: seq<Shipment>, history: seq<HistoryRow>, nextId: nat, now: int)
    requires FirstMissing(input, 0).None?
    requires var tn := ToUpper(SanitizeInput(FieldOr(input, "tracking_number", "")));
      ValidateTrackingNumber(tn) && FindByTrackingNumber(shipments, tn).None?
    ensures var tn := ToUpper(SanitizeInput(FieldOr(input, "tracking_number", "")));
      var o := PostOutcome(input, shipments, history, nextId, now, NoFault);
      && o.envelope.code == 201 && o.envelope.success
      && o.envelope.data == Created(nextId, tn, NoteCreated)
      && |o.shipments| == |shipments| + 1 && o.shipments[..|shipments|] == shipments
      && o.shipments[|shipments|].id == nextId && o.shipments[|shipments|].trackingNumber == tn
      && o.history == history + [InitialRow(o.shipments[|shipments|], now)]
      && o.nextId == nextId + 1
  {
    var tn := ToUpper(SanitizeInput(FieldOr(input, "tracking_number", "")));
    var s := NewShipment(input, tn, now).(id := nextId);
    SuccessOutcome(input, shipments, history, nextId, now);
    assert (shipments + [s])[..|shipments|] == shipments;
  }

  /** The sanitised defaults are the literal defaults: none of them has anything to escape. */
  lemma DefaultCarrierSurvives()
    ensures SanitizeInput(DefaultCarrier) == DefaultCarrier
  {
    var d := DefaultCarrier;
    assert forall i :: 0 <= i < |d| ==> d[i] != '\\' && !IsHtmlSpecial(d[i]);
    SanitizeKeepsPlainText(d);
  }

  lemma DefaultStatusSurvives()
    ensures SanitizeInput(DefaultStatus) == DefaultStatus
  {
    var d := DefaultStatus;
    assert forall i :: 0 <= i < |d| ==> d[i] != '\\' && !IsHtmlSpecial(d[i]);
    SanitizeKeepsPlainText(d);
  }

  lemma DefaultDescriptionSurvives()
    ensures SanitizeInput(DefaultDescription) == DefaultDescription
  {
    var d := DefaultDescription;
    assert forall i :: 0 <= i < |d| ==> d[i] != '\\' && !IsHtmlSpecial(d[i]);
    SanitizeKeepsPlainText(d);
  }

  /**
   * Without the optional fields a new shipment is carried by MAX Logistics, is
   * Processing with the stock description and has no estimated delivery; the
   * first history row repeats that status at the origin.
   */
  lemma DefaultsApplied(input: Body, trackingNumber: string, now: int)
    requires input.Some?
    requires "carrier" !in input.value && "estimated_delivery" !in input.value
    requires "current_status" !in input.value && "current_status_description" !in input.value
    ensures var s := NewShipment(input, trackingNumber, now);
      && s.carrier == "MAX Logistics" && s.estimatedDelivery == ""
      && s.currentStatus == "Processing"
      && s.currentStatusDescription == "Package received and being processed"
      && InitialRow(s, now).status == "Processing"
      && InitialRow(s, now).location == s.origin
      && InitialRow(s, now).date == now
  {
    DefaultCarrierSurvives();
    DefaultStatusSurvives();
    DefaultDescriptionSurvives();
    SanitizeKeepsPlainText("");
  }

  /** With no transaction, a failing history insert leaves the new shipment behind, with no history. */
  lemma HistoryFailureKeepsShipment(input: Body, shipments: seq<Shipment>, history: seq<HistoryRow>, nextId: nat,
                                    now: int, reason: string)
    requires TablesValid(shipments, history, nextId)
    requires FirstMissing(input, 0).None?
    requires var tn := ToUpper(SanitizeInput(FieldOr(input, "tracking_number", "")));
      ValidateTrackingNumber(tn) && FindByTrackingNumber(shipments, tn).None?
    ensures var o := PostOutcome(input, shipments, history, nextId, now, HistoryInsertFails(reason));
      && o.envelope == SendResponse(NoData, 500, "Failed to add shipment: " + reason)
      && |o.shipments| == |shipments| + 1 && o.history == history
      && RowsOf(o.history, nextId) == []
  {
    NoRowsForNextId(shipments, history, nextId);
  }

  /** A successful POST appends the new shipment under the next id and its initial row. */
  lemma SuccessOutcome(input: Body, shipments: seq<Shipment>, history: seq<HistoryRow>, nextId: nat, now: int)
    requires FirstMissing(input, 0).None?
    requires var tn := ToUpper(SanitizeInput(FieldOr(input, "tracking_number", "")));
      ValidateTrackingNumber(tn) && FindByTrackingNumber(shipments, tn).None?
    ensures var tn := ToUpper(SanitizeInput(FieldOr(input, "tracking_number", "")));
      var s := NewShipment(input, tn, now).(id := nextId);
      PostOutcome(input, shipments, history, nextId, now, NoFault)
      == Outcome(SendResponse(Created(nextId, tn, NoteCreated), 201, MsgCreated),
                 shipments + [s], history + [InitialRow(s, now)], nextId + 1)
  {
  }

  /** Tracking a shipment just stored with its initial row answers 200 with that row as the whole timeline. */
  lemma TrackNewShipment(shipments: seq<Shipment>, history: seq<HistoryRow>, nextId: nat, s: Shipment, now: int,
                         req: Track.Request)
    requires TablesValid(shipments, history, nextId)
    requires s.id == nextId
    requires FindByTrackingNumber(shipments, s.trackingNumber).None?
    requires Track.AcceptedNumber(req) == Some(s.trackingNumber)
    ensures var reply := Track.TrackReply(req, shipments + [s], history + [InitialRow(s, now)], false);
      && reply.Json? && reply.envelope.code == 200 && reply.envelope.data.Tracking?
      && reply.envelope.data.info.timeline == [Track.Entry(InitialRow(s, now), s.currentStatus)]
  {
    var after := shipments + [s];
    var row := InitialRow(s, now);
    AddShipmentKeepsValid(shipments, history, nextId, s);
    assert after[|shipments|] == s;
    AddHistoryKeepsValid(after, history, nextId + 1, row);
    Track.FoundNumberIs200(req, after, history + [row], nextId + 1, |shipments|);
    NewShipmentHasOneRow(shipments, history, nextId, row);
    SingleRowTimeline(row, s.currentStatus);
  }

  /**
   * Right after a successful POST, tracking the new number answers 200 with a
   * one-entry timeline: the initial row, marked current.
   */
  lemma TrackAfterAdd(input: Body, shipments: seq<Shipment>, history: seq<HistoryRow>, nextId: nat, now: int,
                      req: Track.Request)
    requires TablesValid(shipments, history, nextId)
    requires FirstMissing(input, 0).None?
    requires var tn := ToUpper(SanitizeInput(FieldOr(input, "tracking_number", "")));
      ValidateTrackingNumber(tn) && FindByTrackingNumber(shipments, tn).None?
      && Track.AcceptedNumber(req) == Some(tn)
    ensures var o := PostOutcome(input, shipments, history, nextId, now, NoFault);
      var reply := Track.TrackReply(req, o.shipments, o.history, false);
      && reply.Json? && reply.envelope.code == 200 && reply.envelope.data.Tracking?
      && |reply.envelope.data.info.timeline| == 1
      && reply.envelope.data.info.timeline[0].status == Current
      && reply.envelope.data.info.timeline[0].location == SanitizeInput(FieldOr(input, "origin", ""))
      && reply.envelope.data.info.timeline[0].date == now
  {
    var tn := ToUpper(SanitizeInput(FieldOr(input, "tracking_number", "")));
    var s := NewShipment(input, tn, now).(id := nextId);
    SuccessOutcome(input, shipments, history, nextId, now);
    TrackNewShipment(shipments, history, nextId, s, now, req);
    SingleRowTimeline(InitialRow(s, now), s.currentStatus);
  }

  /** A shipment given the next id and one new history row has exactly that row. */
  lemma NewShipmentHasOneRow(shipments: seq<Shipment>, history: seq<HistoryRow>, nextId: nat, row: HistoryRow)
    requires TablesValid(shipments, history, nextId) && row.shipmentId == nextId
    ensures RowsOf(history + [row], nextId) == [row]
  {
    NoRowsForNextId(shipments, history, nextId);
    RowsOfAppend(history, [row], nextId);
    assert RowsOf([row], nextId) == [row];
  }

  /** A single row makes a single timeline entry; it is current when it carries the current status. */
  lemma SingleRowTimeline(row: HistoryRow, currentStatus: string)
    ensures Track.Timeline(SortByDate([row]), currentStatus) == [Track.Entry(row, currentStatus)]
    ensures row.status == currentStatus ==> Track.Entry(row, currentStatus).status == Current
  {
    var sorted := SortByDate([row]);
    assert multiset(sorted) == multiset{row};
    assert sorted == [row] by {
      assert |sorted| == 1;
      assert sorted[0] in multiset(sorted);
    }
  }

  /** Every POST outcome keeps the tables' invariants. */
  lemma PostKeepsTablesValid(input: Body, shipments: seq<Shipment>, history: seq<HistoryRow>, nextId: nat,
                             now: int, fault: Fault)
    requires TablesValid(shipments, history, nextId)
    ensures var o := PostOutcome(input, shipments, history, nextId, now, fault);
      TablesValid(o.shipments, o.history, o.nextId)
  {
    var tn := ToUpper(SanitizeInput(FieldOr(input, "tracking_number", "")));
    if FirstMissing(input, 0).None? && ValidateTrackingNumber(tn) {
      StoreKeepsTablesValid(NewShipment(input, tn, now), shipments, history, nextId, now, fault);
    }
  }

  /** So does its database half, for any shipment. */
  lemma StoreKeepsTablesValid(shipment: Shipment, shipments: seq<Shipment>, history: seq<HistoryRow>, nextId: nat,
                              now: int, fault: Fault)
    requires TablesValid(shipments, history, nextId)
    ensures var o := StoreOutcome(shipment, shipments, history, nextId, now, fault);
      TablesValid(o.shipments, o.history, o.nextId)
  {
    if && !fault.ConnectFails? && !fault.LookupFails? && !fault.ShipmentInsertFails?
       && FindByTrackingNumber(shipments, shipment.trackingNumber).None?
    {
      var s := shipment.(id := nextId);
      AddShipmentKeepsValid(shipments, history, nextId, s);
      if !fault.HistoryInsertFails? {
        assert s.id in IdsOf(shipments + [s]) by {
          assert (shipments + [s])[|shipments|] == s;
        }
        AddHistoryKeepsValid(shipments + [s], history, nextId + 1, InitialRow(s, now));
      }
    }
  }

  // -------------------------------------------------------------- GET listing

  /** The columns the listing selects. */
  function ListingOf(s: Shipment): ListingRow {
    ListingRow(s.id, s.trackingNumber, s.origin, s.destination, s.currentStatus, s.createdAt)
  }

  function ListingsOf(shipments: seq<Shipment>): (r: seq<ListingRow>)
    ensures |r| == |shipments|
  {
    seq(|shipments|, i requires 0 <= i < |shipments| => ListingOf(shipments[i]))
  }

  /** The sort key of `ORDER BY created_at DESC`. */
  function NewestFirst(row: ListingRow): int {
    -row.createdAt
  }

  const ListingLimit := 50

  /** `SELECT ... ORDER BY created_at DESC LIMIT 50`. */
  function Newest(shipments: seq<Shipment>): (r: seq<ListingRow>)
    ensures |r| == if |shipments| < ListingLimit then |shipments| else ListingLimit
    ensures forall i, j :: 0 <= i < j < |r| ==> r[i].createdAt >= r[j].createdAt
    ensures multiset(r) <= multiset(ListingsOf(shipments))
  {
    var all := ListingsOf(shipments);
    var sorted := Sorting.SortBy(all, NewestFirst);
    Sorting.SortByLength(all, NewestFirst);
    var n := if |sorted| < ListingLimit then |sorted| else ListingLimit;
    Sorting.SortedPrefix(sorted, NewestFirst, n);
    sorted[..n]
  }

  /** What the LIMIT leaves out was created no later than anything listed. */
  lemma NewestIsTop(shipments: seq<Shipment>)
    ensures var r := Newest(shipments);
      forall x :: x in multiset(ListingsOf(shipments)) - multiset(r) ==>
        forall i :: 0 <= i < |r| ==> r[i].createdAt >= x.createdAt
  {
    var all := ListingsOf(shipments);
    var sorted := Sorting.SortBy(all, NewestFirst);
    Sorting.SortByLength(all, NewestFirst);
    var n := if |sorted| < ListingLimit then |sorted| else ListingLimit;
    Sorting.SortedPrefixIsTop(sorted, NewestFirst, n);
    assert Newest(shipments) == sorted[..n];
  }

  /** With at most 50 shipments the listing shows each of them once. */
  lemma FewShipmentsAllListed(shipments: seq<Shipment>)
    requires |shipments| <= ListingLimit
    ensures multiset(Newest(shipments)) == multiset(ListingsOf(shipments))
  {
    var all := ListingsOf(shipments);
    Sorting.SortByLength(all, NewestFirst);
    var sorted := Sorting.SortBy(all, NewestFirst);
    assert sorted[..|sorted|] == sorted;
  }

  /** The GET handler: the listing, or a 500 that names no cause. */
  method HandleGet(db: Db, storeFails: bool) returns (e: Envelope)
    ensures storeFails ==> e == SendResponse(NoData, 500, MsgListFailed) && !e.success
    ensures !storeFails ==> e == SendResponse(Listing(Newest(db.shipments)), 200, MsgListed) && e.success
  {
    if storeFails {
      return SendResponse(NoData, 500, MsgListFailed);
    }
    var rows := Newest(db.shipments);
    e := SendResponse(Listing(rows), 200, MsgListed);
  }
}

/**
 * The tracking endpoint: read the tracking number from the query string
 * (GET) or the JSON body (POST), sanitise and validate it, log the lookup,
 * then answer 400, 404, 500 or 200 with the shipment and its timeline,
 * each history event classified as completed, current or pending.
 */
module Track {
  import opened Wrappers
  import opened PhpStrings
  import opened Schema
  import opened Config
  import opened Store
  import Sorting

  /** What the handler reads of an HTTP request. */
  datatype Request = Request(
    verb: string,                       // REQUEST_METHOD
    query: map<string, string>,         // the query-string parameters
    body: Option<map<string, string>>,  // the decoded JSON body; None when it is not a JSON object
    remoteAddr: Option<string>,
    userAgent: Option<string>)

  // ------------------------------------------------- determineTimelineStatus

  /** The six lifecycle labels the classifier knows. */
  const KnownLabels: set<string> :=
    {"Package Received", "Package Picked Up", "In Transit", "Out for Delivery", "Delivered", "Exception"}

  /** The lookup table determineTimelineStatus() consults for events that are not current. */
  const StatusMap: map<string, TimelineStatus> := map[
    "Package Received" := Completed,
    "Package Picked Up" := Completed,
    "In Transit" := Completed,
    "Out for Delivery" := Completed,
    "Delivered" := Completed,
    "Exception" := Completed]

  /**
   * determineTimelineStatus(): an event is `current` when its label is the
   * shipment's current status (case-sensitive), otherwise `completed` when its
   * label is one of the six known ones, otherwise `pending`. Dates play no part.
   */
  function DetermineTimelineStatus(eventStatus: string, currentStatus: string): (r: TimelineStatus)
    ensures r == Current <==> eventStatus == currentStatus
    ensures r == Completed <==> eventStatus != currentStatus && eventStatus in KnownLabels
    ensures r == Pending <==> eventStatus != currentStatus && eventStatus !in KnownLabels
  {
    if eventStatus == currentStatus then Current
    else if eventStatus in StatusMap then StatusMap[eventStatus]
    else Pending
  }

  /** Matching is exact: a lower-case label matches neither the current status nor the known labels. */
  lemma ClassificationIsCaseSensitive()
    ensures DetermineTimelineStatus("in transit", "In Transit") == Pending
    ensures DetermineTimelineStatus("Processing", "Processing") == Current
    ensures DetermineTimelineStatus("Processing", "In Transit") == Pending
  {
    assert "in transit" !in KnownLabels by {
      assert "in transit"[0] != "In Transit"[0];
    }
  }

  /**
   * For a shipment in transit, the picked-up event is completed, the in-transit
   * event current, and an event with a label the classifier does not know pending.
   */
  lemma InTransitExample(unknownLabel: string)
    requires unknownLabel !in KnownLabels && unknownLabel != "In Transit"
    ensures DetermineTimelineStatus("Package Picked Up", "In Transit") == Completed
    ensures DetermineTimelineStatus("In Transit", "In Transit") == Current
    ensures DetermineTimelineStatus(unknownLabel, "In Transit") == Pending
  {
  }

  // ---------------------------------------------------------- the handler

  const MsgRequired := "Tracking number is required"
  const MsgInvalid := "Invalid tracking number format. Please use format: MAX followed by 9 digits"
  const MsgInternal := "Internal server error. Please try again later."
  const MsgNotFound := "Tracking number not found"
  const MsgRetrieved := "Tracking information retrieved successfully"

  /** The sanitised `tracking_number` parameter: from the query string on GET, the JSON body on POST. */
  function RequestedNumber(req: Request): (r: Option<string>)
    ensures r.Some? ==> req.verb == "GET" || req.verb == "POST"
  {
    if req.verb == "GET" then
      if "tracking_number" in req.query then Some(SanitizeInput(req.query["tracking_number"])) else None
    else if req.verb == "POST" then
      if req.body.Some? && "tracking_number" in req.body.value
      then Some(SanitizeInput(req.body.value["tracking_number"]))
      else None
    else None
  }

  /**
   * The upper-cased tracking number, when the request gets past both 400
   * checks: it passes validateTrackingNumber() as written, so it is twelve
   * characters long, or thirteen with a final newline.
   */
  function AcceptedNumber(req: Request): (r: Option<string>)
    ensures r.Some? ==> ValidateTrackingNumber(r.value) && 12 <= |r.value| <= 13
  {
    var given := RequestedNumber(req);
    if req.verb == "OPTIONS" || IsEmptyValue(given) then None
    else if ValidateTrackingNumber(ToUpper(given.value)) then Some(ToUpper(given.value))
    else None
  }

  /** One timeline entry, made from one history row. */
  function Entry(row: HistoryRow, currentStatus: string): TimelineEntry {
    TimelineEntry(row.status, row.description, row.location, row.date,
                  DetermineTimelineStatus(row.status, currentStatus))
  }

  function Timeline(rows: seq<HistoryRow>, currentStatus: string): seq<TimelineEntry> {
    seq(|rows|, i requires 0 <= i < |rows| => Entry(rows[i], currentStatus))
  }

  /** The `data` object of a 200 answer. */
  function Info(s: Shipment, timeline: seq<TimelineEntry>): TrackingInfo {
    TrackingInfo(s.trackingNumber, s.currentStatus, s.currentStatusDescription, s.updatedAt,
                 s.origin, s.destination, s.estimatedDelivery, s.weight + " kg",
                 s.serviceType, s.carrier, timeline)
  }

  /** The answer to a request, given the tables it reads and whether the database fails. */
  function TrackReply(req: Request, shipments: seq<Shipment>, history: seq<HistoryRow>, storeFails: bool): (r: Reply)
    ensures r.Preflight? <==> req.verb == "OPTIONS"
    ensures r.Json? ==> r.envelope.code in {200, 400, 404, 500}
    ensures r.Json? ==> (r.envelope.code == 400 <==> AcceptedNumber(req).None?)
  {
    if req.verb == "OPTIONS" then Preflight
    else
      var given := RequestedNumber(req);
      if IsEmptyValue(given) then Json(SendResponse(NoData, 400, MsgRequired))
      else
        var trackingNumber := ToUpper(given.value);
        if !ValidateTrackingNumber(trackingNumber) then Json(SendResponse(NoData, 400, MsgInvalid))
        else LookupReply(trackingNumber, shipments, history, storeFails)
  }

  /** The answer once the number is accepted: the shipment and its ordered history, or why not. */
  function LookupReply(trackingNumber: string, shipments: seq<Shipment>, history: seq<HistoryRow>,
                       storeFails: bool): (r: Reply)
    ensures r.Json? && r.envelope.success == (r.envelope.code == 200)
    ensures r.envelope.code == 500 <==> storeFails
    ensures r.envelope.code == 404 <==> !storeFails && FindByTrackingNumber(shipments, trackingNumber).None?
    ensures r.envelope.code == 200 <==> !storeFails && FindByTrackingNumber(shipments, trackingNumber).Some?
    ensures r.envelope.code == 200 ==>
              r.envelope.data.Tracking? && r.envelope.data.info.trackingNumber == trackingNumber
  {
    if storeFails then Json(SendResponse(NoData, 500, MsgInternal))
    else
      match FindByTrackingNumber(shipments, trackingNumber)
      case None => Json(SendResponse(NoData, 404, MsgNotFound))
      case Some(s) =>
        var timeline := Timeline(SortByDate(RowsOf(history, s.id)), s.currentStatus);
        Json(SendResponse(Tracking(Info(s, timeline)), 200, MsgRetrieved))
  }

  /**
   * The handler as intended: a number that passes the written check only
   * because of its final "\n" is refused as malformed. Every other request
   * is answered as before, and a JSON answer other than 400 is only ever
   * about a number that is `MAX` and nine digits.
   */
  function CorrectedTrackReply(req: Request, shipments: seq<Shipment>, history: seq<HistoryRow>,
                               storeFails: bool): (r: Reply)
    ensures r.Json? && r.envelope.code != 400 ==>
              AcceptedNumber(req).Some? && IsValidTrackingNumber(AcceptedNumber(req).value)
    ensures r != TrackReply(req, shipments, history, storeFails) ==>
      && AcceptedNumber(req).Some? && |AcceptedNumber(req).value| == 13 && AcceptedNumber(req).value[12] == '\n'
      && r == Json(SendResponse(NoData, 400, MsgInvalid))
  {
    var accepted := AcceptedNumber(req);
    if accepted.Some? && !IsValidTrackingNumber(accepted.value) then
      IntendedCheckIsStricter(accepted.value);
      Json(SendResponse(NoData, 400, MsgInvalid))
    else
      TrackReply(req, shipments, history, storeFails)
  }

  /**
   * The log row a request leaves behind: one row for an accepted number when
   * the database takes it, dated now, with "unknown" for a missing address
   * or user agent; nothing otherwise.
   */
  function LogRows(req: Request, now: int, databaseTakesIt: bool): (r: seq<LogEntry>)
    ensures |r| <= 1
    ensures |r| == 1 <==> AcceptedNumber(req).Some? && databaseTakesIt
    ensures |r| == 1 ==> r[0].trackingNumber == AcceptedNumber(req).value && r[0].requestedAt == now
    ensures |r| == 1 ==> r[0].ipAddress == (if req.remoteAddr.Some? then req.remoteAddr.value else "unknown")
    ensures |r| == 1 ==> r[0].userAgent == (if req.userAgent.Some? then req.userAgent.value else "unknown")
  {
    match AcceptedNumber(req)
    case None => []
    case Some(trackingNumber) =>
      if databaseTakesIt then
        [LogEntry(trackingNumber,
                  if req.remoteAddr.Some? then req.remoteAddr.value else "unknown",
                  if req.userAgent.Some? then req.userAgent.value else "unknown",
                  now)]
      else []
  }

  /** The `foreach` that turns the ordered history rows into timeline entries. */
  method FormatTimeline(rows: seq<HistoryRow>, currentStatus: string) returns (timeline: seq<TimelineEntry>)
    ensures |timeline| == |rows|
    ensures forall i :: 0 <= i < |rows| ==>
      && timeline[i].title == rows[i].status
      && timeline[i].description == rows[i].description
      && timeline[i].location == rows[i].location
      && timeline[i].date == rows[i].date
      && timeline[i].status == DetermineTimelineStatus(rows[i].status, currentStatus)
  {
    timeline := [];
    for k := 0 to |rows|
      invariant |timeline| == k
      invariant forall i :: 0 <= i < k ==> timeline[i] == Entry(rows[i], currentStatus)
    {
      timeline := timeline + [Entry(rows[k], currentStatus)];
    }
  }

  /**
   * The request handler. Logging is best-effort: whether the log insert
   * succeeds changes the log table and nothing else, not the answer.
   */
  method HandleTrack(db: Db, req: Request, now: int, logTakesIt: bool, storeFails: bool) returns (reply: Reply)
    requires db.Valid()
    modifies db`logs
    ensures reply == TrackReply(req, db.shipments, db.history, storeFails)
    ensures db.logs == old(db.logs) + LogRows(req, now, logTakesIt)
  {
    if req.verb == "OPTIONS" {
      return Preflight;
    }
    var given: Option<string> := None;
    if req.verb == "GET" {
      given := if "tracking_number" in req.query then Some(SanitizeInput(req.query["tracking_number"])) else None;
    } else if req.verb == "POST" {
      if req.body.Some? && "tracking_number" in req.body.value {
        given := Some(SanitizeInput(req.body.value["tracking_number"]));
      }
    }
    if IsEmptyValue(given) {
      return Json(SendResponse(NoData, 400, MsgRequired));
    }
    var trackingNumber := ToUpper(given.value);
    if !ValidateTrackingNumber(trackingNumber) {
      return Json(SendResponse(NoData, 400, MsgInvalid));
    }
    var ipAddress := if req.remoteAddr.Some? then req.remoteAddr.value else "unknown";
    var userAgent := if req.userAgent.Some? then req.userAgent.value else "unknown";
    db.LogTrackingRequest(trackingNumber, ipAddress, userAgent, now, logTakesIt);
    reply := Lookup(db, trackingNumber, storeFails);
  }

  /** The shipment query, the history query and the timeline loop. */
  method Lookup(db: Db, trackingNumber: string, storeFails: bool) returns (reply: Reply)
    ensures reply == LookupReply(trackingNumber, db.shipments, db.history, storeFails)
  {
    if storeFails {
      return Json(SendResponse(NoData, 500, MsgInternal));
    }
    var found := FindByTrackingNumber(db.shipments, trackingNumber);
    if found.None? {
      return Json(SendResponse(NoData, 404, MsgNotFound));
    }
    var shipment := found.value;
    var rows := SortByDate(RowsOf(db.history, shipment.id));
    var timeline := FormatTimeline(rows, shipment.currentStatus);
    assert timeline == Timeline(rows, shipment.currentStatus);
    reply := Json(SendResponse(Tracking(Info(shipment, timeline)), 200, MsgRetrieved));
  }

  /**
   * Tracking twice against unchanged tables gives the same answer twice,
   * whichever of the two log inserts the database takes, and at whatever times.
   */
  method TrackTwice(db: Db, req: Request, now: int, later: int, logFirst: bool, logSecond: bool, storeFails: bool)
    returns (first: Reply, second: Reply)
    requires db.Valid()
    modifies db`logs
    ensures first == second
    ensures db.logs == old(db.logs) + LogRows(req, now, logFirst) + LogRows(req, later, logSecond)
  {
    first := HandleTrack(db, req, now, logFirst, storeFails);
    second := HandleTrack(db, req, later, logSecond, storeFails);
  }

  // ------------------------------------------------ what the handler promises

  /** A request method other than GET, POST and OPTIONS carries no tracking number: 400, whatever the tables hold. */
  lemma OtherMethodIs400(req: Request, shipments: seq<Shipment>, history: seq<HistoryRow>, storeFails: bool)
    requires req.verb != "GET" && req.verb != "POST" && req.verb != "OPTIONS"
    ensures TrackReply(req, shipments, history, storeFails) == Json(SendResponse(NoData, 400, MsgRequired))
  {
  }

  /**
   * A missing or empty tracking number (PHP's empty() also counts "0") is
   * answered 400 before the database is touched: the answer does not depend
   * on the tables or on whether the database works.
   */
  lemma MissingNumberIs400(req: Request, shipments: seq<Shipment>, history: seq<HistoryRow>, storeFails: bool)
    requires req.verb != "OPTIONS" && IsEmptyValue(RequestedNumber(req))
    ensures TrackReply(req, shipments, history, storeFails) == Json(SendResponse(NoData, 400, MsgRequired))
  {
  }

  /** A number that fails the format check after upper-casing is answered 400, with no lookup. */
  lemma MalformedNumberIs400(req: Request, shipments: seq<Shipment>, history: seq<HistoryRow>, storeFails: bool)
    requires req.verb != "OPTIONS" && !IsEmptyValue(RequestedNumber(req))
    requires !ValidateTrackingNumber(ToUpper(RequestedNumber(req).value))
    ensures TrackReply(req, shipments, history, storeFails) == Json(SendResponse(NoData, 400, MsgInvalid))
  {
  }

  /** Any database failure after validation is answered 500 with a message that reveals nothing. */
  lemma StoreFailureIs500(req: Request, shipments: seq<Shipment>, history: seq<HistoryRow>)
    requires AcceptedNumber(req).Some?
    ensures TrackReply(req, shipments, history, true) == Json(SendResponse(NoData, 500, MsgInternal))
  {
  }

  /** A well-formed number no shipment carries is answered 404. */
  lemma UnknownNumberIs404(req: Request, shipments: seq<Shipment>, history: seq<HistoryRow>)
    requires AcceptedNumber(req).Some?
    requires forall i :: 0 <= i < |shipments| ==> shipments[i].trackingNumber != AcceptedNumber(req).value
    ensures TrackReply(req, shipments, history, false) == Json(SendResponse(NoData, 404, MsgNotFound))
  {
  }

  /** A stored number takes the last branch: 200 with that shipment and its ordered rows. */
  lemma FoundNumberReply(req: Request, shipments: seq<Shipment>, history: seq<HistoryRow>, nextId: nat, k: nat)
    requires TablesValid(shipments, history, nextId) && k < |shipments|
    requires AcceptedNumber(req) == Some(shipments[k].trackingNumber)
    ensures TrackReply(req, shipments, history, false)
         == Json(SendResponse(Tracking(Info(shipments[k], Timeline(SortByDate(RowsOf(history, shipments[k].id)),
                                                                   shipments[k].currentStatus))), 200, MsgRetrieved))
  {
    FindUnique(shipments, history, nextId, k);
  }

  /**
   * The written check lets "MAX123456789\n\" through: the request is logged
   * under "MAX123456789\n" and looked up, so it is answered 404 unless a
   * shipment carries that very number. The intended handler answers 400.
   */
  lemma NewlineNumberLookedUp(req: Request, shipments: seq<Shipment>, history: seq<HistoryRow>, now: int,
                              storeFails: bool)
    requires req.verb == "GET" && "tracking_number" in req.query
    requires req.query["tracking_number"] == "MAX123456789\n\\"
    ensures AcceptedNumber(req) == Some("MAX123456789\n")
    ensures |LogRows(req, now, true)| == 1 && LogRows(req, now, true)[0].trackingNumber == "MAX123456789\n"
    ensures (forall i :: 0 <= i < |shipments| ==> shipments[i].trackingNumber != "MAX123456789\n") ==>
              TrackReply(req, shipments, history, false) == Json(SendResponse(NoData, 404, MsgNotFound))
    ensures NumbersWellFormed(shipments) ==>
              TrackReply(req, shipments, history, false) == Json(SendResponse(NoData, 404, MsgNotFound))
    ensures CorrectedTrackReply(req, shipments, history, storeFails) == Json(SendResponse(NoData, 400, MsgInvalid))
  {
    SanitizedNumberWithFinalNewline();
    NewlineSuffixAccepted();
  }

  /** Once a number is accepted, the reply is the lookup of that number and nothing else of the request matters. */
  lemma AcceptedReply(req: Request, shipments: seq<Shipment>, history: seq<HistoryRow>, storeFails: bool)
    requires AcceptedNumber(req).Some?
    ensures TrackReply(req, shipments, history, storeFails)
         == LookupReply(AcceptedNumber(req).value, shipments, history, storeFails)
  {
  }

  /** A number the lookup finds is answered 200 with the found shipment's rows, ordered by date, as its timeline. */
  lemma LookupFound(trackingNumber: string, shipments: seq<Shipment>, history: seq<HistoryRow>, s: Shipment,
                    id: nat, rows: seq<HistoryRow>)
    requires FindByTrackingNumber(shipments, trackingNumber) == Some(s)
    requires s.id == id && SortByDate(RowsOf(history, id)) == rows
    ensures var reply := LookupReply(trackingNumber, shipments, history, false);
      && reply.Json? && reply.envelope.code == 200 && reply.envelope.data.Tracking?
      && reply.envelope.data.info.timeline == Timeline(rows, s.currentStatus)
  {
  }

  /** The timeline of a shipment has one entry per history row, oldest first; no rows, no entries. */
  lemma TimelineInDateOrder(rows: seq<HistoryRow>, currentStatus: string)
    ensures var timeline := Timeline(SortByDate(rows), currentStatus);
      && |timeline| == |rows|
      && (rows == [] ==> timeline == [])
      && (forall i, j :: 0 <= i < j < |timeline| ==> timeline[i].date <= timeline[j].date)
  {
    var sorted := SortByDate(rows);
    var timeline := Timeline(sorted, currentStatus);
    assert forall i :: 0 <= i < |sorted| ==> timeline[i].date == DateOf(sorted[i]);
  }

  /**
   * The timeline is made from a rearrangement of the rows, entry i from row
   * i of it: titled with its label, with its description, location and date,
   * and classified against the shipment's current status.
   */
  lemma TimelineOfRows(rows: seq<HistoryRow>, currentStatus: string)
    ensures var sorted := SortByDate(rows);
      var timeline := Timeline(sorted, currentStatus);
      && multiset(sorted) == multiset(rows)
      && |timeline| == |rows|
      && forall i :: 0 <= i < |timeline| ==>
           && timeline[i].title == sorted[i].status
           && timeline[i].description == sorted[i].description
           && timeline[i].location == sorted[i].location
           && timeline[i].date == sorted[i].date
           && timeline[i].status == DetermineTimelineStatus(sorted[i].status, currentStatus)
  {
    EntriesOfRows(SortByDate(rows), currentStatus);
  }

  /** Entry i of a timeline is made from row i. */
  lemma EntriesOfRows(rows: seq<HistoryRow>, currentStatus: string)
    ensures var timeline := Timeline(rows, currentStatus);
      && |rows| == |timeline|
      && forall i :: 0 <= i < |rows| ==>
           && timeline[i].title == rows[i].status
           && timeline[i].description == rows[i].description
           && timeline[i].location == rows[i].location
           && timeline[i].date == rows[i].date
           && timeline[i].status == DetermineTimelineStatus(rows[i].status, currentStatus)
  {
  }

  /**
   * A stored number is answered 200 with the shipment's fields, its weight with
   * " kg" appended, and one timeline entry per history row of that shipment,
   * oldest first, each titled with the row's status label; no rows, no entries.
   */
  lemma FoundNumberIs200(req: Request, shipments: seq<Shipment>, history: seq<HistoryRow>, nextId: nat, k: nat)
    requires TablesValid(shipments, history, nextId) && k < |shipments|
    requires AcceptedNumber(req) == Some(shipments[k].trackingNumber)
    ensures var reply := TrackReply(req, shipments, history, false);
      && reply.Json? && reply.envelope.code == 200 && reply.envelope.success
      && reply.envelope.data.Tracking?
      && var info := reply.envelope.data.info;
      && info.trackingNumber == shipments[k].trackingNumber
      && info.status == shipments[k].currentStatus
      && info.currentStatus == shipments[k].currentStatusDescription
      && info.weight == shipments[k].weight + " kg"
      && info.timeline == Timeline(SortByDate(RowsOf(history, shipments[k].id)), shipments[k].currentStatus)
  {
    FoundNumberReply(req, shipments, history, nextId, k);
  }
}

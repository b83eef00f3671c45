/**
 * The records the tracker stores and returns: rows of the `shipments`,
 * `shipment_status_history` and `tracking_logs` tables, and the payloads
 * of the JSON responses. Timestamps are integers written YYYYMMDDhhmmss,
 * so that comparing them compares the instants; weights are kept as text.
 */
module Schema {

  /** A row of `shipments`; `id` is its AUTO_INCREMENT key, `trackingNumber` is UNIQUE. */
  datatype Shipment = Shipment(
    id: nat,
    trackingNumber: string,
    origin: string,
    destination: string,
    weight: string,
    serviceType: string,
    carrier: string,
    estimatedDelivery: string,
    currentStatus: string,
    currentStatusDescription: string,
    createdAt: int,
    updatedAt: int)

  /** A row of `shipment_status_history`, tied to its shipment by `shipmentId`. */
  datatype HistoryRow = HistoryRow(
    shipmentId: nat,
    status: string,
    description: string,
    location: string,
    date: int)

  /** A row of `tracking_logs`. */
  datatype LogEntry = LogEntry(trackingNumber: string, ipAddress: string, userAgent: string, requestedAt: int)

  /** How the page shows one timeline event. */
  datatype TimelineStatus = Completed | Current | Pending

  datatype TimelineEntry = TimelineEntry(
    title: string,
    description: string,
    location: string,
    date: int,
    status: TimelineStatus)

  /** The `data` object of a successful tracking response. */
  datatype TrackingInfo = TrackingInfo(
    trackingNumber: string,
    status: string,
    currentStatus: string,
    lastUpdated: int,
    origin: string,
    destination: string,
    estimatedDelivery: string,
    weight: string,
    serviceType: string,
    carrier: string,
    timeline: seq<TimelineEntry>)

  /** One shipment in the administrator's recent-shipments listing. */
  datatype ListingRow = ListingRow(
    id: nat,
    trackingNumber: string,
    origin: string,
    destination: string,
    currentStatus: string,
    createdAt: int)

  /** The `data` member of a response envelope. */
  datatype Payload =
    | NoData
    | Tracking(info: TrackingInfo)
    | Created(shipmentId: nat, trackingNumber: string, note: string)
    | Listing(rows: seq<ListingRow>)
}

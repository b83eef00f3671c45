/**
 * The database as in-memory tables: `shipments` (keyed by tracking number),
 * `shipment_status_history` and `tracking_logs`, with the AUTO_INCREMENT
 * counter of `shipments.id`. The queries the endpoints issue are functions
 * on the tables; the statements that change them are methods of `Db`.
 */
module Store {
  import opened Wrappers
  import opened Schema
  import opened Config
  import Sorting

  /** The ids present in `shipments`. */
  function IdsOf(shipments: seq<Shipment>): set<nat> {
    set i | 0 <= i < |shipments| :: shipments[i].id
  }

  /**
   * What the tables keep true: tracking numbers and ids are unique, every
   * id was handed out by the counter, and every history row belongs to a
   * stored shipment. The format of the stored numbers is a separate matter:
   * see NumbersAccepted and NumbersWellFormed.
   */
  ghost function TablesValid(shipments: seq<Shipment>, history: seq<HistoryRow>, nextId: nat): (valid: bool)
    ensures valid ==> nextId !in IdsOf(shipments)
    ensures valid ==> forall k :: 0 <= k < |history| ==> history[k].shipmentId != nextId
  {
    && 0 < nextId
    && (forall i, j :: 0 <= i < j < |shipments| ==>
          shipments[i].trackingNumber != shipments[j].trackingNumber && shipments[i].id != shipments[j].id)
    && (forall i :: 0 <= i < |shipments| ==> 0 < shipments[i].id < nextId)
    && (forall k :: 0 <= k < |history| ==> history[k].shipmentId in IdsOf(shipments))
  }

  /** Every stored tracking number passes validateTrackingNumber() as written. */
  predicate NumbersAccepted(shipments: seq<Shipment>) {
    forall i :: 0 <= i < |shipments| ==> ValidateTrackingNumber(shipments[i].trackingNumber)
  }

  /** Every stored tracking number is `MAX` and nine digits, as the format check intends. */
  predicate NumbersWellFormed(shipments: seq<Shipment>) {
    forall i :: 0 <= i < |shipments| ==> IsValidTrackingNumber(shipments[i].trackingNumber)
  }

  /** Appending a shipment whose number passes the written check keeps every stored number accepted. */
  lemma AppendKeepsAccepted(shipments: seq<Shipment>, s: Shipment)
    ensures NumbersAccepted(shipments) && ValidateTrackingNumber(s.trackingNumber) ==> NumbersAccepted(shipments + [s])
  {
    assert forall i :: 0 <= i < |shipments| ==> (shipments + [s])[i] == shipments[i];
  }

  /** Appending a shipment with a well-formed number keeps every stored number well formed. */
  lemma AppendKeepsWellFormed(shipments: seq<Shipment>, s: Shipment)
    ensures NumbersWellFormed(shipments) && IsValidTrackingNumber(s.trackingNumber) ==> NumbersWellFormed(shipments + [s])
  {
    assert forall i :: 0 <= i < |shipments| ==> (shipments + [s])[i] == shipments[i];
  }

  /** `SELECT ... FROM shipments WHERE tracking_number = ?`. */
  function FindByTrackingNumber(shipments: seq<Shipment>, trackingNumber: string): (r: Option<Shipment>)
    ensures r.Some? ==> r.value in shipments && r.value.trackingNumber == trackingNumber
    ensures r.None? <==> forall i :: 0 <= i < |shipments| ==> shipments[i].trackingNumber != trackingNumber
  {
    if shipments == [] then None
    else if shipments[0].trackingNumber == trackingNumber then Some(shipments[0])
    else
      var r := FindByTrackingNumber(shipments[1..], trackingNumber);
      assert forall i :: 1 <= i < |shipments| ==> shipments[i] == shipments[1..][i - 1];
      r
  }

  /** With unique tracking numbers the lookup finds the one row that carries the number. */
  lemma FindUnique(shipments: seq<Shipment>, history: seq<HistoryRow>, nextId: nat, k: nat)
    requires TablesValid(shipments, history, nextId) && k < |shipments|
    ensures FindByTrackingNumber(shipments, shipments[k].trackingNumber) == Some(shipments[k])
  {
    var r := FindByTrackingNumber(shipments, shipments[k].trackingNumber);
    var m :| 0 <= m < |shipments| && shipments[m] == r.value;
    assert m == k;
  }

  /** `SELECT ... FROM shipment_status_history WHERE shipment_id = ?`, in table order. */
  function RowsOf(history: seq<HistoryRow>, id: nat): (r: seq<HistoryRow>)
    ensures |r| <= |history|
    ensures forall k :: 0 <= k < |r| ==> r[k].shipmentId == id
  {
    if history == [] then []
    else if history[0].shipmentId == id then [history[0]] + RowsOf(history[1..], id)
    else RowsOf(history[1..], id)
  }

  /** The query returns every row of the shipment, each as often as the table holds it, and no other row. */
  lemma {:induction false} RowsOfCount(history: seq<HistoryRow>, id: nat, row: HistoryRow)
    ensures multiset(RowsOf(history, id))[row] == if row.shipmentId == id then multiset(history)[row] else 0
  {
    if history != [] {
      assert history == [history[0]] + history[1..];
      RowsOfCount(history[1..], id, row);
    }
  }

  /** A shipment no row points at has no rows. */
  lemma {:induction false} RowsOfNone(history: seq<HistoryRow>, id: nat)
    requires forall k :: 0 <= k < |history| ==> history[k].shipmentId != id
    ensures RowsOf(history, id) == []
  {
    if history != [] {
      RowsOfNone(history[1..], id);
    }
  }

  /** Appending rows to the table appends the shipment's share of them to its rows. */
  lemma {:induction false} RowsOfAppend(a: seq<HistoryRow>, b: seq<HistoryRow>, id: nat)
    ensures RowsOf(a + b, id) == RowsOf(a, id) + RowsOf(b, id)
  {
    if a == [] {
      assert a + b == b;
    } else {
      var t := a + b;
      assert t[0] == a[0] && t[1..] == a[1..] + b;
      RowsOfAppend(a[1..], b, id);
    }
  }

  function DateOf(row: HistoryRow): int {
    row.date
  }

  /** `ORDER BY status_date ASC`. */
  function SortByDate(rows: seq<HistoryRow>): (r: seq<HistoryRow>)
    ensures Sorting.SortedBy(r, DateOf) && multiset(r) == multiset(rows)
    ensures |r| == |rows|
  {
    Sorting.SortByLength(rows, DateOf);
    Sorting.SortBy(rows, DateOf)
  }

  /** A new shipment with a fresh number and the next id keeps the tables valid. */
  lemma AddShipmentKeepsValid(shipments: seq<Shipment>, history: seq<HistoryRow>, nextId: nat, s: Shipment)
    requires TablesValid(shipments, history, nextId)
    requires s.id == nextId
    requires FindByTrackingNumber(shipments, s.trackingNumber).None?
    ensures TablesValid(shipments + [s], history, nextId + 1)
  {
    var after := shipments + [s];
    forall x | x in IdsOf(shipments)
      ensures x in IdsOf(after)
    {
      var i :| 0 <= i < |shipments| && shipments[i].id == x;
      assert after[i] == shipments[i];
    }
    assert forall i :: 0 <= i < |shipments| ==> after[i] == shipments[i];
    assert after[|shipments|] == s;
  }

  /** A new history row for a stored shipment keeps the tables valid. */
  lemma AddHistoryKeepsValid(shipments: seq<Shipment>, history: seq<HistoryRow>, nextId: nat, row: HistoryRow)
    requires TablesValid(shipments, history, nextId)
    requires row.shipmentId in IdsOf(shipments)
    ensures TablesValid(shipments, history + [row], nextId)
  {
    assert forall k :: 0 <= k < |history| ==> (history + [row])[k] == history[k];
  }

  /** History rows that all belong to stored shipments keep the tables valid. */
  lemma AddHistoryRowsKeepsValid(shipments: seq<Shipment>, history: seq<HistoryRow>, nextId: nat, rows: seq<HistoryRow>)
    requires TablesValid(shipments, history, nextId)
    requires forall k :: 0 <= k < |rows| ==> rows[k].shipmentId in IdsOf(shipments)
    ensures TablesValid(shipments, history + rows, nextId)
  {
    var after := history + rows;
    forall k | 0 <= k < |after| ensures after[k].shipmentId in IdsOf(shipments) {
      if k < |history| {
        assert after[k] == history[k];
      } else {
        assert after[k] == rows[k - |history|];
      }
    }
  }

  /** The id the counter hands out next has no history rows yet. */
  lemma NoRowsForNextId(shipments: seq<Shipment>, history: seq<HistoryRow>, nextId: nat)
    requires TablesValid(shipments, history, nextId)
    ensures RowsOf(history, nextId) == []
  {
    var r := RowsOf(history, nextId);
    if r != [] {
      RowsOfCount(history, nextId, r[0]);
    }
  }

  class Db {
    var shipments: seq<Shipment>
    var history: seq<HistoryRow>
    var logs: seq<LogEntry>
    var nextId: nat

    ghost predicate Valid()
      reads this
    {
      TablesValid(shipments, history, nextId)
    }

    /** A freshly created database: empty tables, ids starting at 1. */
    constructor ()
      ensures Valid()
      ensures shipments == [] && history == [] && logs == [] && nextId == 1
    {
      shipments, history, logs, nextId := [], [], [], 1;
    }

    /** `DROP DATABASE` and the CREATE TABLEs after it: every table empty, ids starting again at 1. */
    method Recreate()
      modifies this
      ensures Valid()
      ensures shipments == [] && history == [] && logs == [] && nextId == 1
    {
      shipments, history, logs, nextId := [], [], [], 1;
    }

    /** `DELETE FROM shipment_status_history` then `DELETE FROM shipments`: AUTO_INCREMENT goes on counting. */
    method DeleteShipments()
      requires Valid()
      modifies this`shipments, this`history
      ensures Valid()
      ensures shipments == [] && history == []
    {
      history := [];
      shipments := [];
    }

    /** `INSERT INTO shipments ...`; the result is `lastInsertId()`. */
    method InsertShipment(s: Shipment) returns (id: nat)
      requires Valid()
      requires FindByTrackingNumber(shipments, s.trackingNumber).None?
      modifies this`shipments, this`nextId
      ensures Valid()
      ensures id == old(nextId) && nextId == old(nextId) + 1
      ensures shipments == old(shipments) + [s.(id := id)]
    {
      AddShipmentKeepsValid(shipments, history, nextId, s.(id := nextId));
      id := nextId;
      shipments := shipments + [s.(id := id)];
      nextId := nextId + 1;
    }

    /** `INSERT INTO shipment_status_history ...`, which the foreign key allows only for a stored shipment. */
    method InsertHistory(row: HistoryRow)
      requires Valid() && row.shipmentId in IdsOf(shipments)
      modifies this`history
      ensures Valid()
      ensures history == old(history) + [row]
    {
      history := history + [row];
    }

    /**
     * logTrackingRequest(): appends a log row when the database takes it; a
     * failing database is swallowed, so the caller sees no outcome at all.
     */
    method LogTrackingRequest(trackingNumber: string, ipAddress: string, userAgent: string,
                              now: int, databaseTakesIt: bool)
      modifies this`logs
      ensures logs == old(logs) + (if databaseTakesIt then [LogEntry(trackingNumber, ipAddress, userAgent, now)] else [])
    {
      if databaseTakesIt {
        logs := logs + [LogEntry(trackingNumber, ipAddress, userAgent, now)];
      }
    }
  }
}

/**
 * The reset script: drop and recreate the database, then seed five sample
 * shipments, each followed by the fixed timeline getTimelineData() gives
 * for its tracking number.
 */
module ResetDatabase {
  import opened Wrappers
  import opened Schema
  import opened Config
  import opened Store
  import PhpStrings
  import Sorting
  import Track

  /** One row of `$sampleData`: the nine columns of the shipment INSERT, in order. */
  datatype Sample = Sample(trackingNumber: string, origin: string, destination: string, weight: string,
                           serviceType: string, carrier: string, estimatedDelivery: string,
                           currentStatus: string, description: string)

  const SampleData: seq<Sample> := [
    Sample("MAX123456789", "Jakarta, Indonesia", "Surabaya, Indonesia", "2.50", "Express Delivery",
           "MAX Logistics", "2024-01-18", "In Transit", "Package is in transit to destination"),
    Sample("MAX987654321", "Bandung, Indonesia", "Medan, Indonesia", "1.80", "Standard Delivery",
           "MAX Logistics", "2024-01-12", "Delivered", "Package has been successfully delivered"),
    Sample("MAX555666777", "Yogyakarta, Indonesia", "Bali, Indonesia", "3.20", "Priority Delivery",
           "MAX Logistics", "2024-01-17", "Processing", "Package is being processed at origin facility"),
    Sample("MAX111222333", "Semarang, Indonesia", "Makassar, Indonesia", "4.50", "Express Delivery",
           "MAX Logistics", "2024-01-20", "Out for Delivery", "Package is out for delivery"),
    Sample("MAX444555666", "Palembang, Indonesia", "Pontianak, Indonesia", "1.20", "Standard Delivery",
           "MAX Logistics", "2024-01-16", "Exception", "Delivery attempted - recipient not available")]

  /** The tracking numbers getTimelineData() has a fixed timeline for. */
  const FixedNumbers: set<string> := {"MAX123456789", "MAX987654321", "MAX555666777", "MAX111222333", "MAX444555666"}

  /** One element of the list getTimelineData() returns. */
  datatype TimelineItem = TimelineItem(status: string, description: string, location: string, date: int)

  const DistributionCenter := " Distribution Center"
  const PickedUp := "Package has been picked up from origin"
  const InTransit := "Package is in transit to destination"
  const OutForDelivery := "Package is out for delivery"

  /**
   * getTimelineData(): a fixed four- or three-event timeline for each sample
   * number; any other number gets one event with the current status, at the
   * origin, dated now.
   */
  function GetTimelineData(trackingNumber: string, currentStatus: string, origin: string, destination: string,
                           now: int): (r: seq<TimelineItem>)
    ensures 1 <= |r| <= 4 && r[0].location == origin
    ensures trackingNumber in FixedNumbers <==> 3 <= |r|
    ensures trackingNumber !in FixedNumbers ==> r[0].status == currentStatus && r[0].date == now
  {
    if trackingNumber == "MAX123456789" then [
      TimelineItem("Package Picked Up", PickedUp, origin, 20240115090000),
      TimelineItem("In Transit", InTransit, origin + DistributionCenter, 20240115143000),
      TimelineItem("Out for Delivery", OutForDelivery, destination, 20240118080000),
      TimelineItem("Delivered", "Package has been delivered", destination, 20240118160000)]
    else if trackingNumber == "MAX987654321" then [
      TimelineItem("Package Picked Up", PickedUp, origin, 20240110100000),
      TimelineItem("In Transit", InTransit, origin + DistributionCenter, 20240111080000),
      TimelineItem("Out for Delivery", OutForDelivery, destination, 20240112090000),
      TimelineItem("Delivered", "Package has been successfully delivered", destination, 20240112154500)]
    else if trackingNumber == "MAX555666777" then [
      TimelineItem("Package Received", "Package received at origin facility", origin, 20240115112000),
      TimelineItem("In Transit", InTransit, origin + DistributionCenter, 20240116080000),
      TimelineItem("Out for Delivery", OutForDelivery, destination, 20240117090000),
      TimelineItem("Delivered", "Package has been delivered", destination, 20240117160000)]
    else if trackingNumber == "MAX111222333" then [
      TimelineItem("Package Picked Up", PickedUp, origin, 20240118083000),
      TimelineItem("In Transit", InTransit, origin + DistributionCenter, 20240119101500),
      TimelineItem("Out for Delivery", OutForDelivery, destination, 20240120080000)]
    else if trackingNumber == "MAX444555666" then [
      TimelineItem("Package Picked Up", PickedUp, origin, 20240114142000),
      TimelineItem("In Transit", InTransit, origin + DistributionCenter, 20240115094500),
      TimelineItem("Out for Delivery", OutForDelivery, destination, 20240116103000),
      TimelineItem("Exception", "Delivery attempted - recipient not available", destination, 20240116142000)]
    else
      [TimelineItem(currentStatus, "Package status update", origin, now)]
  }

  // ------------------------------------------------------- the lookup table

  /** Four events for four of the sample numbers, three for MAX111222333. */
  lemma TimelineLengths(currentStatus: string, origin: string, destination: string, now: int)
    ensures |GetTimelineData("MAX123456789", currentStatus, origin, destination, now)| == 4
    ensures |GetTimelineData("MAX987654321", currentStatus, origin, destination, now)| == 4
    ensures |GetTimelineData("MAX555666777", currentStatus, origin, destination, now)| == 4
    ensures |GetTimelineData("MAX111222333", currentStatus, origin, destination, now)| == 3
    ensures |GetTimelineData("MAX444555666", currentStatus, origin, destination, now)| == 4
  {
  }

  /** Within each fixed timeline the events are strictly later one after the other. */
  lemma FixedDatesIncrease(trackingNumber: string, currentStatus: string, origin: string, destination: string, now: int)
    requires trackingNumber in FixedNumbers
    ensures var t := GetTimelineData(trackingNumber, currentStatus, origin, destination, now);
      forall i, j :: 0 <= i < j < |t| ==> t[i].date < t[j].date
  {
    if trackingNumber == "MAX123456789" {
    } else if trackingNumber == "MAX987654321" {
    } else if trackingNumber == "MAX555666777" {
    } else if trackingNumber == "MAX111222333" {
    } else {
      assert trackingNumber == "MAX444555666";
    }
  }

  /**
   * Each fixed timeline starts at the origin, passes the origin's distribution
   * center, and spends the rest at the destination.
   */
  lemma FixedLocations(trackingNumber: string, currentStatus: string, origin: string, destination: string, now: int)
    requires trackingNumber in FixedNumbers
    ensures var t := GetTimelineData(trackingNumber, currentStatus, origin, destination, now);
      && |t| >= 3
      && t[0].location == origin
      && t[1].location == origin + " Distribution Center"
      && (forall i :: 2 <= i < |t| ==> t[i].location == destination)
  {
    if trackingNumber == "MAX123456789" {
    } else if trackingNumber == "MAX987654321" {
    } else if trackingNumber == "MAX555666777" {
    } else if trackingNumber == "MAX111222333" {
    } else {
      assert trackingNumber == "MAX444555666";
    }
  }

  /** No fixed timeline depends on the shipment's current status or on the clock. */
  lemma FixedIgnoresStatusAndClock(trackingNumber: string, currentStatus: string, origin: string, destination: string,
                                   now: int)
    requires trackingNumber in FixedNumbers
    ensures GetTimelineData(trackingNumber, currentStatus, origin, destination, now)
         == GetTimelineData(trackingNumber, "", origin, destination, 0)
  {
  }

  /** Any other number gets a single event: its current status, at its origin, dated now. */
  lemma DefaultTimeline(trackingNumber: string, currentStatus: string, origin: string, destination: string, now: int)
    requires trackingNumber !in FixedNumbers
    ensures GetTimelineData(trackingNumber, currentStatus, origin, destination, now)
         == [TimelineItem(currentStatus, "Package status update", origin, now)]
  {
  }

  // ----------------------------------------------------------------- seeding

  /** The shipment row one sample INSERTs; the created and updated times are the insert's now. */
  function ShipmentOf(sample: Sample, id: nat, now: int): Shipment {
    Shipment(id, sample.trackingNumber, sample.origin, sample.destination, sample.weight, sample.serviceType,
             sample.carrier, sample.estimatedDelivery, sample.currentStatus, sample.description, now, now)
  }

  function ItemRow(shipmentId: nat, item: TimelineItem): HistoryRow {
    HistoryRow(shipmentId, item.status, item.description, item.location, item.date)
  }

  /** The history rows the inner `foreach` inserts for one shipment, in list order. */
  function ItemRows(shipmentId: nat, items: seq<TimelineItem>): (r: seq<HistoryRow>)
    ensures |r| == |items|
  {
    seq(|items|, i requires 0 <= i < |items| => ItemRow(shipmentId, items[i]))
  }

  /** What the script's getTimelineData() returns for each sample, in sample order. */
  function Timelines(samples: seq<Sample>, now: int): (r: seq<seq<TimelineItem>>)
    ensures |r| == |samples|
  {
    seq(|samples|, i requires 0 <= i < |samples| =>
      GetTimelineData(samples[i].trackingNumber, samples[i].currentStatus, samples[i].origin, samples[i].destination, now))
  }

  /** The shipments table after the first `n` samples, numbered from `firstId`. */
  function SeedShipments(samples: seq<Sample>, firstId: nat, now: int, n: nat): (r: seq<Shipment>)
    requires n <= |samples|
    ensures |r| == n
  {
    if n == 0 then [] else SeedShipments(samples, firstId, now, n - 1) + [ShipmentOf(samples[n - 1], firstId + n - 1, now)]
  }

  /**
   * The history table after the first `n` timelines: each in turn, under the
   * id its shipment got, one row per timeline event.
   */
  function SeedHistory(timelines: seq<seq<TimelineItem>>, firstId: nat, n: nat): (r: seq<HistoryRow>)
    requires n <= |timelines|
    ensures |r| == TotalEvents(timelines, n)
  {
    if n == 0 then [] else SeedHistory(timelines, firstId, n - 1) + ItemRows(firstId + n - 1, timelines[n - 1])
  }

  /** One more sample appends its shipment, with the next id. */
  lemma SeedShipmentsNext(samples: seq<Sample>, firstId: nat, now: int, n: nat)
    requires n < |samples|
    ensures SeedShipments(samples, firstId, now, n + 1)
         == SeedShipments(samples, firstId, now, n) + [ShipmentOf(samples[n], firstId + n, now)]
  {
  }

  /** One more timeline appends its rows, under the next id. */
  lemma SeedHistoryNext(timelines: seq<seq<TimelineItem>>, firstId: nat, n: nat)
    requires n < |timelines|
    ensures SeedHistory(timelines, firstId, n + 1) == SeedHistory(timelines, firstId, n) + ItemRows(firstId + n, timelines[n])
  {
  }

  /** Samples that can all be inserted: pairwise different tracking numbers. */
  predicate Insertable(samples: seq<Sample>) {
    && (forall i, j :: 0 <= i < j < |samples| ==> samples[i].trackingNumber != samples[j].trackingNumber)
  }

  /** The inner `foreach`: one history row per timeline item, in list order. */
  method InsertTimeline(db: Db, shipmentId: nat, items: seq<TimelineItem>)
    requires db.Valid() && shipmentId in IdsOf(db.shipments)
    modifies db`history
    ensures db.Valid()
    ensures db.history == old(db.history) + ItemRows(shipmentId, items)
  {
    for j := 0 to |items|
      invariant db.Valid()
      invariant db.history == old(db.history) + ItemRows(shipmentId, items)[..j]
    {
      db.InsertHistory(ItemRow(shipmentId, items[j]));
      assert ItemRows(shipmentId, items)[..j + 1] == ItemRows(shipmentId, items)[..j] + [ItemRow(shipmentId, items[j])];
    }
    assert ItemRows(shipmentId, items)[..|items|] == ItemRows(shipmentId, items);
  }

  /** The first `n` seeded shipments carry the first `n` samples' numbers, under consecutive ids. */
  lemma {:induction false} SeededShipments(samples: seq<Sample>, firstId: nat, now: int, n: nat)
    requires n <= |samples|
    ensures forall i :: 0 <= i < n ==>
      && SeedShipments(samples, firstId, now, n)[i].trackingNumber == samples[i].trackingNumber
      && SeedShipments(samples, firstId, now, n)[i].id == firstId + i
      && SeedShipments(samples, firstId, now, n)[i].currentStatus == samples[i].currentStatus
  {
    if n > 0 {
      SeededShipments(samples, firstId, now, n - 1);
    }
  }

  /** Seeded shipment k is sample k's row under id firstId + k. */
  lemma {:induction false} SeededShipmentAt(samples: seq<Sample>, firstId: nat, now: int, n: nat, k: nat)
    requires k < n <= |samples|
    ensures SeedShipments(samples, firstId, now, n)[k] == ShipmentOf(samples[k], firstId + k, now)
  {
    if k < n - 1 {
      SeededShipmentAt(samples, firstId, now, n - 1, k);
    }
  }

  /** The seeded shipments after `n` samples do not carry the number of sample `n`. */
  lemma NextSampleIsNew(samples: seq<Sample>, firstId: nat, now: int, n: nat)
    requires n < |samples| && Insertable(samples)
    ensures FindByTrackingNumber(SeedShipments(samples, firstId, now, n), samples[n].trackingNumber).None?
  {
    SeededShipments(samples, firstId, now, n);
  }

  /** One pass of the outer `foreach`: insert the sample, look its id up, insert its timeline. */
  method SeedOne(db: Db, sample: Sample, items: seq<TimelineItem>, now: int)
    requires db.Valid()
    requires FindByTrackingNumber(db.shipments, sample.trackingNumber).None?
    modifies db`shipments, db`history, db`nextId
    ensures db.Valid() && db.nextId == old(db.nextId) + 1
    ensures db.shipments == old(db.shipments) + [ShipmentOf(sample, old(db.nextId), now)]
    ensures db.history == old(db.history) + ItemRows(old(db.nextId), items)
  {
    var _ := db.InsertShipment(ShipmentOf(sample, 0, now));
    assert ShipmentOf(sample, 0, now).(id := old(db.nextId)) == ShipmentOf(sample, old(db.nextId), now);
    var found := FindByTrackingNumber(db.shipments, sample.trackingNumber);
    FindUnique(db.shipments, db.history, db.nextId, |db.shipments| - 1);
    var shipmentId := found.value.id;
    assert shipmentId in IdsOf(db.shipments);
    InsertTimeline(db, shipmentId, items);
  }

  /**
   * The nested `foreach`: each sample in turn, with `timelines[i]` what
   * getTimelineData() gives for sample i.
   */
  method SeedSamples(db: Db, samples: seq<Sample>, timelines: seq<seq<TimelineItem>>, now: int)
    requires db.Valid() && db.shipments == [] && db.history == [] && Insertable(samples)
    requires |timelines| == |samples|
    modifies db`shipments, db`history, db`nextId
    ensures db.Valid()
    ensures db.nextId == old(db.nextId) + |samples|
    ensures db.shipments == SeedShipments(samples, old(db.nextId), now, |samples|)
    ensures db.history == SeedHistory(timelines, old(db.nextId), |samples|)
  {
    var firstId := db.nextId;
    for n := 0 to |samples|
      invariant db.Valid()
      invariant db.nextId == firstId + n
      invariant db.shipments == SeedShipments(samples, firstId, now, n)
      invariant db.history == SeedHistory(timelines, firstId, n)
    {
      NextSampleIsNew(samples, firstId, now, n);
      ghost var shipments, history := db.shipments, db.history;
      SeedOne(db, samples[n], timelines[n], now);
      assert db.shipments == SeedShipments(samples, firstId, now, n + 1) by {
        assert db.shipments == shipments + [ShipmentOf(samples[n], firstId + n, now)];
        SeedShipmentsNext(samples, firstId, now, n);
      }
      assert db.history == SeedHistory(timelines, firstId, n + 1) by {
        assert db.history == history + ItemRows(firstId + n, timelines[n]);
        SeedHistoryNext(timelines, firstId, n);
      }
    }
  }

  /** The whole script: recreate the database, then seed the samples. */
  method Reset(db: Db, now: int)
    modifies db
    ensures db.Valid() && db.logs == [] && db.nextId == 1 + |SampleData|
    ensures db.shipments == SeedShipments(SampleData, 1, now, |SampleData|)
    ensures db.history == SeedHistory(Timelines(SampleData, now), 1, |SampleData|)
  {
    db.Recreate();
    SamplesInsertable();
    SeedSamples(db, SampleData, Timelines(SampleData, now), now);
  }

  // ------------------------------------------------------- what seeding gives

  /** An upper-case `MAX` followed by nine digits is a valid tracking number. */
  lemma UpperNumberValid(tn: string)
    requires |tn| == 12 && tn[..3] == "MAX" && forall k :: 3 <= k < 12 ==> '0' <= tn[k] <= '9'
    ensures IsValidTrackingNumber(tn)
  {
    assert PhpStrings.ToUpper(tn[..3]) == "MAX";
  }

  /** The sample tracking numbers, in sample order. */
  const SampleNumbers: seq<string> := ["MAX123456789", "MAX987654321", "MAX555666777", "MAX111222333", "MAX444555666"]

  lemma SampleNumbersValid()
    ensures forall i :: 0 <= i < |SampleNumbers| ==> IsValidTrackingNumber(SampleNumbers[i])
  {
    forall i | 0 <= i < |SampleNumbers| ensures IsValidTrackingNumber(SampleNumbers[i]) {
      UpperNumberValid(SampleNumbers[i]);
    }
  }

  lemma SampleNumbersDistinct()
    ensures forall i, j :: 0 <= i < j < |SampleNumbers| ==> SampleNumbers[i] != SampleNumbers[j]
  {
    forall i, j | 0 <= i < j < |SampleNumbers| ensures SampleNumbers[i] != SampleNumbers[j] {
      assert SampleNumbers[i][3] != SampleNumbers[j][3] || SampleNumbers[i][4] != SampleNumbers[j][4];
    }
  }

  /** The sample numbers are pairwise different, so every INSERT succeeds. */
  lemma SamplesInsertable()
    ensures Insertable(SampleData)
  {
    assert forall i :: 0 <= i < |SampleData| ==> SampleData[i].trackingNumber == SampleNumbers[i];
    SampleNumbersDistinct();
  }

  /** Every shipment the script seeds carries a well-formed number. */
  lemma SeededNumbersWellFormed(now: int)
    ensures NumbersWellFormed(SeedShipments(SampleData, 1, now, |SampleData|))
  {
    assert forall i :: 0 <= i < |SampleData| ==> SampleData[i].trackingNumber == SampleNumbers[i];
    SampleNumbersValid();
    SeededShipments(SampleData, 1, now, |SampleData|);
  }

  /** The total number of events in the first `n` timelines. */
  function TotalEvents(timelines: seq<seq<TimelineItem>>, n: nat): nat
    requires n <= |timelines|
  {
    if n == 0 then 0 else TotalEvents(timelines, n - 1) + |timelines[n - 1]|
  }

  /** Seeding the samples from any first id leaves 5 shipments and 4 + 4 + 4 + 3 + 4 = 19 history rows. */
  lemma ResetCounts(firstId: nat, now: int)
    ensures |SeedShipments(SampleData, firstId, now, |SampleData|)| == 5
    ensures |SeedHistory(Timelines(SampleData, now), firstId, |SampleData|)| == 19
  {
    var t := Timelines(SampleData, now);
    assert |t[0]| == 4 by { TimelineLengths(SampleData[0].currentStatus, SampleData[0].origin, SampleData[0].destination, now); }
    assert |t[1]| == 4 by { TimelineLengths(SampleData[1].currentStatus, SampleData[1].origin, SampleData[1].destination, now); }
    assert |t[2]| == 4 by { TimelineLengths(SampleData[2].currentStatus, SampleData[2].origin, SampleData[2].destination, now); }
    assert |t[3]| == 3 by { TimelineLengths(SampleData[3].currentStatus, SampleData[3].origin, SampleData[3].destination, now); }
    assert |t[4]| == 4 by { TimelineLengths(SampleData[4].currentStatus, SampleData[4].origin, SampleData[4].destination, now); }
    assert TotalEvents(t, 1) == 4;
    assert TotalEvents(t, 2) == 8;
    assert TotalEvents(t, 3) == 12;
    assert TotalEvents(t, 4) == 15;
  }

  /** The rows one shipment's id selects within the rows of another are none. */
  lemma {:induction false} RowsOfItemRows(id: nat, shipmentId: nat, items: seq<TimelineItem>)
    ensures RowsOf(ItemRows(shipmentId, items), id) == if id == shipmentId then ItemRows(shipmentId, items) else []
  {
    if items != [] {
      var rows := ItemRows(shipmentId, items);
      assert rows[1..] == ItemRows(shipmentId, items[1..]);
      RowsOfItemRows(id, shipmentId, items[1..]);
    }
  }

  /** Appending one timeline's rows adds them to that shipment's rows and to no other's. */
  lemma RowsOfStep(earlier: seq<HistoryRow>, shipmentId: nat, items: seq<TimelineItem>, id: nat)
    ensures RowsOf(earlier + ItemRows(shipmentId, items), id)
         == RowsOf(earlier, id) + (if id == shipmentId then ItemRows(shipmentId, items) else [])
  {
    RowsOfAppend(earlier, ItemRows(shipmentId, items), id);
    RowsOfItemRows(id, shipmentId, items);
  }

  /** Ids seeding has not reached yet have no rows. */
  lemma SeedRowsUnused(timelines: seq<seq<TimelineItem>>, firstId: nat, n: nat, k: nat)
    requires n <= k && n <= |timelines|
    ensures RowsOf(SeedHistory(timelines, firstId, n), firstId + k) == []
  {
    SeedHistoryIds(timelines, firstId, n);
    RowsOfNone(SeedHistory(timelines, firstId, n), firstId + k);
  }

  /**
   * Seeding ties each timeline to its own shipment: the rows of the shipment
   * with id firstId + k are exactly the k-th timeline, in list order.
   */
  lemma {:induction false} SeedRowsTied(timelines: seq<seq<TimelineItem>>, firstId: nat, n: nat, k: nat)
    requires k < n <= |timelines|
    ensures RowsOf(SeedHistory(timelines, firstId, n), firstId + k) == ItemRows(firstId + k, timelines[k])
  {
    var m := n - 1;
    SeedHistoryNext(timelines, firstId, m);
    RowsOfStep(SeedHistory(timelines, firstId, m), firstId + m, timelines[m], firstId + k);
    if k == m {
      SeedRowsUnused(timelines, firstId, m, k);
    } else {
      SeedRowsTied(timelines, firstId, m, k);
    }
  }

  /** Every seeded history row belongs to one of the first `n` ids. */
  lemma {:induction false} SeedHistoryIds(timelines: seq<seq<TimelineItem>>, firstId: nat, n: nat)
    requires n <= |timelines|
    ensures forall k :: 0 <= k < |SeedHistory(timelines, firstId, n)| ==>
      firstId <= SeedHistory(timelines, firstId, n)[k].shipmentId < firstId + n
  {
    if n > 0 {
      var earlier := SeedHistory(timelines, firstId, n - 1);
      var last := ItemRows(firstId + n - 1, timelines[n - 1]);
      SeedHistoryIds(timelines, firstId, n - 1);
      assert SeedHistory(timelines, firstId, n) == earlier + last;
      assert forall k :: 0 <= k < |last| ==> last[k].shipmentId == firstId + n - 1;
    }
  }

  /** Seeding insertable samples into empty tables leaves valid tables. */
  lemma SeedValid(samples: seq<Sample>, timelines: seq<seq<TimelineItem>>, firstId: nat, now: int, n: nat)
    requires 0 < firstId && n <= |samples| == |timelines| && Insertable(samples)
    ensures TablesValid(SeedShipments(samples, firstId, now, n), SeedHistory(timelines, firstId, n), firstId + n)
  {
    var shipments := SeedShipments(samples, firstId, now, n);
    var history := SeedHistory(timelines, firstId, n);
    SeededShipments(samples, firstId, now, n);
    SeedHistoryIds(timelines, firstId, n);
    forall k | 0 <= k < |history| ensures history[k].shipmentId in IdsOf(shipments) {
      var i := history[k].shipmentId - firstId;
      assert shipments[i].id == history[k].shipmentId;
    }
  }

  // ----------------------------------------------------- end-to-end outcomes

  function Classified(timeline: seq<TimelineEntry>): (r: seq<TimelineStatus>)
    ensures |r| == |timeline|
  {
    seq(|timeline|, i requires 0 <= i < |timeline| => timeline[i].status)
  }

  /** The rows of seeded shipment k, ordered by date, are its timeline in list order when that list is in date order. */
  lemma SeededRowsInOrder(timelines: seq<seq<TimelineItem>>, firstId: nat, n: nat, k: nat)
    requires k < n == |timelines|
    requires forall i, j :: 0 <= i < j < |timelines[k]| ==> timelines[k][i].date <= timelines[k][j].date
    ensures SortByDate(RowsOf(SeedHistory(timelines, firstId, n), firstId + k)) == ItemRows(firstId + k, timelines[k])
  {
    SeedRowsTied(timelines, firstId, n, k);
    var rows := ItemRows(firstId + k, timelines[k]);
    assert Sorting.SortedBy(rows, DateOf);
    Sorting.SortByKeepsSorted(rows, DateOf);
  }

  /** Looking up a seeded sample's number finds that sample's shipment. */
  lemma SeededFind(samples: seq<Sample>, timelines: seq<seq<TimelineItem>>, firstId: nat, now: int, k: nat)
    requires 0 < firstId && k < |samples| == |timelines| && Insertable(samples)
    ensures var shipments := SeedShipments(samples, firstId, now, |samples|);
      FindByTrackingNumber(shipments, samples[k].trackingNumber) == Some(shipments[k])
  {
    var n := |samples|;
    var shipments := SeedShipments(samples, firstId, now, n);
    SeededShipmentAt(samples, firstId, now, n, k);
    SeedValid(samples, timelines, firstId, now, n);
    FindUnique(shipments, SeedHistory(timelines, firstId, n), firstId + n, k);
  }

  /**
   * After seeding from any first id, looking up sample k with no database
   * failure answers 200 with the sample's timeline in list order, classified
   * against its current status, provided that timeline's dates are in order.
   */
  lemma SeededLookup(samples: seq<Sample>, timelines: seq<seq<TimelineItem>>, firstId: nat, now: int, k: nat)
    requires 0 < firstId && k < |samples| == |timelines| && Insertable(samples)
    requires forall i, j :: 0 <= i < j < |timelines[k]| ==> timelines[k][i].date <= timelines[k][j].date
    ensures var reply := Track.LookupReply(samples[k].trackingNumber, SeedShipments(samples, firstId, now, |samples|),
                                           SeedHistory(timelines, firstId, |samples|), false);
      && reply.Json? && reply.envelope.code == 200 && reply.envelope.data.Tracking?
      && reply.envelope.data.info.timeline
         == Track.Timeline(ItemRows(firstId + k, timelines[k]), samples[k].currentStatus)
  {
    var n := |samples|;
    var shipments := SeedShipments(samples, firstId, now, n);
    var history := SeedHistory(timelines, firstId, n);
    var id: nat := firstId + k;
    var rows := ItemRows(id, timelines[k]);
    var s := ShipmentOf(samples[k], id, now);
    assert FindByTrackingNumber(shipments, samples[k].trackingNumber) == Some(s) by {
      SeededShipmentAt(samples, firstId, now, n, k);
      SeededFind(samples, timelines, firstId, now, k);
    }
    assert SortByDate(RowsOf(history, id)) == rows by {
      SeededRowsInOrder(timelines, firstId, n, k);
    }
    Track.LookupFound(samples[k].trackingNumber, shipments, history, s, id, rows);
  }

  /** So tracking sample k by any request that names its number answers the same. */
  lemma TrackAfterSeed(samples: seq<Sample>, timelines: seq<seq<TimelineItem>>, firstId: nat, now: int,
                       req: Track.Request, k: nat)
    requires 0 < firstId && k < |samples| == |timelines| && Insertable(samples)
    requires Track.AcceptedNumber(req) == Some(samples[k].trackingNumber)
    requires forall i, j :: 0 <= i < j < |timelines[k]| ==> timelines[k][i].date <= timelines[k][j].date
    ensures var reply := Track.TrackReply(req, SeedShipments(samples, firstId, now, |samples|),
                                          SeedHistory(timelines, firstId, |samples|), false);
      && reply.Json? && reply.envelope.code == 200 && reply.envelope.data.Tracking?
      && reply.envelope.data.info.timeline
         == Track.Timeline(ItemRows(firstId + k, timelines[k]), samples[k].currentStatus)
  {
    SeededLookup(samples, timelines, firstId, now, k);
    Track.AcceptedReply(req, SeedShipments(samples, firstId, now, |samples|),
                        SeedHistory(timelines, firstId, |samples|), false);
  }

  /** Seeded from any first id, each sample's number is looked up to its fixed timeline, classified. */
  lemma SampleLookup(firstId: nat, now: int, k: nat)
    requires 0 < firstId && k < |SampleData|
    ensures var reply := Track.LookupReply(SampleData[k].trackingNumber, SeedShipments(SampleData, firstId, now, 5),
                                           SeedHistory(Timelines(SampleData, now), firstId, 5), false);
      && reply.Json? && reply.envelope.code == 200 && reply.envelope.data.Tracking?
      && reply.envelope.data.info.timeline
         == Track.Timeline(ItemRows(firstId + k, Timelines(SampleData, now)[k]), SampleData[k].currentStatus)
  {
    var sample := SampleData[k];
    SamplesInsertable();
    assert sample.trackingNumber in FixedNumbers;
    FixedDatesIncrease(sample.trackingNumber, sample.currentStatus, sample.origin, sample.destination, now);
    SeededLookup(SampleData, Timelines(SampleData, now), firstId, now, k);
  }

  /** After a reset, tracking sample k answers 200 with its fixed timeline, classified. */
  lemma TrackAfterReset(req: Track.Request, now: int, k: nat)
    requires k < |SampleData| && Track.AcceptedNumber(req) == Some(SampleData[k].trackingNumber)
    ensures var reply := Track.TrackReply(req, SeedShipments(SampleData, 1, now, 5),
                                          SeedHistory(Timelines(SampleData, now), 1, 5), false);
      && reply.Json? && reply.envelope.code == 200 && reply.envelope.data.Tracking?
      && reply.envelope.data.info.timeline
         == Track.Timeline(ItemRows(1 + k, Timelines(SampleData, now)[k]), SampleData[k].currentStatus)
  {
    SampleLookup(1, now, k);
    Track.AcceptedReply(req, SeedShipments(SampleData, 1, now, 5), SeedHistory(Timelines(SampleData, now), 1, 5), false);
  }

  /** The statuses a timeline shows are its items' own labels, each classified against the current status. */
  lemma ClassifiedItems(id: nat, items: seq<TimelineItem>, currentStatus: string)
    ensures var c := Classified(Track.Timeline(ItemRows(id, items), currentStatus));
      && |c| == |items|
      && forall i :: 0 <= i < |items| ==> c[i] == Track.DetermineTimelineStatus(items[i].status, currentStatus)
  {
  }

  /** The timeline of sample MAX987654321 (delivered) classifies as three completed events, then the current one. */
  lemma DeliveredTimeline(now: int)
    ensures Classified(Track.Timeline(ItemRows(2, Timelines(SampleData, now)[1]), SampleData[1].currentStatus))
         == [Completed, Completed, Completed, Current]
  {
    var items := Timelines(SampleData, now)[1];
    assert items == GetTimelineData("MAX987654321", "Delivered", "Bandung, Indonesia", "Medan, Indonesia", now);
    ClassifiedItems(2, items, "Delivered");
    assert Track.DetermineTimelineStatus("Package Picked Up", "Delivered") == Completed;
    assert Track.DetermineTimelineStatus("In Transit", "Delivered") == Completed;
    assert Track.DetermineTimelineStatus("Out for Delivery", "Delivered") == Completed;
  }

  /** The timeline of sample MAX555666777 (processing) has four events, none of them current. */
  lemma ProcessingTimeline(now: int)
    ensures var c := Classified(Track.Timeline(ItemRows(3, Timelines(SampleData, now)[2]), SampleData[2].currentStatus));
      |c| == 4 && Current !in c
  {
    var items := Timelines(SampleData, now)[2];
    assert items == GetTimelineData("MAX555666777", "Processing", "Yogyakarta, Indonesia", "Bali, Indonesia", now);
    ClassifiedItems(3, items, "Processing");
  }
}

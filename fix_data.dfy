/**
 * The repair script: empty both tables (without recreating them, so the
 * shipment id counter keeps counting), seed the same five sample shipments
 * and timelines the reset script seeds, and report the two row counts.
 */
module FixData {
  import opened Wrappers
  import opened Schema
  import opened Store
  import Track
  import ResetDatabase

  type TimelineItem = ResetDatabase.TimelineItem

  function Item(status: string, description: string, location: string, date: int): TimelineItem {
    ResetDatabase.TimelineItem(status, description, location, date)
  }

  /**
   * The script's own copy of getTimelineData(): a fixed timeline for each of
   * the five sample numbers, one event at the origin dated now for any other.
   */
  function GetTimelineData(trackingNumber: string, currentStatus: string, origin: string, destination: string,
                           now: int): (r: seq<TimelineItem>)
    ensures 1 <= |r| <= 4 && r[0].location == origin
    ensures trackingNumber in ResetDatabase.FixedNumbers <==> 3 <= |r|
    ensures trackingNumber !in ResetDatabase.FixedNumbers ==> r[0].status == currentStatus && r[0].date == now
  {
    var center := " Distribution Center";
    var pickedUp := "Package has been picked up from origin";
    var inTransit := "Package is in transit to destination";
    var outForDelivery := "Package is out for delivery";
    if trackingNumber == "MAX123456789" then [
      Item("Package Picked Up", pickedUp, origin, 20240115090000),
      Item("In Transit", inTransit, origin + center, 20240115143000),
      Item("Out for Delivery", outForDelivery, destination, 20240118080000),
      Item("Delivered", "Package has been delivered", destination, 20240118160000)]
    else if trackingNumber == "MAX987654321" then [
      Item("Package Picked Up", pickedUp, origin, 20240110100000),
      Item("In Transit", inTransit, origin + center, 20240111080000),
      Item("Out for Delivery", outForDelivery, destination, 20240112090000),
      Item("Delivered", "Package has been successfully delivered", destination, 20240112154500)]
    else if trackingNumber == "MAX555666777" then [
      Item("Package Received", "Package received at origin facility", origin, 20240115112000),
      Item("In Transit", inTransit, origin + center, 20240116080000),
      Item("Out for Delivery", outForDelivery, destination, 20240117090000),
      Item("Delivered", "Package has been delivered", destination, 20240117160000)]
    else if trackingNumber == "MAX111222333" then [
      Item("Package Picked Up", pickedUp, origin, 20240118083000),
      Item("In Transit", inTransit, origin + center, 20240119101500),
      Item("Out for Delivery", outForDelivery, destination, 20240120080000)]
    else if trackingNumber == "MAX444555666" then [
      Item("Package Picked Up", pickedUp, origin, 20240114142000),
      Item("In Transit", inTransit, origin + center, 20240115094500),
      Item("Out for Delivery", outForDelivery, destination, 20240116103000),
      Item("Exception", "Delivery attempted - recipient not available", destination, 20240116142000)]
    else
      [Item(currentStatus, "Package status update", origin, now)]
  }

  /** The two copies of getTimelineData() agree on every input. */
  lemma SameTimelineAsReset(trackingNumber: string, currentStatus: string, origin: string, destination: string,
                            now: int)
    ensures GetTimelineData(trackingNumber, currentStatus, origin, destination, now)
         == ResetDatabase.GetTimelineData(trackingNumber, currentStatus, origin, destination, now)
  {
  }

  /** The timeline this script inserts for each sample, in sample order. */
  function FixTimelines(now: int): (r: seq<seq<TimelineItem>>)
    ensures |r| == |ResetDatabase.SampleData|
  {
    var samples := ResetDatabase.SampleData;
    seq(|samples|, i requires 0 <= i < |samples| =>
      GetTimelineData(samples[i].trackingNumber, samples[i].currentStatus, samples[i].origin, samples[i].destination, now))
  }

  /** So the script inserts exactly the timelines the reset script inserts. */
  lemma {:induction false} SameTimelinesAsReset(now: int)
    ensures FixTimelines(now) == ResetDatabase.Timelines(ResetDatabase.SampleData, now)
  {
    var samples := ResetDatabase.SampleData;
    forall i | 0 <= i < |samples|
      ensures FixTimelines(now)[i] == ResetDatabase.Timelines(samples, now)[i]
    {
      SameTimelineAsReset(samples[i].trackingNumber, samples[i].currentStatus, samples[i].origin,
                          samples[i].destination, now);
    }
  }

  /**
   * The whole script: delete every history row and every shipment, seed the
   * samples (ids continue from the counter), then count both tables.
   */
  method Fix(db: Db, now: int) returns (shipmentCount: nat, statusCount: nat)
    requires db.Valid()
    modifies db`shipments, db`history, db`nextId
    ensures db.Valid() && db.logs == old(db.logs)
    ensures db.nextId == old(db.nextId) + 5
    ensures db.shipments == ResetDatabase.SeedShipments(ResetDatabase.SampleData, old(db.nextId), now, 5)
    ensures db.history == ResetDatabase.SeedHistory(FixTimelines(now), old(db.nextId), 5)
    ensures shipmentCount == 5 && statusCount == 19
  {
    var firstId := db.nextId;
    var timelines := FixTimelines(now);
    assert |ResetDatabase.SeedHistory(timelines, firstId, 5)| == 19 by {
      SameTimelinesAsReset(now);
      ResetDatabase.ResetCounts(firstId, now);
    }
    db.DeleteShipments();
    ResetDatabase.SamplesInsertable();
    ResetDatabase.SeedSamples(db, ResetDatabase.SampleData, timelines, now);
    shipmentCount := |db.shipments|;
    statusCount := |db.history|;
  }

  /**
   * Whatever the tables held before, the shipments after the fix carry exactly
   * the five sample numbers, one each, in sample order.
   */
  lemma FixedNumbersOnly(firstId: nat, now: int)
    ensures var shipments := ResetDatabase.SeedShipments(ResetDatabase.SampleData, firstId, now, 5);
      && |shipments| == 5
      && forall i :: 0 <= i < 5 ==> shipments[i].trackingNumber == ResetDatabase.SampleNumbers[i]
  {
    var samples := ResetDatabase.SampleData;
    ResetDatabase.SeededShipments(samples, firstId, now, 5);
    assert forall i :: 0 <= i < 5 ==> samples[i].trackingNumber == ResetDatabase.SampleNumbers[i];
  }

  /** After the fix, tracking sample k answers 200 with its fixed timeline, classified. */
  lemma TrackAfterFix(req: Track.Request, firstId: nat, now: int, k: nat)
    requires 0 < firstId
    requires k < |ResetDatabase.SampleData|
    requires Track.AcceptedNumber(req) == Some(ResetDatabase.SampleData[k].trackingNumber)
    ensures var reply := Track.TrackReply(req, ResetDatabase.SeedShipments(ResetDatabase.SampleData, firstId, now, 5),
                                          ResetDatabase.SeedHistory(FixTimelines(now), firstId, 5), false);
      && reply.Json? && reply.envelope.code == 200 && reply.envelope.data.Tracking?
      && reply.envelope.data.info.timeline
         == Track.Timeline(ResetDatabase.ItemRows(firstId + k, FixTimelines(now)[k]),
                           ResetDatabase.SampleData[k].currentStatus)
  {
    ResetDatabase.SampleLookup(firstId, now, k);
    SameTimelinesAsReset(now);
    Track.AcceptedReply(req, ResetDatabase.SeedShipments(ResetDatabase.SampleData, firstId, now, 5),
                        ResetDatabase.SeedHistory(FixTimelines(now), firstId, 5), false);
  }

  /**
   * Sample MAX444555666 (status Exception): of its four events only the last,
   * labelled Exception, is current; the three before it are completed.
   */
  lemma ExceptionTimeline(id: nat, now: int)
    ensures var items := FixTimelines(now)[4];
      && ResetDatabase.SampleData[4].currentStatus == "Exception"
      && |items| == 4 && items[3].status == "Exception"
      && ResetDatabase.Classified(Track.Timeline(ResetDatabase.ItemRows(id, items),
                                                 ResetDatabase.SampleData[4].currentStatus))
         == [Completed, Completed, Completed, Current]
  {
    var items := FixTimelines(now)[4];
    assert items == GetTimelineData("MAX444555666", "Exception", "Palembang, Indonesia", "Pontianak, Indonesia", now);
    ResetDatabase.ClassifiedItems(id, items, "Exception");
    assert Track.DetermineTimelineStatus("Package Picked Up", "Exception") == Completed;
    assert Track.DetermineTimelineStatus("In Transit", "Exception") == Completed;
    assert Track.DetermineTimelineStatus("Out for Delivery", "Exception") == Completed;
  }

  /**
   * Sample MAX123456789 (status In Transit): its later Out for Delivery and
   * Delivered events still count as completed, because the classification
   * looks at labels, not dates.
   */
  lemma InTransitTimeline(id: nat, now: int)
    ensures var items := FixTimelines(now)[0];
      && ResetDatabase.SampleData[0].currentStatus == "In Transit"
      && |items| == 4 && items[2].status == "Out for Delivery" && items[3].status == "Delivered"
      && ResetDatabase.Classified(Track.Timeline(ResetDatabase.ItemRows(id, items),
                                                 ResetDatabase.SampleData[0].currentStatus))
         == [Completed, Current, Completed, Completed]
  {
    var items := FixTimelines(now)[0];
    assert items == GetTimelineData("MAX123456789", "In Transit", "Jakarta, Indonesia", "Surabaya, Indonesia", now);
    ResetDatabase.ClassifiedItems(id, items, "In Transit");
    assert Track.DetermineTimelineStatus("Package Picked Up", "In Transit") == Completed;
    assert Track.DetermineTimelineStatus("Out for Delivery", "In Transit") == Completed;
    assert Track.DetermineTimelineStatus("Delivered", "In Transit") == Completed;
  }
}

/** Properties that join the two halves: what the dashboard derives from
    an inventory the backend has loaded. */
module EndToEnd {
  import opened Lots
  import opened Backend
  import opened Dashboard

  /** Every record the loader stores has one of the three statuses. */
  lemma {:induction false} LoadedStatusesKnown(events: seq<Event>)
    ensures forall i :: 0 <= i < |Replay(events).records| ==> Replay(events).records[i].status.IsKnown()
  {
    if events != [] {
      LoadedStatusesKnown(events[..|events| - 1]);
    }
  }

  /** On a full scan of a loaded inventory, the three status counts add up to
      the number of records and the histogram has nothing in an unknown
      column: its `ok` column is exactly the `ok` count. */
  lemma CountsCoverLoadedInventory(events: seq<Event>, now: int)
    requires FullScan(Replay(events)).Served?
    ensures var inv := FullScan(Replay(events)).records;
      var c := StatusCounts(inv);
      c.expired + c.warning + c.ok == |inv|
    ensures var inv := FullScan(Replay(events)).records;
      var t := Timeline(inv, now);
      t[0].ok + t[1].ok + t[2].ok + t[3].ok + t[4].ok == CountStatus(inv, Ok)
  {
    var inv := FullScan(Replay(events)).records;
    LoadedStatusesKnown(events);
    StatusCountsPartition(inv);
    TimelineColumns(inv, now);
  }

  /** Two rows of lot L1 expiring in two days with 10 and 5 units, and one
      row of lot L2 that expired a day ago with 7 units. */
  function SampleRows(now: int): seq<Row> {
    [Row("P-01", "Agua", "L1", now + 2 * DayMs, Some(10)),
     Row("P-01", "Agua", "L1", now + 2 * DayMs, Some(5)),
     Row("P-02", "Pan", "L2", now - DayMs, Some(7))]
  }

  /** The sample rows streamed at `now`, then the end of the stream. */
  function SampleLoad(now: int): LoadState {
    var rows := SampleRows(now);
    Replay([Data(rows[0], now), Data(rows[1], now), Data(rows[2], now), End])
  }

  /** Loading the sample stores the three rows, in order, and is ready. */
  lemma SampleLoadContents(now: int)
    ensures SampleLoad(now).ready
    ensures SampleLoad(now).records ==
      [Enrich(SampleRows(now)[0], now), Enrich(SampleRows(now)[1], now), Enrich(SampleRows(now)[2], now)]
  {
    var rows := SampleRows(now);
    var data := [Data(rows[0], now), Data(rows[1], now), Data(rows[2], now)];
    assert data + [End] == [Data(rows[0], now), Data(rows[1], now), Data(rows[2], now), End];
    LoadThenEnd(data);
  }

  /** The lookup of a three-record store, record by record. */
  lemma LotFilterThree(a: Record, b: Record, c: Record, lot: string)
    ensures LotFilter([a, b, c], lot) ==
      (if a.fields.lotNumber == lot then [a] else [])
      + (if b.fields.lotNumber == lot then [b] else [])
      + (if c.fields.lotNumber == lot then [c] else [])
  {
    assert [a, b, c][1..] == [b, c] && [b, c][1..] == [c] && [c][1..] == [];
    var last := if c.fields.lotNumber == lot then [c] else [];
    assert LotFilter([c], lot) == last + [] == last;
  }

  /** Loaded at `now`, the sample gives: a full scan of the three records as
      warning, warning, expired; lot L1 as its two records, 15 units in all;
      lot L3 not found. */
  lemma ThreeRowLoad(now: int)
    ensures FullScan(SampleLoad(now)).Served?
    ensures |FullScan(SampleLoad(now)).records| == 3
    ensures FullScan(SampleLoad(now)).records[0].status == Warning
    ensures FullScan(SampleLoad(now)).records[1].status == Warning
    ensures FullScan(SampleLoad(now)).records[2].status == Expired
    ensures LookupLot(SampleLoad(now), "L1").Served?
    ensures |LookupLot(SampleLoad(now), "L1").records| == 2
    ensures TotalUnits(LookupLot(SampleLoad(now), "L1").records) == 15
    ensures LookupLot(SampleLoad(now), "L3") == NotFound
  {
    SampleLoadContents(now);
    var recs := SampleLoad(now).records;
    LotFilterThree(recs[0], recs[1], recs[2], "L1");
    LotFilterThree(recs[0], recs[1], recs[2], "L3");
    assert LookupLot(SampleLoad(now), "L1").records == [recs[0], recs[1]];
    TotalUnitsOfTwo(recs[0], recs[1]);
  }

  /** The unit total of two records. */
  lemma TotalUnitsOfTwo(a: Record, b: Record)
    ensures TotalUnits([a, b]) == SafeQuantity(a.fields.quantity) + SafeQuantity(b.fields.quantity)
  {
    assert [a, b][..1] == [a] && [a][..0] == [];
    assert TotalUnits([a]) == TotalUnits([]) + SafeQuantity(a.fields.quantity);
  }
}

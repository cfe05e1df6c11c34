/** The backend: the freshness classifier, the CSV load handlers that fill
    the in-memory inventory, and the two query handlers that read it. */
module Backend {
  import opened Lots

  // ---------------------------------------------------------------------
  // Freshness classification (`calculateStatus`)
  // ---------------------------------------------------------------------

  /** The status of a lot expiring at `expiry`, seen at instant `now`:
      `expired` when the ceiling day count is negative, `warning` when it is
      between 0 and 5 inclusive, `ok` otherwise. In milliseconds: expired
      once a whole day has passed since expiry, warning up to five whole
      days ahead. */
  function Classify(expiry: int, now: int): (s: Status)
    ensures s.IsKnown()
    ensures s == Expired <==> expiry - now <= -DayMs
    ensures s == Warning <==> -DayMs < expiry - now <= 5 * DayMs
    ensures s == Ok <==> expiry - now > 5 * DayMs
  {
    var diffDays := DaysUntil(expiry, now);
    if diffDays < 0 then Expired
    else if diffDays <= 5 then Warning
    else Ok
  }

  /** For a fixed `now`, a later expiry never gets a more urgent status. */
  lemma ClassifyMonotoneInExpiry(e1: int, e2: int, now: int)
    requires e1 <= e2
    ensures Priority(Classify(e1, now)) <= Priority(Classify(e2, now))
  {
  }

  /** For a fixed expiry, a later `now` never gets a less urgent status. */
  lemma ClassifyMonotoneInNow(expiry: int, n1: int, n2: int)
    requires n1 <= n2
    ensures Priority(Classify(expiry, n2)) <= Priority(Classify(expiry, n1))
  {
  }

  /** The exact transitions: an expiry one millisecond (or several hours)
      in the past still rounds up to day 0 and is `warning`; a full day in
      the past is `expired`; exactly five days ahead is `warning`; one
      millisecond beyond five days is `ok`. */
  lemma ClassifyBoundaries(now: int)
    ensures Classify(now - 1, now) == Warning
    ensures Classify(now - DayMs + 1, now) == Warning
    ensures Classify(now - DayMs, now) == Expired
    ensures Classify(now, now) == Warning
    ensures Classify(now + 5 * DayMs, now) == Warning
    ensures Classify(now + 5 * DayMs + 1, now) == Ok
  {
  }

  // ---------------------------------------------------------------------
  // Loading (`data`, `end` and `error` handlers of the CSV stream)
  // ---------------------------------------------------------------------

  /** The record stored for a row: every field of the row, plus the status
      computed with the clock reading taken while the row is handled. */
  function Enrich(row: Row, now: int): (r: Record)
    ensures r.fields == row
    ensures r.status.IsKnown()
    ensures r.status == Expired <==> row.expiry - now <= -DayMs
  {
    Record(row, Classify(row.expiry, now))
  }

  /** What the CSV stream delivers to the handlers: a parsed row together
      with the clock reading of its `data` handler, end of stream, or an
      error raised by the CSV parser. The handlers are attached to the
      parser, so an error of the file read stream never reaches them. */
  datatype Event = Data(row: Row, now: int) | End | StreamError

  /** The module-level state: `inventoryData` and `isDataLoaded`. */
  datatype LoadState = LoadState(records: seq<Record>, ready: bool)

  const Initial := LoadState([], false)

  /** What one handler does to the state. The `error` handler only logs.
      The store only grows, by one record per `data` event, and only `end`
      sets the flag, which nothing clears. */
  function Step(s: LoadState, e: Event): (t: LoadState)
    ensures s.records <= t.records
    ensures |t.records| == |s.records| + (if e.Data? then 1 else 0)
    ensures t.ready <==> s.ready || e == End
  {
    match e
    case Data(row, now) => s.(records := s.records + [Enrich(row, now)])
    case End => s.(ready := true)
    case StreamError => s
  }

  /** The state after the handlers have run on `events`, in order. */
  function Replay(events: seq<Event>): LoadState {
    if events == [] then Initial
    else Step(Replay(events[..|events| - 1]), events[|events| - 1])
  }

  /** The record a single event contributes: one for `data`, none else. */
  function Contribution(e: Event): seq<Record> {
    if e.Data? then [Enrich(e.row, e.now)] else []
  }

  /** The records the `data` events contribute, in arrival order. */
  function Arrivals(events: seq<Event>): seq<Record> {
    if events == [] then [] else Contribution(events[0]) + Arrivals(events[1..])
  }

  /** True when an `end` event occurs in `events`. */
  predicate HasEnded(events: seq<Event>) {
    exists i :: 0 <= i < |events| && events[i] == End
  }

  lemma {:induction false} ArrivalsAppend(events: seq<Event>, e: Event)
    ensures Arrivals(events + [e]) == Arrivals(events) + Contribution(e)
  {
    if events == [] {
      assert events + [e] == [e];
      assert Arrivals([e]) == Contribution(e) + Arrivals([]);
    } else {
      var rest := events[1..];
      assert (events + [e])[0] == events[0];
      assert (events + [e])[1..] == rest + [e];
      assert Arrivals(events + [e]) == Contribution(events[0]) + Arrivals(rest + [e]);
      ArrivalsAppend(rest, e);
    }
  }

  /** Every `data` event appends exactly one record at the end and leaves
      the earlier ones alone, so the stored sequence is the enriched rows in
      arrival order; the readiness flag is set exactly when an `end` event
      has been handled. */
  lemma {:induction false} ReplayContents(events: seq<Event>)
    ensures Replay(events).records == Arrivals(events)
    ensures Replay(events).ready <==> HasEnded(events)
  {
    if events != [] {
      var init, last := events[..|events| - 1], events[|events| - 1];
      assert events == init + [last];
      ReplayContents(init);
      ArrivalsAppend(init, last);
      if HasEnded(init) {
        var i :| 0 <= i < |init| && init[i] == End;
        assert events[i] == End;
      }
      if HasEnded(events) && last != End {
        var i :| 0 <= i < |events| && events[i] == End;
        assert init[i] == End;
      }
    }
  }

  /** The stored sequence never shrinks or reorders, and readiness is never
      withdrawn: the state after a prefix of the events is a prefix of the
      state after all of them. */
  lemma {:induction false} ReplayGrows(events: seq<Event>, k: nat)
    requires k <= |events|
    ensures Replay(events[..k]).records <= Replay(events).records
    ensures Replay(events[..k]).ready ==> Replay(events).ready
  {
    if k < |events| {
      var init := events[..|events| - 1];
      assert events[..k] == init[..k];
      ReplayGrows(init, k);
    } else {
      assert events[..k] == events;
    }
  }

  /** A load that ends normally becomes ready, and its full scan returns one
      record per row, in file order, each holding the row's fields and the
      status computed with the clock reading of its own `data` handler. */
  lemma LoadThenEnd(rows: seq<Event>)
    requires forall i :: 0 <= i < |rows| ==> rows[i].Data?
    ensures Replay(rows + [End]).ready
    ensures FullScan(Replay(rows + [End])).Served?
    ensures var scan := FullScan(Replay(rows + [End])).records;
      && |scan| == |rows|
      && forall i :: 0 <= i < |rows| ==>
           scan[i].fields == rows[i].row && scan[i].status == Classify(rows[i].row.expiry, rows[i].now)
    ensures forall i :: 0 <= i < |rows| ==> Replay(rows + [End]).records[i] == Enrich(rows[i].row, rows[i].now)
  {
    ReplayContents(rows + [End]);
    ArrivalsAppend(rows, End);
    assert (rows + [End])[|rows|] == End;
    DataArrivals(rows);
  }

  lemma {:induction false} DataArrivals(rows: seq<Event>)
    requires forall i :: 0 <= i < |rows| ==> rows[i].Data?
    ensures |Arrivals(rows)| == |rows|
    ensures forall i :: 0 <= i < |rows| ==> Arrivals(rows)[i] == Enrich(rows[i].row, rows[i].now)
  {
    if rows != [] {
      DataArrivals(rows[1..]);
      assert Contribution(rows[0]) == [Enrich(rows[0].row, rows[0].now)];
    }
  }

  // ---------------------------------------------------------------------
  // Queries (`GET /api/inventory` and `GET /api/lot/:lotNumber`)
  // ---------------------------------------------------------------------

  /** A handler's answer: 503 before the load completes, 404 when a lot has
      no record, or the records sent as the JSON body. */
  datatype Response = NotReady | NotFound | Served(records: seq<Record>)

  /** The records whose `LOT_Number` is exactly `lot`, in stored order. */
  function LotFilter(records: seq<Record>, lot: string): (m: seq<Record>)
    ensures |m| <= |records|
    ensures forall r :: r in m <==> r in records && r.fields.lotNumber == lot
  {
    if records == [] then []
    else
      (if records[0].fields.lotNumber == lot then [records[0]] else [])
      + LotFilter(records[1..], lot)
  }

  /** The lookup keeps each matching record as often as it is stored and
      drops every other one. */
  lemma {:induction false} LotFilterCounts(records: seq<Record>, lot: string, r: Record)
    ensures multiset(LotFilter(records, lot))[r] ==
            if r.fields.lotNumber == lot then multiset(records)[r] else 0
  {
    if records != [] {
      LotFilterCounts(records[1..], lot, r);
      assert records == [records[0]] + records[1..];
    }
  }

  /** Filtering distributes over concatenation: matches from an earlier
      part of the store come before matches from a later part. */
  lemma {:induction false} LotFilterAppend(a: seq<Record>, b: seq<Record>, lot: string)
    ensures LotFilter(a + b, lot) == LotFilter(a, lot) + LotFilter(b, lot)
  {
    if a == [] {
      assert a + b == b;
    } else {
      assert (a + b)[1..] == a[1..] + b;
      LotFilterAppend(a[1..], b, lot);
    }
  }

  /** Full scan: not ready before the load completes, the whole stored
      sequence afterwards. */
  function FullScan(s: LoadState): (r: Response)
    ensures r.NotReady? <==> !s.ready
    ensures !r.NotFound?
    ensures r.Served? ==> r.records == s.records
  {
    if !s.ready then NotReady else Served(s.records)
  }

  /** Lookup by lot number: not ready before the load completes; afterwards
      not found exactly when no stored record carries the key, and otherwise
      the matching records. */
  function LookupLot(s: LoadState, lot: string): (r: Response)
    ensures r.NotReady? <==> !s.ready
    ensures r.NotFound? <==> s.ready && forall i :: 0 <= i < |s.records| ==> s.records[i].fields.lotNumber != lot
    ensures r.Served? ==> r.records == LotFilter(s.records, lot) && r.records != []
  {
    if !s.ready then NotReady
    else
      var products := LotFilter(s.records, lot);
      if |products| > 0 then
        assert products[0] in s.records;
        Served(products)
      else
        assert forall i :: 0 <= i < |s.records| ==> s.records[i] in s.records;
        NotFound
  }

  /** A stream whose CSV parser fails without ending keeps every query not
      ready, for every key, however many rows arrived before the failure. */
  lemma FailedLoadNeverServes(events: seq<Event>, lot: string)
    requires StreamError in events
    requires End !in events
    ensures FullScan(Replay(events)) == NotReady
    ensures LookupLot(Replay(events), lot) == NotReady
  {
    ReplayContents(events);
  }

  /** The module-level state of the server, updated in place by the stream
      handlers and read by the query handlers. */
  class InventoryServer {
    var inventoryData: seq<Record>
    var isDataLoaded: bool

    function State(): LoadState
      reads this
    {
      LoadState(inventoryData, isDataLoaded)
    }

    constructor ()
      ensures State() == Initial
    {
      inventoryData := [];
      isDataLoaded := false;
    }

    /** The `data` handler: classify the row at `now` and push it. */
    method OnData(row: Row, now: int)
      modifies this
      ensures State() == Step(old(State()), Data(row, now))
      ensures inventoryData == old(inventoryData) + [Enrich(row, now)]
      ensures isDataLoaded == old(isDataLoaded)
    {
      var status := Classify(row.expiry, now);
      inventoryData := inventoryData + [Record(row, status)];
    }

    /** The `end` handler: the data is loaded. */
    method OnEnd()
      modifies this
      ensures State() == Step(old(State()), End)
      ensures isDataLoaded && inventoryData == old(inventoryData)
    {
      isDataLoaded := true;
    }

    /** The `error` handler: it only logs, so nothing changes. */
    method OnError(message: string)
      ensures State() == Step(old(State()), StreamError)
    {
    }

    /** `GET /api/inventory`; reads the state and changes nothing. */
    method GetInventory() returns (r: Response)
      ensures r == FullScan(State())
    {
      if !isDataLoaded {
        return NotReady;
      }
      r := Served(inventoryData);
    }

    /** `GET /api/lot/:lotNumber`; reads the state and changes nothing. */
    method GetLot(lotNumber: string) returns (r: Response)
      ensures r == LookupLot(State(), lotNumber)
    {
      if !isDataLoaded {
        return NotReady;
      }
      var products := LotFilter(inventoryData, lotNumber);
      if |products| > 0 {
        return Served(products);
      }
      r := NotFound;
    }
  }
}

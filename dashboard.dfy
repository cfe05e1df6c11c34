/** The dashboard's derived views of the inventory list it fetched: status
    counts, unit total, the expiry histogram, the status breakdown, the
    top products, the critical lots and the sorted table. Each is a pure
    function of the list (and, for the histogram, of the clock reading). */
module Dashboard {
  import opened Lots
  import opened Sorting

  // ---------------------------------------------------------------------
  // Status configuration and priority
  // ---------------------------------------------------------------------

  /** The keys of the status configuration, in declaration order. */
  const StatusKeys: seq<Status> := [Expired, Warning, Ok]

  /** `STATUS_CONFIG[key].shortLabel`. */
  function ShortLabel(s: Status): string
    requires s.IsKnown()
  {
    match s
    case Expired => "Expirados"
    case Warning => "Alerta"
    case Ok => "Frescos"
  }

  /** `STATUS_CONFIG[key].color`. */
  function Color(s: Status): string
    requires s.IsKnown()
  {
    match s
    case Expired => "var(--status-expired)"
    case Warning => "var(--status-warning)"
    case Ok => "var(--status-ok)"
  }

  /** The column a record is tallied under: its own status when the
      configuration knows it, `ok` otherwise. */
  function StatusKey(s: Status): (k: Status)
    ensures k.IsKnown()
    ensures s.IsKnown() ==> k == s
    ensures !s.IsKnown() ==> k == Ok
  {
    if s.IsKnown() then s else Ok
  }

  /** `Number(item.Quantity)` with NaN read as 0. */
  function SafeQuantity(q: Option<int>): int {
    match q
    case Some(n) => n
    case None => 0
  }

  // ---------------------------------------------------------------------
  // statusCounts and totalUnits
  // ---------------------------------------------------------------------

  /** `inventory.filter(item => item.status === s).length`. */
  function CountStatus(inv: seq<Record>, s: Status): (n: nat)
    ensures n <= |inv|
  {
    if inv == [] then 0
    else CountStatus(inv[..|inv| - 1], s) + (if inv[|inv| - 1].status == s then 1 else 0)
  }

  datatype Counts = Counts(expired: nat, warning: nat, ok: nat)

  /** The number of records whose status the configuration does not know. */
  function CountUnknown(inv: seq<Record>): (n: nat)
    ensures n <= |inv|
  {
    if inv == [] then 0
    else CountUnknown(inv[..|inv| - 1]) + (if inv[|inv| - 1].status.IsKnown() then 0 else 1)
  }

  /** Each record is counted under exactly one of the three statuses or as
      unknown. */
  lemma {:induction false} CountsPartition(inv: seq<Record>)
    ensures CountStatus(inv, Expired) + CountStatus(inv, Warning) + CountStatus(inv, Ok) + CountUnknown(inv) == |inv|
  {
    if inv != [] {
      CountsPartition(inv[..|inv| - 1]);
    }
  }

  /** `statusCounts`: one count per configured status, starting from 0. The
      three counts and the unknown statuses partition the inventory. */
  function StatusCounts(inv: seq<Record>): (c: Counts)
    ensures c.expired + c.warning + c.ok + CountUnknown(inv) == |inv|
  {
    CountsPartition(inv);
    Counts(CountStatus(inv, Expired), CountStatus(inv, Warning), CountStatus(inv, Ok))
  }

  /** The counts add up to the length of the inventory exactly when every
      status is known. */
  lemma StatusCountsPartition(inv: seq<Record>)
    ensures var c := StatusCounts(inv);
      c.expired + c.warning + c.ok == |inv| <==> forall i :: 0 <= i < |inv| ==> inv[i].status.IsKnown()
  {
    AllKnownIffNoUnknown(inv);
  }

  lemma {:induction false} AllKnownIffNoUnknown(inv: seq<Record>)
    ensures CountUnknown(inv) == 0 <==> forall i :: 0 <= i < |inv| ==> inv[i].status.IsKnown()
  {
    if inv != [] {
      var init := inv[..|inv| - 1];
      AllKnownIffNoUnknown(init);
      assert forall i :: 0 <= i < |init| ==> init[i] == inv[i];
    }
  }

  /** `totalUnits`: the sum of the quantities, a non-numeric one counting 0.
      With no negative quantity in the list, the total is not negative. */
  function TotalUnits(inv: seq<Record>): (t: int)
    ensures (forall i :: 0 <= i < |inv| ==> SafeQuantity(inv[i].fields.quantity) >= 0) ==> t >= 0
  {
    if inv == [] then 0
    else TotalUnits(inv[..|inv| - 1]) + SafeQuantity(inv[|inv| - 1].fields.quantity)
  }

  /** The unit total of a concatenation is the sum of the unit totals. */
  lemma {:induction false} TotalUnitsAppend(a: seq<Record>, b: seq<Record>)
    ensures TotalUnits(a + b) == TotalUnits(a) + TotalUnits(b)
  {
    if b != [] {
      var init := b[..|b| - 1];
      assert (a + b)[..|a + b| - 1] == a + init;
      TotalUnitsAppend(a, init);
    } else {
      assert a + b == a;
    }
  }

  /** A record whose quantity is not a number never changes the total,
      wherever it stands. */
  lemma NonNumericQuantityIgnored(a: seq<Record>, x: Record, b: seq<Record>)
    requires x.fields.quantity.None?
    ensures TotalUnits(a + [x] + b) == TotalUnits(a + b)
  {
    TotalUnitsAppend(a + [x], b);
    TotalUnitsAppend(a, [x]);
    TotalUnitsAppend(a, b);
    assert [x][..0] == [];
  }

  // ---------------------------------------------------------------------
  // freshnessTimeline
  // ---------------------------------------------------------------------

  const BucketLabels: seq<string> := ["Expirados", "0-7 días", "8-14 días", "15-30 días", "30+ días"]

  /** The histogram bucket of an expiry: more than a day in the past, then
      up to 7, 14 and 30 days ahead (ceiling day count), then beyond. */
  function BucketIndex(expiry: int, now: int): (b: nat)
    ensures b < 5
    ensures b == 0 <==> expiry - now <= -DayMs
    ensures b == 1 <==> -DayMs < expiry - now <= 7 * DayMs
    ensures b == 2 <==> 7 * DayMs < expiry - now <= 14 * DayMs
    ensures b == 3 <==> 14 * DayMs < expiry - now <= 30 * DayMs
    ensures b == 4 <==> 30 * DayMs < expiry - now
  {
    var diffDays := DaysUntil(expiry, now);
    if diffDays < 0 then 0
    else if diffDays <= 7 then 1
    else if diffDays <= 14 then 2
    else if diffDays <= 30 then 3
    else 4
  }

  datatype Bucket = Bucket(caption: string, expired: nat, warning: nat, ok: nat)

  /** The number of records that fall in bucket `b` and are tallied under
      status `k`. */
  function CellCount(inv: seq<Record>, now: int, b: nat, k: Status): (n: nat)
    ensures n <= |inv|
  {
    if inv == [] then 0
    else
      var x := inv[|inv| - 1];
      CellCount(inv[..|inv| - 1], now, b, k)
      + (if BucketIndex(x.fields.expiry, now) == b && StatusKey(x.status) == k then 1 else 0)
  }

  /** The histogram as a value: bucket `b` holds the cell counts of `b`. */
  function Timeline(inv: seq<Record>, now: int): seq<Bucket> {
    seq(5, b requires 0 <= b < 5 =>
      Bucket(BucketLabels[b], CellCount(inv, now, b, Expired), CellCount(inv, now, b, Warning), CellCount(inv, now, b, Ok)))
  }

  function BucketTotal(t: Bucket): nat {
    t.expired + t.warning + t.ok
  }

  /** `cell[key] += 1`: one more record in the column of `key`. */
  function Increment(cell: Bucket, key: Status): (c: Bucket)
    ensures BucketTotal(c) == BucketTotal(cell) + 1
  {
    match key
    case Expired => cell.(expired := cell.expired + 1)
    case Warning => cell.(warning := cell.warning + 1)
    case _ => cell.(ok := cell.ok + 1)
  }

  /** One more record changes the histogram in one cell only: the cell of
      its bucket and status key goes up by one. */
  lemma TimelineStep(inv: seq<Record>, x: Record, now: int)
    ensures var b := BucketIndex(x.fields.expiry, now);
      Timeline(inv + [x], now) == Timeline(inv, now)[b := Increment(Timeline(inv, now)[b], StatusKey(x.status))]
  {
    var b := BucketIndex(x.fields.expiry, now);
    var before, after := Timeline(inv, now), Timeline(inv + [x], now);
    assert (inv + [x])[..|inv|] == inv;
    forall c | 0 <= c < 5
      ensures after[c] == if c == b then Increment(before[c], StatusKey(x.status)) else before[c]
    {
      CellCountStep(inv, x, now, c);
    }
  }

  /** The three cells of bucket `c` after one more record. */
  lemma CellCountStep(inv: seq<Record>, x: Record, now: int, c: nat)
    ensures var hit := BucketIndex(x.fields.expiry, now) == c;
      && CellCount(inv + [x], now, c, Expired) == CellCount(inv, now, c, Expired) + (if hit && StatusKey(x.status) == Expired then 1 else 0)
      && CellCount(inv + [x], now, c, Warning) == CellCount(inv, now, c, Warning) + (if hit && StatusKey(x.status) == Warning then 1 else 0)
      && CellCount(inv + [x], now, c, Ok) == CellCount(inv, now, c, Ok) + (if hit && StatusKey(x.status) == Ok then 1 else 0)
  {
    assert (inv + [x])[..|inv|] == inv;
  }

  /** `freshnessTimeline`: five zeroed buckets, then one increment per
      record in the cell of its bucket and status key. */
  method FreshnessTimeline(inventory: seq<Record>, now: int) returns (timeline: seq<Bucket>)
    ensures |timeline| == 5
    ensures forall b :: 0 <= b < 5 ==> timeline[b].caption == BucketLabels[b]
    ensures timeline == Timeline(inventory, now)
  {
    var buckets := new Bucket[5](b requires 0 <= b < 5 => Bucket(BucketLabels[b], 0, 0, 0));
    assert buckets[..] == Timeline([], now);
    for i := 0 to |inventory|
      invariant buckets[..] == Timeline(inventory[..i], now)
    {
      var item := inventory[i];
      assert inventory[..i + 1] == inventory[..i] + [item];
      TimelineStep(inventory[..i], item, now);
      var bucketIndex := BucketIndex(item.fields.expiry, now);
      var statusKey := StatusKey(item.status);
      ghost var before := buckets[..];
      buckets[bucketIndex] := Increment(buckets[bucketIndex], statusKey);
      assert buckets[..] == before[bucketIndex := Increment(before[bucketIndex], statusKey)];
    }
    assert inventory[..|inventory|] == inventory;
    timeline := buckets[..];
  }

  /** The number of records tallied under status key `k`. */
  function CountKey(inv: seq<Record>, k: Status): (n: nat)
    ensures n <= |inv|
  {
    if inv == [] then 0
    else CountKey(inv[..|inv| - 1], k) + (if StatusKey(inv[|inv| - 1].status) == k then 1 else 0)
  }

  /** Summed over the five buckets, a column holds every record with that
      status key exactly once. */
  lemma {:induction false} ColumnSum(inv: seq<Record>, now: int, k: Status)
    ensures CellCount(inv, now, 0, k) + CellCount(inv, now, 1, k) + CellCount(inv, now, 2, k)
            + CellCount(inv, now, 3, k) + CellCount(inv, now, 4, k) == CountKey(inv, k)
  {
    if inv != [] {
      ColumnSum(inv[..|inv| - 1], now, k);
    }
  }

  /** The `expired` and `warning` keys hold exactly those statuses; the `ok`
      key holds `ok` and every unknown status. */
  lemma {:induction false} CountKeyByStatus(inv: seq<Record>)
    ensures CountKey(inv, Expired) == CountStatus(inv, Expired)
    ensures CountKey(inv, Warning) == CountStatus(inv, Warning)
    ensures CountKey(inv, Ok) == CountStatus(inv, Ok) + CountUnknown(inv)
  {
    if inv != [] {
      CountKeyByStatus(inv[..|inv| - 1]);
    }
  }

  /** Every record lands in exactly one cell: the cells add up to the
      length of the inventory. The `expired` and `warning` columns hold
      exactly the records with those statuses, and the `ok` column every
      other record, unknown statuses included. */
  lemma TimelineColumns(inv: seq<Record>, now: int)
    ensures var t := Timeline(inv, now);
      t[0].expired + t[1].expired + t[2].expired + t[3].expired + t[4].expired == CountStatus(inv, Expired)
    ensures var t := Timeline(inv, now);
      t[0].warning + t[1].warning + t[2].warning + t[3].warning + t[4].warning == CountStatus(inv, Warning)
    ensures var t := Timeline(inv, now);
      t[0].ok + t[1].ok + t[2].ok + t[3].ok + t[4].ok == CountStatus(inv, Ok) + CountUnknown(inv)
    ensures var t := Timeline(inv, now);
      BucketTotal(t[0]) + BucketTotal(t[1]) + BucketTotal(t[2]) + BucketTotal(t[3]) + BucketTotal(t[4]) == |inv|
  {
    ColumnSum(inv, now, Expired);
    ColumnSum(inv, now, Warning);
    ColumnSum(inv, now, Ok);
    CountKeyByStatus(inv);
    CountsPartition(inv);
  }

  // ---------------------------------------------------------------------
  // statusBreakdown
  // ---------------------------------------------------------------------

  datatype Slice = Slice(name: string, value: nat, fill: string)

  /** `statusBreakdown`: one slice per configured status, in key order. */
  function StatusBreakdown(counts: Counts): (r: seq<Slice>)
    ensures |r| == 3
    ensures forall i :: 0 <= i < 3 ==> r[i].name == ShortLabel(StatusKeys[i]) && r[i].fill == Color(StatusKeys[i])
    ensures r[0].value == counts.expired && r[1].value == counts.warning && r[2].value == counts.ok
  {
    seq(3, i requires 0 <= i < 3 =>
      var key := StatusKeys[i];
      Slice(ShortLabel(key), match key case Expired => counts.expired case Warning => counts.warning case _ => counts.ok, Color(key)))
  }

  /** The breakdown of an inventory shows each record with a known status
      once and leaves the others out, so the slices cover the whole
      inventory exactly when every status is known. */
  lemma BreakdownCoversKnownStatuses(inv: seq<Record>)
    ensures var r := StatusBreakdown(StatusCounts(inv));
      r[0].value + r[1].value + r[2].value == |inv| - CountUnknown(inv)
    ensures var r := StatusBreakdown(StatusCounts(inv));
      r[0].value + r[1].value + r[2].value == |inv| <==> forall i :: 0 <= i < |inv| ==> inv[i].status.IsKnown()
  {
    StatusCountsPartition(inv);
  }

  // ---------------------------------------------------------------------
  // topProducts
  // ---------------------------------------------------------------------

  const Unnamed: string := "Producto sin nombre"

  /** `item.Product_Name || 'Producto sin nombre'`. */
  function DisplayName(name: string): (n: string)
    ensures n != ""
    ensures name == "" ==> n == Unnamed
    ensures name != "" ==> n == name
  {
    if name == "" then Unnamed else name
  }

  function NameOf(x: Record): string {
    DisplayName(x.fields.productName)
  }

  datatype Totals = Totals(total: int, expired: int, warning: int, ok: int)

  const NoUnits := Totals(0, 0, 0, 0)

  /** Adds `q` units to the total and to the column of `key`. */
  function AddUnits(t: Totals, key: Status, q: int): Totals {
    var t' := t.(total := t.total + q);
    match key
    case Expired => t'.(expired := t'.expired + q)
    case Warning => t'.(warning := t'.warning + q)
    case _ => t'.(ok := t'.ok + q)
  }

  /** The units of the records grouped under `name`, overall and per status
      key. */
  function ProductTotals(inv: seq<Record>, name: string): Totals {
    if inv == [] then NoUnits
    else
      var x := inv[|inv| - 1];
      var t := ProductTotals(inv[..|inv| - 1], name);
      if NameOf(x) == name then AddUnits(t, StatusKey(x.status), SafeQuantity(x.fields.quantity)) else t
  }

  /** The product names in order of first appearance (the key order of the
      aggregation map). */
  function ProductNames(inv: seq<Record>): (names: seq<string>)
    ensures forall n :: n in names <==> exists i :: 0 <= i < |inv| && NameOf(inv[i]) == n
  {
    if inv == [] then []
    else
      var init := inv[..|inv| - 1];
      var names := ProductNames(init);
      var n := NameOf(inv[|inv| - 1]);
      assert forall i :: 0 <= i < |init| ==> init[i] == inv[i];
      if n in names then names else names + [n]
  }

  /** No name occurs twice in `names`. */
  predicate Distinct(names: seq<string>) {
    forall i, j :: 0 <= i < j < |names| ==> names[i] != names[j]
  }

  lemma {:induction false} ProductNamesDistinct(inv: seq<Record>)
    ensures Distinct(ProductNames(inv))
  {
    if inv != [] {
      var init := inv[..|inv| - 1];
      ProductNamesDistinct(init);
      var names := ProductNames(init);
      var n := NameOf(inv[|inv| - 1]);
      if n !in names {
        var names' := names + [n];
        assert ProductNames(inv) == names';
        forall i, j | 0 <= i < j < |names'| ensures names'[i] != names'[j] {
          assert names'[i] == names[i];
          if j == |names| {
            assert names[i] in names;
          } else {
            assert names'[j] == names[j];
          }
        }
      } else {
        assert ProductNames(inv) == names;
      }
    }
  }

  /** Each product's total is the sum of its three status columns. */
  lemma {:induction false} ProductTotalsBalanced(inv: seq<Record>, name: string)
    ensures var t := ProductTotals(inv, name); t.total == t.expired + t.warning + t.ok
  {
    if inv != [] {
      ProductTotalsBalanced(inv[..|inv| - 1], name);
    }
  }

  /** A name no record carries has no units. */
  lemma {:induction false} AbsentNameHasNoUnits(inv: seq<Record>, name: string)
    requires name !in ProductNames(inv)
    ensures ProductTotals(inv, name) == NoUnits
  {
    if inv != [] {
      var init := inv[..|inv| - 1];
      assert forall i :: 0 <= i < |init| ==> init[i] == inv[i];
      AbsentNameHasNoUnits(init, name);
    }
  }

  /** The sum of the totals of `names`. */
  function SumTotals(inv: seq<Record>, names: seq<string>): int {
    if names == [] then 0
    else SumTotals(inv, names[..|names| - 1]) + ProductTotals(inv, names[|names| - 1]).total
  }

  lemma {:induction false} SumTotalsStep(inv: seq<Record>, x: Record, names: seq<string>)
    requires Distinct(names)
    ensures SumTotals(inv + [x], names) ==
            SumTotals(inv, names) + (if NameOf(x) in names then SafeQuantity(x.fields.quantity) else 0)
  {
    assert (inv + [x])[..|inv + [x]| - 1] == inv;
    if names != [] {
      var init := names[..|names| - 1];
      SumTotalsStep(inv, x, init);
      assert forall n :: n in init ==> n in names;
      assert NameOf(x) in names <==> NameOf(x) in init || NameOf(x) == names[|names| - 1];
    }
  }

  /** The product totals add up to the unit total: no unit is lost or
      counted twice by the grouping. */
  lemma {:induction false} ProductTotalsConserveUnits(inv: seq<Record>)
    ensures SumTotals(inv, ProductNames(inv)) == TotalUnits(inv)
  {
    if inv != [] {
      var init, x := inv[..|inv| - 1], inv[|inv| - 1];
      assert inv == init + [x];
      ProductTotalsConserveUnits(init);
      var names := ProductNames(init);
      ProductNamesDistinct(init);
      SumTotalsStep(init, x, names);
      if NameOf(x) !in names {
        AbsentNameHasNoUnits(init, NameOf(x));
        assert (names + [NameOf(x)])[..|names|] == names;
      }
    }
  }

  /** One row of the chart: `{ name, ...stats }`. */
  datatype ProductStats = ProductStats(name: string, total: int, expired: int, warning: int, ok: int)

  /** The chart row of product `name`. */
  function StatsOf(inv: seq<Record>, name: string): (p: ProductStats)
    ensures p.name == name
  {
    var t := ProductTotals(inv, name);
    ProductStats(name, t.total, t.expired, t.warning, t.ok)
  }

  /** The comparator `b[1].total - a[1].total`. */
  function TotalCompare(a: ProductStats, b: ProductStats): int {
    b.total - a.total
  }

  /** The comparator read as "a may come first": it does not return a
      positive number. */
  function ByTotalDescending(a: ProductStats, b: ProductStats): (r: bool)
    ensures r <==> a.total >= b.total
  {
    TotalCompare(a, b) <= 0
  }

  lemma ByTotalDescendingIsPreorder()
    ensures TotalPreorder(ByTotalDescending)
  {
  }

  /** What one record does to the aggregation: it adds its units to its own
      product and, the first time that product is seen, appends its name. */
  lemma ProductStep(inv: seq<Record>, x: Record)
    ensures forall n :: (ProductTotals(inv + [x], n) ==
      if NameOf(x) == n then AddUnits(ProductTotals(inv, n), StatusKey(x.status), SafeQuantity(x.fields.quantity))
      else ProductTotals(inv, n))
    ensures ProductNames(inv + [x]) ==
      if NameOf(x) in ProductNames(inv) then ProductNames(inv) else ProductNames(inv) + [NameOf(x)]
  {
    assert (inv + [x])[..|inv|] == inv;
  }

  /** `aggregate` maps each name of `keys`, and no other, to the units of
      `inv` grouped under it, and `keys` lists the names of `inv` in order of
      first appearance. */
  ghost predicate Aggregates(inv: seq<Record>, keys: seq<string>, aggregate: map<string, Totals>) {
    && keys == ProductNames(inv)
    && (forall n :: n in aggregate <==> n in keys)
    && (forall n :: n in aggregate ==> aggregate[n] == ProductTotals(inv, n))
  }

  /** One pass of the `forEach` body keeps `Aggregates`: create the entry of
      a new name, then add the record's units to it. */
  lemma AggregateStep(inv: seq<Record>, x: Record, keys: seq<string>, aggregate: map<string, Totals>,
                      keys': seq<string>, aggregate': map<string, Totals>)
    requires Aggregates(inv, keys, aggregate)
    requires keys' == if NameOf(x) in aggregate then keys else keys + [NameOf(x)]
    requires aggregate' ==
      var base := if NameOf(x) in aggregate then aggregate else aggregate[NameOf(x) := NoUnits];
      base[NameOf(x) := AddUnits(base[NameOf(x)], StatusKey(x.status), SafeQuantity(x.fields.quantity))]
    ensures Aggregates(inv + [x], keys', aggregate')
  {
    ProductStep(inv, x);
    if NameOf(x) !in aggregate {
      AbsentNameHasNoUnits(inv, NameOf(x));
    }
  }

  /** The `forEach` of `topProducts`: the aggregation map from product name
      to its units, with its keys in insertion order. */
  method AggregateByProduct(inventory: seq<Record>) returns (keys: seq<string>, aggregate: map<string, Totals>)
    ensures keys == ProductNames(inventory)
    ensures forall n :: n in aggregate <==> n in keys
    ensures forall n :: n in aggregate ==> aggregate[n] == ProductTotals(inventory, n)
  {
    keys, aggregate := [], map[];
    for i := 0 to |inventory|
      invariant Aggregates(inventory[..i], keys, aggregate)
    {
      var item := inventory[i];
      ghost var keys0, aggregate0 := keys, aggregate;
      var productName := DisplayName(item.fields.productName);
      var safeQuantity := SafeQuantity(item.fields.quantity);
      if productName !in aggregate {
        aggregate := aggregate[productName := NoUnits];
        keys := keys + [productName];
      }
      var stats := aggregate[productName];
      aggregate := aggregate[productName := AddUnits(stats, StatusKey(item.status), safeQuantity)];
      AggregateStep(inventory[..i], item, keys0, aggregate0, keys, aggregate);
      assert inventory[..i + 1] == inventory[..i] + [item];
    }
    assert inventory[..|inventory|] == inventory;
  }

  /** `topProducts`: group the units by product name in a map, then keep the
      five largest totals, largest first. */
  method TopProducts(inventory: seq<Record>) returns (top: seq<ProductStats>)
    ensures |top| == if |ProductNames(inventory)| < 5 then |ProductNames(inventory)| else 5
    ensures forall j, k :: 0 <= j < k < |top| ==> top[j].total >= top[k].total
    ensures forall j :: 0 <= j < |top| ==> top[j].name in ProductNames(inventory) && top[j] == StatsOf(inventory, top[j].name)
    ensures forall j :: 0 <= j < |top| ==> top[j].total == top[j].expired + top[j].warning + top[j].ok
    ensures forall j, k :: 0 <= j < k < |top| ==> top[j].name != top[k].name
    ensures forall n, j :: n in ProductNames(inventory) && 0 <= j < |top| && (forall k :: 0 <= k < |top| ==> top[k].name != n) ==>
              ProductTotals(inventory, n).total <= top[j].total
  {
    var keys, aggregate := AggregateByProduct(inventory);
    var entries := AggregateRows(keys, aggregate);
    ByTotalDescendingIsPreorder();
    var sorted := SortBy(entries, ByTotalDescending);
    top := Take(sorted, 5);
    TopRowsFacts(inventory, keys, aggregate, entries, sorted, top);
  }

  /** What the kept rows are, given how they were produced: the five first
      rows of a sorted permutation of the entry list. */
  lemma TopRowsFacts(inventory: seq<Record>, keys: seq<string>, aggregate: map<string, Totals>,
                     entries: seq<ProductStats>, sorted: seq<ProductStats>, top: seq<ProductStats>)
    requires keys == ProductNames(inventory)
    requires forall n :: n in aggregate <==> n in keys
    requires forall n :: n in aggregate ==> aggregate[n] == ProductTotals(inventory, n)
    requires RowsOfAggregate(keys, aggregate, entries)
    requires multiset(sorted) == multiset(entries) && |sorted| == |entries| && SortedBy(sorted, ByTotalDescending)
    requires top == Take(sorted, 5)
    ensures |top| == if |ProductNames(inventory)| < 5 then |ProductNames(inventory)| else 5
    ensures forall j, k :: 0 <= j < k < |top| ==> top[j].total >= top[k].total
    ensures forall j :: 0 <= j < |top| ==> top[j].name in ProductNames(inventory) && top[j] == StatsOf(inventory, top[j].name)
    ensures forall j :: 0 <= j < |top| ==> top[j].total == top[j].expired + top[j].warning + top[j].ok
    ensures forall j, k :: 0 <= j < k < |top| ==> top[j].name != top[k].name
    ensures forall n, j :: n in ProductNames(inventory) && 0 <= j < |top| && (forall k :: 0 <= k < |top| ==> top[k].name != n) ==>
              ProductTotals(inventory, n).total <= top[j].total
  {
    EntryListOfAggregate(inventory, keys, aggregate, entries);
    TakeKeepsLeast(sorted, 5, ByTotalDescending);
    ProductNamesDistinct(inventory);
    SelectedRows(inventory, keys, entries, sorted, top);
    SelectedAreLargest(inventory, keys, entries, sorted, top);
  }

  /** `entries` is `Array.from(aggregate.entries())` mapped to chart rows,
      key by key. */
  ghost predicate RowsOfAggregate(keys: seq<string>, aggregate: map<string, Totals>, entries: seq<ProductStats>) {
    && |entries| == |keys|
    && forall j :: 0 <= j < |keys| ==>
         && keys[j] in aggregate
         && entries[j] == ProductStats(keys[j], aggregate[keys[j]].total, aggregate[keys[j]].expired,
                                       aggregate[keys[j]].warning, aggregate[keys[j]].ok)
  }

  /** `Array.from(aggregate.entries())` with each `[name, stats]` spread
      into a chart row `{ name, ...stats }`. */
  function AggregateRows(keys: seq<string>, aggregate: map<string, Totals>): (entries: seq<ProductStats>)
    requires forall n :: n in keys ==> n in aggregate
    ensures RowsOfAggregate(keys, aggregate, entries)
  {
    seq(|keys|, j requires 0 <= j < |keys| =>
      var t := aggregate[keys[j]]; ProductStats(keys[j], t.total, t.expired, t.warning, t.ok))
  }

  /** Rows read off an exact aggregation map are the chart rows of its keys. */
  lemma EntryListOfAggregate(inventory: seq<Record>, keys: seq<string>, aggregate: map<string, Totals>,
                             entries: seq<ProductStats>)
    requires forall n :: n in aggregate ==> aggregate[n] == ProductTotals(inventory, n)
    requires RowsOfAggregate(keys, aggregate, entries)
    ensures IsEntryList(inventory, keys, entries)
  {
  }

  /** `entries` lists the chart row of every name in `keys`, in order. */
  ghost predicate IsEntryList(inv: seq<Record>, keys: seq<string>, entries: seq<ProductStats>) {
    |entries| == |keys| && forall j :: 0 <= j < |keys| ==> entries[j] == StatsOf(inv, keys[j])
  }

  /** The rows kept from a sorted permutation of the entry list are exact,
      balanced chart rows of distinct products. */
  lemma SelectedRows(inv: seq<Record>, keys: seq<string>, entries: seq<ProductStats>,
                     sorted: seq<ProductStats>, top: seq<ProductStats>)
    requires IsEntryList(inv, keys, entries) && Distinct(keys)
    requires multiset(sorted) == multiset(entries) && top <= sorted
    ensures forall j :: 0 <= j < |top| ==> top[j].name in keys && top[j] == StatsOf(inv, top[j].name)
    ensures forall j :: 0 <= j < |top| ==> top[j].total == top[j].expired + top[j].warning + top[j].ok
    ensures forall j, k :: 0 <= j < k < |top| ==> top[j].name != top[k].name
  {
    forall j | 0 <= j < |top|
      ensures top[j].name in keys && top[j] == StatsOf(inv, top[j].name)
      ensures top[j].total == top[j].expired + top[j].warning + top[j].ok
    {
      assert top[j] == sorted[j] && sorted[j] in multiset(entries);
      var k :| 0 <= k < |entries| && entries[k] == top[j];
      ProductTotalsBalanced(inv, keys[k]);
    }
    forall j, k | 0 <= j < k < |top| ensures top[j].name != top[k].name {
      assert top[j] == sorted[j] && top[k] == sorted[k];
      var i :| 0 <= i < |entries| && entries[i] == top[j];
      OccursOnce(entries, keys, i);
      CountTwo(sorted, j, k);
    }
  }

  /** A product left out of the kept rows has a total no larger than any
      kept row. */
  lemma SelectedAreLargest(inv: seq<Record>, keys: seq<string>, entries: seq<ProductStats>,
                           sorted: seq<ProductStats>, top: seq<ProductStats>)
    requires IsEntryList(inv, keys, entries)
    requires multiset(sorted) == multiset(entries)
    requires forall y, j :: y in multiset(sorted) - multiset(top) && 0 <= j < |top| ==> ByTotalDescending(top[j], y)
    ensures forall n, j :: n in keys && 0 <= j < |top| && (forall k :: 0 <= k < |top| ==> top[k].name != n) ==>
              ProductTotals(inv, n).total <= top[j].total
  {
    forall n, j | n in keys && 0 <= j < |top| && (forall k :: 0 <= k < |top| ==> top[k].name != n)
      ensures ProductTotals(inv, n).total <= top[j].total
    {
      var i :| 0 <= i < |keys| && keys[i] == n;
      var y := entries[i];
      assert y.name == n;
      assert y !in top;
      assert y in multiset(sorted) - multiset(top);
    }
  }

  /** In an entry list over distinct keys, each entry occurs once. */
  lemma {:induction false} OccursOnce(entries: seq<ProductStats>, keys: seq<string>, k: nat)
    requires |entries| == |keys| && k < |keys| && Distinct(keys)
    requires forall j :: 0 <= j < |keys| ==> entries[j].name == keys[j]
    ensures multiset(entries)[entries[k]] == 1
  {
    var last := |entries| - 1;
    var init, initKeys := entries[..last], keys[..last];
    assert entries == init + [entries[last]];
    if k == last {
      assert entries[k] !in init by {
        assert forall j :: 0 <= j < last ==> init[j].name == keys[j] && keys[j] != keys[last];
      }
    } else {
      OccursOnce(init, initKeys, k);
      assert entries[last] != entries[k] by {
        assert keys[k] != keys[last];
      }
    }
  }

  /** An element found at two positions occurs at least twice. */
  lemma CountTwo<T>(s: seq<T>, j: nat, k: nat)
    requires j < k < |s|
    ensures s[j] == s[k] ==> multiset(s)[s[j]] >= 2
  {
    assert s == s[..k] + [s[k]] + s[k + 1..];
    assert s[j] in s[..k];
  }

  // ---------------------------------------------------------------------
  // criticalLots
  // ---------------------------------------------------------------------

  /** `inventory.filter(item => item.status !== 'ok')`, in order. */
  function Urgent(inv: seq<Record>): (u: seq<Record>)
    ensures multiset(u) <= multiset(inv)
    ensures forall x :: x in u <==> x in inv && x.status != Ok
  {
    if inv == [] then []
    else
      var init, x := inv[..|inv| - 1], inv[|inv| - 1];
      assert inv == init + [x];
      Urgent(init) + (if x.status != Ok then [x] else [])
  }

  /** The filter keeps every copy of a record that is not `ok` and no copy
      of one that is. */
  lemma {:induction false} UrgentCounts(inv: seq<Record>, r: Record)
    ensures multiset(Urgent(inv))[r] == if r.status != Ok then multiset(inv)[r] else 0
  {
    if inv != [] {
      var init, x := inv[..|inv| - 1], inv[|inv| - 1];
      assert inv == init + [x];
      UrgentCounts(init, r);
    }
  }

  /** The comparator `new Date(a.Expiry_Date) - new Date(b.Expiry_Date)`. */
  function ExpiryCompare(a: Record, b: Record): int {
    a.fields.expiry - b.fields.expiry
  }

  /** The comparator read as "a may come first": it does not return a
      positive number. */
  function ExpiresNoLater(a: Record, b: Record): (r: bool)
    ensures r <==> a.fields.expiry <= b.fields.expiry
  {
    ExpiryCompare(a, b) <= 0
  }

  /** `criticalLots`: the four earliest-expiring records that are not `ok`,
      earliest first. */
  function CriticalLots(inv: seq<Record>): (r: seq<Record>)
    ensures |r| == if |Urgent(inv)| < 4 then |Urgent(inv)| else 4
    ensures forall j :: 0 <= j < |r| ==> r[j] in inv && r[j].status != Ok
    ensures multiset(r) <= multiset(inv)
    ensures forall j, k :: 0 <= j < k < |r| ==> r[j].fields.expiry <= r[k].fields.expiry
    ensures forall y, j :: y in multiset(Urgent(inv)) - multiset(r) && 0 <= j < |r| ==>
              r[j].fields.expiry <= y.fields.expiry
  {
    var urgent := Urgent(inv);
    var sorted := SortBy(urgent, ExpiresNoLater);
    var r := Take(sorted, 4);
    TakeKeepsLeast(sorted, 4, ExpiresNoLater);
    KeptAreUrgent(inv, sorted, r);
    r
  }

  /** Records kept from a permutation of the urgent records are urgent
      records of the inventory. */
  lemma KeptAreUrgent(inv: seq<Record>, sorted: seq<Record>, r: seq<Record>)
    requires multiset(sorted) == multiset(Urgent(inv)) && r <= sorted
    ensures forall j :: 0 <= j < |r| ==> r[j] in inv && r[j].status != Ok
    ensures multiset(r) <= multiset(inv)
  {
    assert sorted == r + sorted[|r|..];
    assert multiset(r) <= multiset(sorted);
    forall j | 0 <= j < |r| ensures r[j] in Urgent(inv) {
      assert r[j] in multiset(sorted);
    }
  }

  // ---------------------------------------------------------------------
  // sortedInventory
  // ---------------------------------------------------------------------

  /** The comparator of the inventory table: the difference of the
      priorities, or when that is 0 the difference of the expiry dates. */
  function InventoryCompare(a: Record, b: Record): int {
    var statusDiff := Priority(a.status) - Priority(b.status);
    if statusDiff != 0 then statusDiff
    else a.fields.expiry - b.fields.expiry
  }

  /** The comparator read as "a may come first": by priority, then by
      expiry. */
  function InventoryOrder(a: Record, b: Record): (r: bool)
    ensures r <==> Priority(a.status) < Priority(b.status)
                   || (Priority(a.status) == Priority(b.status) && a.fields.expiry <= b.fields.expiry)
  {
    InventoryCompare(a, b) <= 0
  }

  /** `sortedInventory`: a sorted copy of the inventory; the inventory itself
      is a value and stays as it was. */
  method SortedInventory(inventory: seq<Record>) returns (sorted: seq<Record>)
    ensures multiset(sorted) == multiset(inventory)
    ensures |sorted| == |inventory|
    ensures forall i, j :: 0 <= i < j < |sorted| ==> Priority(sorted[i].status) <= Priority(sorted[j].status)
    ensures forall i, j :: 0 <= i < j < |sorted| && Priority(sorted[i].status) == Priority(sorted[j].status) ==>
              sorted[i].fields.expiry <= sorted[j].fields.expiry
  {
    var copy := new Record[|inventory|](i requires 0 <= i < |inventory| => inventory[i]);
    assert copy[..] == inventory;
    SortInPlace(copy, InventoryOrder);
    sorted := copy[..];
    assert SortedBy(sorted, InventoryOrder);
  }
}

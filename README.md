# Perishable-lot freshness: a Dafny model

This project models the domain logic of a small inventory-freshness system.
A Node backend loads lots from a CSV file. It tags each lot `expired`,
`warning` or `ok` from its expiry date, then serves the list and a
lookup by lot number. A React dashboard turns that list into counts, a unit
total, an expiry histogram, a status breakdown, the top products, the
critical lots and a sorted table.

Modules, one per component:

- `Lots` (`lots.dfy`): the shared record shapes and the ceiling day count
  `Math.ceil((expiry - now) / 86 400 000)`.
- `Backend` (`backend.dfy`): `calculateStatus`, the stream handlers
  `data`/`end`/`error`, and the two query handlers.
  - The module-level `inventoryData` and `isDataLoaded` are the fields of
    class `InventoryServer`. Its handler methods are proved against the
    pure transition `Step`.
  - `Replay` folds a whole stream of events. The lemmas about streams are
    stated on it.
- `Sorting` (`sorting.dfy`): the contract of `Array.prototype.sort` with a
  consistent comparator.
  - The pure, stable `SortBy` is used where the source sorts a fresh array
    inside an expression.
  - `SortInPlace` is used where it sorts a copy in place.
- `Dashboard` (`dashboard.dfy`): the `useMemo` derivations and the status
  tables.
- `EndToEnd` (`end_to_end.dfy`): what the dashboard derives from a list the
  backend has loaded, including a worked three-row example.

Clock readings are parameters.
- The backend reads `new Date()` once per row, so each `Data` event carries
  its own `now`.
- The histogram reads it once per computation, so it takes one `now`.

Expiry instants are integer milliseconds. `Number(Quantity)` is an
`Option<int>`, with `None` standing for NaN. A status outside the three
configured ones is `Other(text)`.

## Model

| member | source | states |
|---|---|---|
| `Lots.DaysUntil` | backend/index.js:20-21 | the day count is the ceiling of the millisecond difference over a day: `(d-1)*DayMs < expiry-now <= d*DayMs` |
| `Lots.DaysUntilUnique` | backend/index.js:21 | only one integer satisfies that bracket, so any correct ceiling gives the same count |
| `Lots.DaysUntilMonotone` | frontend/src/DashboardPage.jsx:129 | a later expiry never has fewer days left |
| `Backend.Classify` | backend/index.js:16-32 | always one of the three statuses. `expired` iff expiry is at least a whole day before now. `warning` iff the ceiling day count is 0 to 5, inclusive at both ends: in milliseconds, strictly less than a day before and at most 5 days after. `ok` iff more than 5 days ahead |
| `Backend.ClassifyMonotoneInExpiry` | backend/index.js:20-31 | for a fixed now, a later expiry never gets a more urgent status |
| `Backend.ClassifyMonotoneInNow` | backend/index.js:17-31 | for a fixed expiry, a later clock reading never gets a less urgent status |
| `Backend.ClassifyBoundaries` | backend/index.js:23-29 | exact transitions. 1 ms and 1 day minus 1 ms in the past are `warning`. A full day in the past is `expired`. Now and exactly 5 days ahead are `warning`. 5 days plus 1 ms ahead is `ok` |
| `Backend.Enrich` | backend/index.js:38-40 | the stored record keeps the row's fields untouched and adds one of the three statuses, `expired` iff the row expired at least a day before the handler's clock reading |
| `Backend.Step` | backend/index.js:38-48 | one handler call: the store only grows, by exactly one record on `data` and by none otherwise. The flag is set after the call iff it was set before or the event is `end` |
| `Backend.ReplayContents` | backend/index.js:38-45 | after any stream of events, the stored sequence is the enriched `data` rows in arrival order. The flag is set iff an `end` event occurred |
| `Backend.ReplayGrows` | backend/index.js:38-45 | the stored sequence only grows at the end and readiness is never withdrawn: the state after a prefix of the events is a prefix of the final state |
| `Backend.LoadThenEnd` | backend/index.js:38-55 | a stream of rows followed by `end` is ready. Its full scan has one record per row, in file order. Each record keeps the row's fields and adds the status computed at that row's clock reading |
| `Backend.FailedLoadNeverServes` | backend/index.js:46-61 | a stream whose CSV parser errors without ending leaves both queries not ready, for every lot key |
| `Backend.LotFilter` | backend/index.js:64 | the lookup's filter keeps exactly the stored records whose lot number equals the key, and never lengthens the list |
| `Backend.LotFilterCounts` | backend/index.js:64 | each matching record appears as often as it is stored; non-matching records do not appear |
| `Backend.LotFilterAppend` | backend/index.js:64 | the filter distributes over concatenation, so matches keep their stored order |
| `Backend.FullScan` | backend/index.js:50-56 | not ready iff the flag is unset, never not-found; otherwise the stored sequence unchanged |
| `Backend.LookupLot` | backend/index.js:58-71 | not ready iff the flag is unset. Not found iff loaded and no stored record has the key. Otherwise the non-empty filtered records |
| `Backend.InventoryServer.constructor` | backend/index.js:13-14 | the store starts empty and not ready |
| `Backend.InventoryServer.OnData` | backend/index.js:38-41 | appends exactly one record, the row plus its status, at the end. Earlier records and the flag are unchanged |
| `Backend.InventoryServer.OnEnd` | backend/index.js:42-45 | sets the flag, records unchanged |
| `Backend.InventoryServer.OnError` | backend/index.js:46-48 | changes nothing (the handler only logs) |
| `Backend.InventoryServer.GetInventory` | backend/index.js:50-56 | answers the full scan of the current state and modifies nothing |
| `Backend.InventoryServer.GetLot` | backend/index.js:58-71 | answers the lookup of the current state and modifies nothing |
| `Sorting.SortBy` | frontend/src/DashboardPage.jsx:186-187 | the result is a permutation of the input, of the same length, ordered by any total-preorder comparator |
| `Sorting.Take` | frontend/src/DashboardPage.jsx:179 | `slice(0, n)` is a prefix of the sequence, of length the smaller of `n` and its length |
| `Sorting.TakeKeepsLeast` | frontend/src/DashboardPage.jsx:186-188 | after sorting, `slice(0, n)` keeps a sorted prefix, and every element cut off may follow every element kept |
| `Sorting.SortInPlace` | frontend/src/DashboardPage.jsx:192-198 | sorting the array in place leaves it ordered by the comparator and a permutation of its old contents |
| `Lots.Priority` | frontend/src/DashboardPage.jsx:49-53 | `expired` 1, `warning` 2, `ok` 3, and an unknown status 3 (the `\|\| 3` fallback of line 194). The backend's monotonicity lemmas rank statuses by the same table |
| `Dashboard.CountStatus` | frontend/src/DashboardPage.jsx:98 | a filter's length never exceeds the inventory's |
| `Dashboard.StatusKey` | frontend/src/DashboardPage.jsx:138 | the column a record is tallied under is always one of the three: its own status when known, `ok` otherwise |
| `Dashboard.StatusCounts` | frontend/src/DashboardPage.jsx:94-104 | the three counts plus the records with an unknown status equal the inventory length: each record is counted at most once |
| `Dashboard.StatusCountsPartition` | frontend/src/DashboardPage.jsx:94-104 | the counts sum to the length iff every status is known |
| `Dashboard.TotalUnits` | frontend/src/DashboardPage.jsx:107-114 | with no negative quantity in the list the total is not negative |
| `Dashboard.TotalUnitsAppend` | frontend/src/DashboardPage.jsx:107-114 | the unit total of a concatenation is the sum of the parts' totals |
| `Dashboard.NonNumericQuantityIgnored` | frontend/src/DashboardPage.jsx:110-111 | a record whose quantity is NaN never changes the total, wherever it stands |
| `Dashboard.BucketIndex` | frontend/src/DashboardPage.jsx:129-136 | every expiry gets one of five buckets: at least a day past, then within 7, 14 or 30 days ahead (inclusive), then beyond. Each is stated in milliseconds |
| `Dashboard.FreshnessTimeline` | frontend/src/DashboardPage.jsx:116-143 | the loop's five buckets carry their labels. Each cell holds the number of records with that bucket and that status key |
| `Dashboard.TimelineStep` | frontend/src/DashboardPage.jsx:127-140 | one more record raises exactly one cell by one, the cell of its bucket and status key; every other cell of the histogram is unchanged |
| `Dashboard.ColumnSum` | frontend/src/DashboardPage.jsx:127-140 | summed over the buckets, a status column counts every record with that key exactly once |
| `Dashboard.CountKeyByStatus` | frontend/src/DashboardPage.jsx:138 | the `expired` and `warning` keys hold exactly those statuses; the `ok` key holds `ok` plus every unknown status |
| `Dashboard.TimelineColumns` | frontend/src/DashboardPage.jsx:119-142 | the histogram's column sums equal the status counts, with unknown statuses under `ok`. All cells together equal the inventory length |
| `Dashboard.StatusBreakdown` | frontend/src/DashboardPage.jsx:145-153 | exactly three slices in key order expired, warning, ok, with the configured short label and colour, each valued at its status count |
| `Dashboard.BreakdownCoversKnownStatuses` | frontend/src/DashboardPage.jsx:145-153 | the three slice values add up to the records whose status is known, so to the whole length iff every status is known |
| `Dashboard.DisplayName` | frontend/src/DashboardPage.jsx:159 | an empty product name becomes 'Producto sin nombre'; any other name is kept unchanged; the result is never empty |
| `Dashboard.ProductNames` | frontend/src/DashboardPage.jsx:163-165 | the map's keys are exactly the display names that occur |
| `Dashboard.ProductNamesDistinct` | frontend/src/DashboardPage.jsx:163-165 | no key is inserted twice |
| `Dashboard.ProductTotalsBalanced` | frontend/src/DashboardPage.jsx:167-174 | each product's `total` equals `expired + warning + ok` |
| `Dashboard.AbsentNameHasNoUnits` | frontend/src/DashboardPage.jsx:163-164 | a product first seen starts from zero in every column |
| `Dashboard.ProductTotalsConserveUnits` | frontend/src/DashboardPage.jsx:158-175 | the product totals add up to the NaN-safe unit total: no unit is lost or counted twice |
| `Dashboard.ProductStep` | frontend/src/DashboardPage.jsx:158-175 | one record adds its units to its own product only (unknown status into `ok`), and appends the name the first time it is seen |
| `Dashboard.AggregateStep` | frontend/src/DashboardPage.jsx:158-175 | one pass of the `forEach` body, creating a new name's zeroed entry and then adding the record's units, keeps the map exact and its keys in first-appearance order |
| `Dashboard.AggregateByProduct` | frontend/src/DashboardPage.jsx:156-175 | the loop builds the map: keys in first-appearance order, each value the product's exact totals |
| `Dashboard.AggregateRows` | frontend/src/DashboardPage.jsx:177-180 | one chart row per map key, in key order, each holding the key as `name` and that key's four totals |
| `Dashboard.ByTotalDescending` | frontend/src/DashboardPage.jsx:178 | the comparator `b.total - a.total` lets `a` come first iff `a`'s total is at least `b`'s |
| `Dashboard.TopProducts` | frontend/src/DashboardPage.jsx:155-181 | rows are sorted by `total`, largest first, and there are min(5, product count) of them. Each is the exact, balanced row of a distinct product. No product left out has a larger total than any row kept |
| `Dashboard.SelectedRows` | frontend/src/DashboardPage.jsx:177-180 | rows kept from the sorted entries are exact chart rows of distinct products |
| `Dashboard.SelectedAreLargest` | frontend/src/DashboardPage.jsx:177-179 | a product cut by the slice has a total no larger than any kept row |
| `Dashboard.Urgent` | frontend/src/DashboardPage.jsx:184 | keeps exactly the records whose status is not `ok` (unknown statuses included), as a sub-multiset of the inventory |
| `Dashboard.UrgentCounts` | frontend/src/DashboardPage.jsx:184 | the filter keeps every copy of a record that is not `ok`, as often as it occurs, and no copy of an `ok` record |
| `Dashboard.ExpiresNoLater` | frontend/src/DashboardPage.jsx:187 | the comparator `a - b` on expiry dates lets `a` come first iff it expires no later than `b` |
| `Dashboard.CriticalLots` | frontend/src/DashboardPage.jsx:183-189 | at most four records, min(4, urgent count). All are inventory records whose status is not `ok`, sorted by expiry ascending. Each expires no later than any urgent record left out |
| `Dashboard.InventoryOrder` | frontend/src/DashboardPage.jsx:193-197 | the table comparator lets `a` come first iff its priority is smaller, or equal with an expiry no later |
| `Dashboard.SortedInventory` | frontend/src/DashboardPage.jsx:191-199 | a permutation of the inventory, non-decreasing in priority, and by expiry ascending within one priority. The input is a value and is not changed |
| `EndToEnd.LoadedStatusesKnown` | backend/index.js:38-41 | every record the loader stores has one of the three statuses |
| `EndToEnd.CountsCoverLoadedInventory` | frontend/src/DashboardPage.jsx:94-142 | on a loaded full scan the three counts sum to the record count, and the histogram's `ok` column is exactly the `ok` count |
| `EndToEnd.SampleLoadContents` | backend/index.js:38-45 | the sample stream stores its three rows in order and is ready |
| `EndToEnd.ThreeRowLoad` | backend/index.js:50-70 | three rows, at now: two of lot L1 two days ahead (10 and 5 units), one of L2 a day past. Full scan gives warning, warning, expired. L1 gives two records, 15 units. L3 is not found |

## Left out

- HTTP transport: the Express app, CORS, route registration and `listen`
  are not modelled. Handlers return a `Response` value instead of status
  codes 503 and 404 and a JSON body.
- File I/O and CSV parsing: the stream is given as a sequence of `Event`s
  of already-parsed rows. `Row` holds only the five columns the core reads;
  the other CSV columns, which `{ ...row, status }` copies into the record
  unchanged, are not modelled.
- Date parsing: expiry is integer milliseconds.
  - An `Expiry_Date` that JavaScript cannot parse gives NaN. The source then
    falls through every comparison: status `ok`, histogram bucket 4, and a NaN
    comparator in both sorts. That case is not modelled.
  - The ceiling is taken on exact integers. The source divides in floating
    point, which agrees for every realistic difference.
- Quantities: `Number(Quantity)` is taken as already parsed, as an integer
  or NaN. Fractional quantities and the parsing rules (an empty string is 0)
  are not modelled.
- Prototype keys: a status string such as `toString` makes
  `STATUS_CONFIG[item.status]` truthy in JavaScript. The model treats every
  unconfigured string as unknown.
- Sorting: the sort of the top products and of the critical lots is the
  pure `SortBy`. It is a stable insertion sort, as ES2019 requires of
  `Array.prototype.sort`, but stability is not stated as a lemma. So the
  order among equal keys is not part of any contract.
- Errors of the file read stream: the `data`, `end` and `error` handlers are
  attached to the stream that `.pipe(csv())` returns, and `pipe` does not
  forward errors of the `fs` read stream. A missing or unreadable CSV file
  raises an `error` event that no handler receives, which ends the process.
  `StreamError` is an error of the CSV parser only; the crash is not modelled.
- Logging (`console.log`, `console.error`) is not modelled.
- React state, the axios fetch, loading and error rendering, chart
  rendering and number formatting are not modelled.
- The scanner page and the app shell hold no domain logic and are not part
  of this model.

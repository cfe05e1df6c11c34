/** Shared vocabulary of the inventory: one CSV row, the record the backend
    stores (the row plus its derived freshness status), and the ceiling
    day count that both the backend classifier and the dashboard histogram
    use. */
module Lots {

  datatype Option<+T> = None | Some(value: T)

  /** The `status` field of a record. The backend only ever produces the first
      three; the dashboard also copes with any other string, kept in `Other`.
      `Other` never carries the texts "expired", "warning" or "ok": those are
      always the first three constructors. */
  datatype Status = Expired | Warning | Ok | Other(text: string)
  {
    /** True for the three statuses that have an entry in the dashboard's
        status configuration. */
    predicate IsKnown() {
      !Other?
    }
  }

  /** The columns of a CSV row that the core reads. `expiry` is the instant
      of `Expiry_Date` in milliseconds; `quantity` is `Number(Quantity)`,
      `None` when that is NaN. */
  datatype Row = Row(
    productId: string,
    productName: string,
    lotNumber: string,
    expiry: int,
    quantity: Option<int>)

  /** A stored record: the untouched row with `status` added. */
  datatype Record = Record(fields: Row, status: Status)

  /** `STATUS_PRIORITY[status] || 3`: the urgency of a status, 1 the most
      urgent. A status without an entry ranks with `ok`. */
  function Priority(s: Status): (p: int)
    ensures 1 <= p <= 3
    ensures p == 1 <==> s == Expired
    ensures p == 2 <==> s == Warning
    ensures p == 3 <==> s == Ok || s.Other?
  {
    match s
    case Expired => 1
    case Warning => 2
    case Ok => 3
    case Other(_) => 3
  }

  /** Milliseconds in a day, `1000 * 60 * 60 * 24`. */
  const DayMs: int := 1000 * 60 * 60 * 24

  /** `Math.ceil((expiry - now) / DayMs)`: the number of days until `expiry`,
      rounded up, so that any part of a day counts as a whole day. */
  function DaysUntil(expiry: int, now: int): (days: int)
    ensures (days - 1) * DayMs < expiry - now <= days * DayMs
  {
    -((now - expiry) / DayMs)
  }

  /** The ceiling day count is the only integer with the property above. */
  lemma DaysUntilUnique(expiry: int, now: int, days: int)
    requires (days - 1) * DayMs < expiry - now <= days * DayMs
    ensures days == DaysUntil(expiry, now)
  {
  }

  /** A later expiry never has fewer days left. */
  lemma DaysUntilMonotone(e1: int, e2: int, now: int)
    requires e1 <= e2
    ensures DaysUntil(e1, now) <= DaysUntil(e2, now)
  {
  }
}

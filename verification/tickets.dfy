/** The ticket record, the two analytics metrics, and the date-range filter
    that both execution paths apply before grouping. */
module Tickets {

  /** A point in time; only its order and its month matter here. */
  type Timestamp = int

  /** One sold ticket, as stored by the `ticket` collection. */
  datatype Ticket = Ticket(
    performanceTitle: string,
    performanceTime: Timestamp,
    customerName: string,
    ticketPrice: int,
    createdAt: Timestamp)

  /** Revenue groups by `createdAt` and adds up `ticketPrice`;
      Visits groups by `performanceTime` and counts records. */
  datatype Metric = Revenue | Visits

  /** One output entry: the month's name and its `summaryProfit` (Revenue)
      or `summaryVisits` (Visits). */
  datatype Summary = Summary(month: string, total: int)

  /** The timestamp field a metric filters and groups on. */
  function Stamp(t: Ticket, metric: Metric): Timestamp
  {
    match metric
    case Revenue => t.createdAt
    case Visits => t.performanceTime
  }

  /** What one record adds to its month's total. */
  function Amount(t: Ticket, metric: Metric): int
  {
    match metric
    case Revenue => t.ticketPrice
    case Visits => 1
  }

  /** The comparison applied to the end of the range: `$lte` in the store
      query of the client-side fold, `$lt` in the aggregation pipeline. The
      start is always compared with `$gte`. */
  datatype EndBound = Lte | Lt

  predicate InRange(ts: Timestamp, start: Timestamp, end: Timestamp, bound: EndBound)
  {
    start <= ts && match bound { case Lte => ts <= end case Lt => ts < end }
  }

  /** The store's range query: the records whose metric timestamp lies in the
      range, in the order the store holds them. */
  function Select(rs: seq<Ticket>, metric: Metric, start: Timestamp, end: Timestamp, bound: EndBound): (kept: seq<Ticket>)
    ensures forall t :: multiset(kept)[t] == if InRange(Stamp(t, metric), start, end, bound) then multiset(rs)[t] else 0
    ensures forall i :: 0 <= i < |kept| ==> InRange(Stamp(kept[i], metric), start, end, bound)
  {
    if |rs| == 0 then []
    else
      var init, last := rs[..|rs| - 1], rs[|rs| - 1];
      assert rs == init + [last];
      var prefix := Select(init, metric, start, end, bound);
      if InRange(Stamp(last, metric), start, end, bound) then prefix + [last] else prefix
  }

  /** The range query keeps the store's order: one more stored record is
      appended to the result exactly when it is in range. */
  lemma SelectSnoc(rs: seq<Ticket>, t: Ticket, metric: Metric, start: Timestamp, end: Timestamp, bound: EndBound)
    ensures Select(rs + [t], metric, start, end, bound)
         == if InRange(Stamp(t, metric), start, end, bound) then Select(rs, metric, start, end, bound) + [t]
            else Select(rs, metric, start, end, bound)
  {
    assert (rs + [t])[..|rs|] == rs;
  }

  /** Both bounds of the fold's range are inclusive, while the pipeline
      drops a record lying exactly on the end. */
  lemma EndBoundDiffers(rs: seq<Ticket>, metric: Metric, start: Timestamp, end: Timestamp, t: Ticket)
    requires t in rs
    requires start <= Stamp(t, metric) == end
    ensures t in Select(rs, metric, start, end, Lte)
    ensures t !in Select(rs, metric, start, end, Lt)
  {
    assert multiset(Select(rs, metric, start, end, Lte))[t] == multiset(rs)[t];
    assert multiset(Select(rs, metric, start, end, Lt))[t] == 0;
  }

  /** With no record exactly on the end, the two range queries agree. */
  lemma {:induction false} SelectAgreesOffEnd(rs: seq<Ticket>, metric: Metric, start: Timestamp, end: Timestamp)
    requires forall i :: 0 <= i < |rs| ==> Stamp(rs[i], metric) != end
    ensures Select(rs, metric, start, end, Lte) == Select(rs, metric, start, end, Lt)
  {
    if |rs| > 0 {
      SelectAgreesOffEnd(rs[..|rs| - 1], metric, start, end);
    }
  }
}

/** A worked example of the revenue endpoint's client-side path. */
module Scenario {
  import opened Months
  import opened Tickets
  import opened ClientFold

  /** Timestamps written as yyyymmdd, so that their order is the calendar order. */
  function CalendarMonth(ts: Timestamp): Month
  {
    var mm := (ts / 100) % 100;
    if 1 <= mm <= 12 then mm else 1
  }

  function Sold(createdAt: Timestamp, price: int): Ticket
  {
    Ticket("Show", createdAt, "Customer", price, createdAt)
  }

  const Sales: seq<Ticket> := [Sold(20230115, 100), Sold(20230120, 50), Sold(20230201, 30)]

  /** Three sales in January and February 2023, queried from 2023-01-01 to
      2023-02-28: January totals 150 and February 30, in that order. */
  lemma RevenueExample()
    ensures FoldPath(Sales, Revenue, CalendarMonth, 20230101, 20230228)
         == [Summary("January", 150), Summary("February", 30)]
  {
    ExampleAllInRange();
    ExampleTally();
  }

  lemma ExampleAllInRange()
    ensures Select(Sales, Revenue, 20230101, 20230228, Lte) == Sales
  {
    var a, b, c := Sales[0], Sales[1], Sales[2];
    assert Sales == [a, b] + [c] && [a, b] == [a] + [b] && [a] == [] + [a];
    SelectSnoc([], a, Revenue, 20230101, 20230228, Lte);
    SelectSnoc([a], b, Revenue, 20230101, 20230228, Lte);
    SelectSnoc([a, b], c, Revenue, 20230101, 20230228, Lte);
  }

  lemma ExampleMonths()
    ensures KeyOf(Sales[0], Revenue, CalendarMonth) == "January"
    ensures KeyOf(Sales[1], Revenue, CalendarMonth) == "January"
    ensures KeyOf(Sales[2], Revenue, CalendarMonth) == "February"
  {
    assert CalendarMonth(20230115) == 1 && CalendarMonth(20230120) == 1 && CalendarMonth(20230201) == 2;
    assert MonthName(1) == "January" && MonthName(2) == "February";
  }

  /** Two sales in one month followed by one in another month. */
  lemma TwoMonths(a: Ticket, b: Ticket, c: Ticket, metric: Metric, monthOf: Timestamp -> Month)
    requires KeyOf(a, metric, monthOf) == KeyOf(b, metric, monthOf) != KeyOf(c, metric, monthOf)
    ensures Tally([a, b, c], metric, monthOf)
         == [Summary(KeyOf(a, metric, monthOf), Amount(a, metric) + Amount(b, metric)),
             Summary(KeyOf(c, metric, monthOf), Amount(c, metric))]
  {
    var first := [Summary(KeyOf(a, metric, monthOf), Amount(a, metric) + Amount(b, metric))];
    SameKeyMerges(a, b, metric, monthOf);
    assert [a, b, c] == [a, b] + [c];
    TallySnoc([a, b], c, metric, monthOf);
    assert MonthsOf(first) == [KeyOf(a, metric, monthOf)];
    UpsertNew(first, KeyOf(c, metric, monthOf), Amount(c, metric));
  }

  lemma ExampleTally()
    ensures Tally(Sales, Revenue, CalendarMonth) == [Summary("January", 150), Summary("February", 30)]
  {
    ExampleMonths();
    TwoMonths(Sales[0], Sales[1], Sales[2], Revenue, CalendarMonth);
    assert Sales == [Sales[0], Sales[1], Sales[2]];
  }
}

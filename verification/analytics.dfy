/** The two analytics endpoints: how the pushed-down pipeline and the
    client-side fold relate, and the handler that chooses between them. */
module Analytics {
  import opened Seqs
  import opened Wrappers
  import opened Months
  import opened Tickets
  import opened ClientFold
  import opened Pipeline

  /** Summing by month name and summing by month number add up the same records. */
  lemma {:induction false} SumByNameIsSumByNumber(rs: seq<Ticket>, metric: Metric, monthOf: Timestamp -> Month, m: Month)
    ensures SumFor(rs, metric, monthOf, MonthName(m)) == SumMonth(rs, metric, monthOf, m)
  {
    if |rs| > 0 {
      SumByNameIsSumByNumber(rs[..|rs| - 1], metric, monthOf, m);
      MonthNameInjective(monthOf(Stamp(rs[|rs| - 1], metric)), m);
    }
  }

  /** A month's name is a fold key exactly when the month occurs among the records. */
  lemma KeyPresentIffMonthPresent(rs: seq<Ticket>, metric: Metric, monthOf: Timestamp -> Month, m: Month)
    ensures MonthName(m) in Keys(rs, metric, monthOf) <==> HasMonth(rs, metric, monthOf, m)
  {
    var ks := Keys(rs, metric, monthOf);
    if MonthName(m) in ks {
      var i :| 0 <= i < |ks| && ks[i] == MonthName(m);
      MonthNameInjective(monthOf(Stamp(rs[i], metric)), m);
    }
    if HasMonth(rs, metric, monthOf, m) {
      var i :| 0 <= i < |rs| && monthOf(Stamp(rs[i], metric)) == m;
      assert ks[i] == MonthName(m);
    }
  }

  /** The pipeline's output has one entry per month. */
  lemma NamedGroupsDistinct(rs: seq<Ticket>, metric: Metric, monthOf: Timestamp -> Month)
    ensures Distinct(NameStage(GroupStage(rs, metric, monthOf)))
    ensures Distinct(MonthsOf(NameStage(GroupStage(rs, metric, monthOf))))
  {
    var gs := GroupStage(rs, metric, monthOf);
    var out := NameStage(gs);
    forall i, j | 0 <= i < j < |out|
      ensures out[i].month != out[j].month
    {
      MonthNameInjective(gs[i].id, gs[j].id);
    }
  }

  /** Every entry of the fold is one of the pipeline's named groups. */
  lemma FoldEntryIsGroup(rs: seq<Ticket>, metric: Metric, monthOf: Timestamp -> Month, i: nat)
    requires i < |Tally(rs, metric, monthOf)|
    ensures Tally(rs, metric, monthOf)[i] in NameStage(GroupStage(rs, metric, monthOf))
  {
    var x := Tally(rs, metric, monthOf)[i];
    TallyEntryTotal(rs, metric, monthOf, i);
    TallyHasKey(rs, metric, monthOf, x.month);
    assert x.month in MonthsOf(Tally(rs, metric, monthOf)) by {
      assert MonthsOf(Tally(rs, metric, monthOf))[i] == x.month;
    }
    var m := MonthOfKey(rs, metric, monthOf, x.month);
    SumByNameIsSumByNumber(rs, metric, monthOf, m);
    NamedGroupFor(rs, metric, monthOf, m);
  }

  /** A key that occurs among the records is the name of a month that occurs. */
  lemma MonthOfKey(rs: seq<Ticket>, metric: Metric, monthOf: Timestamp -> Month, key: string) returns (m: Month)
    requires key in Keys(rs, metric, monthOf)
    ensures HasMonth(rs, metric, monthOf, m) && key == MonthName(m)
  {
    var ks := Keys(rs, metric, monthOf);
    var j :| 0 <= j < |ks| && ks[j] == key;
    m := monthOf(Stamp(rs[j], metric));
  }

  /** Every named group of the pipeline is one of the fold's entries. */
  lemma GroupIsFoldEntry(rs: seq<Ticket>, metric: Metric, monthOf: Timestamp -> Month, k: nat)
    requires k < |GroupStage(rs, metric, monthOf)|
    ensures NameStage(GroupStage(rs, metric, monthOf))[k] in Tally(rs, metric, monthOf)
  {
    var gs := GroupStage(rs, metric, monthOf);
    var g := gs[k];
    assert g in gs;
    var a := Tally(rs, metric, monthOf);
    KeyPresentIffMonthPresent(rs, metric, monthOf, g.id);
    TallyHasKey(rs, metric, monthOf, MonthName(g.id));
    SumByNameIsSumByNumber(rs, metric, monthOf, g.id);
    var ms := MonthsOf(a);
    var i :| 0 <= i < |ms| && ms[i] == MonthName(g.id);
    TallyEntryTotal(rs, metric, monthOf, i);
    assert a[i] == NameStage(gs)[k];
  }

  /** Entries with distinct month names are distinct entries. */
  lemma DistinctByMonth(data: seq<Summary>)
    requires Distinct(MonthsOf(data))
    ensures Distinct(data)
  {
    forall i, j | 0 <= i < j < |data|
      ensures data[i] != data[j]
    {
      assert MonthsOf(data)[i] != MonthsOf(data)[j];
    }
  }

  lemma FoldWithinPipeline(rs: seq<Ticket>, metric: Metric, monthOf: Timestamp -> Month)
    ensures forall x :: x in Tally(rs, metric, monthOf) ==> x in NameStage(GroupStage(rs, metric, monthOf))
  {
    var a := Tally(rs, metric, monthOf);
    forall x | x in a
      ensures x in NameStage(GroupStage(rs, metric, monthOf))
    {
      var i :| 0 <= i < |a| && a[i] == x;
      FoldEntryIsGroup(rs, metric, monthOf, i);
    }
  }

  lemma PipelineWithinFold(rs: seq<Ticket>, metric: Metric, monthOf: Timestamp -> Month)
    ensures forall x :: x in NameStage(GroupStage(rs, metric, monthOf)) ==> x in Tally(rs, metric, monthOf)
  {
    var b := NameStage(GroupStage(rs, metric, monthOf));
    forall x | x in b
      ensures x in Tally(rs, metric, monthOf)
    {
      var k :| 0 <= k < |b| && b[k] == x;
      GroupIsFoldEntry(rs, metric, monthOf, k);
    }
  }

  /** The group/sum/name stages compute the same entries as the fold over the
      same records; only the order may differ. */
  lemma StagesAgree(rs: seq<Ticket>, metric: Metric, monthOf: Timestamp -> Month)
    ensures multiset(Tally(rs, metric, monthOf)) == multiset(NameStage(GroupStage(rs, metric, monthOf)))
  {
    TallyOrder(rs, metric, monthOf);
    DistinctByMonth(Tally(rs, metric, monthOf));
    NamedGroupsDistinct(rs, metric, monthOf);
    FoldWithinPipeline(rs, metric, monthOf);
    PipelineWithinFold(rs, metric, monthOf);
    DistinctSameElements(Tally(rs, metric, monthOf), NameStage(GroupStage(rs, metric, monthOf)));
  }

  /** When no record lies exactly on the end of the range, both execution
      paths return the same entries, up to order. */
  lemma PathsAgreeOffEnd(records: seq<Ticket>, metric: Metric, monthOf: Timestamp -> Month, start: Timestamp, end: Timestamp)
    requires forall i :: 0 <= i < |records| ==> Stamp(records[i], metric) != end
    ensures multiset(FoldPath(records, metric, monthOf, start, end)) == multiset(AggregationPath(records, metric, monthOf, start, end))
  {
    SelectAgreesOffEnd(records, metric, start, end);
    StagesAgree(Select(records, metric, start, end, Lt), metric, monthOf);
  }

  /** A record exactly on the end of the range is counted by the fold and not
      by the pipeline: for that record alone the fold reports its month and
      the pipeline reports nothing. */
  lemma RecordAtEnd(t: Ticket, metric: Metric, monthOf: Timestamp -> Month, start: Timestamp, end: Timestamp)
    requires start <= Stamp(t, metric) == end
    ensures FoldPath([t], metric, monthOf, start, end) == [Summary(KeyOf(t, metric, monthOf), Amount(t, metric))]
    ensures AggregationPath([t], metric, monthOf, start, end) == []
  {
    SelectSingle(t, metric, start, end);
    SelectSingleExcludes(t, metric, start, end);
    TallySingle(t, metric, monthOf);
  }

  lemma SelectSingle(t: Ticket, metric: Metric, start: Timestamp, end: Timestamp)
    requires start <= Stamp(t, metric) == end
    ensures Select([t], metric, start, end, Lte) == [t]
  {
    assert [t][..0] == [];
  }

  lemma SelectSingleExcludes(t: Ticket, metric: Metric, start: Timestamp, end: Timestamp)
    requires Stamp(t, metric) == end
    ensures Select([t], metric, start, end, Lt) == []
  {
    assert [t][..0] == [];
  }

  /** The handler body shared by both endpoints: the `aggregation` query
      parameter selects the pipeline, anything else (or none) the fold.
      Whichever path runs, no month is reported twice, and off the end of
      the range the choice does not change the entries. */
  function Respond(records: seq<Ticket>, metric: Metric, monthOf: Timestamp -> Month,
                   start: Timestamp, end: Timestamp, queryMethod: Option<string>): (r: seq<Summary>)
    ensures Distinct(MonthsOf(r))
    ensures (forall i :: 0 <= i < |records| ==> Stamp(records[i], metric) != end) ==>
      multiset(r) == multiset(FoldPath(records, metric, monthOf, start, end))
  {
    TallyOrder(Select(records, metric, start, end, Lte), metric, monthOf);
    NamedGroupsDistinct(Select(records, metric, start, end, Lt), metric, monthOf);
    PathsAgreeUnlessOnEnd(records, metric, monthOf, start, end);
    if queryMethod == Some("aggregation") then AggregationPath(records, metric, monthOf, start, end)
    else FoldPath(records, metric, monthOf, start, end)
  }

  /** `PathsAgreeOffEnd` as an implication, for use inside `Respond`. */
  lemma PathsAgreeUnlessOnEnd(records: seq<Ticket>, metric: Metric, monthOf: Timestamp -> Month, start: Timestamp, end: Timestamp)
    ensures (forall i :: 0 <= i < |records| ==> Stamp(records[i], metric) != end) ==>
      multiset(FoldPath(records, metric, monthOf, start, end)) == multiset(AggregationPath(records, metric, monthOf, start, end))
  {
    if forall i :: 0 <= i < |records| ==> Stamp(records[i], metric) != end {
      PathsAgreeOffEnd(records, metric, monthOf, start, end);
    }
  }
}

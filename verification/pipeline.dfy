/** The pushed-down path: the aggregation pipeline's meaning as a pure
    function over the stored records. The stages are `$project` (compute the
    month number), `$match` (range with an exclusive end), `$group` (one group
    per month number, summing the amounts), `$addFields` (look the number up
    in the month-name table) and `$unset` (drop the number). */
module Pipeline {
  import opened Months
  import opened Tickets

  /** A `$group` output document: `_id` is the month number. */
  datatype Group = Group(id: Month, total: int)

  /** Some record's timestamp falls in month `m`. */
  predicate HasMonth(rs: seq<Ticket>, metric: Metric, monthOf: Timestamp -> Month, m: Month)
  {
    exists i :: 0 <= i < |rs| && monthOf(Stamp(rs[i], metric)) == m
  }

  /** `$sum` over the records of month `m`: of `ticketPrice` for Revenue, of 1 for Visits. */
  function SumMonth(rs: seq<Ticket>, metric: Metric, monthOf: Timestamp -> Month, m: Month): int
  {
    if |rs| == 0 then 0
    else
      var last := rs[|rs| - 1];
      SumMonth(rs[..|rs| - 1], metric, monthOf, m)
        + (if monthOf(Stamp(last, metric)) == m then Amount(last, metric) else 0)
  }

  /** The groups for the months `m` .. 12 that occur, in ascending month order. */
  function GroupFrom(rs: seq<Ticket>, metric: Metric, monthOf: Timestamp -> Month, m: int): (gs: seq<Group>)
    requires 1 <= m <= 13
    ensures forall g :: g in gs <==>
      m <= g.id && HasMonth(rs, metric, monthOf, g.id) && g.total == SumMonth(rs, metric, monthOf, g.id)
    ensures forall i, j :: 0 <= i < j < |gs| ==> gs[i].id < gs[j].id
    decreases 13 - m
  {
    if m == 13 then []
    else
      var rest := GroupFrom(rs, metric, monthOf, m + 1);
      if HasMonth(rs, metric, monthOf, m) then [Group(m, SumMonth(rs, metric, monthOf, m))] + rest else rest
  }

  /** `$group` by month number: exactly one group per month that occurs,
      carrying that month's sum; months that do not occur get no group. The
      store leaves the group order open; this model lists them by month number. */
  function GroupStage(rs: seq<Ticket>, metric: Metric, monthOf: Timestamp -> Month): (gs: seq<Group>)
    ensures forall g :: g in gs <==> HasMonth(rs, metric, monthOf, g.id) && g.total == SumMonth(rs, metric, monthOf, g.id)
    ensures forall i, j :: 0 <= i < j < |gs| ==> gs[i].id != gs[j].id
  {
    GroupFrom(rs, metric, monthOf, 1)
  }

  /** `$addFields` with `$arrayElemAt` into the month-name table, then
      `$unset` of `_id`: each group becomes a summary named after its month. */
  function NameStage(groups: seq<Group>): (out: seq<Summary>)
    ensures |out| == |groups|
    ensures forall i :: 0 <= i < |groups| ==> out[i] == Summary(MonthName(groups[i].id), groups[i].total)
  {
    if |groups| == 0 then []
    else
      var name := ArrayElemAt(MonthNames, groups[0].id);
      [Summary(name.value, groups[0].total)] + NameStage(groups[1..])
  }

  /** A month that occurs has its named group in the pipeline's output. */
  lemma NamedGroupFor(rs: seq<Ticket>, metric: Metric, monthOf: Timestamp -> Month, m: Month)
    requires HasMonth(rs, metric, monthOf, m)
    ensures Summary(MonthName(m), SumMonth(rs, metric, monthOf, m)) in NameStage(GroupStage(rs, metric, monthOf))
  {
    var gs := GroupStage(rs, metric, monthOf);
    var g := Group(m, SumMonth(rs, metric, monthOf, m));
    assert g in gs;
    var k :| 0 <= k < |gs| && gs[k] == g;
    assert NameStage(gs)[k] == Summary(MonthName(m), SumMonth(rs, metric, monthOf, m));
  }

  /** The named groups are exactly the months that occur, each with its
      name and its `$sum`. */
  lemma NamedGroups(rs: seq<Ticket>, metric: Metric, monthOf: Timestamp -> Month)
    ensures forall m: Month :: HasMonth(rs, metric, monthOf, m) ==>
              Summary(MonthName(m), SumMonth(rs, metric, monthOf, m)) in NameStage(GroupStage(rs, metric, monthOf))
    ensures forall i :: 0 <= i < |NameStage(GroupStage(rs, metric, monthOf))| ==>
              exists m: Month :: HasMonth(rs, metric, monthOf, m)
                && NameStage(GroupStage(rs, metric, monthOf))[i] == Summary(MonthName(m), SumMonth(rs, metric, monthOf, m))
  {
    var gs := GroupStage(rs, metric, monthOf);
    forall m: Month | HasMonth(rs, metric, monthOf, m)
      ensures Summary(MonthName(m), SumMonth(rs, metric, monthOf, m)) in NameStage(gs)
    {
      NamedGroupFor(rs, metric, monthOf, m);
    }
    forall i | 0 <= i < |NameStage(GroupStage(rs, metric, monthOf))|
      ensures exists m: Month :: HasMonth(rs, metric, monthOf, m)
                && NameStage(GroupStage(rs, metric, monthOf))[i] == Summary(MonthName(m), SumMonth(rs, metric, monthOf, m))
    {
      var m := GroupAt(rs, metric, monthOf, i);
      assert HasMonth(rs, metric, monthOf, m);
    }
  }

  /** The `i`-th named group belongs to a month that occurs. */
  lemma GroupAt(rs: seq<Ticket>, metric: Metric, monthOf: Timestamp -> Month, i: nat) returns (m: Month)
    requires i < |GroupStage(rs, metric, monthOf)|
    ensures HasMonth(rs, metric, monthOf, m)
    ensures NameStage(GroupStage(rs, metric, monthOf))[i] == Summary(MonthName(m), SumMonth(rs, metric, monthOf, m))
  {
    var gs := GroupStage(rs, metric, monthOf);
    assert gs[i] in gs;
    m := gs[i].id;
  }

  /** The whole pipeline of one endpoint: one entry for each month that
      occurs among the records matched with the exclusive end, named after
      the month and carrying its `$sum`, and no other entry. */
  function AggregationPath(records: seq<Ticket>, metric: Metric, monthOf: Timestamp -> Month, start: Timestamp, end: Timestamp): (r: seq<Summary>)
    ensures forall m: Month :: HasMonth(Select(records, metric, start, end, Lt), metric, monthOf, m) ==>
              Summary(MonthName(m), SumMonth(Select(records, metric, start, end, Lt), metric, monthOf, m)) in r
    ensures forall i :: 0 <= i < |r| ==>
              exists m: Month :: HasMonth(Select(records, metric, start, end, Lt), metric, monthOf, m)
                && r[i] == Summary(MonthName(m), SumMonth(Select(records, metric, start, end, Lt), metric, monthOf, m))
  {
    var matched := Select(records, metric, start, end, Lt);
    NamedGroups(matched, metric, monthOf);
    NameStage(GroupStage(matched, metric, monthOf))
  }
}

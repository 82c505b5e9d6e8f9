/** The client-side fold: the fetched records are folded, in order, into a
    JavaScript object keyed by month name, whose values are then listed in
    insertion order. The object is modelled as the sequence of its values. */
module ClientFold {
  import opened Seqs
  import opened Wrappers
  import opened Months
  import opened Tickets

  /** The object key of a record: the name of the month of its timestamp,
      which is the entry the pipeline's `$arrayElemAt` finds for that month. */
  function KeyOf(t: Ticket, metric: Metric, monthOf: Timestamp -> Month): (key: string)
    ensures ArrayElemAt(MonthNames, monthOf(Stamp(t, metric))) == Some(key)
    ensures key != ""
  {
    MonthName(monthOf(Stamp(t, metric)))
  }

  /** The key of every record, in record order. */
  function Keys(rs: seq<Ticket>, metric: Metric, monthOf: Timestamp -> Month): (ks: seq<string>)
    ensures |ks| == |rs|
    ensures forall i :: 0 <= i < |rs| ==> ks[i] == KeyOf(rs[i], metric, monthOf)
  {
    if |rs| == 0 then []
    else Keys(rs[..|rs| - 1], metric, monthOf) + [KeyOf(rs[|rs| - 1], metric, monthOf)]
  }

  /** Reference definition: the amounts of the records whose key is `key`, added up. */
  function SumFor(rs: seq<Ticket>, metric: Metric, monthOf: Timestamp -> Month, key: string): int
  {
    if |rs| == 0 then 0
    else
      var last := rs[|rs| - 1];
      SumFor(rs[..|rs| - 1], metric, monthOf, key)
        + (if KeyOf(last, metric, monthOf) == key then Amount(last, metric) else 0)
  }

  /** Reference definition: the amounts of all records, added up. */
  function Total(rs: seq<Ticket>, metric: Metric): int
  {
    if |rs| == 0 then 0 else Total(rs[..|rs| - 1], metric) + Amount(rs[|rs| - 1], metric)
  }

  /** The month names of the entries, in entry order (the object's keys). */
  function MonthsOf(data: seq<Summary>): (ms: seq<string>)
    ensures |ms| == |data|
    ensures forall i :: 0 <= i < |data| ==> ms[i] == data[i].month
  {
    if |data| == 0 then [] else [data[0].month] + MonthsOf(data[1..])
  }

  /** What the object holds under `key`, or 0 when the key is absent. */
  function TotalFor(data: seq<Summary>, key: string): int
  {
    if |data| == 0 then 0
    else (if data[0].month == key then data[0].total else 0) + TotalFor(data[1..], key)
  }

  /** The entries' totals, added up. */
  function SumTotals(data: seq<Summary>): int
  {
    if |data| == 0 then 0 else data[0].total + SumTotals(data[1..])
  }

  /** One step of the loop: if the object already has an entry for `key`,
      add `amount` to it; otherwise insert a new entry `{month: key, total: amount}`.
      The keys keep their order and a new key goes last, and the sum of all
      accumulators grows by `amount`. */
  function Upsert(data: seq<Summary>, key: string, amount: int): (r: seq<Summary>)
    ensures SumTotals(r) == SumTotals(data) + amount
  {
    if |data| == 0 then [Summary(key, amount)]
    else if data[0].month == key then [Summary(key, data[0].total + amount)] + data[1..]
    else [data[0]] + Upsert(data[1..], key, amount)
  }

  /** Upserting keeps the keys and their order; a new key goes last. */
  lemma {:induction false} UpsertMonths(data: seq<Summary>, key: string, amount: int)
    ensures MonthsOf(Upsert(data, key, amount))
         == if key in MonthsOf(data) then MonthsOf(data) else MonthsOf(data) + [key]
  {
    if |data| > 0 {
      var ms := MonthsOf(data);
      assert ms == [data[0].month] + MonthsOf(data[1..]);
      if data[0].month == key {
        assert MonthsOf([Summary(key, data[0].total + amount)] + data[1..])
            == [key] + MonthsOf(data[1..]);
      } else {
        var rest := Upsert(data[1..], key, amount);
        UpsertMonths(data[1..], key, amount);
        assert MonthsOf([data[0]] + rest) == [data[0].month] + MonthsOf(rest);
      }
    }
  }

  /** Upserting changes no entry of another month. */
  lemma {:induction false} UpsertFrame(data: seq<Summary>, key: string, amount: int)
    ensures |data| <= |Upsert(data, key, amount)|
    ensures forall i :: 0 <= i < |data| && data[i].month != key ==> Upsert(data, key, amount)[i] == data[i]
  {
    if |data| > 0 && data[0].month != key {
      UpsertFrame(data[1..], key, amount);
    }
  }

  /** Upserting adds `amount` to the accumulator of `key` and to no other. */
  lemma {:induction false} UpsertTotals(data: seq<Summary>, key: string, amount: int)
    ensures forall x :: TotalFor(Upsert(data, key, amount), x) == TotalFor(data, x) + (if x == key then amount else 0)
  {
    if |data| > 0 {
      var r := Upsert(data, key, amount);
      if data[0].month == key {
        assert r[1..] == data[1..];
      } else {
        UpsertTotals(data[1..], key, amount);
        assert r[1..] == Upsert(data[1..], key, amount);
      }
    }
  }

  /** The object after the loop has visited every record of `rs`, in order.
      Nothing is lost or counted twice: the entries add up to the total
      amount of all records, and there are no more entries than records. */
  function Tally(rs: seq<Ticket>, metric: Metric, monthOf: Timestamp -> Month): (data: seq<Summary>)
    ensures SumTotals(data) == Total(rs, metric)
  {
    if |rs| == 0 then []
    else
      var last := rs[|rs| - 1];
      Upsert(Tally(rs[..|rs| - 1], metric, monthOf), KeyOf(last, metric, monthOf), Amount(last, metric))
  }

  /** The entries appear in the order in which their months first occur
      among the records, so no month appears twice. */
  lemma {:induction false} TallyOrder(rs: seq<Ticket>, metric: Metric, monthOf: Timestamp -> Month)
    ensures MonthsOf(Tally(rs, metric, monthOf)) == FirstOccurrences(Keys(rs, metric, monthOf))
    ensures Distinct(MonthsOf(Tally(rs, metric, monthOf)))
  {
    if |rs| > 0 {
      var init, last := rs[..|rs| - 1], rs[|rs| - 1];
      TallyOrder(init, metric, monthOf);
      var ks, ks0 := Keys(rs, metric, monthOf), Keys(init, metric, monthOf);
      var k := KeyOf(last, metric, monthOf);
      assert ks[..|ks| - 1] == ks0 && ks[|ks| - 1] == k;
      FirstOccurrencesMembers(ks0, k);
      var prev := Tally(init, metric, monthOf);
      assert Tally(rs, metric, monthOf) == Upsert(prev, k, Amount(last, metric));
      UpsertMonths(prev, k, Amount(last, metric));
    }
  }

  /** An entry comes before another exactly because its month occurs among
      the records before the other's month does. */
  lemma FoldFollowsFirstAppearance(rs: seq<Ticket>, metric: Metric, monthOf: Timestamp -> Month)
    ensures forall i, j :: 0 <= i < j < |Tally(rs, metric, monthOf)| ==>
              SeenBefore(Keys(rs, metric, monthOf), Tally(rs, metric, monthOf)[i].month, Tally(rs, metric, monthOf)[j].month)
  {
    var data, ks := Tally(rs, metric, monthOf), Keys(rs, metric, monthOf);
    TallyOrder(rs, metric, monthOf);
    FirstOccurrencesOrder(ks);
    forall i, j | 0 <= i < j < |data|
      ensures SeenBefore(ks, data[i].month, data[j].month)
    {
      assert data[i].month == MonthsOf(data)[i] && data[j].month == MonthsOf(data)[j];
    }
  }

  /** Each month's accumulator holds the sum of the amounts of the records of
      that month; a month with no record holds nothing. */
  lemma {:induction false} TallyTotals(rs: seq<Ticket>, metric: Metric, monthOf: Timestamp -> Month)
    ensures forall x :: TotalFor(Tally(rs, metric, monthOf), x) == SumFor(rs, metric, monthOf, x)
  {
    if |rs| > 0 {
      var init, last := rs[..|rs| - 1], rs[|rs| - 1];
      TallyTotals(init, metric, monthOf);
      var prev := Tally(init, metric, monthOf);
      assert Tally(rs, metric, monthOf) == Upsert(prev, KeyOf(last, metric, monthOf), Amount(last, metric));
      UpsertTotals(prev, KeyOf(last, metric, monthOf), Amount(last, metric));
    }
  }

  /** In an object with one entry per key, `TotalFor` reads back each entry's own total. */
  lemma {:induction false} TotalForDistinct(data: seq<Summary>, i: nat)
    requires Distinct(MonthsOf(data))
    requires i < |data|
    ensures TotalFor(data, data[i].month) == data[i].total
  {
    var ms := MonthsOf(data);
    assert MonthsOf(data[1..]) == ms[1..];
    assert Distinct(MonthsOf(data[1..]));
    if i == 0 {
      TotalForAbsent(data[1..], data[0].month);
    } else {
      assert ms[0] != ms[i];
      TotalForDistinct(data[1..], i - 1);
    }
  }

  /** A key the object does not hold contributes nothing. */
  lemma {:induction false} TotalForAbsent(data: seq<Summary>, key: string)
    requires key !in MonthsOf(data)
    ensures TotalFor(data, key) == 0
  {
    if |data| > 0 {
      assert MonthsOf(data)[0] == data[0].month;
      assert MonthsOf(data[1..]) == MonthsOf(data)[1..];
      TotalForAbsent(data[1..], key);
    }
  }

  /** An entry of the fold's output holds exactly the sum of the amounts of
      the records of its month. */
  lemma TallyEntryTotal(rs: seq<Ticket>, metric: Metric, monthOf: Timestamp -> Month, i: nat)
    requires i < |Tally(rs, metric, monthOf)|
    ensures Tally(rs, metric, monthOf)[i].total == SumFor(rs, metric, monthOf, Tally(rs, metric, monthOf)[i].month)
  {
    TallyOrder(rs, metric, monthOf);
    TallyTotals(rs, metric, monthOf);
    TotalForDistinct(Tally(rs, metric, monthOf), i);
  }

  /** A month has an entry exactly when some record falls in it: months
      without records are not zero-filled. */
  lemma TallyHasKey(rs: seq<Ticket>, metric: Metric, monthOf: Timestamp -> Month, key: string)
    ensures key in MonthsOf(Tally(rs, metric, monthOf)) <==> key in Keys(rs, metric, monthOf)
  {
    TallyOrder(rs, metric, monthOf);
    FirstOccurrencesMembers(Keys(rs, metric, monthOf), key);
  }

  /** Both facts above, for every entry and every key. */
  lemma TallyEntries(rs: seq<Ticket>, metric: Metric, monthOf: Timestamp -> Month)
    ensures forall i :: 0 <= i < |Tally(rs, metric, monthOf)| ==>
      Tally(rs, metric, monthOf)[i].total == SumFor(rs, metric, monthOf, Tally(rs, metric, monthOf)[i].month)
    ensures forall key :: key in MonthsOf(Tally(rs, metric, monthOf)) <==> key in Keys(rs, metric, monthOf)
  {
    forall i | 0 <= i < |Tally(rs, metric, monthOf)|
      ensures Tally(rs, metric, monthOf)[i].total == SumFor(rs, metric, monthOf, Tally(rs, metric, monthOf)[i].month)
    {
      TallyEntryTotal(rs, metric, monthOf, i);
    }
    forall key
      ensures key in MonthsOf(Tally(rs, metric, monthOf)) <==> key in Keys(rs, metric, monthOf)
    {
      TallyHasKey(rs, metric, monthOf, key);
    }
  }

  /** A month's visit count is at least one as soon as one record falls in it. */
  lemma {:induction false} VisitsCountPositive(rs: seq<Ticket>, monthOf: Timestamp -> Month, key: string)
    ensures SumFor(rs, Visits, monthOf, key) >= 0
    ensures key in Keys(rs, Visits, monthOf) ==> SumFor(rs, Visits, monthOf, key) >= 1
  {
    if |rs| > 0 {
      var init := rs[..|rs| - 1];
      VisitsCountPositive(init, monthOf, key);
      var ks := Keys(rs, Visits, monthOf);
      assert ks == Keys(init, Visits, monthOf) + [KeyOf(rs[|rs| - 1], Visits, monthOf)];
    }
  }

  /** The visits fold never produces an empty month: every entry counts at least one visit. */
  lemma VisitsEntriesPositive(rs: seq<Ticket>, monthOf: Timestamp -> Month)
    ensures forall i :: 0 <= i < |Tally(rs, Visits, monthOf)| ==> Tally(rs, Visits, monthOf)[i].total >= 1
  {
    var data := Tally(rs, Visits, monthOf);
    TallyEntries(rs, Visits, monthOf);
    forall i | 0 <= i < |data|
      ensures data[i].total >= 1
    {
      assert data[i].month == MonthsOf(data)[i];
      VisitsCountPositive(rs, monthOf, data[i].month);
    }
  }

  /** For Visits the overall total is the number of records, so the visit
      counts of all entries add up to the number of records fetched. */
  lemma {:induction false} VisitsTotalIsCount(rs: seq<Ticket>, monthOf: Timestamp -> Month)
    ensures Total(rs, Visits) == |rs|
    ensures SumTotals(Tally(rs, Visits, monthOf)) == |rs|
  {
    if |rs| > 0 {
      VisitsTotalIsCount(rs[..|rs| - 1], monthOf);
    }
  }

  /** Folding one more record of an already-seen month keeps the entries and
      their order, and changes that month's total only. */
  lemma TallyAppendSeen(rs: seq<Ticket>, t: Ticket, metric: Metric, monthOf: Timestamp -> Month)
    requires KeyOf(t, metric, monthOf) in Keys(rs, metric, monthOf)
    ensures MonthsOf(Tally(rs + [t], metric, monthOf)) == MonthsOf(Tally(rs, metric, monthOf))
    ensures forall i :: 0 <= i < |Tally(rs, metric, monthOf)| && Tally(rs, metric, monthOf)[i].month != KeyOf(t, metric, monthOf) ==>
      Tally(rs + [t], metric, monthOf)[i] == Tally(rs, metric, monthOf)[i]
    ensures forall x ::
              TotalFor(Tally(rs + [t], metric, monthOf), x) ==
              TotalFor(Tally(rs, metric, monthOf), x) + (if x == KeyOf(t, metric, monthOf) then Amount(t, metric) else 0)
  {
    var prev, k := Tally(rs, metric, monthOf), KeyOf(t, metric, monthOf);
    TallySnoc(rs, t, metric, monthOf);
    TallyHasKey(rs, metric, monthOf, k);
    UpsertMonths(prev, k, Amount(t, metric));
    UpsertFrame(prev, k, Amount(t, metric));
    UpsertTotals(prev, k, Amount(t, metric));
  }

  /** Records of the same month merge into one entry whatever their years,
      since the key is the month alone. */
  lemma SameMonthMerges(t1: Ticket, t2: Ticket, metric: Metric, monthOf: Timestamp -> Month)
    requires monthOf(Stamp(t1, metric)) == monthOf(Stamp(t2, metric))
    ensures Tally([t1, t2], metric, monthOf) == [Summary(KeyOf(t1, metric, monthOf), Amount(t1, metric) + Amount(t2, metric))]
  {
    assert KeyOf(t2, metric, monthOf) == KeyOf(t1, metric, monthOf);
    SameKeyMerges(t1, t2, metric, monthOf);
  }

  /** Two records with the same key end up in a single entry. */
  lemma SameKeyMerges(t1: Ticket, t2: Ticket, metric: Metric, monthOf: Timestamp -> Month)
    requires KeyOf(t1, metric, monthOf) == KeyOf(t2, metric, monthOf)
    ensures Tally([t1, t2], metric, monthOf) == [Summary(KeyOf(t1, metric, monthOf), Amount(t1, metric) + Amount(t2, metric))]
  {
    var k := KeyOf(t1, metric, monthOf);
    assert [t1, t2] == [t1] + [t2];
    TallySnoc([t1], t2, metric, monthOf);
    TallySingle(t1, metric, monthOf);
    UpsertSingle(Summary(k, Amount(t1, metric)), Amount(t2, metric));
  }

  /** A key the object does not hold yet gets a new entry at the end. */
  lemma {:induction false} UpsertNew(data: seq<Summary>, key: string, amount: int)
    requires key !in MonthsOf(data)
    ensures Upsert(data, key, amount) == data + [Summary(key, amount)]
  {
    if |data| > 0 {
      assert MonthsOf(data)[0] == data[0].month;
      assert MonthsOf(data[1..]) == MonthsOf(data)[1..];
      UpsertNew(data[1..], key, amount);
      assert data == [data[0]] + data[1..];
    }
  }

  /** One more record is one more step of the loop. */
  lemma TallySnoc(rs: seq<Ticket>, t: Ticket, metric: Metric, monthOf: Timestamp -> Month)
    ensures Tally(rs + [t], metric, monthOf) == Upsert(Tally(rs, metric, monthOf), KeyOf(t, metric, monthOf), Amount(t, metric))
  {
    assert (rs + [t])[..|rs|] == rs;
  }

  lemma TallySingle(t: Ticket, metric: Metric, monthOf: Timestamp -> Month)
    ensures Tally([t], metric, monthOf) == [Summary(KeyOf(t, metric, monthOf), Amount(t, metric))]
  {
    assert [t][..0] == [];
  }

  lemma UpsertSingle(e: Summary, amount: int)
    ensures Upsert([e], e.month, amount) == [Summary(e.month, e.total + amount)]
  {
    assert [e][1..] == [];
  }

  /** The fold reads a record only through its metric timestamp and its amount. */
  lemma {:induction false} FoldReadsStampAndAmount(rs: seq<Ticket>, rs': seq<Ticket>, metric: Metric, monthOf: Timestamp -> Month)
    requires |rs| == |rs'|
    requires forall i :: 0 <= i < |rs| ==>
               Stamp(rs[i], metric) == Stamp(rs'[i], metric) && Amount(rs[i], metric) == Amount(rs'[i], metric)
    ensures Tally(rs, metric, monthOf) == Tally(rs', metric, monthOf)
  {
    if |rs| > 0 {
      var n := |rs| - 1;
      FoldReadsStampAndAmount(rs[..n], rs'[..n], metric, monthOf);
      assert KeyOf(rs[n], metric, monthOf) == KeyOf(rs'[n], metric, monthOf);
    }
  }

  /** Revenue reads `createdAt` and `ticketPrice` only: records that agree
      on those two fields give the same revenue entries. */
  lemma {:induction false} RevenueReadsCreatedAtAndPrice(rs: seq<Ticket>, rs': seq<Ticket>, monthOf: Timestamp -> Month)
    requires |rs| == |rs'|
    requires forall i :: 0 <= i < |rs| ==> rs[i].createdAt == rs'[i].createdAt && rs[i].ticketPrice == rs'[i].ticketPrice
    ensures Tally(rs, Revenue, monthOf) == Tally(rs', Revenue, monthOf)
  {
    FoldReadsStampAndAmount(rs, rs', Revenue, monthOf);
  }

  /** Visits reads `performanceTime` only: records that agree on it give the
      same visit counts, whatever their prices and creation times. */
  lemma {:induction false} VisitsReadPerformanceTime(rs: seq<Ticket>, rs': seq<Ticket>, monthOf: Timestamp -> Month)
    requires |rs| == |rs'|
    requires forall i :: 0 <= i < |rs| ==> rs[i].performanceTime == rs'[i].performanceTime
    ensures Tally(rs, Visits, monthOf) == Tally(rs', Visits, monthOf)
  {
    FoldReadsStampAndAmount(rs, rs', Visits, monthOf);
  }

  /** The client-side path of one endpoint: the inclusive range query, then
      the fold. Each month of a fetched record appears once, the months come
      in the order in which they first appear among the fetched records, and
      each entry holds its month's sum. */
  function FoldPath(records: seq<Ticket>, metric: Metric, monthOf: Timestamp -> Month, start: Timestamp, end: Timestamp): (r: seq<Summary>)
    ensures Distinct(MonthsOf(r))
    ensures forall i, j :: 0 <= i < j < |r| ==>
              SeenBefore(Keys(Select(records, metric, start, end, Lte), metric, monthOf), r[i].month, r[j].month)
    ensures forall i :: 0 <= i < |r| ==>
              r[i].total == SumFor(Select(records, metric, start, end, Lte), metric, monthOf, r[i].month)
    ensures forall key :: key in MonthsOf(r) <==> key in Keys(Select(records, metric, start, end, Lte), metric, monthOf)
  {
    var fetched := Select(records, metric, start, end, Lte);
    TallyFacts(fetched, metric, monthOf);
    FoldFollowsFirstAppearance(fetched, metric, monthOf);
    TallyEntries(fetched, metric, monthOf);
    Tally(fetched, metric, monthOf)
  }

  /** The handler's client-side branch: fetch the records in range, then
      visit them in order, adding each to its month's entry or creating it. */
  method FoldHandler(records: seq<Ticket>, metric: Metric, monthOf: Timestamp -> Month, start: Timestamp, end: Timestamp)
    returns (data: seq<Summary>)
    ensures Distinct(MonthsOf(data))
    ensures MonthsOf(data) == FirstOccurrences(Keys(Select(records, metric, start, end, Lte), metric, monthOf))
    ensures forall i :: 0 <= i < |data| ==>
      data[i].total == SumFor(Select(records, metric, start, end, Lte), metric, monthOf, data[i].month)
    ensures SumTotals(data) == Total(Select(records, metric, start, end, Lte), metric)
  {
    var result := Select(records, metric, start, end, Lte);
    data := [];
    var i := 0;
    while i < |result|
      invariant 0 <= i <= |result|
      invariant data == Tally(result[..i], metric, monthOf)
    {
      var item := result[i];
      LoopStep(result, i, metric, monthOf);
      data := Upsert(data, KeyOf(item, metric, monthOf), Amount(item, metric));
      i := i + 1;
    }
    assert result[..i] == result;
    TallyFacts(result, metric, monthOf);
  }

  /** Visiting record `i` extends the fold of the records before it. */
  lemma LoopStep(rs: seq<Ticket>, i: nat, metric: Metric, monthOf: Timestamp -> Month)
    requires i < |rs|
    ensures Tally(rs[..i + 1], metric, monthOf) == Upsert(Tally(rs[..i], metric, monthOf), KeyOf(rs[i], metric, monthOf), Amount(rs[i], metric))
  {
    assert rs[..i + 1] == rs[..i] + [rs[i]];
    TallySnoc(rs[..i], rs[i], metric, monthOf);
  }

  /** The fold's invariants together: order of first occurrence, one entry
      per month, per-month sums, and conservation of the overall total. */
  lemma TallyFacts(rs: seq<Ticket>, metric: Metric, monthOf: Timestamp -> Month)
    ensures Distinct(MonthsOf(Tally(rs, metric, monthOf)))
    ensures MonthsOf(Tally(rs, metric, monthOf)) == FirstOccurrences(Keys(rs, metric, monthOf))
    ensures forall i :: 0 <= i < |Tally(rs, metric, monthOf)| ==>
      Tally(rs, metric, monthOf)[i].total == SumFor(rs, metric, monthOf, Tally(rs, metric, monthOf)[i].month)
    ensures SumTotals(Tally(rs, metric, monthOf)) == Total(rs, metric)
  {
    TallyOrder(rs, metric, monthOf);
    TallyEntries(rs, metric, monthOf);
  }
}

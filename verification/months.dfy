/** Calendar months and the month-name lookup table shared by both
    execution paths. */
module Months {
  import opened Wrappers

  /** A calendar month number, 1 = January .. 12 = December, as produced by
      `$month` and as rendered by moment's `format('MMMM')`. The year is not
      part of it. */
  type Month = m: int | 1 <= m <= 12 witness 1

  /** The 13-slot month-name table; slot 0 is unused and holds the empty string. */
  const MonthNames: seq<string> :=
    ["", "January", "February", "March", "April", "May", "June",
     "July", "August", "September", "October", "November", "December"]

  /** The English name of a month: the table entry at its 1-based number,
      never the empty placeholder of slot 0. */
  function MonthName(m: Month): (name: string)
    ensures |name| >= 3
  {
    MonthNames[m]
  }

  /** Different months have different names, so grouping by name and
      grouping by number form the same groups. */
  lemma MonthNameInjective(m1: Month, m2: Month)
    ensures MonthName(m1) == MonthName(m2) <==> m1 == m2
  {
    if m1 != m2 {
      var a, b := MonthNames[m1], MonthNames[m2];
      assert |a| != |b| || a[0] != b[0] || a[2] != b[2];
    }
  }

  /** MongoDB's `$arrayElemAt`: a non-negative index counts from the front,
      a negative one from the back, and an index outside the array yields a
      missing value. */
  function ArrayElemAt<T>(a: seq<T>, idx: int): (r: Option<T>)
    ensures r.Some? <==> -|a| <= idx < |a|
    ensures r.Some? ==> r.value in a
    ensures 0 <= idx < |a| ==> r == Some(a[idx])
  {
    if 0 <= idx < |a| then Some(a[idx])
    else if -|a| <= idx < 0 then Some(a[|a| + idx])
    else None
  }

  /** Indexing the table directly with a 1-based month number always finds
      that month's (non-empty) name; the unused slot 0 is never reached. */
  lemma TableLookupIsMonthName(m: Month)
    ensures ArrayElemAt(MonthNames, m) == Some(MonthName(m))
    ensures ArrayElemAt(MonthNames, m).value != ""
  {
  }
}

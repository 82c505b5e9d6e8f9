/** Generic facts about sequences used by both execution paths of the analytics. */
module Seqs {

  /** No element occurs twice. */
  predicate Distinct<T(==)>(s: seq<T>)
  {
    forall i, j :: 0 <= i < j < |s| ==> s[i] != s[j]
  }

  /** The distinct elements of `s`, each at the position of its first occurrence.
      This is the order in which a JavaScript object enumerates string keys
      that were inserted in the order of `s`. */
  function FirstOccurrences<T(==)>(s: seq<T>): (r: seq<T>)
    ensures forall i :: 0 <= i < |s| ==> s[i] in r
    ensures forall i :: 0 <= i < |r| ==> r[i] in s
    ensures Distinct(r)
  {
    if |s| == 0 then []
    else
      var init, last := s[..|s| - 1], s[|s| - 1];
      assert s == init + [last];
      if last in init then FirstOccurrences(init)
      else FirstOccurrences(init) + [last]
  }

  /** `x` occurs in `s` at a position where `y` has not occurred yet. */
  predicate SeenBefore<T(==)>(s: seq<T>, x: T, y: T)
  {
    exists p :: 0 <= p < |s| && s[p] == x && y !in s[..p + 1]
  }

  /** Deduplication keeps the order of first occurrence: of two elements of
      the result, the earlier one occurs in `s` before the later one does. */
  lemma {:induction false} FirstOccurrencesOrder<T>(s: seq<T>)
    ensures forall i, j :: 0 <= i < j < |FirstOccurrences(s)| ==>
              SeenBefore(s, FirstOccurrences(s)[i], FirstOccurrences(s)[j])
  {
    if |s| > 0 {
      var init, last := s[..|s| - 1], s[|s| - 1];
      assert s == init + [last];
      var r, r0 := FirstOccurrences(s), FirstOccurrences(init);
      FirstOccurrencesOrder(init);
      forall i, j | 0 <= i < j < |r|
        ensures SeenBefore(s, r[i], r[j])
      {
        assert r == r0 || r == r0 + [last];
        if j < |r0| {
          assert r[i] == r0[i] && r[j] == r0[j];
          assert SeenBefore(init, r0[i], r0[j]);
          var p :| 0 <= p < |init| && init[p] == r0[i] && r0[j] !in init[..p + 1];
          assert s[..p + 1] == init[..p + 1];
          assert s[p] == r[i];
        } else {
          assert last !in init && r == r0 + [last] && r[j] == last;
          assert r0[i] in init;
          var p :| 0 <= p < |init| && init[p] == r0[i];
          assert s[..p + 1] == init[..p + 1];
          assert r[j] !in init[..p + 1];
          assert s[p] == r[i];
        }
      }
    }
  }

  /** In a sequence without repetitions every element occurs exactly once. */
  lemma {:induction false} DistinctCounts<T>(s: seq<T>)
    requires Distinct(s)
    ensures forall x :: multiset(s)[x] == if x in s then 1 else 0
  {
    if |s| > 0 {
      var init, last := s[..|s| - 1], s[|s| - 1];
      assert s == init + [last];
      assert Distinct(init);
      DistinctCounts(init);
      assert last !in init;
    }
  }

  /** Two sequences without repetitions that hold the same elements are
      permutations of each other. */
  lemma DistinctSameElements<T>(a: seq<T>, b: seq<T>)
    requires Distinct(a) && Distinct(b)
    requires forall x :: x in a <==> x in b
    ensures multiset(a) == multiset(b)
  {
    DistinctCounts(a);
    DistinctCounts(b);
    assert forall x :: multiset(a)[x] == multiset(b)[x];
  }

  /** Deduplication neither loses nor invents an element. */
  lemma FirstOccurrencesMembers<T>(s: seq<T>, x: T)
    ensures x in FirstOccurrences(s) <==> x in s
  {
    var r := FirstOccurrences(s);
    if x in s {
      var i :| 0 <= i < |s| && s[i] == x;
      assert s[i] in r;
    }
    if x in r {
      var i :| 0 <= i < |r| && r[i] == x;
      assert r[i] in s;
    }
  }
}

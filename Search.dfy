/** The search box's filter: the stands whose name contains the typed text, ignoring case. */
module Search {
  import opened Stands
  import opened Text

  /** A stand is offered for `query` when its lower-cased name contains the lower-cased query. */
  predicate NameMatches(s: Stand, query: string)
    ensures NameMatches(s, query) <==> Occurs(ToLower(s.name), ToLower(query))
  {
    IndexOf(ToLower(s.name), ToLower(query)) > -1
  }

  /** The stands offered for `query`, in dataset order. */
  function Filter(stands: seq<Stand>, query: string): (r: seq<Stand>)
    ensures |r| <= |stands|
    ensures forall x :: x in r <==> x in stands && NameMatches(x, query)
  {
    if stands == [] then []
    else if NameMatches(stands[0], query) then [stands[0]] + Filter(stands[1..], query)
    else Filter(stands[1..], query)
  }

  /** `a` is `b` with some elements left out and the rest in their order. */
  ghost predicate IsSubsequence<T>(a: seq<T>, b: seq<T>)
  {
    a == [] ||
    (b != [] && ((a[0] == b[0] && IsSubsequence(a[1..], b[1..])) || IsSubsequence(a, b[1..])))
  }

  /** The filter keeps the dataset's order. */
  lemma {:induction false} FilterIsSubsequence(stands: seq<Stand>, query: string)
    ensures IsSubsequence(Filter(stands, query), stands)
  {
    if stands != [] {
      FilterIsSubsequence(stands[1..], query);
    }
  }

  /** Each matching stand appears in the result exactly as often as in the dataset, and every
      other stand not at all. */
  lemma {:induction false} FilterCounts(stands: seq<Stand>, query: string, x: Stand)
    ensures multiset(Filter(stands, query))[x] == if NameMatches(x, query) then multiset(stands)[x] else 0
  {
    if stands != [] {
      FilterCounts(stands[1..], query, x);
      assert stands == [stands[0]] + stands[1..];
    }
  }

  /** The empty query offers every stand. */
  lemma {:induction false} FilterEmptyQuery(stands: seq<Stand>)
    ensures Filter(stands, "") == stands
  {
    if stands != [] {
      FilterEmptyQuery(stands[1..]);
      assert ToLower("") == "";
      assert NameMatches(stands[0], "");
    }
  }

  /** Typing a stand's full name offers that stand. */
  lemma NameFindsItself(stands: seq<Stand>, s: Stand)
    requires s in stands
    ensures s in Filter(stands, s.name)
  {
  }

  /** Two queries that lower-case alike offer the same stands. */
  lemma {:induction false} FilterSameLowered(stands: seq<Stand>, q1: string, q2: string)
    requires ToLower(q1) == ToLower(q2)
    ensures Filter(stands, q1) == Filter(stands, q2)
  {
    if stands != [] {
      FilterSameLowered(stands[1..], q1, q2);
    }
  }

  /** The filter ignores case: a query and its lower-cased form offer the same stands. */
  lemma FilterIgnoresCase(stands: seq<Stand>, query: string)
    ensures Filter(stands, ToLower(query)) == Filter(stands, query)
  {
    ToLowerIdempotent(query);
    FilterSameLowered(stands, ToLower(query), query);
  }
}

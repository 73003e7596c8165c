/** `ConverterUtils.searchMonstersByName`: the name matches, exact ones first, then those that
    start with the query, then by name; at most twenty. */
module Search {
  import opened Text
  import opened Monsters
  import opened Bestiary

  // ---------- the name order ----------

  /** Code-point order on names, standing in for `localeCompare`. */
  predicate NameLe(a: string, b: string)
    decreases |a|
  {
    if a == [] then true
    else if b == [] then false
    else if a[0] != b[0] then a[0] < b[0]
    else NameLe(a[1..], b[1..])
  }

  lemma {:induction false} NameLeTotal(a: string, b: string)
    ensures NameLe(a, b) || NameLe(b, a)
    decreases |a|
  {
    if a != [] && b != [] && a[0] == b[0] {
      NameLeTotal(a[1..], b[1..]);
    }
  }

  lemma {:induction false} NameLeTransitive(a: string, b: string, c: string)
    requires NameLe(a, b) && NameLe(b, c)
    ensures NameLe(a, c)
    decreases |a|
  {
    if a != [] && b != [] && c != [] && a[0] == b[0] && b[0] == c[0] {
      NameLeTransitive(a[1..], b[1..], c[1..]);
    }
  }

  /** 0 for an exact match of the lower-cased name, 1 for one that starts with the query, else 2. */
  function Rank(m: Monster, lowerQuery: string): (r: nat)
    ensures r <= 2
  {
    var low := Lower(m.name);
    if low == lowerQuery then 0 else if StartsWith(low, lowerQuery) then 1 else 2
  }

  /** The sort comparator says `a` may come before `b`. */
  predicate Before(a: Monster, b: Monster, lowerQuery: string) {
    Rank(a, lowerQuery) < Rank(b, lowerQuery)
    || (Rank(a, lowerQuery) == Rank(b, lowerQuery) && NameLe(a.name, b.name))
  }

  lemma BeforeTotal(a: Monster, b: Monster, q: string)
    ensures Before(a, b, q) || Before(b, a, q)
  {
    NameLeTotal(a.name, b.name);
  }

  lemma BeforeTransitive(a: Monster, b: Monster, c: Monster, q: string)
    requires Before(a, b, q) && Before(b, c, q)
    ensures Before(a, c, q)
  {
    if Rank(a, q) == Rank(b, q) == Rank(c, q) {
      NameLeTransitive(a.name, b.name, c.name);
    }
  }

  // ---------- sorting ----------

  predicate Sorted(s: seq<Monster>, q: string) {
    forall i :: 0 <= i < |s| - 1 ==> Before(s[i], s[i + 1], q)
  }

  /** Put `x` in front of the first element it may precede. */
  function Insert(x: Monster, s: seq<Monster>, q: string): (r: seq<Monster>)
    ensures multiset(r) == multiset(s) + multiset{x}
    ensures |r| == |s| + 1
    decreases |s|
  {
    if s == [] then [x]
    else if Before(x, s[0], q) then [x] + s
    else
      assert s == [s[0]] + s[1..];
      [s[0]] + Insert(x, s[1..], q)
  }

  lemma {:induction false} InsertKeepsSorted(x: Monster, s: seq<Monster>, q: string)
    requires Sorted(s, q)
    ensures Sorted(Insert(x, s, q), q)
    ensures |s| > 0 && !Before(x, s[0], q) ==> Insert(x, s, q)[0] == s[0]
    decreases |s|
  {
    if s != [] && !Before(x, s[0], q) {
      InsertKeepsSorted(x, s[1..], q);
      BeforeTotal(x, s[0], q);
      var r := Insert(x, s, q);
      var tail := Insert(x, s[1..], q);
      assert r == [s[0]] + tail;
      if |s| > 1 && !Before(x, s[1], q) {
        assert tail[0] == s[1];
      }
    }
  }

  /** The matches in comparator order. */
  function SortByRank(s: seq<Monster>, q: string): (r: seq<Monster>)
    ensures multiset(r) == multiset(s)
    ensures |r| == |s|
    decreases |s|
  {
    if s == [] then []
    else
      assert s == [s[0]] + s[1..];
      Insert(s[0], SortByRank(s[1..], q), q)
  }

  lemma {:induction false} SortByRankSorted(s: seq<Monster>, q: string)
    ensures Sorted(SortByRank(s, q), q)
    decreases |s|
  {
    if s != [] {
      SortByRankSorted(s[1..], q);
      InsertKeepsSorted(s[0], SortByRank(s[1..], q), q);
    }
  }

  /** In a sorted list every element may precede every later one. */
  lemma {:induction false} SortedAllPairs(s: seq<Monster>, q: string, i: nat, j: nat)
    requires Sorted(s, q) && i < j < |s|
    ensures Before(s[i], s[j], q)
    decreases j - i
  {
    if i + 1 < j {
      SortedAllPairs(s, q, i + 1, j);
      BeforeTransitive(s[i], s[i + 1], s[j], q);
    }
  }

  // ---------- the search ----------

  const MaxResults: nat := 20

  /** `searchMonstersByName` over the stored monsters. */
  function SearchByName(ms: seq<Monster>, query: string): (r: seq<Monster>)
    ensures |query| < 2 ==> r == []
    ensures |r| <= MaxResults
  {
    if |query| < 2 then []
    else
      var sorted := SortByRank(NameMatches(ms, Lower(query)), Lower(query));
      if |sorted| <= MaxResults then sorted else sorted[..MaxResults]
  }

  /** Every result is a stored monster whose lower-cased name contains the lower-cased query. */
  lemma SearchResultsMatch(ms: seq<Monster>, query: string, i: nat)
    requires i < |SearchByName(ms, query)|
    ensures SearchByName(ms, query)[i] in ms
    ensures Contains(Lower(SearchByName(ms, query)[i].name), Lower(query))
  {
    var q := Lower(query);
    var matches := NameMatches(ms, q);
    var sorted := SortByRank(matches, q);
    var m := SearchByName(ms, query)[i];
    assert m == sorted[i];
    assert m in multiset(sorted);
    NameMatchesIff(ms, q, m);
  }

  /** Results come in comparator order: exact matches, then prefix matches, then the rest, and by
      name within each group. */
  lemma SearchResultsOrdered(ms: seq<Monster>, query: string, i: nat, j: nat)
    requires i < j < |SearchByName(ms, query)|
    ensures Before(SearchByName(ms, query)[i], SearchByName(ms, query)[j], Lower(query))
    ensures Rank(SearchByName(ms, query)[i], Lower(query)) <= Rank(SearchByName(ms, query)[j], Lower(query))
  {
    var q := Lower(query);
    var sorted := SortByRank(NameMatches(ms, q), q);
    SortByRankSorted(NameMatches(ms, q), q);
    SortedAllPairs(sorted, q, i, j);
  }

  /** With fewer than twenty matches, every match is returned (as often as it is stored);
      otherwise exactly twenty of them are. */
  lemma SearchComplete(ms: seq<Monster>, query: string)
    requires |query| >= 2
    ensures multiset(SearchByName(ms, query)) <= multiset(NameMatches(ms, Lower(query)))
    ensures |NameMatches(ms, Lower(query))| <= MaxResults ==>
      multiset(SearchByName(ms, query)) == multiset(NameMatches(ms, Lower(query)))
    ensures |NameMatches(ms, Lower(query))| > MaxResults ==> |SearchByName(ms, query)| == MaxResults
  {
    var sorted := SortByRank(NameMatches(ms, Lower(query)), Lower(query));
    if |sorted| > MaxResults {
      assert sorted == sorted[..MaxResults] + sorted[MaxResults..];
    }
  }

  /** The twenty kept are the first in comparator order: a match left out (counting copies) comes
      after every returned monster. */
  lemma SearchDropsOnlyLater(ms: seq<Monster>, query: string, m: Monster, i: nat)
    requires |query| >= 2
    requires i < |SearchByName(ms, query)|
    requires multiset(SearchByName(ms, query))[m] < multiset(NameMatches(ms, Lower(query)))[m]
    ensures Before(SearchByName(ms, query)[i], m, Lower(query))
  {
    var q := Lower(query);
    var matches := NameMatches(ms, q);
    var sorted := SortByRank(matches, q);
    var r := SearchByName(ms, query);
    if |sorted| > MaxResults {
      var dropped := sorted[MaxResults..];
      assert sorted == r + dropped;
      assert multiset(sorted) == multiset(r) + multiset(dropped);
      assert m in multiset(dropped);
      var j :| 0 <= j < |dropped| && dropped[j] == m;
      SortByRankSorted(matches, q);
      SortedAllPairs(sorted, q, i, MaxResults + j);
    }
  }
}

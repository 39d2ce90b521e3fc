/** The ordered result list and the count that `displaySearchResults` renders, without the
    HTML around them. */
module Display {
  import opened Catalog
  import opened Seqs

  /** The two pages the results container can show. An empty result list shows only the
      "no results" message with the searched term; otherwise the page shows the full match
      count and a list of cards. */
  datatype Page =
    | NoResults(query: string)
    | Results(query: string, total: nat, cards: seq<Destination>)

  /** At most this many cards of each type. */
  const BucketSize: nat := 2

  /** At most this many cards when no record has a standard type. */
  const FallbackSize: nat := 6

  function OfKind(k: Kind): Destination -> bool {
    (d: Destination) => d.kind == k
  }

  /** `results.filter(r => r.type === k).slice(0, 2)` */
  function Bucket(results: seq<Destination>, k: Kind): seq<Destination> {
    Take(Filter(OfKind(k), results), BucketSize)
  }

  /** `results.slice(0, 6)`, shown only when all three buckets are empty. */
  function Fallback(results: seq<Destination>): seq<Destination> {
    if Bucket(results, Beach) == [] && Bucket(results, Temple) == [] && Bucket(results, City) == []
    then Take(results, FallbackSize)
    else []
  }

  /** The cards in the order they are appended: beaches, temples, cities, fallback. */
  function Cards(results: seq<Destination>): seq<Destination> {
    Bucket(results, Beach) + Bucket(results, Temple) + Bucket(results, City) + Fallback(results)
  }

  function DisplayPage(results: seq<Destination>, query: string): Page {
    if |results| == 0 then NoResults(query)
    else Results(query, |results|, Cards(results))
  }

  /** Position of a type in the display order. */
  function Rank(k: Kind): nat {
    match k
    case Beach => 0
    case Temple => 1
    case City => 2
    case Other(_) => 3
  }

  /** Appends a group of cards one by one, as the `forEach` loops do. */
  method AppendCards(shown: seq<Destination>, group: seq<Destination>)
    returns (out: seq<Destination>)
    ensures out == shown + group
  {
    out := shown;
    var i := 0;
    while i < |group|
      invariant 0 <= i <= |group|
      invariant out == shown + group[..i]
    {
      out := out + [group[i]];
      i := i + 1;
    }
    assert group[..i] == group;
  }

  /** `displaySearchResults` without the markup: builds the page step by step. */
  method Render(results: seq<Destination>, query: string) returns (page: Page)
    ensures page == DisplayPage(results, query)
  {
    if |results| == 0 {
      return NoResults(query);
    }
    var beachResults := Bucket(results, Beach);
    var templeResults := Bucket(results, Temple);
    var cityResults := Bucket(results, City);
    var cards: seq<Destination> := [];
    cards := AppendCards(cards, beachResults);
    cards := AppendCards(cards, templeResults);
    cards := AppendCards(cards, cityResults);
    assert cards == beachResults + templeResults + cityResults;
    if |beachResults| == 0 && |templeResults| == 0 && |cityResults| == 0 {
      cards := AppendCards(cards, Take(results, FallbackSize));
    }
    assert cards == Cards(results);
    page := Results(query, |results|, cards);
  }

  lemma PrefixMultiset<T>(s: seq<T>, n: nat)
    requires n <= |s|
    ensures multiset(s[..n]) <= multiset(s)
  {
    assert s == s[..n] + s[n..];
  }

  /** A bucket holds the first (at most two) records of its type, in result order. */
  lemma BucketIsFirstOfKind(results: seq<Destination>, k: Kind)
    ensures var b, all := Bucket(results, k), Filter(OfKind(k), results);
      b == all[..|b|] && |b| == (if |all| <= BucketSize then |all| else BucketSize) &&
      (forall i :: 0 <= i < |b| ==> b[i].kind == k) &&
      multiset(b) <= multiset(all)
  {
    var all := Filter(OfKind(k), results);
    var b := Bucket(results, k);
    PrefixMultiset(all, |b|);
    FilterMembers(OfKind(k), results);
    forall i | 0 <= i < |b| ensures b[i].kind == k {
      assert b[i] in all;
    }
  }

  /** A bucket is empty exactly when no result has its type. */
  lemma BucketEmpty(results: seq<Destination>, k: Kind)
    ensures Bucket(results, k) == [] <==> forall i :: 0 <= i < |results| ==> results[i].kind != k
  {
    FilterEmpty(OfKind(k), results);
  }

  /** The fallback is used exactly when there are results but none has a standard type; it
      then shows the first six results. */
  lemma FallbackOnlyWithoutStandardKinds(results: seq<Destination>)
    ensures Fallback(results) != [] <==>
      |results| > 0 && forall i :: 0 <= i < |results| ==> !IsStandard(results[i])
    ensures Fallback(results) != [] ==> Cards(results) == Take(results, FallbackSize)
  {
    BucketEmpty(results, Beach);
    BucketEmpty(results, Temple);
    BucketEmpty(results, City);
    if Fallback(results) != [] {
      assert Cards(results) == [] + [] + [] + Take(results, FallbackSize);
    }
  }

  /** When every result has a standard type the fallback is never used and the cards are the
      three buckets. */
  lemma StandardResultsFillBuckets(results: seq<Destination>)
    requires forall i :: 0 <= i < |results| ==> IsStandard(results[i])
    ensures Fallback(results) == []
    ensures Cards(results) == Bucket(results, Beach) + Bucket(results, Temple) + Bucket(results, City)
  {
    FallbackOnlyWithoutStandardKinds(results);
    if |results| > 0 {
      assert IsStandard(results[0]);
    }
  }

  /** What the page says: the searched term, the no-results page exactly for an empty list,
      the full match count rather than the number shown, at most six cards, and no card
      shown more often than it occurs among the results. */
  lemma PageShape(results: seq<Destination>, query: string)
    ensures var page := DisplayPage(results, query);
      page.query == query &&
      (page.NoResults? <==> |results| == 0) &&
      (page.Results? ==>
        page.total == |results| && |page.cards| <= 6 &&
        multiset(page.cards) <= multiset(results))
  {
    if |results| > 0 {
      var b, t, c := Bucket(results, Beach), Bucket(results, Temple), Bucket(results, City);
      if Fallback(results) != [] {
        FallbackOnlyWithoutStandardKinds(results);
        PrefixMultiset(results, |Take(results, FallbackSize)|);
      } else {
        assert Cards(results) == b + t + c;
        BucketIsFirstOfKind(results, Beach);
        BucketIsFirstOfKind(results, Temple);
        BucketIsFirstOfKind(results, City);
        forall x ensures multiset(b + t + c)[x] <= multiset(results)[x] {
          FilterCount(OfKind(Beach), results, x);
          FilterCount(OfKind(Temple), results, x);
          FilterCount(OfKind(City), results, x);
        }
      }
    }
  }

  /** Without the fallback, the cards come grouped by type in the order beach, temple,
      city; for each type they are exactly that type's bucket, in result order; and their
      number is the sum of the capped bucket sizes. */
  lemma CardsGroupedByKind(results: seq<Destination>)
    requires Fallback(results) == []
    ensures var cards := Cards(results);
      (forall i, j :: 0 <= i < j < |cards| ==> Rank(cards[i].kind) <= Rank(cards[j].kind)) &&
      (forall i :: 0 <= i < |cards| ==> IsStandard(cards[i])) &&
      Filter(OfKind(Beach), cards) == Bucket(results, Beach) &&
      Filter(OfKind(Temple), cards) == Bucket(results, Temple) &&
      Filter(OfKind(City), cards) == Bucket(results, City) &&
      |cards| == |Bucket(results, Beach)| + |Bucket(results, Temple)| + |Bucket(results, City)|
  {
    var b, t, c := Bucket(results, Beach), Bucket(results, Temple), Bucket(results, City);
    var cards := Cards(results);
    assert cards == b + t + c;
    BucketIsFirstOfKind(results, Beach);
    BucketIsFirstOfKind(results, Temple);
    BucketIsFirstOfKind(results, City);
    GroupsRanked(b, t, c);
    KeepOneKind(b, t, c, Beach);
    assert b + [] + [] == b;
    KeepOneKind(b, t, c, Temple);
    assert [] + t + [] == t;
    KeepOneKind(b, t, c, City);
    assert [] + [] + c == c;
  }

  /** Three single-type groups in the order beach, temple, city are ordered by rank. */
  lemma GroupsRanked(b: seq<Destination>, t: seq<Destination>, c: seq<Destination>)
    requires forall i :: 0 <= i < |b| ==> b[i].kind == Beach
    requires forall i :: 0 <= i < |t| ==> t[i].kind == Temple
    requires forall i :: 0 <= i < |c| ==> c[i].kind == City
    ensures var s := b + t + c;
      (forall i :: 0 <= i < |s| ==> IsStandard(s[i])) &&
      forall i, j :: 0 <= i < j < |s| ==> Rank(s[i].kind) <= Rank(s[j].kind)
  {
    var s := b + t + c;
    forall i | 0 <= i < |s|
      ensures IsStandard(s[i])
      ensures Rank(s[i].kind) == if i < |b| then 0 else if i < |b| + |t| then 1 else 2
    {
      if i < |b| {
        assert s[i] == b[i];
      } else if i < |b| + |t| {
        assert s[i] == t[i - |b|];
      } else {
        assert s[i] == c[i - |b| - |t|];
      }
    }
  }

  /** Filtering three single-type groups by one type keeps that type's group. */
  lemma KeepOneKind(b: seq<Destination>, t: seq<Destination>, c: seq<Destination>, k: Kind)
    requires forall i :: 0 <= i < |b| ==> b[i].kind == Beach
    requires forall i :: 0 <= i < |t| ==> t[i].kind == Temple
    requires forall i :: 0 <= i < |c| ==> c[i].kind == City
    ensures Filter(OfKind(k), b + t + c) ==
      (if k == Beach then b else []) + (if k == Temple then t else []) + (if k == City then c else [])
  {
    FilterThree(OfKind(k), b, t, c);
    var fb := KeepGroup(b, Beach, k);
    var ft := KeepGroup(t, Temple, k);
    var fc := KeepGroup(c, City, k);
  }

  lemma FilterThree<T>(p: T -> bool, a: seq<T>, b: seq<T>, c: seq<T>)
    ensures Filter(p, a + b + c) == Filter(p, a) + Filter(p, b) + Filter(p, c)
  {
    FilterConcat(p, a + b, c);
    FilterConcat(p, a, b);
  }

  /** Filtering a single-type group keeps all of it or none of it. */
  lemma KeepGroup(g: seq<Destination>, kind: Kind, k: Kind) returns (kept: seq<Destination>)
    requires forall i :: 0 <= i < |g| ==> g[i].kind == kind
    ensures kept == Filter(OfKind(k), g)
    ensures kept == if kind == k then g else []
  {
    if kind == k {
      FilterAll(OfKind(k), g);
    } else {
      FilterNone(OfKind(k), g);
    }
    kept := Filter(OfKind(k), g);
  }
}

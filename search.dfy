/** `performSearch`: normalising the query, classifying it by the fixed keyword tables,
    and filtering the collection. */
module SearchEngine {
  import opened Wrappers
  import opened Text
  import opened Seqs
  import opened Catalog
  import opened Display

  const BeachKeywords: seq<string> :=
    ["beach", "beaches", "seaside", "coast", "coastal", "shore", "island", "islands"]

  const TempleKeywords: seq<string> :=
    ["temple", "temples", "monument", "monuments", "shrine", "shrines", "historic", "heritage",
     "archaeological"]

  /** One entry of the country table: the key reported as the matched country, and the
      words that select it. */
  datatype CountryAliases = CountryAliases(key: string, aliases: seq<string>)

  /** The country table, in its iteration order. */
  const CountryKeywords: seq<CountryAliases> := [
    CountryAliases("australia", ["australia", "aussie", "australian"]),
    CountryAliases("japan", ["japan", "japanese"]),
    CountryAliases("brazil", ["brazil", "brazilian"]),
    CountryAliases("cambodia", ["cambodia", "cambodian", "angkor"]),
    CountryAliases("india", ["india", "indian"]),
    CountryAliases("french polynesia", ["polynesia", "french polynesia", "bora bora", "borabora"])
  ]

  datatype SearchError = EmptyQuery

  /** `searchInput.value.trim().toLowerCase()` */
  function Normalize(raw: string): string {
    ToLower(Trim(raw))
  }

  /** `keywords.some(keyword => query.includes(keyword))` */
  function MentionsAny(query: string, keywords: seq<string>): bool
    decreases |keywords|
  {
    |keywords| > 0 && (Contains(query, keywords[0]) || MentionsAny(query, keywords[1..]))
  }

  lemma {:induction false} MentionsAnyIff(query: string, keywords: seq<string>)
    ensures MentionsAny(query, keywords) <==>
      exists i :: 0 <= i < |keywords| && Contains(query, keywords[i])
    decreases |keywords|
  {
    if |keywords| > 0 {
      MentionsAnyIff(query, keywords[1..]);
      assert forall i :: 1 <= i < |keywords| ==> keywords[1..][i - 1] == keywords[i];
    }
  }

  /** The key of the first table entry with an alias in the query. */
  function FirstCountry(table: seq<CountryAliases>, query: string): Option<string>
    decreases |table|
  {
    if |table| == 0 then None
    else if MentionsAny(query, table[0].aliases) then Some(table[0].key)
    else FirstCountry(table[1..], query)
  }

  /** `FirstCountry` is the first match in table order: none at all when no entry has an
      alias in the query, otherwise the key of an entry that matches while no earlier entry
      does. */
  lemma {:induction false} FirstCountryIsFirstMatch(table: seq<CountryAliases>, query: string)
    ensures FirstCountry(table, query).None? <==>
      forall i :: 0 <= i < |table| ==> !MentionsAny(query, table[i].aliases)
    ensures FirstCountry(table, query).Some? ==>
      exists i :: 0 <= i < |table| && table[i].key == FirstCountry(table, query).value &&
        MentionsAny(query, table[i].aliases) &&
        forall j :: 0 <= j < i ==> !MentionsAny(query, table[j].aliases)
    decreases |table|
  {
    if |table| > 0 && !MentionsAny(query, table[0].aliases) {
      var rest := table[1..];
      FirstCountryIsFirstMatch(rest, query);
      assert forall i :: 1 <= i < |table| ==> rest[i - 1] == table[i];
      if FirstCountry(rest, query).Some? {
        var i :| 0 <= i < |rest| && rest[i].key == FirstCountry(rest, query).value &&
          MentionsAny(query, rest[i].aliases) &&
          forall j :: 0 <= j < i ==> !MentionsAny(query, rest[j].aliases);
        assert table[i + 1] == rest[i];
        assert forall j :: 1 <= j < i + 1 ==> table[j] == rest[j - 1];
      }
    }
  }

  /** The `for (let country in countryKeywords)` loop that stops at the first match. */
  method MatchCountry(query: string) returns (matched: Option<string>)
    ensures matched == FirstCountry(CountryKeywords, query)
  {
    matched := None;
    var i := 0;
    while i < |CountryKeywords|
      invariant 0 <= i <= |CountryKeywords|
      invariant FirstCountry(CountryKeywords, query) == FirstCountry(CountryKeywords[i..], query)
    {
      assert CountryKeywords[i..][1..] == CountryKeywords[i + 1..];
      if MentionsAny(query, CountryKeywords[i].aliases) {
        matched := Some(CountryKeywords[i].key);
        break;
      }
      i := i + 1;
    }
  }

  /** The three facts derived from the query before filtering. */
  datatype Classification = Classification(
    isBeachSearch: bool,
    isTempleSearch: bool,
    matchedCountry: Option<string>)

  function Classify(query: string): Classification {
    Classification(
      MentionsAny(query, BeachKeywords),
      MentionsAny(query, TempleKeywords),
      FirstCountry(CountryKeywords, query))
  }

  predicate BeachRule(c: Classification, d: Destination) {
    c.isBeachSearch && d.kind == Beach
  }

  predicate TempleRule(c: Classification, d: Destination) {
    c.isTempleSearch && d.kind == Temple
  }

  predicate CountryRule(c: Classification, d: Destination) {
    c.matchedCountry.Some? && d.country.Some? && ToLower(d.country.value) == c.matchedCountry.value
  }

  /** The query occurs in the lowercased name, description or country. */
  predicate TextRule(query: string, d: Destination) {
    Contains(ToLower(d.name), query) || Contains(ToLower(d.description), query) ||
    (d.country.Some? && Contains(ToLower(d.country.value), query))
  }

  /** The `filter` callback: the four checks in the order the source makes them. */
  predicate Keeps(c: Classification, query: string, d: Destination) {
    if BeachRule(c, d) then true
    else if TempleRule(c, d) then true
    else if CountryRule(c, d) then true
    else TextRule(query, d)
  }

  function Keeper(c: Classification, query: string): Destination -> bool {
    (d: Destination) => Keeps(c, query, d)
  }

  /** The filtered list for a normalised query. */
  function Matches(query: string, collection: seq<Destination>): seq<Destination> {
    Filter(Keeper(Classify(query), query), collection)
  }

  /** The whole search: a blank query is rejected; otherwise the page for the filtered
      list. */
  function Search(raw: string, collection: seq<Destination>): Result<Page, SearchError> {
    var query := Normalize(raw);
    if query == [] then Failure(EmptyQuery)
    else Success(DisplayPage(Matches(query, collection), query))
  }

  /** The flags hold exactly when some keyword of their table occurs in the query. */
  lemma ClassifyFlags(query: string)
    ensures Classify(query).isBeachSearch <==>
      exists i :: 0 <= i < |BeachKeywords| && Contains(query, BeachKeywords[i])
    ensures Classify(query).isTempleSearch <==>
      exists i :: 0 <= i < |TempleKeywords| && Contains(query, TempleKeywords[i])
  {
    MentionsAnyIff(query, BeachKeywords);
    MentionsAnyIff(query, TempleKeywords);
  }

  /** A record is kept exactly when one of the four rules holds, however many do; the
      filtered list keeps the kept positions of the collection in order, each once, so it
      is an order-preserving subsequence and holds each record as often as the collection
      does if it passes, and not at all otherwise. */
  lemma MatchesSpec(query: string, collection: seq<Destination>)
    ensures var c, r := Classify(query), Matches(query, collection);
      var pos := Positions(Keeper(c, query), collection);
      (forall d :: d in r <==> (d in collection &&
         (BeachRule(c, d) || TempleRule(c, d) || CountryRule(c, d) || TextRule(query, d)))) &&
      |pos| == |r| &&
      (forall k :: 0 <= k < |pos| ==> 0 <= pos[k] < |collection| && r[k] == collection[pos[k]]) &&
      (forall k1, k2 :: 0 <= k1 < k2 < |pos| ==> pos[k1] < pos[k2]) &&
      (forall i :: 0 <= i < |collection| ==>
         (i in pos <==> Keeps(c, query, collection[i]))) &&
      (forall d :: multiset(r)[d] ==
         if Keeps(c, query, d) then multiset(collection)[d] else 0)
  {
    var c := Classify(query);
    var keep := Keeper(c, query);
    FilterAtPositions(keep, collection);
    forall d ensures multiset(Matches(query, collection))[d] ==
      if Keeps(c, query, d) then multiset(collection)[d] else 0
    {
      FilterCount(keep, collection, d);
    }
  }

  /** The normalised query has no surrounding whitespace and no upper-case letter. */
  lemma NormalizeShape(raw: string)
    ensures var q := Normalize(raw);
      ToLower(q) == q && (q == [] || (!IsSpace(q[0]) && !IsSpace(q[|q| - 1])))
  {
    var t := Trim(raw);
    TrimIsMiddle(raw);
    ToLowerIdempotent(t);
    if t != [] {
      LowerCharKeepsSpace(t[0]);
      LowerCharKeepsSpace(t[|t| - 1]);
    }
  }

  /** Only the normalised query matters: a raw query that differs from another only in the
      case of its letters and in whitespace around it gets the same outcome, for instance
      "JAPAN" and " japan ". */
  lemma NormalizeIgnoresCaseAndPadding(raw: string, other: string, p1: string, p2: string)
    requires ToLower(raw) == ToLower(other) && AllSpace(p1) && AllSpace(p2)
    ensures Normalize(p1 + raw + p2) == Normalize(other)
    ensures forall collection :: Search(p1 + raw + p2, collection) == Search(other, collection)
  {
    TrimPadded(p1, raw, p2);
    TrimToLower(raw);
    TrimToLower(other);
  }

  /** A blank query, and only a blank query, is rejected. */
  lemma SearchRejectsBlank(raw: string, collection: seq<Destination>)
    ensures Search(raw, collection).Failure? <==> AllSpace(raw)
  {
    TrimIsMiddle(raw);
    if AllSpace(raw) {
      TrimPadded(raw, [], []);
      assert raw + [] + [] == raw;
    }
  }

  /** Searching before the catalog has loaded is not an error: it finds nothing. */
  lemma SearchEmptyCollection(raw: string)
    ensures Search(raw, []).Success? ==> Search(raw, []).value == NoResults(Normalize(raw))
  {
  }

  /** On a loaded catalog every match has a standard type, so a non-empty result list always
      fills some bucket and the fallback is never used: the page shows the buckets in the
      order beach, temple, city. */
  lemma CatalogSearchNeverFallsBack(raw: string, doc: Document)
    ensures var query := Normalize(raw); var results := Matches(query, Flatten(doc));
      Fallback(results) == [] &&
      (Search(raw, Flatten(doc)).Success? && |results| > 0 ==>
        Search(raw, Flatten(doc)).value.cards ==
          Bucket(results, Beach) + Bucket(results, Temple) + Bucket(results, City))
  {
    var query := Normalize(raw);
    var results := Matches(query, Flatten(doc));
    MatchesOfCatalogStandard(query, doc);
    StandardResultsFillBuckets(results);
  }

  lemma MatchesOfCatalogStandard(query: string, doc: Document)
    ensures var results := Matches(query, Flatten(doc));
      forall i :: 0 <= i < |results| ==> IsStandard(results[i])
  {
    var results := Matches(query, Flatten(doc));
    FlattenKinds(doc);
    FilterMembers(Keeper(Classify(query), query), Flatten(doc));
    forall i | 0 <= i < |results| ensures IsStandard(results[i]) {
      assert results[i] in results;
    }
  }
}

# Travel recommendation search, modelled in Dafny

The travel recommendation page loads a catalog document of countries with their cities,
temples and beaches. It flattens the catalog into one page-wide list of destination
records, `allRecommendations`. A search box then filters that list. The search works in
four steps:

- It trims and lowercases the query.
- It classifies the query against three fixed keyword tables: beach words, temple words,
  and country aliases.
- It keeps every record that passes one of four rules:
  - a beach record for a beach query;
  - a temple record for a temple query;
  - a record whose country equals the matched country;
  - a record whose name, description or country contains the query.
- It shows up to two beaches, then up to two temples, then up to two cities, together with
  the full match count. When none of the three buckets has a record, it shows the first six
  matches instead.

The project models this core:

- `Catalog` holds the document and the destination records. `Catalog.Flatten` specifies
  the loader's success continuation (lines 21-62), built from `CityRecords` and
  `SiteRecords`.
- `TravelRecommendation.Store` is the page-wide collection as an object. Its `Load` method
  runs the loader's nested loops, and its `PerformSearch` method runs the search.
- `SearchEngine` holds the pieces of `performSearch` (lines 88-157) in functional form:
  - the keyword tables (lines 98-107);
  - `Normalize`, the trim and lowercase of line 90;
  - `MentionsAny`, the `some(... includes ...)` tests (lines 112-120);
  - `FirstCountry`, the first country in table order (lines 118-124), and `MatchCountry`,
    its loop with `break`;
  - `Classify`, the two flags and the matched country (lines 112-124);
  - `Keeps`, the filter callback's four checks in source order (lines 127-153), and
    `Matches`, the filtered list;
  - `Search`, the whole operation: blank-query rejection (lines 92-95), then the page for
    the matches.
- `Display` holds `displaySearchResults` (lines 160-227) in functional form:
  - `Bucket`, one type's first two results (lines 182-184);
  - `Fallback`, the first six results when all buckets are empty (lines 215-219);
  - `Cards`, the cards in append order (lines 193-219);
  - `DisplayPage`, the no-results page or the results page with the full count (lines
    171-189).
  `Render` builds the same page step by step.
- `Text` holds ASCII models of `trim` (`Trim`), `toLowerCase` (`ToLower`) and `includes`
  (`Contains`).
- `Seqs` holds `filter` (`Filter`) and `slice(0, n)` (`Take`) on sequences.
- `Wrappers` holds `Option` and `Result`.
- `Scenarios` holds worked searches over a one-city, one-temple catalog, and the bucket-cap
  example.

Absent and present values:

- An absent array in the document, and a country without `cities`, are `None`. They
  contribute no records.
- A record's `type` is `Kind`. The loader only produces `City`, `Temple` and `Beach`.
  `Other` stands for any other type string, so the six-record fallback can be stated.
- A blank query is the `EmptyQuery` error, where the page raises an alert.

The no-results page carries only the searched term, as the code does (lines 171-179). The
"Found N destination(s)" line appears only on a page with results, so the no-results page
shows no count.

## Model

| member | source | states |
|---|---|---|
| TravelRecommendation.Store.constructor | travel_recommendation.js:2 | the collection starts empty |
| TravelRecommendation.Store.Load | travel_recommendation.js:21-62 | after a load, the collection is exactly the flattening of the document: it is cleared first, then cities by country, then temples, then beaches |
| TravelRecommendation.Store.AppendCities | travel_recommendation.js:26-36 | the inner loop appends exactly the country's city records, in order, each with the country's name; a country without cities appends nothing |
| TravelRecommendation.Store.AppendSites | travel_recommendation.js:41-61 | the temple or beach loop appends one record per site, in order, of that type and without a country |
| TravelRecommendation.Store.PerformSearch | travel_recommendation.js:88-157 | the imperative search (trim, lowercase, blank check, flags, country loop, filter, render) gives exactly the `Search` outcome on the current collection |
| Catalog.CityRecords | travel_recommendation.js:24-38 | one city record per city across all countries |
| Catalog.Flatten | travel_recommendation.js:21-62 | the record count equals the number of cities plus the number of temples plus the number of beaches, with absent arrays counting zero |
| Catalog.CityRecordAt | travel_recommendation.js:25-35 | city j of country i sits at the number of cities before country i, plus j, and carries the city's fields and the country's name |
| Catalog.FlattenCityAt | travel_recommendation.js:24-38 | the same position law for the whole flattened document: cities keep country order and city order |
| Catalog.FlattenSites | travel_recommendation.js:40-62 | temple k comes right after all cities; beach k comes right after all temples; neither has a country |
| Catalog.CityRecordsKinds | travel_recommendation.js:28-34 | every city record is of type city and carries a country |
| Catalog.FlattenKinds | travel_recommendation.js:28-60 | every loaded record is a city, temple or beach, and it carries a country exactly when it is a city |
| Text.TrimStart | travel_recommendation.js:90 | leading whitespace is removed: the result is no longer than the input and does not start with whitespace |
| Text.TrimEnd | travel_recommendation.js:90 | trailing whitespace is removed: the result is no longer than the input and does not end with whitespace |
| Text.TrimStartIsSuffix | travel_recommendation.js:90 | what `TrimStart` removes is a prefix made only of whitespace |
| Text.TrimEndIsPrefix | travel_recommendation.js:90 | what `TrimEnd` removes is a suffix made only of whitespace |
| Text.TrimIsMiddle | travel_recommendation.js:90 | `trim` keeps one contiguous piece of the input that starts and ends with non-whitespace, with only whitespace on both sides of it |
| Text.LowerCharKeepsSpace | travel_recommendation.js:90 | lowercasing a character neither creates nor removes whitespace |
| Text.ToLowerIdempotent | travel_recommendation.js:90 | lowercasing twice is the same as lowercasing once |
| Text.TrimStartToLower | travel_recommendation.js:90 | removing leading whitespace commutes with lowercasing |
| Text.TrimEndToLower | travel_recommendation.js:90 | removing trailing whitespace commutes with lowercasing |
| Text.TrimToLower | travel_recommendation.js:90 | `trim` commutes with `toLowerCase` |
| Text.TrimStartPadded | travel_recommendation.js:90 | whitespace added in front does not change what `TrimStart` leaves |
| Text.TrimEndPadded | travel_recommendation.js:90 | whitespace added behind does not change what `TrimEnd` leaves |
| Text.TrimStartAllSpace | travel_recommendation.js:90 | `TrimStart` of an all-whitespace string is empty |
| Text.TrimStartAppend | travel_recommendation.js:90 | trailing whitespace survives `TrimStart` unless the whole string is whitespace |
| Text.TrimPadded | travel_recommendation.js:90 | `trim` ignores whitespace added at either end |
| Text.MissingCharNotContained | travel_recommendation.js:112 | `includes` fails when the piece has a character the string lacks |
| Text.LongerNotContained | travel_recommendation.js:112 | `includes` fails for a piece longer than the string |
| Text.ContainsSelf | travel_recommendation.js:128 | every string includes itself |
| Seqs.Filter | travel_recommendation.js:127 | `filter` never returns more elements than it is given |
| Seqs.Take | travel_recommendation.js:182 | `slice(0, n)` returns a prefix of length min(n, length) |
| Seqs.FilterAtPositions | travel_recommendation.js:127-153 | `filter` keeps exactly the positions whose element passes the callback, once each and in increasing order |
| Seqs.FilterMembers | travel_recommendation.js:127-153 | everything `filter` keeps is from the input and passes the callback |
| Seqs.FilterCount | travel_recommendation.js:127-153 | `filter` keeps every occurrence of a passing element and none of a failing one, so nothing is duplicated |
| Seqs.FilterConcat | travel_recommendation.js:182-184 | filtering a concatenation is concatenating the filtered parts |
| Seqs.FilterEmpty | travel_recommendation.js:182-184 | the filter is empty exactly when no element passes |
| Seqs.FilterAll | travel_recommendation.js:182-184 | when every element passes, the filter returns the input unchanged |
| Seqs.FilterNone | travel_recommendation.js:182-184 | when no element passes, the filter returns nothing |
| SearchEngine.MentionsAnyIff | travel_recommendation.js:112-115 | `some(keyword => query.includes(keyword))` holds exactly when some keyword of the table occurs in the query |
| SearchEngine.ClassifyFlags | travel_recommendation.js:97-115 | the beach flag holds exactly when a beach keyword occurs in the query, and the temple flag exactly when a temple keyword does |
| SearchEngine.FirstCountryIsFirstMatch | travel_recommendation.js:118-124 | no country is matched exactly when no alias of any entry occurs in the query; otherwise the matched key belongs to an entry with an alias in the query, and no earlier entry has one |
| SearchEngine.MatchCountry | travel_recommendation.js:118-124 | the loop with `break` returns the first table entry in order with an alias in the query, or nothing |
| SearchEngine.MatchesSpec | travel_recommendation.js:127-153 | a record is kept exactly when one of the beach, temple, country or text rules holds; the results are the kept records in collection order; each kept record appears as often as in the collection, and a record that satisfies several rules is not duplicated |
| SearchEngine.NormalizeShape | travel_recommendation.js:90 | the normalised query has no surrounding whitespace and no upper-case letter |
| SearchEngine.NormalizeIgnoresCaseAndPadding | travel_recommendation.js:90 | raw queries that differ only in letter case and surrounding whitespace give the same search outcome on every collection |
| SearchEngine.SearchRejectsBlank | travel_recommendation.js:90-95 | the search is rejected exactly when the raw query is all whitespace |
| SearchEngine.SearchEmptyCollection | travel_recommendation.js:171-179 | on an empty collection, every accepted query gives the no-results page for the normalised query |
| SearchEngine.MatchesOfCatalogStandard | travel_recommendation.js:127-153 | every match from a loaded catalog is a city, temple or beach |
| SearchEngine.CatalogSearchNeverFallsBack | travel_recommendation.js:214-219 | on a loaded catalog the six-record fallback is never used, and a page with results shows the beach, temple and city buckets in that order |
| Display.AppendCards | travel_recommendation.js:194-212 | a `forEach` over one group appends the group's cards in order after those already shown |
| Display.Render | travel_recommendation.js:160-227 | the step-by-step rendering (buckets, then the fallback when all three are empty) yields exactly the page `DisplayPage` describes |
| Display.BucketIsFirstOfKind | travel_recommendation.js:182-184 | a bucket is the first min(2, n) results of its type, in result order, all of that type |
| Display.BucketEmpty | travel_recommendation.js:182-184 | a bucket is empty exactly when no result has its type |
| Display.FallbackOnlyWithoutStandardKinds | travel_recommendation.js:214-219 | the fallback is used exactly when there are results but none is a beach, temple or city, and it then shows the first six results |
| Display.StandardResultsFillBuckets | travel_recommendation.js:181-219 | when every result is a standard type, there is no fallback and the cards are the three buckets |
| Display.PageShape | travel_recommendation.js:171-219 | the page carries the searched term; it is the no-results page exactly when nothing matched; otherwise it reports the full match count, shows at most six cards, and shows no card more often than it occurs among the results |
| Display.CardsGroupedByKind | travel_recommendation.js:181-212 | without the fallback, cards run beach, temple, city; filtering the cards by each type gives back that type's bucket; and their number is the sum of the capped bucket sizes |
| Scenarios.SampleFlattened | travel_recommendation.js:21-62 | the one-city, one-temple catalog loads as Kyoto (with country Japan) followed by Angkor Wat |
| Scenarios.ClassifyJapan | travel_recommendation.js:112-124 | "japan" is neither a beach nor a temple query and matches the country key japan |
| Scenarios.SearchJapan | travel_recommendation.js:88-219 | "japan" finds Kyoto by the country rule and nothing else: one match, one card |
| Scenarios.ClassifyTemple | travel_recommendation.js:112-124 | "temple" is a temple query, not a beach query, and matches no country |
| Scenarios.SearchTemple | travel_recommendation.js:88-219 | "temple" finds Kyoto by its description and Angkor Wat by its type; Angkor Wat's card comes first |
| Scenarios.ClassifyZanzibar | travel_recommendation.js:112-124 | "zanzibar" raises no flag and matches no country |
| Scenarios.SearchZanzibar | travel_recommendation.js:88-179 | a term found nowhere gives the no-results page carrying that term |
| Scenarios.BucketCaps | travel_recommendation.js:182-212 | five beach, three temple and one city match give five cards, split two beaches, two temples and one city, while the page still reports nine |

## Left out

- Fetching the catalog (lines 12-18): `fetch`, the `response.ok` check and JSON parsing are
  I/O. `Store.Load` takes the parsed document as a parameter.
- The failure branch of the fetch (lines 66-69) only logs and alerts. When the fetch, the
  status check or the JSON parsing fails (lines 12-18), the success continuation never runs
  and the collection keeps its previous value.
- A document that makes the success continuation throw is not modelled. Examples are a
  `null` document, a `null` country, or a `temples` field that is present but not an array.
  The same catch at line 66 handles these, but by then line 21 has already emptied the
  collection. It is left partly built: empty, or holding only the records pushed before the
  throw. This follows from malformed documents being outside the model.
- Two lines are not modelled: the empty initial `results` at line 109, which is overwritten
  at once, and the console log at line 64.
- DOM wiring is not modelled: the `DOMContentLoaded` handler, `setupSearchListeners`, and
  reading `searchInput.value` (lines 5-8, 73-85, 89). `PerformSearch`
  takes the raw input text as a parameter.
- HTML is not modelled: the markup, `createResultCard`, `encodeURIComponent`, the image
  fallback, the container creation and `scrollIntoView` (lines 162-169, 172-179, 186-191,
  221-248). The page is the term, the count and the ordered cards.
- `resetSearch` (lines 251-262) clears the input box and the results container. It is DOM
  only.
- The injected style sheet (lines 265-448) is presentation only.
- The alert text for a blank query is not modelled. The blank query is the `EmptyQuery`
  error.
- The no-results message text around the searched term is not modelled.
- Text.ToLower: only ASCII letters are lowercased. JavaScript's full Unicode case mapping is
  not modelled.
- Text.IsSpace: only the ASCII whitespace characters count. The Unicode spaces and line
  terminators that `trim` also strips are not modelled.
- Malformed documents are not modelled. The loader assumes that every entry has a name, a
  description and an image URL, and that every array that is present is an array.
- SearchEngine.CountryRule: JavaScript's truthiness test on a country name is modelled as
  "the country is present". The two differ only for an empty-string country. There, neither
  rule can fire in either version, since country keys are non-empty and the query is
  non-empty.
- The search is a function of the query and the collection, so searching twice with the
  same inputs gives the same outcome by construction. There is no separate idempotence
  lemma.
- Seqs.Filter: its own contract only bounds the length. The order, membership and counts it
  keeps are stated by `FilterAtPositions`, `FilterMembers` and `FilterCount`.

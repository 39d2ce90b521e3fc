/** The page-wide collection `allRecommendations`, kept in a store object that the loader
    fills and the search reads. */
module TravelRecommendation {
  import opened Wrappers
  import opened Text
  import opened Seqs
  import opened Catalog
  import opened Display
  import opened SearchEngine

  class Store {
    var recommendations: seq<Destination>

    /** Before the catalog arrives the collection is empty. */
    constructor ()
      ensures recommendations == []
    {
      recommendations := [];
    }

    /** The success continuation of `fetchTravelData`: clears the collection and appends
        the cities country by country, then the temples, then the beaches. */
    method Load(doc: Document)
      modifies this
      ensures recommendations == Flatten(doc)
    {
      recommendations := [];
      if doc.countries.Some? {
        var countries := doc.countries.value;
        var i := 0;
        while i < |countries|
          invariant 0 <= i <= |countries|
          invariant recommendations == CityRecords(countries[..i])
        {
          AppendCities(countries[i]);
          assert countries[..i + 1][..i] == countries[..i];
          i := i + 1;
        }
        assert countries[..i] == countries;
      }
      ghost var cityPart := recommendations;
      assert cityPart == CityRecords(OrEmpty(doc.countries));
      if doc.temples.Some? {
        AppendSites(Temple, doc.temples.value);
      }
      ghost var templePart := recommendations;
      assert templePart == cityPart + SiteRecords(Temple, OrEmpty(doc.temples));
      if doc.beaches.Some? {
        AppendSites(Beach, doc.beaches.value);
      }
      assert recommendations == templePart + SiteRecords(Beach, OrEmpty(doc.beaches));
    }

    /** The inner `forEach` over one country's cities, if it has any. */
    method AppendCities(country: Country)
      modifies this
      ensures recommendations == old(recommendations) + CitiesOf(country)
    {
      if country.cities.Some? {
        var cities := country.cities.value;
        var j := 0;
        while j < |cities|
          invariant 0 <= j <= |cities|
          invariant recommendations == old(recommendations) + CitiesOf(country)[..j]
        {
          var city := cities[j];
          recommendations := recommendations +
            [Destination(City, city.name, city.description, city.imageUrl, Some(country.name))];
          j := j + 1;
        }
        assert CitiesOf(country)[..j] == CitiesOf(country);
      }
    }

    /** The `forEach` over the temples or the beaches: records of that type, without a
        country. */
    method AppendSites(kind: Kind, sites: seq<Entry>)
      modifies this
      ensures recommendations == old(recommendations) + SiteRecords(kind, sites)
    {
      var k := 0;
      while k < |sites|
        invariant 0 <= k <= |sites|
        invariant recommendations == old(recommendations) + SiteRecords(kind, sites)[..k]
      {
        var site := sites[k];
        recommendations := recommendations +
          [Destination(kind, site.name, site.description, site.imageUrl, None)];
        k := k + 1;
      }
      assert SiteRecords(kind, sites)[..k] == SiteRecords(kind, sites);
    }

    /** `performSearch` on the raw input text: rejects a blank query, classifies the
        normalised query, filters the collection and renders the page. */
    method PerformSearch(raw: string) returns (r: Result<Page, SearchError>)
      ensures r == Search(raw, recommendations)
    {
      var query := ToLower(Trim(raw));
      if query == [] {
        return Failure(EmptyQuery);
      }
      var isBeachSearch := MentionsAny(query, BeachKeywords);
      var isTempleSearch := MentionsAny(query, TempleKeywords);
      var matchedCountry := MatchCountry(query);
      var c := Classification(isBeachSearch, isTempleSearch, matchedCountry);
      var results := Filter(Keeper(c, query), recommendations);
      var page := Render(results, query);
      r := Success(page);
    }
  }
}

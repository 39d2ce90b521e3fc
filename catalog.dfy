/** The catalog document and its flattening into one list of destination records
    (the success continuation of `fetchTravelData`). */
module Catalog {
  import opened Wrappers

  /** The `type` of a record. The loader only produces the first three; `Other` stands for
      any other type string a record could carry. */
  datatype Kind = City | Temple | Beach | Other(tag: string)

  /** One flattened record `{type, name, description, imageUrl, country?}`. */
  datatype Destination = Destination(
    kind: Kind,
    name: string,
    description: string,
    imageUrl: string,
    country: Option<string>)

  /** A city, temple or beach entry of the document. */
  datatype Entry = Entry(name: string, description: string, imageUrl: string)

  datatype Country = Country(name: string, cities: Option<seq<Entry>>)

  /** The parsed document; every top-level field may be absent. */
  datatype Document = Document(
    countries: Option<seq<Country>>,
    temples: Option<seq<Entry>>,
    beaches: Option<seq<Entry>>)

  /** An absent array reads as an empty one. */
  function OrEmpty<T>(o: Option<seq<T>>): seq<T> {
    if o.Some? then o.value else []
  }

  function CityRecord(country: Country, city: Entry): Destination {
    Destination(City, city.name, city.description, city.imageUrl, Some(country.name))
  }

  /** A temple or beach record: no country field. */
  function SiteRecord(kind: Kind, site: Entry): Destination {
    Destination(kind, site.name, site.description, site.imageUrl, None)
  }

  function CitiesOf(country: Country): seq<Destination> {
    var cities := OrEmpty(country.cities);
    seq(|cities|, j requires 0 <= j < |cities| => CityRecord(country, cities[j]))
  }

  /** The number of cities over all countries. */
  function CityCount(countries: seq<Country>): nat
    decreases |countries|
  {
    if |countries| == 0 then 0
    else CityCount(countries[..|countries| - 1]) + |OrEmpty(countries[|countries| - 1].cities)|
  }

  /** The city records of the countries, country by country: one per city. */
  function CityRecords(countries: seq<Country>): (r: seq<Destination>)
    ensures |r| == CityCount(countries)
    decreases |countries|
  {
    if |countries| == 0 then []
    else CityRecords(countries[..|countries| - 1]) + CitiesOf(countries[|countries| - 1])
  }

  function SiteRecords(kind: Kind, sites: seq<Entry>): seq<Destination> {
    seq(|sites|, k requires 0 <= k < |sites| => SiteRecord(kind, sites[k]))
  }

  /** What the loader leaves in the collection: the cities, then the temples, then the
      beaches; one record per city, per temple and per beach, and an absent array
      contributes nothing. */
  function Flatten(doc: Document): (r: seq<Destination>)
    ensures |r| ==
      CityCount(OrEmpty(doc.countries)) + |OrEmpty(doc.temples)| + |OrEmpty(doc.beaches)|
  {
    CityRecords(OrEmpty(doc.countries))
      + SiteRecords(Temple, OrEmpty(doc.temples))
      + SiteRecords(Beach, OrEmpty(doc.beaches))
  }

  /** City `j` of country `i` sits right after the cities of the countries before `i`, and
      carries the city's fields and the country's name. */
  lemma {:induction false} CityRecordAt(countries: seq<Country>, i: int, j: int)
    requires 0 <= i < |countries| && 0 <= j < |OrEmpty(countries[i].cities)|
    ensures CityCount(countries[..i]) + j < CityCount(countries)
    ensures CityRecords(countries)[CityCount(countries[..i]) + j]
         == CityRecord(countries[i], OrEmpty(countries[i].cities)[j])
    decreases |countries|
  {
    var n := |countries| - 1;
    var init := countries[..n];
    if i == n {
      assert countries[..i] == init;
    } else {
      assert init[..i] == countries[..i];
      CityRecordAt(init, i, j);
    }
  }

  /** City `j` of country `i` lands right after the cities of the countries before `i`,
      with the city's fields and the country's name. */
  lemma FlattenCityAt(doc: Document, i: int, j: int)
    requires 0 <= i < |OrEmpty(doc.countries)|
    requires 0 <= j < |OrEmpty(OrEmpty(doc.countries)[i].cities)|
    ensures var countries := OrEmpty(doc.countries);
      var at := CityCount(countries[..i]) + j;
      at < CityCount(countries) &&
      Flatten(doc)[at] == CityRecord(countries[i], OrEmpty(countries[i].cities)[j])
  {
    CityRecordAt(OrEmpty(doc.countries), i, j);
  }

  /** Temple `k` lands after all the cities, beach `k` after all the temples, each without
      a country. */
  lemma FlattenSites(doc: Document)
    ensures var c, temples, beaches :=
      CityCount(OrEmpty(doc.countries)), OrEmpty(doc.temples), OrEmpty(doc.beaches);
      (forall k :: 0 <= k < |temples| ==> Flatten(doc)[c + k] == SiteRecord(Temple, temples[k])) &&
      (forall k :: 0 <= k < |beaches| ==>
         Flatten(doc)[c + |temples| + k] == SiteRecord(Beach, beaches[k]))
  {
  }

  /** Every flattened record is a city, a temple or a beach, and exactly the city records
      carry a country. */
  lemma {:induction false} CityRecordsKinds(countries: seq<Country>)
    ensures forall d :: d in CityRecords(countries) ==> d.kind == City && d.country.Some?
    decreases |countries|
  {
    if |countries| > 0 {
      CityRecordsKinds(countries[..|countries| - 1]);
    }
  }

  predicate IsStandard(d: Destination) {
    d.kind == City || d.kind == Temple || d.kind == Beach
  }

  lemma FlattenKinds(doc: Document)
    ensures forall d :: d in Flatten(doc) ==>
      IsStandard(d) && (d.kind == City <==> d.country.Some?)
  {
    CityRecordsKinds(OrEmpty(doc.countries));
  }
}

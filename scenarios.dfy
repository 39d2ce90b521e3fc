/** Worked searches over a small catalog with one Japanese city and one temple. */
module Scenarios {
  import opened Wrappers
  import opened Text
  import opened Seqs
  import opened Catalog
  import opened Display
  import opened SearchEngine

  const Kyoto := Entry("Kyoto", "temples and gardens", "k.jpg")
  const AngkorWat := Entry("Angkor Wat", "ancient temple", "a.jpg")
  const Sample := Document(
    Some([Country("Japan", Some([Kyoto]))]),
    Some([AngkorWat]),
    Some([]))

  const KyotoRecord := Destination(City, "Kyoto", "temples and gardens", "k.jpg", Some("Japan"))
  const AngkorRecord := Destination(Temple, "Angkor Wat", "ancient temple", "a.jpg", None)

  lemma SampleFlattened()
    ensures Flatten(Sample) == [KyotoRecord, AngkorRecord]
  {
    var countries := OrEmpty(Sample.countries);
    assert countries[..0] == [];
    assert CityRecords(countries) == CitiesOf(countries[0]);
  }

  lemma ToLowerWithoutUpper(s: string)
    requires forall i :: 0 <= i < |s| ==> !('A' <= s[i] <= 'Z')
    ensures ToLower(s) == s
  {
  }

  /** A keyword longer than the query, or starting with a letter the query lacks, does not
      occur in it. */
  lemma PlainlyAbsent(query: string, keywords: seq<string>)
    requires forall i :: 0 <= i < |keywords| ==>
      |keywords[i]| > |query| || (keywords[i] != [] && keywords[i][0] !in query)
    ensures !MentionsAny(query, keywords)
  {
    forall i | 0 <= i < |keywords| ensures !Contains(query, keywords[i]) {
      if |keywords[i]| > |query| {
        LongerNotContained(query, keywords[i]);
      } else {
        MissingCharNotContained(query, keywords[i], keywords[i][0]);
      }
    }
    NoneMentioned(query, keywords);
  }

  lemma NoneMentioned(query: string, keywords: seq<string>)
    requires forall i :: 0 <= i < |keywords| ==> !Contains(query, keywords[i])
    ensures !MentionsAny(query, keywords)
  {
    MentionsAnyIff(query, keywords);
  }

  lemma JapanNotBeach()
    ensures !MentionsAny("japan", BeachKeywords)
  {
    var q := "japan";
    forall i | 0 <= i < |BeachKeywords| ensures !Contains(q, BeachKeywords[i]) {
      var k := BeachKeywords[i];
      if i == 0 || i == 3 || i == 5 {
        MissingCharNotContained(q, k, k[0]);
      } else {
        LongerNotContained(q, k);
      }
    }
    NoneMentioned(q, BeachKeywords);
  }

  lemma JapanNotTemple()
    ensures !MentionsAny("japan", TempleKeywords)
  {
    forall i | 0 <= i < |TempleKeywords| ensures !Contains("japan", TempleKeywords[i]) {
      LongerNotContained("japan", TempleKeywords[i]);
    }
    NoneMentioned("japan", TempleKeywords);
  }

  lemma JapanCountry()
    ensures FirstCountry(CountryKeywords, "japan") == Some("japan")
  {
    var q := "japan";
    var australia := CountryKeywords[0].aliases;
    forall i | 0 <= i < |australia| ensures !Contains(q, australia[i]) {
      LongerNotContained(q, australia[i]);
    }
    NoneMentioned(q, australia);
    var rest := CountryKeywords[1..];
    ContainsSelf(q);
    assert rest[0].aliases[0] == q;
    assert MentionsAny(q, rest[0].aliases);
    assert FirstCountry(rest, q) == Some("japan");
  }

  lemma ClassifyJapan()
    ensures Classify("japan") == Classification(false, false, Some("japan"))
  {
    JapanNotBeach();
    JapanNotTemple();
    JapanCountry();
  }

  /** Kyoto's country is Japan, so it passes the country rule for "japan". */
  lemma KyotoByCountry(c: Classification, query: string)
    requires c.matchedCountry == Some("japan")
    ensures Keeps(c, query, KyotoRecord)
  {
    assert ToLower("Japan") == "japan";
  }

  lemma AngkorText()
    ensures ToLower(AngkorRecord.name) == "angkor wat"
    ensures ToLower(AngkorRecord.description) == "ancient temple"
  {
    ToLowerWithoutUpper("ancient temple");
  }

  /** Angkor Wat has no country and its text lacks a 'j', so only a temple search finds
      it for "japan". */
  lemma AngkorNotForJapan(c: Classification)
    requires !c.isTempleSearch
    ensures !Keeps(c, "japan", AngkorRecord)
  {
    AngkorText();
    MissingCharNotContained("angkor wat", "japan", 'j');
    MissingCharNotContained("ancient temple", "japan", 'j');
  }

  /** A page that shows one city record. */
  lemma SingleCityPage(d: Destination, query: string)
    requires d.kind == City
    ensures DisplayPage([d], query) == Results(query, 1, [d])
  {
    assert [d][..0] == [];
    assert Filter(OfKind(City), [d]) == [d];
    assert Filter(OfKind(Beach), [d]) == [];
    assert Filter(OfKind(Temple), [d]) == [];
  }

  lemma FilterPair<T>(p: T -> bool, a: T, b: T)
    ensures Filter(p, [a, b]) == (if p(a) then [a] else []) + (if p(b) then [b] else [])
  {
    assert [a, b][..1] == [a];
    assert [a][..0] == [];
  }

  lemma NormalizedWord(w: string)
    requires w != [] && forall i :: 0 <= i < |w| ==> 'a' <= w[i] <= 'z'
    ensures Normalize(w) == w
  {
    assert !IsSpace(w[0]) && !IsSpace(w[|w| - 1]);
    assert Trim(w) == w;
    ToLowerWithoutUpper(w);
  }

  lemma JapanMatches()
    ensures Matches("japan", Flatten(Sample)) == [KyotoRecord]
  {
    SampleFlattened();
    ClassifyJapan();
    KyotoByCountry(Classify("japan"), "japan");
    AngkorNotForJapan(Classify("japan"));
    FilterPair(Keeper(Classify("japan"), "japan"), KyotoRecord, AngkorRecord);
  }

  /** "japan" finds the Japanese city through the country rule and nothing else. */
  lemma SearchJapan()
    ensures Search("japan", Flatten(Sample)) == Success(Results("japan", 1, [KyotoRecord]))
  {
    NormalizedWord("japan");
    JapanMatches();
    SingleCityPage(KyotoRecord, "japan");
  }

  lemma TempleNoCountry()
    ensures FirstCountry(CountryKeywords, "temple") == None
  {
    forall i | 0 <= i < |CountryKeywords|
      ensures !MentionsAny("temple", CountryKeywords[i].aliases)
    {
      PlainlyAbsent("temple", CountryKeywords[i].aliases);
    }
    FirstCountryIsFirstMatch(CountryKeywords, "temple");
  }

  lemma TempleNotBeach()
    ensures !MentionsAny("temple", BeachKeywords)
  {
    PlainlyAbsent("temple", BeachKeywords);
  }

  lemma ClassifyTemple()
    ensures Classify("temple") == Classification(false, true, None)
  {
    TempleNotBeach();
    ContainsSelf("temple");
    assert Contains("temple", TempleKeywords[0]);
    TempleNoCountry();
  }

  /** Kyoto's description starts with "temples", so a "temple" search finds it by text. */
  lemma KyotoByText(c: Classification)
    ensures Keeps(c, "temple", KyotoRecord)
  {
    ToLowerWithoutUpper("temples and gardens");
    assert OccursAt("temples and gardens", "temple", 0);
  }

  lemma TempleMatches()
    ensures Matches("temple", Flatten(Sample)) == [KyotoRecord, AngkorRecord]
  {
    SampleFlattened();
    ClassifyTemple();
    KyotoByText(Classify("temple"));
    FilterPair(Keeper(Classify("temple"), "temple"), KyotoRecord, AngkorRecord);
  }

  /** A city followed by a temple is shown temple first. */
  lemma CityTemplePage(city: Destination, temple: Destination, query: string)
    requires city.kind == City && temple.kind == Temple
    ensures DisplayPage([city, temple], query) == Results(query, 2, [temple, city])
  {
    FilterPair(OfKind(Beach), city, temple);
    FilterPair(OfKind(Temple), city, temple);
    FilterPair(OfKind(City), city, temple);
  }

  /** "temple" finds the city by its description and the temple by its type; the temple
      bucket is shown before the city bucket although the city comes first in the
      catalog. */
  lemma SearchTemple()
    ensures Search("temple", Flatten(Sample))
         == Success(Results("temple", 2, [AngkorRecord, KyotoRecord]))
  {
    NormalizedWord("temple");
    TempleMatches();
    CityTemplePage(KyotoRecord, AngkorRecord, "temple");
  }

  /** Like `PlainlyAbsent`, with the missing character of each keyword given. */
  lemma AbsentBy(query: string, keywords: seq<string>, marks: string)
    requires |marks| == |keywords|
    requires forall i :: 0 <= i < |keywords| ==> marks[i] in keywords[i] && marks[i] !in query
    ensures !MentionsAny(query, keywords)
  {
    forall i | 0 <= i < |keywords| ensures !Contains(query, keywords[i]) {
      MissingCharNotContained(query, keywords[i], marks[i]);
    }
    NoneMentioned(query, keywords);
  }

  lemma ZanzibarNoAlias()
    ensures forall i :: 0 <= i < |CountryKeywords| ==>
      !MentionsAny("zanzibar", CountryKeywords[i].aliases)
  {
    var marks := ["uuu", "jj", "ll", "ccg", "dd", "pfoo"];
    forall i | 0 <= i < |CountryKeywords|
      ensures !MentionsAny("zanzibar", CountryKeywords[i].aliases)
    {
      AbsentBy("zanzibar", CountryKeywords[i].aliases, marks[i]);
    }
  }

  lemma ZanzibarNoCountry()
    ensures FirstCountry(CountryKeywords, "zanzibar") == None
  {
    ZanzibarNoAlias();
    FirstCountryIsFirstMatch(CountryKeywords, "zanzibar");
  }

  lemma ZanzibarNotBeach()
    ensures !MentionsAny("zanzibar", BeachKeywords)
  {
    AbsentBy("zanzibar", BeachKeywords, "eeecchll");
  }

  lemma ZanzibarNotTemple()
    ensures !MentionsAny("zanzibar", TempleKeywords)
  {
    AbsentBy("zanzibar", TempleKeywords, "ttmmsshhc");
  }

  lemma ClassifyZanzibar()
    ensures Classify("zanzibar") == Classification(false, false, None)
  {
    ZanzibarNotBeach();
    ZanzibarNotTemple();
    ZanzibarNoCountry();
  }

  /** No keyword and no text of Kyoto mentions the search term. */
  lemma KyotoNotForZanzibar(c: Classification)
    requires c.matchedCountry == None
    ensures !Keeps(c, "zanzibar", KyotoRecord)
  {
    MissingCharNotContained(ToLower("Kyoto"), "zanzibar", 'z');
    MissingCharNotContained(ToLower("temples and gardens"), "zanzibar", 'z');
    MissingCharNotContained(ToLower("Japan"), "zanzibar", 'z');
  }

  /** Nor of Angkor Wat. */
  lemma AngkorNotForZanzibar(c: Classification)
    requires !c.isTempleSearch
    ensures !Keeps(c, "zanzibar", AngkorRecord)
  {
    MissingCharNotContained(ToLower("Angkor Wat"), "zanzibar", 'z');
    MissingCharNotContained(ToLower("ancient temple"), "zanzibar", 'z');
  }

  /** A term that matches nothing gives the no-results page carrying the term. */
  lemma SearchZanzibar()
    ensures Search("zanzibar", Flatten(Sample)) == Success(NoResults("zanzibar"))
  {
    NormalizedWord("zanzibar");
    SampleFlattened();
    ClassifyZanzibar();
    KyotoNotForZanzibar(Classify("zanzibar"));
    AngkorNotForZanzibar(Classify("zanzibar"));
    FilterPair(Keeper(Classify("zanzibar"), "zanzibar"), KyotoRecord, AngkorRecord);
  }

  /** Five beach, three temple and one city match give five cards (two, two and one) while
      the page still reports nine. */
  lemma BucketCaps(results: seq<Destination>, query: string)
    requires |results| == 9
    requires |Filter(OfKind(Beach), results)| == 5
    requires |Filter(OfKind(Temple), results)| == 3
    requires |Filter(OfKind(City), results)| == 1
    ensures DisplayPage(results, query).total == 9
    ensures |DisplayPage(results, query).cards| == 5
    ensures var cards := DisplayPage(results, query).cards;
      |Filter(OfKind(Beach), cards)| == 2 && |Filter(OfKind(Temple), cards)| == 2 &&
      |Filter(OfKind(City), cards)| == 1
  {
    BucketIsFirstOfKind(results, Beach);
    BucketIsFirstOfKind(results, Temple);
    BucketIsFirstOfKind(results, City);
    FallbackOnlyWithoutStandardKinds(results);
    CardsGroupedByKind(results);
  }
}

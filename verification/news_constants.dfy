/** The static reference tables of the application (categories, countries, the
    per-country language and curated source lists, category icons) and the
    lookups the headline fallback uses. */
module NewsConstants {
  import opened Wrappers
  import opened Text

  /** The upstream's limit on the number of sources in one request. */
  const MaxSources: nat := 20
  const DefaultLanguage: string := "en"
  const DefaultIcon: string := "fa-newspaper"

  const Categories: seq<string> :=
    ["general", "business", "entertainment", "health", "science", "sports", "technology"]

  /** Country code and display name, in menu order. */
  const Countries: seq<(string, string)> := [
    ("us", "United States"), ("gb", "United Kingdom"), ("au", "Australia"),
    ("ca", "Canada"), ("in", "India"), ("de", "Germany"), ("fr", "France"),
    ("it", "Italy"), ("jp", "Japan"), ("br", "Brazil"), ("mx", "Mexico"),
    ("za", "South Africa"), ("ae", "UAE"), ("sg", "Singapore"), ("nz", "New Zealand")
  ]

  const CategoryIcons: map<string, string> := map[
    "general" := "fa-newspaper", "business" := "fa-briefcase",
    "entertainment" := "fa-film", "health" := "fa-heart-pulse",
    "science" := "fa-flask", "sports" := "fa-trophy", "technology" := "fa-microchip"
  ]

  /** Dominant language per country code, for the keyword-search fallback. */
  const CountryLanguage: map<string, string> := map[
    "us" := "en", "gb" := "en", "au" := "en", "ca" := "en",
    "nz" := "en", "sg" := "en", "za" := "en",
    "in" := "en",
    "de" := "de", "at" := "de",
    "fr" := "fr",
    "it" := "it",
    "br" := "pt", "pt" := "pt",
    "mx" := "es", "ar" := "es",
    "jp" := "ja",
    "ae" := "ar", "sa" := "ar",
    "ru" := "ru",
    "cn" := "zh"
  ]

  /** Curated upstream source ids per country code. */
  const CountrySources: map<string, seq<string>> := map[
    "us" := ["associated-press", "reuters", "the-washington-post",
             "the-new-york-times", "cnn", "fox-news", "usa-today",
             "abc-news", "nbc-news", "cbs-news", "axios", "politico"],
    "gb" := ["bbc-news", "the-guardian-uk", "the-telegraph",
             "independent", "mirror", "the-sun", "sky-news",
             "the-times", "financial-times"],
    "au" := ["abc-news-au", "australian-financial-review",
             "news-com-au", "the-sydney-morning-herald"],
    "ca" := ["cbc-news", "financial-post", "the-globe-and-mail", "national-post"],
    "in" := ["the-times-of-india", "the-hindu", "india-today", "ndtv", "economic-times"],
    "de" := ["der-tagesspiegel", "die-zeit", "focus",
             "handelsblatt", "spiegel-online", "t3n", "wired-de"],
    "fr" := ["le-monde", "liberation", "les-echos"],
    "it" := ["ansa", "il-sole-24-ore", "la-repubblica"],
    "jp" := ["asahi-shimbun"],
    "br" := ["globo", "ig-news", "infodinero"],
    "mx" := ["la-jornada", "proceso"],
    "za" := ["news24", "the-citizen-za"],
    "ae" := ["the-national"],
    "sg" := ["channel-news-asia"],
    "nz" := ["news-com-au"]
  ]

  // ── Lookups ───────────────────────────────────────────────────────────────

  /** `GetCategoryIcon`: the icon of the lower-cased category, or the newspaper icon. */
  function GetCategoryIcon(category: string): (icon: string)
    ensures Lower(category) in CategoryIcons ==> icon == CategoryIcons[Lower(category)]
    ensures Lower(category) !in CategoryIcons ==> icon == DefaultIcon
  {
    if Lower(category) in CategoryIcons then CategoryIcons[Lower(category)] else DefaultIcon
  }

  /** `GetSourcesForCountry`: the comma-joined ids of at most the first 20 sources
      mapped to the lower-cased code, or null when the code is unmapped or its list
      is empty. */
  function GetSourcesForCountry(code: string): (r: Option<string>)
    ensures r.Some? <==> Lower(code) in CountrySources && |CountrySources[Lower(code)]| > 0
    ensures r.Some? ==> r.value == Join(",", Take(CountrySources[Lower(code)], MaxSources as int))
  {
    var key := Lower(code);
    if key in CountrySources && |CountrySources[key]| > 0
    then Some(Join(",", Take(CountrySources[key], MaxSources as int)))
    else None
  }

  /** `GetLanguageForCountry`: the language of the lower-cased code, English by default. */
  function GetLanguageForCountry(code: string): (lang: string)
    ensures Lower(code) in CountryLanguage ==> lang == CountryLanguage[Lower(code)]
    ensures Lower(code) !in CountryLanguage ==> lang == DefaultLanguage
  {
    if Lower(code) in CountryLanguage then CountryLanguage[Lower(code)] else DefaultLanguage
  }

  /** LINQ `FirstOrDefault(kv => kv.Key == code).Value` over a list of pairs: the
      value of the first pair with that key, null when there is none. */
  function FirstValue(table: seq<(string, string)>, code: string): Option<string> {
    if |table| == 0 then None
    else if table[0].0 == code then Some(table[0].1)
    else FirstValue(table[1..], code)
  }

  /** `FirstValue` answers null exactly when no pair has the key, and otherwise the
      value of a pair with the key that no earlier pair shares. */
  lemma {:induction false} FirstValueSpec(table: seq<(string, string)>, code: string)
    ensures FirstValue(table, code).None? <==> forall i :: 0 <= i < |table| ==> table[i].0 != code
    ensures FirstValue(table, code).Some? ==>
              exists i :: 0 <= i < |table| && table[i] == (code, FirstValue(table, code).value)
                          && forall j :: 0 <= j < i ==> table[j].0 != code
  {
    if |table| > 0 && table[0].0 != code {
      var rest := FirstValue(table[1..], code);
      FirstValueSpec(table[1..], code);
      if rest.Some? {
        var i :| 0 <= i < |table[1..]| && table[1..][i] == (code, rest.value)
                 && forall j :: 0 <= j < i ==> table[1..][j].0 != code;
        assert table[i + 1] == (code, rest.value);
      }
      assert forall i :: 1 <= i < |table| ==> table[i] == table[1..][i - 1];
    }
  }

  /** `FirstValue` finds the first pair with the key: given the position of the
      first match, the result is that pair's value. */
  lemma FirstValueFindsFirst(table: seq<(string, string)>, code: string, i: nat)
    requires i < |table| && table[i].0 == code
    requires forall j :: 0 <= j < i ==> table[j].0 != code
    ensures FirstValue(table, code) == Some(table[i].1)
  {
    var r := FirstValue(table, code);
    FirstValueSpec(table, code);
    var k :| 0 <= k < |table| && table[k] == (code, r.value)
             && forall j :: 0 <= j < k ==> table[j].0 != code;
    assert k == i;
  }

  /** The display name the headline fallback searches for: the listed name of the
      code (compared exactly), or the code itself. */
  function CountryName(code: string): string {
    FirstValue(Countries, code).GetOr(code)
  }

  // ── Facts about the lookups and the shipped tables ────────────────────────

  /** Every lookup ignores the letter case of its key. */
  lemma LookupsIgnoreCase(s: string)
    ensures GetCategoryIcon(s) == GetCategoryIcon(Lower(s))
    ensures GetSourcesForCountry(s) == GetSourcesForCountry(Lower(s))
    ensures GetLanguageForCountry(s) == GetLanguageForCountry(Lower(s))
  {
    LowerIdempotent(s);
  }

  /** A list of source ids that can be joined by commas and split back. */
  predicate IdsWellFormed(ids: seq<string>) {
    forall k :: 0 <= k < |ids| ==> |ids[k]| > 0 && ',' !in ids[k]
  }

  /** Every shipped source id is non-empty and free of commas. */
  lemma ShippedIdsWellFormed(code: string)
    requires code in CountrySources
    ensures IdsWellFormed(CountrySources[code])
  {
    if code == "us" {
      IdsWellFormedUs(code);
    } else if code == "gb" {
      IdsWellFormedGb(code);
    } else if code == "au" {
      IdsWellFormedAu(code);
    } else if code == "ca" {
      IdsWellFormedCa(code);
    } else if code == "in" || code == "de" {
      IdsWellFormedInDe(code);
    } else if code == "fr" || code == "it" || code == "jp" || code == "br" {
      IdsWellFormedFrItJpBr(code);
    } else {
      IdsWellFormedMxZaAeSgNz(code);
    }
  }

  // The shipped lists, checked a few at a time.

  lemma IdsWellFormedUs(code: string)
    requires code == "us"
    ensures IdsWellFormed(CountrySources[code])
  {
  }

  lemma IdsWellFormedGb(code: string)
    requires code == "gb"
    ensures IdsWellFormed(CountrySources[code])
  {
  }

  lemma IdsWellFormedAu(code: string)
    requires code == "au"
    ensures IdsWellFormed(CountrySources[code])
  {
  }

  lemma IdsWellFormedCa(code: string)
    requires code == "ca"
    ensures IdsWellFormed(CountrySources[code])
  {
  }

  lemma IdsWellFormedInDe(code: string)
    requires code == "in" || code == "de"
    ensures IdsWellFormed(CountrySources[code])
  {
  }

  lemma IdsWellFormedFrItJpBr(code: string)
    requires code == "fr" || code == "it" || code == "jp" || code == "br"
    ensures IdsWellFormed(CountrySources[code])
  {
  }

  lemma IdsWellFormedMxZaAeSgNz(code: string)
    requires code == "mx" || code == "za" || code == "ae" || code == "sg" || code == "nz"
    ensures IdsWellFormed(CountrySources[code])
  {
  }

  /** The source parameter carries exactly the capped id list: splitting it at the
      commas gives back the first 20 ids of the country's list. */
  lemma SourcesParameterDecodes(code: string)
    ensures GetSourcesForCountry(code).Some? ==>
              Tokens(GetSourcesForCountry(code).value, ',') == Take(CountrySources[Lower(code)], MaxSources as int)
  {
    if GetSourcesForCountry(code).Some? {
      var all := CountrySources[Lower(code)];
      var ids := Take(all, MaxSources as int);
      ShippedIdsWellFormed(Lower(code));
      assert IdsWellFormed(all);
      assert forall k :: 0 <= k < |ids| ==> ids[k] == all[k];
      TokensJoin(ids, ',');
    }
  }

  /** Every country of the menu has a curated source list and a language, so the
      second fallback tier is attempted for every listed country. */
  lemma ListedCountriesAreMapped()
    ensures forall i :: 0 <= i < |Countries| ==>
              Countries[i].0 in CountrySources && |CountrySources[Countries[i].0]| > 0
              && Countries[i].0 in CountryLanguage
              && Lower(Countries[i].0) == Countries[i].0
              && GetSourcesForCountry(Countries[i].0).Some?
  {
    forall i | 0 <= i < |Countries|
      ensures Countries[i].0 in CountrySources && |CountrySources[Countries[i].0]| > 0
      ensures Countries[i].0 in CountryLanguage
      ensures Lower(Countries[i].0) == Countries[i].0
      ensures GetSourcesForCountry(Countries[i].0).Some?
    {
      var c := Countries[i].0;
      assert |c| == 2 && 'a' <= c[0] <= 'z' && 'a' <= c[1] <= 'z';
      assert Lower(c) == c;
    }
  }

  /** No shipped source list is longer than the cap, so `Take(20)` never drops an id. */
  lemma ShippedListsWithinCap(code: string)
    ensures code in CountrySources ==> |CountrySources[code]| <= MaxSources
    ensures Lower(code) in CountrySources ==>
              Take(CountrySources[Lower(code)], MaxSources as int) == CountrySources[Lower(code)]
  {
  }

  /** Every category of the menu has its own icon; an unknown category gets the
      general one. */
  lemma CategoriesHaveIcons(category: string)
    ensures forall i :: 0 <= i < |Categories| ==> Categories[i] in CategoryIcons
    ensures Lower(category) !in CategoryIcons ==> GetCategoryIcon(category) == CategoryIcons["general"]
  {
  }

  /** A mapped country's source parameter is never empty, so the emptiness test
      before the second fallback tier only rejects unmapped codes. */
  lemma SourcesParameterNonEmpty(code: string)
    ensures GetSourcesForCountry(code).Some? ==> |GetSourcesForCountry(code).value| > 0
  {
    var key := Lower(code);
    if key in CountrySources && |CountrySources[key]| > 0 {
      ShippedListsWithinCap(code);
      var ids := CountrySources[key];
      assert |ids[0]| > 0;
      assert |Join(",", ids)| >= |ids[0]|;
    }
  }
}

/** Country-aware headlines: the three-tier fallback of `GetHeadlinesByCountryAsync`.
    Tier 1 asks for the country's top headlines and is trusted from three articles
    on; tier 2, attempted only for a country with a curated source list, asks for
    those sources' headlines and is trusted from one article on; tier 3 searches
    the category and the country's name in the country's language and is always
    accepted. Failures of tiers 1 and 2 fall through; a failure of tier 3 yields an
    empty page labelled "failed". Every tier has its own cache slot, and a hit on
    any slot ends the call. */
module CountryHeadlines {
  import opened Wrappers
  import opened Text
  import opened Dtos
  import opened ViewModels
  import opened Fetch
  import opened NewsService
  import NewsConstants

  /** Least filtered count at which tier 1 is accepted. */
  const Tier1Minimum: nat := 3
  /** Least filtered count at which tier 2 is accepted. */
  const Tier2Minimum: nat := 1
  const GeneralCategory: string := "general"
  /** The search word standing for the general category. */
  const GeneralKeyword: string := "news"
  const SearchSortBy: string := "publishedAt"

  /** What the call returns: the page, its total, whether it came from the cache
      and the label of the tier that produced it. */
  datatype Headlines = Headlines(articles: seq<Article>, total: int, fromCache: bool, strategy: Strategy)

  /** The upstream's outcome for each tier's request, should it be issued. */
  datatype Upstream = Upstream(
    tier1: Transport<NewsApiResponse>,
    tier2: Transport<NewsApiResponse>,
    tier3: Transport<NewsApiResponse>)

  /** The reference data the fallback consults for one country: the source
      parameter of tier 2 (null when the country has no curated list), and the
      language and display name of the tier 3 search. */
  datatype Directory = Directory(sources: Option<string>, language: string, name: string)

  /** The tier a strategy label belongs to; 0 for "failed", which no tier caches. */
  function TierOf(s: Strategy): nat {
    match s
    case TopHeadlinesTier => 1
    case SourcesTier => 2
    case SearchTier => 3
    case FailedTier => 0
  }

  /** The country as every tier uses it: lower-cased, then trimmed. The result is
      a slice of the lower-cased input with only white space around it. */
  function NormaliseCountry(country: string): (c: string)
    ensures |c| <= |country|
    ensures exists i, j :: 0 <= i <= j <= |country| && c == Lower(country)[i..j]
                           && IsBlank(Lower(country)[..i]) && IsBlank(Lower(country)[j..])
    ensures forall i :: 0 <= i < |c| ==> !('A' <= c[i] <= 'Z')
    ensures |c| > 0 ==> !IsWhiteSpace(c[0]) && !IsWhiteSpace(c[|c| - 1])
  {
    TrimLower(country);
    Trim(Lower(country))
  }

  /** The shipped tables' entries for a normalised country. The lookups are pure,
      so reading them before the tiers run changes nothing. */
  function Lookup(c: string): Directory {
    Directory(NewsConstants.GetSourcesForCountry(c), NewsConstants.GetLanguageForCountry(c),
              NewsConstants.CountryName(c))
  }

  /** The cache slot of one tier: `country_s<tier>_<country>_<category>_<page>_<pageSize>`. */
  function TierKey(tier: nat, country: string, category: string, page: int, pageSize: int): string {
    "country_s" + NatToString(tier) + "_" + country + "_" + category + "_"
    + IntToString(page) + "_" + IntToString(pageSize)
  }

  /** A typed lookup of a tier slot: only a value with a strategy label is a hit. */
  predicate Hit(cache: Cache, key: string) {
    key in cache && cache[key].StrategyPage?
  }

  /** The result a cache hit returns: the stored page, total and label. */
  function Cached(e: Entry): (h: Headlines)
    requires e.StrategyPage?
    ensures h.fromCache && h.articles == e.articles && h.total == e.total && h.strategy == e.strategy
  {
    Headlines(e.articles, e.total, true, e.strategy)
  }

  // ── The three requests ────────────────────────────────────────────────────

  function Paging(page: int, pageSize: int): seq<(string, string)> {
    [("page", IntToString(page)), ("pageSize", IntToString(pageSize))]
  }

  function Tier1Request(country: string, category: string, page: int, pageSize: int): Request {
    Request("top-headlines", [("country", country), ("category", category)] + Paging(page, pageSize))
  }

  function Tier2Request(sources: string, page: int, pageSize: int): Request {
    Request("top-headlines", [("sources", sources)] + Paging(page, pageSize))
  }

  /** The free-text query of tier 3: the category (or "news" for the general
      category) and the country's display name, separated by a space. */
  function SearchText(dir: Directory, category: string): string {
    (if category == GeneralCategory then GeneralKeyword else category) + " " + dir.name
  }

  function Tier3Request(dir: Directory, category: string, page: int, pageSize: int): Request {
    Request("everything",
      [("q", SearchText(dir, category)), ("language", dir.language), ("sortBy", SearchSortBy)]
      + Paging(page, pageSize))
  }

  // ── The tiers ─────────────────────────────────────────────────────────────

  /** Tier 3: the keyword search, accepted whatever it returns. */
  function Tier3(c: string, dir: Directory, category: string, page: int, pageSize: int, cache: Cache,
                 t: Transport<NewsApiResponse>): (s: Step<Headlines>)
    ensures |s.requests| <= 1
    ensures !s.result.fromCache ==> |s.requests| == 1
    ensures s.result.fromCache <==> Hit(cache, TierKey(3, c, category, page, pageSize))
    ensures s.result.fromCache ==> s == Step(Cached(cache[TierKey(3, c, category, page, pageSize)]), cache, [])
    ensures !s.result.fromCache ==> s.result.strategy == SearchTier || s.result.strategy == FailedTier
    ensures !s.result.fromCache && s.result.strategy == FailedTier ==>
              s.result == Headlines([], 0, false, FailedTier) && s.cache == cache
    ensures !s.result.fromCache && s.result.strategy == SearchTier ==>
              s.cache == cache[TierKey(3, c, category, page, pageSize) :=
                               StrategyPage(s.result.articles, s.result.total, SearchTier)]
    ensures !s.result.fromCache ==>
              forall i :: 0 <= i < |s.result.articles| ==>
                !IsBlank(s.result.articles[i].title) && s.result.articles[i].title != RemovedTitle
  {
    var key := TierKey(3, c, category, page, pageSize);
    if Hit(cache, key) then Step(Cached(cache[key]), cache, [])
    else
      var req := Tier3Request(dir, category, page, pageSize);
      match FetchNews(t)
      case Failure(_) => Step(Headlines([], 0, false, FailedTier), cache, [req])
      case Success(r) =>
        var articles := FilterArticles(r.articles);
        Step(Headlines(articles, r.totalResults, false, SearchTier),
             cache[key := StrategyPage(articles, r.totalResults, SearchTier)], [req])
  }

  /** Whether tier 2 is attempted: the country's source parameter is not empty. */
  predicate Tier2Applies(dir: Directory) {
    !IsNullOrEmpty(dir.sources)
  }

  /** Tiers 2 and 3, as reached when tier 1 did not return. */
  function FromTier2(c: string, dir: Directory, category: string, page: int, pageSize: int, cache: Cache,
                     up: Upstream): (s: Step<Headlines>)
    ensures |s.requests| <= 2
    ensures !s.result.fromCache ==> |s.requests| >= 1
    ensures !s.result.fromCache ==> s.result.strategy != TopHeadlinesTier
    ensures !s.result.fromCache && s.result.strategy == SourcesTier ==> |s.result.articles| >= Tier2Minimum
    ensures s.result.fromCache ==> s.cache == cache
    ensures !s.result.fromCache && s.result.strategy == FailedTier ==>
              s.result == Headlines([], 0, false, FailedTier) && s.cache == cache
    ensures !s.result.fromCache && s.result.strategy != FailedTier ==>
              s.cache == cache[TierKey(TierOf(s.result.strategy), c, category, page, pageSize) :=
                               StrategyPage(s.result.articles, s.result.total, s.result.strategy)]
    ensures !s.result.fromCache ==>
              forall i :: 0 <= i < |s.result.articles| ==>
                !IsBlank(s.result.articles[i].title) && s.result.articles[i].title != RemovedTitle
  {
    if !Tier2Applies(dir) then Tier3(c, dir, category, page, pageSize, cache, up.tier3)
    else
      var key := TierKey(2, c, category, page, pageSize);
      if Hit(cache, key) then Step(Cached(cache[key]), cache, [])
      else
        var req := Tier2Request(dir.sources.value, page, pageSize);
        var fetched := FetchNews(up.tier2);
        if fetched.Success? && |FilterArticles(fetched.value.articles)| >= Tier2Minimum then
          var articles := FilterArticles(fetched.value.articles);
          Step(Headlines(articles, fetched.value.totalResults, false, SourcesTier),
               cache[key := StrategyPage(articles, fetched.value.totalResults, SourcesTier)], [req])
        else
          var rest := Tier3(c, dir, category, page, pageSize, cache, up.tier3);
          Step(rest.result, rest.cache, [req] + rest.requests)
  }

  /** The three tiers for the normalised country `c` with reference data `dir`. A
      fresh result is labelled by the tier that produced it, met that tier's
      threshold, and is the only value written, under that tier's slot; a cached
      result writes nothing; "failed" is an empty page that writes nothing. */
  function Fallback(c: string, dir: Directory, category: string, page: int, pageSize: int,
                    cache: Cache, up: Upstream): (s: Step<Headlines>)
    ensures |s.requests| <= 3
    ensures s.result.fromCache ==> s.cache == cache
    ensures !s.result.fromCache && s.result.strategy == FailedTier ==>
              s.result == Headlines([], 0, false, FailedTier) && s.cache == cache
    ensures !s.result.fromCache && s.result.strategy != FailedTier ==>
              s.cache == cache[TierKey(TierOf(s.result.strategy), c, category, page, pageSize) :=
                               StrategyPage(s.result.articles, s.result.total, s.result.strategy)]
    ensures !s.result.fromCache && s.result.strategy == TopHeadlinesTier ==> |s.result.articles| >= Tier1Minimum
    ensures !s.result.fromCache && s.result.strategy == SourcesTier ==> |s.result.articles| >= Tier2Minimum
    ensures !s.result.fromCache ==>
              forall i :: 0 <= i < |s.result.articles| ==>
                !IsBlank(s.result.articles[i].title) && s.result.articles[i].title != RemovedTitle
  {
    var key := TierKey(1, c, category, page, pageSize);
    if Hit(cache, key) then Step(Cached(cache[key]), cache, [])
    else
      var req := Tier1Request(c, category, page, pageSize);
      var fetched := FetchNews(up.tier1);
      if fetched.Success? && |FilterArticles(fetched.value.articles)| >= Tier1Minimum then
        var articles := FilterArticles(fetched.value.articles);
        Step(Headlines(articles, fetched.value.totalResults, false, TopHeadlinesTier),
             cache[key := StrategyPage(articles, fetched.value.totalResults, TopHeadlinesTier)], [req])
      else
        var rest := FromTier2(c, dir, category, page, pageSize, cache, up);
        Step(rest.result, rest.cache, [req] + rest.requests)
  }

  /** `GetHeadlinesByCountryAsync`: the fallback for the normalised country and its
      entries in the shipped tables. */
  function GetHeadlinesByCountry(country: string, category: string, page: int, pageSize: int,
                                 cache: Cache, up: Upstream): (s: Step<Headlines>)
    ensures |s.requests| <= 3
    ensures s.result.fromCache ==> s.cache == cache
    ensures !s.result.fromCache && s.result.strategy == FailedTier ==>
              s.result == Headlines([], 0, false, FailedTier) && s.cache == cache
    ensures !s.result.fromCache && s.result.strategy != FailedTier ==>
              s.cache == cache[TierKey(TierOf(s.result.strategy), NormaliseCountry(country), category, page, pageSize) :=
                               StrategyPage(s.result.articles, s.result.total, s.result.strategy)]
    ensures !s.result.fromCache && s.result.strategy == TopHeadlinesTier ==> |s.result.articles| >= Tier1Minimum
    ensures !s.result.fromCache && s.result.strategy == SourcesTier ==> |s.result.articles| >= Tier2Minimum
    ensures !s.result.fromCache ==>
              forall i :: 0 <= i < |s.result.articles| ==>
                !IsBlank(s.result.articles[i].title) && s.result.articles[i].title != RemovedTitle
  {
    var c := NormaliseCountry(country);
    Fallback(c, Lookup(c), category, page, pageSize, cache, up)
  }

  // ── The fallback, tier by tier ────────────────────────────────────────────

  /** A tier's fetch is accepted: it succeeded and kept at least `minimum` articles. */
  predicate Accepts(t: Transport<NewsApiResponse>, minimum: nat) {
    FetchNews(t).Success? && |FilterArticles(FetchNews(t).value.articles)| >= minimum
  }

  /** A cached result comes from the first tier whose slot holds a labelled page;
      every tier before it missed, was not accepted and issued exactly one
      request; nothing is written. A hit on the first slot is always returned. */
  lemma CacheHitEndsTheCall(c: string, dir: Directory, category: string, page: int, pageSize: int,
                            cache: Cache, up: Upstream) returns (tier: nat)
    ensures Hit(cache, TierKey(1, c, category, page, pageSize)) ==>
              Fallback(c, dir, category, page, pageSize, cache, up)
              == Step(Cached(cache[TierKey(1, c, category, page, pageSize)]), cache, [])
    ensures var s := Fallback(c, dir, category, page, pageSize, cache, up);
            s.result.fromCache ==>
              && 1 <= tier <= 3
              && Hit(cache, TierKey(tier, c, category, page, pageSize))
              && s.result == Cached(cache[TierKey(tier, c, category, page, pageSize)])
              && s.cache == cache
              && |s.requests| == (if tier == 3 && !Tier2Applies(dir) then 1 else tier - 1)
              && (tier > 1 ==> !Hit(cache, TierKey(1, c, category, page, pageSize)) && !Accepts(up.tier1, Tier1Minimum))
              && (tier > 2 ==> !Tier2Applies(dir) || (!Hit(cache, TierKey(2, c, category, page, pageSize))
                                                      && !Accepts(up.tier2, Tier2Minimum)))
  {
    if Hit(cache, TierKey(1, c, category, page, pageSize)) {
      tier := 1;
    } else if !Accepts(up.tier1, Tier1Minimum) && Tier2Applies(dir) && Hit(cache, TierKey(2, c, category, page, pageSize)) {
      tier := 2;
    } else {
      tier := 3;
    }
  }

  /** Tier 1 asks for the country's top headlines in the category; its page is
      returned, labelled "top-headlines", exactly when at least three articles
      survive filtering, and then nothing else is asked. */
  lemma Tier1Acceptance(c: string, dir: Directory, category: string, page: int, pageSize: int,
                        cache: Cache, up: Upstream)
    requires !Hit(cache, TierKey(1, c, category, page, pageSize))
    ensures var s := Fallback(c, dir, category, page, pageSize, cache, up);
            && |s.requests| >= 1
            && s.requests[0] == Tier1Request(c, category, page, pageSize)
            && (s.result.strategy == TopHeadlinesTier && !s.result.fromCache <==> Accepts(up.tier1, Tier1Minimum))
            && (Accepts(up.tier1, Tier1Minimum) ==>
                  s.requests == [Tier1Request(c, category, page, pageSize)]
                  && s.result.articles == FilterArticles(FetchNews(up.tier1).value.articles)
                  && s.result.total == FetchNews(up.tier1).value.totalResults)
  {
  }

  /** The tier 1 request names the country and the category, both always present. */
  lemma Tier1RequestShape(country: string, category: string, page: int, pageSize: int)
    ensures var r := Tier1Request(country, category, page, pageSize);
            && r.endpoint == "top-headlines"
            && ParamNames(r.params) == ["country", "category", "page", "pageSize"]
            && r.params[0] == ("country", country) && r.params[1] == ("category", category)
  {
  }

  /** Tier 2 sends the curated sources with the paging and nothing else: never a
      country or a category. */
  lemma Tier2RequestShape(sources: string, page: int, pageSize: int)
    ensures var r := Tier2Request(sources, page, pageSize);
            && r.endpoint == "top-headlines"
            && ParamNames(r.params) == ["sources", "page", "pageSize"]
            && HasParam(r, "sources") && !HasParam(r, "country") && !HasParam(r, "category")
  {
  }

  /** When tier 1 neither hits nor is accepted, the call continues with tier 2
      after the one tier 1 request. */
  lemma Tier1FallsThrough(c: string, dir: Directory, category: string, page: int, pageSize: int,
                          cache: Cache, up: Upstream)
    requires !Hit(cache, TierKey(1, c, category, page, pageSize))
    requires !Accepts(up.tier1, Tier1Minimum)
    ensures var rest := FromTier2(c, dir, category, page, pageSize, cache, up);
            Fallback(c, dir, category, page, pageSize, cache, up)
            == Step(rest.result, rest.cache, [Tier1Request(c, category, page, pageSize)] + rest.requests)
  {
  }

  /** Without a source parameter tier 2 is skipped: no request of the call names
      sources. */
  lemma UnmappedCountrySkipsTier2(c: string, dir: Directory, category: string, page: int, pageSize: int,
                                  cache: Cache, up: Upstream)
    requires !Tier2Applies(dir)
    requires !Hit(cache, TierKey(1, c, category, page, pageSize))
    requires !Accepts(up.tier1, Tier1Minimum)
    ensures var s := Fallback(c, dir, category, page, pageSize, cache, up);
            var t3 := Tier3(c, dir, category, page, pageSize, cache, up.tier3);
            && s == Step(t3.result, t3.cache, [Tier1Request(c, category, page, pageSize)] + t3.requests)
            && forall r :: r in s.requests ==> !HasParam(r, "sources")
  {
    Tier1FallsThrough(c, dir, category, page, pageSize, cache, up);
    var t3 := Tier3(c, dir, category, page, pageSize, cache, up.tier3);
    assert FromTier2(c, dir, category, page, pageSize, cache, up) == t3;
    Tier1Then3NoSources(c, dir, category, page, pageSize, cache, up.tier3);
  }

  /** Neither the tier 1 request nor the search that may follow it names sources. */
  lemma Tier1Then3NoSources(c: string, dir: Directory, category: string, page: int, pageSize: int,
                            cache: Cache, t: Transport<NewsApiResponse>)
    ensures var t3 := Tier3(c, dir, category, page, pageSize, cache, t);
            forall r :: r in [Tier1Request(c, category, page, pageSize)] + t3.requests ==> !HasParam(r, "sources")
  {
    var t3 := Tier3(c, dir, category, page, pageSize, cache, t);
    var r1 := Tier1Request(c, category, page, pageSize);
    var r3 := Tier3Request(dir, category, page, pageSize);
    Tier1RequestShape(c, category, page, pageSize);
    Tier3RequestNames(dir, category, page, pageSize);
    if !Hit(cache, TierKey(3, c, category, page, pageSize)) {
      Tier3Step(c, dir, category, page, pageSize, cache, t);
      assert [r1] + t3.requests == [r1, r3];
    } else {
      assert [r1] + t3.requests == [r1];
    }
    NoSourcesAmong(r1, r3, [r1] + t3.requests);
  }

  /** The parameter names of the search request. */
  lemma Tier3RequestNames(dir: Directory, category: string, page: int, pageSize: int)
    ensures ParamNames(Tier3Request(dir, category, page, pageSize).params)
            == ["q", "language", "sortBy", "page", "pageSize"]
  {
  }

  /** Neither a tier 1 nor a tier 3 request names sources. */
  lemma NoSourcesAmong(r1: Request, r3: Request, rs: seq<Request>)
    requires ParamNames(r1.params) == ["country", "category", "page", "pageSize"]
    requires ParamNames(r3.params) == ["q", "language", "sortBy", "page", "pageSize"]
    requires rs == [r1] || rs == [r1, r3]
    ensures forall r :: r in rs ==> !HasParam(r, "sources")
  {
    forall r | r in rs
      ensures !HasParam(r, "sources")
    {
      assert r == r1 || r == r3;
    }
  }

  /** With a source list and an empty second slot, tier 2 asks for those sources
      and is accepted, labelled "sources", exactly when at least one article
      survives filtering. */
  lemma Tier2Step(c: string, dir: Directory, category: string, page: int, pageSize: int,
                  cache: Cache, up: Upstream)
    requires Tier2Applies(dir)
    requires !Hit(cache, TierKey(2, c, category, page, pageSize))
    ensures var s := FromTier2(c, dir, category, page, pageSize, cache, up);
            && |s.requests| >= 1
            && s.requests[0] == Tier2Request(dir.sources.value, page, pageSize)
            && (s.result.strategy == SourcesTier && !s.result.fromCache <==> Accepts(up.tier2, Tier2Minimum))
            && (Accepts(up.tier2, Tier2Minimum) ==>
                  |s.requests| == 1
                  && s.result.articles == FilterArticles(FetchNews(up.tier2).value.articles))
            && (!Accepts(up.tier2, Tier2Minimum) ==>
                  var t3 := Tier3(c, dir, category, page, pageSize, cache, up.tier3);
                  s == Step(t3.result, t3.cache, [s.requests[0]] + t3.requests))
  {
  }

  /** When tier 1 was not accepted and the country has a source list whose slot is
      empty, the second request of the call asks for those sources, and its page
      is returned exactly when at least one article survives filtering. */
  lemma Tier2Acceptance(c: string, dir: Directory, category: string, page: int, pageSize: int,
                        cache: Cache, up: Upstream)
    requires Tier2Applies(dir)
    requires !Hit(cache, TierKey(1, c, category, page, pageSize))
    requires !Accepts(up.tier1, Tier1Minimum)
    requires !Hit(cache, TierKey(2, c, category, page, pageSize))
    ensures var s := Fallback(c, dir, category, page, pageSize, cache, up);
            && |s.requests| >= 2
            && s.requests[1] == Tier2Request(dir.sources.value, page, pageSize)
            && (s.result.strategy == SourcesTier && !s.result.fromCache <==> Accepts(up.tier2, Tier2Minimum))
            && (Accepts(up.tier2, Tier2Minimum) ==>
                  |s.requests| == 2
                  && s.result.articles == FilterArticles(FetchNews(up.tier2).value.articles))
  {
    Tier1FallsThrough(c, dir, category, page, pageSize, cache, up);
    Tier2Step(c, dir, category, page, pageSize, cache, up);
  }

  /** Tier 3 with an empty slot issues the search and returns whatever it brings,
      labelled "search" even when empty, or an empty page labelled "failed" that
      leaves the cache as it was. */
  lemma Tier3Step(c: string, dir: Directory, category: string, page: int, pageSize: int, cache: Cache,
                  t: Transport<NewsApiResponse>)
    requires !Hit(cache, TierKey(3, c, category, page, pageSize))
    ensures var s := Tier3(c, dir, category, page, pageSize, cache, t);
            && s.requests == [Tier3Request(dir, category, page, pageSize)]
            && (FetchNews(t).Failure? ==> s.result == Headlines([], 0, false, FailedTier) && s.cache == cache)
            && (FetchNews(t).Success? ==>
                  s.result == Headlines(FilterArticles(FetchNews(t).value.articles),
                                        FetchNews(t).value.totalResults, false, SearchTier))
  {
  }

  /** Tier 3 is reached when no earlier tier returned; its search is the last
      request of the call and decides the result. */
  lemma Tier3Outcome(c: string, dir: Directory, category: string, page: int, pageSize: int,
                     cache: Cache, up: Upstream)
    requires !Hit(cache, TierKey(1, c, category, page, pageSize))
    requires !Accepts(up.tier1, Tier1Minimum)
    requires !Tier2Applies(dir)
             || (!Hit(cache, TierKey(2, c, category, page, pageSize)) && !Accepts(up.tier2, Tier2Minimum))
    requires !Hit(cache, TierKey(3, c, category, page, pageSize))
    ensures var s := Fallback(c, dir, category, page, pageSize, cache, up);
            var t3 := Tier3(c, dir, category, page, pageSize, cache, up.tier3);
            && |s.requests| == (if Tier2Applies(dir) then 3 else 2)
            && s.requests[|s.requests| - 1] == Tier3Request(dir, category, page, pageSize)
            && s.result == t3.result
            && s.cache == t3.cache
  {
    Tier1FallsThrough(c, dir, category, page, pageSize, cache, up);
    Tier3Step(c, dir, category, page, pageSize, cache, up.tier3);
    var rest := FromTier2(c, dir, category, page, pageSize, cache, up);
    var t3 := Tier3(c, dir, category, page, pageSize, cache, up.tier3);
    if Tier2Applies(dir) {
      Tier2Step(c, dir, category, page, pageSize, cache, up);
      assert rest.requests == [rest.requests[0]] + t3.requests;
    } else {
      assert rest == t3;
    }
    LastAfterPrepend(Tier1Request(c, category, page, pageSize), rest.requests);
  }

  /** A fresh "failed" result only arises from a failed search at tier 3. */
  lemma FailedMeansSearchFailed(c: string, dir: Directory, category: string, page: int, pageSize: int,
                                cache: Cache, up: Upstream)
    ensures var s := Fallback(c, dir, category, page, pageSize, cache, up);
            s.result.strategy == FailedTier && !s.result.fromCache ==>
              FetchNews(up.tier3).Failure?
              && s.requests[|s.requests| - 1] == Tier3Request(dir, category, page, pageSize)
  {
    var s := Fallback(c, dir, category, page, pageSize, cache, up);
    if !Hit(cache, TierKey(1, c, category, page, pageSize)) && !Accepts(up.tier1, Tier1Minimum) {
      Tier1FallsThrough(c, dir, category, page, pageSize, cache, up);
      var rest := FromTier2(c, dir, category, page, pageSize, cache, up);
      if rest.result.strategy == FailedTier && !rest.result.fromCache {
        Tier3Failed(c, dir, category, page, pageSize, cache, up);
        LastAfterPrepend(Tier1Request(c, category, page, pageSize), rest.requests);
      }
    }
  }

  /** Prepending a request leaves the last request in place. */
  lemma LastAfterPrepend(r: Request, rs: seq<Request>)
    requires |rs| > 0
    ensures ([r] + rs)[|[r] + rs| - 1] == rs[|rs| - 1]
  {
  }

  /** Within tiers 2 and 3, a fresh "failed" result comes from a failed search. */
  lemma Tier3Failed(c: string, dir: Directory, category: string, page: int, pageSize: int,
                    cache: Cache, up: Upstream)
    ensures var s := FromTier2(c, dir, category, page, pageSize, cache, up);
            s.result.strategy == FailedTier && !s.result.fromCache ==>
              FetchNews(up.tier3).Failure?
              && |s.requests| >= 1
              && s.requests[|s.requests| - 1] == Tier3Request(dir, category, page, pageSize)
  {
  }

  /** The search text: "news" for the general category, the category itself
      otherwise, then the country's display name; the search uses the country's
      language and the newest first. */
  lemma SearchQueryShape(dir: Directory, category: string, page: int, pageSize: int)
    ensures category == GeneralCategory ==> SearchText(dir, category) == "news " + dir.name
    ensures category != GeneralCategory ==> SearchText(dir, category) == category + " " + dir.name
    ensures var r := Tier3Request(dir, category, page, pageSize);
            && r.endpoint == "everything"
            && r.params[0] == ("q", SearchText(dir, category))
            && r.params[1] == ("language", dir.language)
            && r.params[2] == ("sortBy", "publishedAt")
  {
  }

  /** The shipped tables give the search the listed name of the country or, for an
      unlisted code, the code itself, and the country's language. */
  lemma LookupSearchData(c: string)
    ensures Lookup(c).language == NewsConstants.GetLanguageForCountry(c)
    ensures (forall i :: 0 <= i < |NewsConstants.Countries| ==> NewsConstants.Countries[i].0 != c) ==>
              Lookup(c).name == c
    ensures forall i :: 0 <= i < |NewsConstants.Countries| && NewsConstants.Countries[i].0 == c
                        && (forall j :: 0 <= j < i ==> NewsConstants.Countries[j].0 != c) ==>
              Lookup(c).name == NewsConstants.Countries[i].1
  {
    NewsConstants.FirstValueSpec(NewsConstants.Countries, c);
    forall i | 0 <= i < |NewsConstants.Countries| && NewsConstants.Countries[i].0 == c
               && (forall j :: 0 <= j < i ==> NewsConstants.Countries[j].0 != c)
      ensures Lookup(c).name == NewsConstants.Countries[i].1
    {
      NewsConstants.FirstValueFindsFirst(NewsConstants.Countries, c, i);
    }
  }

  /** A rate-limited (HTTP 429) tier 1 does not end the call: unless the second
      slot answers from the cache, another tier is asked. */
  lemma RateLimitFallsThrough(c: string, dir: Directory, category: string, page: int, pageSize: int,
                              cache: Cache, env: Option<NewsApiResponse>, body: Option<NewsApiResponse>,
                              tier2: Transport<NewsApiResponse>, tier3: Transport<NewsApiResponse>)
    requires !Hit(cache, TierKey(1, c, category, page, pageSize))
    ensures FetchNews(Responded(429, env, body)) == Failure(Exceptions.RateLimitExceeded)
    ensures var s := Fallback(c, dir, category, page, pageSize, cache,
                              Upstream(Responded(429, env, body), tier2, tier3));
            s.result.fromCache || |s.requests| >= 2
  {
    var up := Upstream(Responded(429, env, body), tier2, tier3);
    assert FetchNews(up.tier1).Failure?;
    Tier1FallsThrough(c, dir, category, page, pageSize, cache, up);
  }

  // ── Labels and slots ──────────────────────────────────────────────────────

  /** Each label names one tier, the four labels are the documented texts, and no
      two strategies share one. */
  lemma StrategyLabels(a: Strategy, b: Strategy)
    ensures a.Label() == b.Label() ==> a == b
    ensures [TopHeadlinesTier.Label(), SourcesTier.Label(), SearchTier.Label(), FailedTier.Label()]
            == ["top-headlines", "sources", "search", "failed"]
  {
  }

  /** The tier is the tenth character of its slot's key. */
  lemma TierKeyDigit(tier: nat, country: string, category: string, page: int, pageSize: int)
    requires 1 <= tier <= 9
    ensures |TierKey(tier, country, category, page, pageSize)| > 9
    ensures TierKey(tier, country, category, page, pageSize)[..9] == "country_s"
    ensures TierKey(tier, country, category, page, pageSize)[9] == DigitChar(tier)
  {
  }

  /** The three tiers never share a slot, whatever the arguments, and no slot
      collides with a key of the shared key builder: those all start with the
      application's name, tier slots with "country". */
  lemma TierSlotsDisjoint(a: nat, b: nat, c1: string, c2: string, cat1: string, cat2: string,
                          p1: int, p2: int, s1: int, s2: int, key: string)
    requires 1 <= a <= 3 && 1 <= b <= 3 && a != b
    requires CacheKeys.TopPrefix <= key || CacheKeys.AllPrefix <= key || CacheKeys.SourcesPrefix <= key
    ensures TierKey(a, c1, cat1, p1, s1) != TierKey(b, c2, cat2, p2, s2)
    ensures TierKey(a, c1, cat1, p1, s1) != key
  {
    TierKeyDigit(a, c1, cat1, p1, s1);
    TierKeyDigit(b, c2, cat2, p2, s2);
    assert TierKey(a, c1, cat1, p1, s1)[9] != TierKey(b, c2, cat2, p2, s2)[9];
    assert TierKey(a, c1, cat1, p1, s1)[0] == 'c';
    assert key[0] == 'N';
  }

  /** Every key the shared builder makes is a candidate of `TierSlotsDisjoint`. */
  lemma BuilderKeysHavePrefix(
    c: Option<string>, cat: Option<string>, s: Option<string>, q: Option<string>, p: int, ps: int,
    query: string, src: Option<string>, lang: Option<string>, sort: Option<string>,
    from: Option<string>, to: Option<string>, p2: int, ps2: int,
    scat: Option<string>, slang: Option<string>, sc: Option<string>)
    ensures CacheKeys.TopPrefix <= CacheKeys.TopHeadlines(c, cat, s, q, p, ps)
    ensures CacheKeys.AllPrefix <= CacheKeys.Everything(query, src, lang, sort, from, to, p2, ps2)
    ensures CacheKeys.SourcesPrefix <= CacheKeys.Sources(scat, slang, sc)
  {
    CacheKeys.FamiliesDisjoint(c, cat, s, q, p, ps, query, src, lang, sort, from, to, p2, ps2, scat, slang, sc);
  }

  /** The slot key does not separate its parts unambiguously: a country and a
      category that contain the separator can share a slot with another pair. */
  lemma TierKeyAmbiguous()
    ensures TierKey(1, "a_b", "c", 1, 20) == TierKey(1, "a", "b_c", 1, 20)
  {
  }

  // ── Whole calls ───────────────────────────────────────────────────────────

  /** A listed country keeps its code through normalisation. */
  lemma NormaliseListed(i: nat)
    requires i < |NewsConstants.Countries|
    ensures NormaliseCountry(NewsConstants.Countries[i].0) == NewsConstants.Countries[i].0
  {
    var code := NewsConstants.Countries[i].0;
    NewsConstants.ListedCountriesAreMapped();
    assert |code| == 2 && 'a' <= code[0] <= 'z' && 'a' <= code[1] <= 'z';
    NormaliseTwoLetters(code);
  }

  /** A two-letter lower-case code is its own normal form. */
  lemma NormaliseTwoLetters(code: string)
    requires |code| == 2 && 'a' <= code[0] <= 'z' && 'a' <= code[1] <= 'z'
    ensures NormaliseCountry(code) == code
  {
    assert Lower(code) == code;
    assert !IsWhiteSpace(code[0]) && !IsWhiteSpace(code[1]);
    assert TrimStart(code) == code;
    assert TrimEnd(code) == code;
  }

  /** For a country of the menu, a tier 1 page that is not accepted leads to a
      tier 2 request for the country's sources, or to a hit on its slot. */
  lemma ListedCountryAttemptsTier2(i: nat, category: string, page: int, pageSize: int,
                                   cache: Cache, up: Upstream)
    requires i < |NewsConstants.Countries|
    requires !Hit(cache, TierKey(1, NewsConstants.Countries[i].0, category, page, pageSize))
    requires !Accepts(up.tier1, Tier1Minimum)
    ensures var code := NewsConstants.Countries[i].0;
            var s := GetHeadlinesByCountry(code, category, page, pageSize, cache, up);
            && (Hit(cache, TierKey(2, code, category, page, pageSize)) ==>
                  s == Step(Cached(cache[TierKey(2, code, category, page, pageSize)]), cache,
                            [Tier1Request(code, category, page, pageSize)]))
            && (!Hit(cache, TierKey(2, code, category, page, pageSize)) ==>
                  |s.requests| >= 2 && HasParam(s.requests[1], "sources"))
  {
    var code := NewsConstants.Countries[i].0;
    ListedCountriesAttemptTier2(i);
    var dir := Lookup(code);
    assert GetHeadlinesByCountry(code, category, page, pageSize, cache, up)
        == Fallback(code, dir, category, page, pageSize, cache, up);
    MappedFallbackAttemptsTier2(code, dir, category, page, pageSize, cache, up);
  }

  /** The fallback part of `ListedCountryAttemptsTier2`, for any reference data
      with a source parameter. */
  lemma MappedFallbackAttemptsTier2(c: string, dir: Directory, category: string, page: int, pageSize: int,
                                    cache: Cache, up: Upstream)
    requires Tier2Applies(dir)
    requires !Hit(cache, TierKey(1, c, category, page, pageSize))
    requires !Accepts(up.tier1, Tier1Minimum)
    ensures var s := Fallback(c, dir, category, page, pageSize, cache, up);
            && (Hit(cache, TierKey(2, c, category, page, pageSize)) ==>
                  s == Step(Cached(cache[TierKey(2, c, category, page, pageSize)]), cache,
                            [Tier1Request(c, category, page, pageSize)]))
            && (!Hit(cache, TierKey(2, c, category, page, pageSize)) ==>
                  |s.requests| >= 2 && HasParam(s.requests[1], "sources"))
  {
    Tier1FallsThrough(c, dir, category, page, pageSize, cache, up);
    var s := Fallback(c, dir, category, page, pageSize, cache, up);
    var rest := FromTier2(c, dir, category, page, pageSize, cache, up);
    var r1 := Tier1Request(c, category, page, pageSize);
    assert s.result == rest.result && s.requests == [r1] + rest.requests;
    if Hit(cache, TierKey(2, c, category, page, pageSize)) {
      Tier2Hit(c, dir, category, page, pageSize, cache, up);
    } else {
      Tier2Step(c, dir, category, page, pageSize, cache, up);
      Tier2RequestShape(dir.sources.value, page, pageSize);
      assert s.requests[1] == rest.requests[0];
    }
  }

  /** Every listed country has a source list, so tier 2 is attempted for it. */
  lemma ListedCountriesAttemptTier2(i: nat)
    requires i < |NewsConstants.Countries|
    ensures NormaliseCountry(NewsConstants.Countries[i].0) == NewsConstants.Countries[i].0
    ensures Tier2Applies(Lookup(NewsConstants.Countries[i].0))
  {
    NormaliseListed(i);
    NewsConstants.ListedCountriesAreMapped();
    NewsConstants.SourcesParameterNonEmpty(NewsConstants.Countries[i].0);
  }

  /** A hit on the second slot ends a call that reached tier 2. */
  lemma Tier2Hit(c: string, dir: Directory, category: string, page: int, pageSize: int,
                 cache: Cache, up: Upstream)
    requires Tier2Applies(dir)
    requires Hit(cache, TierKey(2, c, category, page, pageSize))
    ensures FromTier2(c, dir, category, page, pageSize, cache, up)
            == Step(Cached(cache[TierKey(2, c, category, page, pageSize)]), cache, [])
  {
  }

  /** With an empty cache, a source list and neither headline tier accepted, the
      call asks all three tiers in order, returns the search page and caches it
      under the third slot only. */
  lemma AllTiersAsked(c: string, dir: Directory, category: string, page: int, pageSize: int, up: Upstream)
    requires Tier2Applies(dir)
    requires !Accepts(up.tier1, Tier1Minimum) && !Accepts(up.tier2, Tier2Minimum)
    requires FetchNews(up.tier3).Success?
    ensures var s := Fallback(c, dir, category, page, pageSize, map[], up);
            var r := FetchNews(up.tier3).value;
            var result := Headlines(FilterArticles(r.articles), r.totalResults, false, SearchTier);
            && s.requests == [
                 Tier1Request(c, category, page, pageSize),
                 Tier2Request(dir.sources.value, page, pageSize),
                 Tier3Request(dir, category, page, pageSize)]
            && s.result == result
            && s.cache == map[TierKey(3, c, category, page, pageSize) :=
                                StrategyPage(result.articles, result.total, SearchTier)]
  {
    var cache: Cache := map[];
    Tier1FallsThrough(c, dir, category, page, pageSize, cache, up);
    Tier2Step(c, dir, category, page, pageSize, cache, up);
    Tier3Step(c, dir, category, page, pageSize, cache, up.tier3);
    var t3 := Tier3(c, dir, category, page, pageSize, cache, up.tier3);
    var s := Fallback(c, dir, category, page, pageSize, cache, up);
    assert s.requests == [Tier1Request(c, category, page, pageSize)]
                         + ([Tier2Request(dir.sources.value, page, pageSize)] + t3.requests);
  }

  /** The French technology page: tier 1 keeps a single article, so tier 2 asks
      the three French sources without a category; it keeps none, so tier 3
      searches "technology France" in French, newest first, and its page is
      returned as "search" and cached under the third slot. */
  lemma FrenchTechnologyExample(country: string, category: string, d: ArticleDto, page: int, pageSize: int,
                                r3: NewsApiResponse, up: Upstream)
    requires country == "fr" && category == "technology"
    requires Keep(d) && IsSuccess(r3)
    requires up.tier1 == Responded(200, None, Some(NewsApiResponse("ok", None, None, 1, [d])))
    requires up.tier2 == Responded(200, None, Some(NewsApiResponse("ok", None, None, 0, [])))
    requires up.tier3 == Responded(200, None, Some(r3))
    ensures var s := GetHeadlinesByCountry(country, category, page, pageSize, map[], up);
            var result := Headlines(FilterArticles(r3.articles), r3.totalResults, false, SearchTier);
            && |s.requests| == 3
            && s.requests[0] == Tier1Request(country, category, page, pageSize)
            && s.requests[1] == Tier2Request("le-monde,liberation,les-echos", page, pageSize)
            && s.requests[2] == Request("everything",
                 [("q", "technology France"), ("language", "fr"), ("sortBy", "publishedAt")]
                 + Paging(page, pageSize))
            && s.result == result
            && s.cache == map[TierKey(3, country, category, page, pageSize) :=
                                StrategyPage(result.articles, result.total, SearchTier)]
  {
    var dir := Directory(Some("le-monde,liberation,les-echos"), "fr", "France");
    FewArticlesRejected(d, up);
    assert FetchNews(up.tier3) == Success(r3);
    FrenchCall(country, category, page, pageSize, up);
    AllTiersAsked(country, dir, category, page, pageSize, up);
    FrenchSearch(dir, category, page, pageSize);
  }

  /** The French technology search: "technology France", in French, newest first. */
  lemma FrenchSearch(dir: Directory, category: string, page: int, pageSize: int)
    requires dir.language == "fr" && dir.name == "France" && category == "technology"
    ensures Tier3Request(dir, category, page, pageSize)
            == Request("everything",
                 [("q", "technology France"), ("language", "fr"), ("sortBy", "publishedAt")]
                 + Paging(page, pageSize))
  {
    assert SearchText(dir, category) == category + " " + dir.name;
    assert category + " " + dir.name == "technology France";
  }

  /** A French call runs the fallback on the code itself with France's entries. */
  lemma FrenchCall(country: string, category: string, page: int, pageSize: int, up: Upstream)
    requires country == "fr"
    ensures GetHeadlinesByCountry(country, category, page, pageSize, map[], up)
            == Fallback(country, Directory(Some("le-monde,liberation,les-echos"), "fr", "France"),
                        category, page, pageSize, map[], up)
  {
    FrenchNormalised(country);
    FrenchLookup(country);
  }

  /** One kept article does not satisfy tier 1, and none does not satisfy tier 2. */
  lemma FewArticlesRejected(d: ArticleDto, up: Upstream)
    requires Keep(d)
    requires up.tier1 == Responded(200, None, Some(NewsApiResponse("ok", None, None, 1, [d])))
    requires up.tier2 == Responded(200, None, Some(NewsApiResponse("ok", None, None, 0, [])))
    ensures !Accepts(up.tier1, Tier1Minimum) && !Accepts(up.tier2, Tier2Minimum)
  {
    assert FilterArticles([d]) == [FromDto(d)] by {
      assert [d][1..] == [];
    }
  }

  /** The French code is already normalised. */
  lemma FrenchNormalised(country: string)
    requires country == "fr"
    ensures NormaliseCountry(country) == country
  {
    assert NewsConstants.Countries[6].0 == country;
    NormaliseListed(6);
  }

  /** The shipped tables' entries for France: three sources, French, "France". */
  lemma FrenchLookup(country: string)
    requires country == "fr"
    ensures Lookup(country) == Directory(Some("le-monde,liberation,les-echos"), "fr", "France")
  {
    FrenchSources(country);
    FrenchLanguage(country);
    FrenchName(country);
  }

  /** The French source parameter lists three ids. */
  lemma FrenchSources(country: string)
    requires country == "fr"
    ensures NewsConstants.GetSourcesForCountry(country) == Some("le-monde,liberation,les-echos")
  {
    FrenchIds(country);
    JoinFrenchIds(NewsConstants.CountrySources[Lower(country)]);
  }

  /** France's curated list in the shipped table. */
  lemma FrenchIds(country: string)
    requires country == "fr"
    ensures Lower(country) in NewsConstants.CountrySources
    ensures NewsConstants.CountrySources[Lower(country)] == ["le-monde", "liberation", "les-echos"]
  {
    assert Lower(country) == country;
  }

  /** The three French ids, capped and comma-joined. */
  lemma JoinFrenchIds(ids: seq<string>)
    requires ids == ["le-monde", "liberation", "les-echos"]
    ensures Join(",", Take(ids, NewsConstants.MaxSources as int)) == "le-monde,liberation,les-echos"
  {
    assert Take(ids, 20) == ids;
    assert ids[1..] == ["liberation", "les-echos"];
    assert ids[1..][1..] == ["les-echos"];
    assert Join(",", ids[1..][1..]) == "les-echos";
    assert Join(",", ids[1..]) == "liberation,les-echos";
  }

  /** France is the seventh listed country. */
  lemma FrenchName(country: string)
    requires country == "fr"
    ensures NewsConstants.CountryName(country) == "France"
  {
    assert NewsConstants.Countries[6] == (country, "France");
    assert forall j :: 0 <= j < 6 ==> NewsConstants.Countries[j].0 != country;
    NewsConstants.FirstValueFindsFirst(NewsConstants.Countries, country, 6);
  }

  /** The French search is in French. */
  lemma FrenchLanguage(country: string)
    requires country == "fr"
    ensures NewsConstants.GetLanguageForCountry(country) == "fr"
  {
    assert Lower(country) == country;
  }
}

/** The news service: article normalisation, the three cached upstream calls
    (top headlines, full-text search, sources listing) and the related-articles
    search. Each call takes the cache and the upstream's outcome as inputs and
    returns its result, the updated cache and the requests it issued; the cache
    has no expiry. */
module NewsService {
  import opened Wrappers
  import opened Text
  import opened Exceptions
  import opened Dtos
  import opened ViewModels
  import CacheKeys
  import opened Fetch

  const RemovedTitle: string := "[Removed]"
  const DefaultCountry: string := "us"
  const DefaultCategory: string := "general"

  // ── Cache, requests and call results ──────────────────────────────────────

  /** The label recording which headline tier produced a result. */
  datatype Strategy = TopHeadlinesTier | SourcesTier | SearchTier | FailedTier {
    function Label(): string {
      match this
      case TopHeadlinesTier => "top-headlines"
      case SourcesTier => "sources"
      case SearchTier => "search"
      case FailedTier => "failed"
    }
  }

  /** A cached value. The shared in-memory cache holds values of three C# types,
      and a typed lookup only hits a value of the type it asks for. */
  datatype Entry =
    | ArticlePage(articles: seq<Article>, total: int)
    | StrategyPage(articles: seq<Article>, total: int, strategy: Strategy)
    | SourcePage(sources: seq<SourceDto>)

  type Cache = map<string, Entry>

  /** One upstream request: the endpoint and its query parameters in order. */
  datatype Request = Request(endpoint: string, params: seq<(string, string)>)

  /** The outcome of a service call with its effects. */
  datatype Step<R> = Step(result: R, cache: Cache, requests: seq<Request>)

  /** An article page as the article calls return it. */
  datatype Listing = Listing(articles: seq<Article>, total: int, fromCache: bool)

  /** A sources listing as the sources call returns it. */
  datatype SourceListing = SourceListing(sources: seq<SourceDto>, fromCache: bool)

  /** The parameter names of a request, in order. */
  function ParamNames(ps: seq<(string, string)>): (names: seq<string>)
    ensures |names| == |ps| && forall i :: 0 <= i < |ps| ==> names[i] == ps[i].0
  {
    if |ps| == 0 then [] else [ps[0].0] + ParamNames(ps[1..])
  }

  predicate HasParam(r: Request, name: string) {
    name in ParamNames(r.params)
  }

  lemma ParamNamesAppend(a: seq<(string, string)>, b: seq<(string, string)>)
    ensures ParamNames(a + b) == ParamNames(a) + ParamNames(b)
  {
  }

  // ── Article normalisation ─────────────────────────────────────────────────

  /** A raw record worth showing: a non-blank title other than the removal marker. */
  predicate Keep(dto: ArticleDto) {
    !IsBlank(dto.title) && dto.title != RemovedTitle
  }

  /** `FilterArticles`: the kept records, each mapped by `FromDto`, in input order. */
  function FilterArticles(dtos: seq<ArticleDto>): (r: seq<Article>)
    ensures |r| <= |dtos|
    ensures forall i :: 0 <= i < |r| ==> !IsBlank(r[i].title) && r[i].title != RemovedTitle
    ensures forall a :: a in r ==> exists d :: d in dtos && Keep(d) && a == FromDto(d)
  {
    if |dtos| == 0 then []
    else
      var rest := FilterArticles(dtos[1..]);
      assert forall d :: d in dtos[1..] ==> d in dtos;
      if Keep(dtos[0]) then [FromDto(dtos[0])] + rest else rest
  }

  /** Each index moved one position right. */
  function Shift(xs: seq<nat>): (r: seq<nat>)
    ensures |r| == |xs| && forall i :: 0 <= i < |xs| ==> r[i] == xs[i] + 1
  {
    seq(|xs|, i requires 0 <= i < |xs| => xs[i] + 1)
  }

  /** The positions of the records `FilterArticles` keeps, in input order. */
  function KeptPositions(dtos: seq<ArticleDto>): (idx: seq<nat>)
    ensures forall i :: 0 <= i < |idx| ==> idx[i] < |dtos|
  {
    if |dtos| == 0 then []
    else (if Keep(dtos[0]) then [0] else []) + Shift(KeptPositions(dtos[1..]))
  }

  /** Normalisation is a selection: the i-th result is the mapped record at the
      i-th kept position. */
  lemma {:induction false} FilterArticlesSelects(dtos: seq<ArticleDto>)
    ensures |KeptPositions(dtos)| == |FilterArticles(dtos)|
    ensures forall i :: 0 <= i < |FilterArticles(dtos)| ==>
              FilterArticles(dtos)[i] == FromDto(dtos[KeptPositions(dtos)[i]])
  {
    if |dtos| > 0 {
      FilterArticlesSelects(dtos[1..]);
      var rest := KeptPositions(dtos[1..]);
      var tail := FilterArticles(dtos[1..]);
      var r := FilterArticles(dtos);
      var idx := KeptPositions(dtos);
      var k := if Keep(dtos[0]) then 1 else 0;
      assert r == (if Keep(dtos[0]) then [FromDto(dtos[0])] else []) + tail;
      assert idx == (if Keep(dtos[0]) then [0] else []) + Shift(rest);
      forall i | 0 <= i < |r|
        ensures r[i] == FromDto(dtos[idx[i]])
      {
        if i >= k {
          assert r[i] == tail[i - k];
          assert idx[i] == rest[i - k] + 1;
          assert dtos[1..][rest[i - k]] == dtos[idx[i]];
        }
      }
    }
  }

  /** The selection keeps the input order. */
  lemma {:induction false} KeptPositionsIncreasing(dtos: seq<ArticleDto>)
    ensures forall i, j :: 0 <= i < j < |KeptPositions(dtos)| ==> KeptPositions(dtos)[i] < KeptPositions(dtos)[j]
  {
    if |dtos| > 0 {
      KeptPositionsIncreasing(dtos[1..]);
    }
  }

  /** The selection is exact: a position is selected if and only if its record is kept. */
  lemma {:induction false} KeptPositionsExact(dtos: seq<ArticleDto>)
    ensures forall j :: 0 <= j < |dtos| ==> (Keep(dtos[j]) <==> j in KeptPositions(dtos))
  {
    if |dtos| > 0 {
      KeptPositionsExact(dtos[1..]);
      var rest := KeptPositions(dtos[1..]);
      var head: seq<nat> := if Keep(dtos[0]) then [0] else [];
      assert KeptPositions(dtos) == head + Shift(rest);
      forall j | 0 <= j < |dtos|
        ensures Keep(dtos[j]) <==> j in KeptPositions(dtos)
      {
        if j > 0 {
          assert dtos[1..][j - 1] == dtos[j];
          if j - 1 in rest {
            var i :| 0 <= i < |rest| && rest[i] == j - 1;
            assert Shift(rest)[i] == j;
          }
          if j in Shift(rest) {
            var i :| 0 <= i < |rest| && Shift(rest)[i] == j;
            assert rest[i] == j - 1;
          }
        }
      }
    }
  }

  /** Normalising a concatenation normalises each part. */
  lemma {:induction false} FilterArticlesAppend(a: seq<ArticleDto>, b: seq<ArticleDto>)
    ensures FilterArticles(a + b) == FilterArticles(a) + FilterArticles(b)
    decreases |a|
  {
    if |a| > 0 {
      assert (a + b)[0] == a[0];
      assert (a + b)[1..] == a[1..] + b;
      FilterArticlesAppend(a[1..], b);
    } else {
      assert a + b == b;
    }
  }

  /** Records with a missing, blank or removed title are dropped; a missing url is
      not a reason to drop a record. */
  lemma FilterDropsDefaults(d: ArticleDto)
    ensures FilterArticles([EmptyArticleDto]) == []
    ensures FilterArticles([d.(title := RemovedTitle)]) == []
    ensures !IsBlank(d.title) && d.title != RemovedTitle ==> FilterArticles([d.(url := "")]) == [FromDto(d).(url := "")]
  {
    assert FilterArticles([d.(title := RemovedTitle)]) == FilterArticles([]) by {
      assert [d.(title := RemovedTitle)][1..] == [];
    }
  }

  // ── Top headlines ─────────────────────────────────────────────────────────

  /** `TopHeadlinesQuery`. */
  datatype TopHeadlinesQuery = TopHeadlinesQuery(
    country: Option<string>, category: Option<string>, sources: Option<string>,
    query: Option<string>, page: int, pageSize: int)

  /** The leading parameters of a top-headlines request: sources replace country
      and category, which are sent only when non-empty. */
  function HeadParams(sources: Option<string>, country: string, category: string): seq<(string, string)> {
    if !IsNullOrWhiteSpace(sources) then [("sources", sources.value)]
    else (if |country| > 0 then [("country", country)] else [])
         + (if |category| > 0 then [("category", category)] else [])
  }

  /** The paging parameters that end every article request. */
  function PagingParams(page: int, pageSize: int): seq<(string, string)> {
    [("page", IntToString(page)), ("pageSize", IntToString(pageSize))]
  }

  /** The query parameters of a top-headlines request: the leading parameters, the
      keyword when it is not blank, then the paging. */
  function TopHeadlinesParams(q: TopHeadlinesQuery, country: string, category: string): seq<(string, string)> {
    HeadParams(q.sources, country, category) + OptionalParam("q", q.query) + PagingParams(q.page, q.pageSize)
  }

  /** The country a top-headlines request carries: none when sources are given,
      otherwise the query's country or "us". */
  function HeadCountry(q: TopHeadlinesQuery): string {
    if !IsNullOrWhiteSpace(q.sources) then "" else q.country.GetOr(DefaultCountry)
  }

  /** The category a top-headlines request carries: none when sources are given,
      otherwise the query's category or "general". */
  function HeadCategory(q: TopHeadlinesQuery): string {
    if !IsNullOrWhiteSpace(q.sources) then "" else q.category.GetOr(DefaultCategory)
  }

  /** The cache key of a top-headlines query, built from the effective country and
      category. */
  function TopHeadlinesKey(q: TopHeadlinesQuery): string {
    CacheKeys.TopHeadlines(Some(HeadCountry(q)), Some(HeadCategory(q)), q.sources, q.query, q.page, q.pageSize)
  }

  /** `GetTopHeadlinesAsync`. The upstream forbids mixing sources with country or
      category, so a query with sources keys and asks with neither. A page cached
      under the query's key is returned as it was stored, without any request and
      without touching the cache. Otherwise exactly one request is sent; a failure
      propagates and writes nothing, and a success returns the normalised articles
      and stores them, with the upstream total, under the query's key, leaving every
      other entry as it was. */
  function GetTopHeadlines(q: TopHeadlinesQuery, cache: Cache, t: Transport<NewsApiResponse>)
    : (s: Step<Result<Listing, NewsError>>)
    ensures var key := TopHeadlinesKey(q);
            && (key in cache && cache[key].ArticlePage? ==>
                  s == Step(Success(Listing(cache[key].articles, cache[key].total, true)), cache, []))
            && (!(key in cache && cache[key].ArticlePage?) ==>
                  && |s.requests| == 1
                  && (FetchNews(t).Failure? ==> s.result == Failure(FetchNews(t).error) && s.cache == cache)
                  && (FetchNews(t).Success? ==>
                        var articles := FilterArticles(FetchNews(t).value.articles);
                        && s.result == Success(Listing(articles, FetchNews(t).value.totalResults, false))
                        && s.cache == cache[key := ArticlePage(articles, FetchNews(t).value.totalResults)]))
  {
    var key := TopHeadlinesKey(q);
    if key in cache && cache[key].ArticlePage? then
      Step(Success(Listing(cache[key].articles, cache[key].total, true)), cache, [])
    else
      var req := Request("top-headlines", TopHeadlinesParams(q, HeadCountry(q), HeadCategory(q)));
      match FetchNews(t)
      case Failure(e) => Step(Failure(e), cache, [req])
      case Success(r) =>
        var articles := FilterArticles(r.articles);
        Step(Success(Listing(articles, r.totalResults, false)),
             cache[key := ArticlePage(articles, r.totalResults)], [req])
  }

  /** The parameter names of a top-headlines request. */
  lemma TopHeadlinesParamNames(q: TopHeadlinesQuery, country: string, category: string)
    ensures var names := ParamNames(TopHeadlinesParams(q, country, category));
            && ("sources" in names <==> !IsNullOrWhiteSpace(q.sources))
            && ("country" in names <==> IsNullOrWhiteSpace(q.sources) && |country| > 0)
            && ("category" in names <==> IsNullOrWhiteSpace(q.sources) && |category| > 0)
            && ("q" in names <==> !IsNullOrWhiteSpace(q.query))
            && (IsNullOrWhiteSpace(q.sources) && |country| > 0 ==> TopHeadlinesParams(q, country, category)[0] == ("country", country))
  {
    var head := HeadParams(q.sources, country, category);
    var query := OptionalParam("q", q.query);
    var paging := PagingParams(q.page, q.pageSize);
    ParamNamesAppend(head + query, paging);
    ParamNamesAppend(head, query);
    HeadParamNames(q.sources, country, category);
    OptionalParamNames("q", q.query);
    assert ParamNames(paging) == ["page", "pageSize"];
    NamesOfThreeParts(ParamNames(head), ParamNames(query), ParamNames(TopHeadlinesParams(q, country, category)));
  }

  /** Membership in names made of leading names, an optional keyword and the paging. */
  lemma NamesOfThreeParts(hn: seq<string>, qn: seq<string>, names: seq<string>)
    requires names == hn + qn + ["page", "pageSize"]
    requires "q" !in hn && (qn == [] || qn == ["q"])
    ensures "q" in names <==> qn == ["q"]
    ensures "sources" in names <==> "sources" in hn
    ensures "country" in names <==> "country" in hn
    ensures "category" in names <==> "category" in hn
  {
  }

  /** The names of the leading parameters: sources alone, or country and category
      when non-empty; never the keyword or the paging. */
  lemma HeadParamNames(sources: Option<string>, country: string, category: string)
    ensures var names := ParamNames(HeadParams(sources, country, category));
            && ("sources" in names <==> !IsNullOrWhiteSpace(sources))
            && ("country" in names <==> IsNullOrWhiteSpace(sources) && |country| > 0)
            && ("category" in names <==> IsNullOrWhiteSpace(sources) && |category| > 0)
            && "q" !in names && "page" !in names && "pageSize" !in names
            && (IsNullOrWhiteSpace(sources) && |country| > 0 ==> HeadParams(sources, country, category)[0] == ("country", country))
  {
    var c := if |country| > 0 then [("country", country)] else [];
    var k := if |category| > 0 then [("category", category)] else [];
    if IsNullOrWhiteSpace(sources) {
      ParamNamesAppend(c, k);
    }
  }

  /** An optional parameter is named exactly when its value is not blank. */
  lemma OptionalParamNames(name: string, value: Option<string>)
    ensures ParamNames(OptionalParam(name, value)) == (if IsNullOrWhiteSpace(value) then [] else [name])
  {
  }

  /** The request never combines sources with country or category; it carries
      sources exactly when the query has non-blank sources, and otherwise the
      country and category, defaulting to "us" and "general". */
  lemma TopHeadlinesSourcesExclusive(q: TopHeadlinesQuery, cache: Cache, t: Transport<NewsApiResponse>)
    ensures |GetTopHeadlines(q, cache, t).requests| <= 1
    ensures forall r :: r in GetTopHeadlines(q, cache, t).requests ==>
              && r.endpoint == "top-headlines"
              && (HasParam(r, "sources") <==> !IsNullOrWhiteSpace(q.sources))
              && (HasParam(r, "sources") ==> !HasParam(r, "country") && !HasParam(r, "category"))
              && (!HasParam(r, "sources") && q.country.None? ==> r.params[0] == ("country", DefaultCountry))
              && (!HasParam(r, "sources") && q.category.None? ==> HasParam(r, "category"))
  {
    TopHeadlinesParamNames(q, HeadCountry(q), HeadCategory(q));
  }

  /** Once a call has stored a page, the same query is answered from the cache
      with that page, whatever the upstream would say. */
  lemma TopHeadlinesSecondCallHits(q: TopHeadlinesQuery, cache: Cache,
                                   t: Transport<NewsApiResponse>, t2: Transport<NewsApiResponse>)
    ensures var s := GetTopHeadlines(q, cache, t);
            s.result.Success? ==>
              GetTopHeadlines(q, s.cache, t2)
                == Step(Success(s.result.value.(fromCache := true)), s.cache, [])
  {
  }

  // ── Full-text search ──────────────────────────────────────────────────────

  /** `NewsSearchQuery`. */
  datatype NewsSearchQuery = NewsSearchQuery(
    query: string, sources: Option<string>, language: Option<string>, sortBy: string,
    from: Option<string>, to: Option<string>, page: int, pageSize: int)

  /** Optional parameter: present only when its value is not blank. */
  function OptionalParam(name: string, value: Option<string>): seq<(string, string)> {
    if IsNullOrWhiteSpace(value) then [] else [(name, value.value)]
  }

  function SearchParams(q: NewsSearchQuery): seq<(string, string)> {
    [("q", q.query)]
    + OptionalParam("sources", q.sources) + OptionalParam("language", q.language)
    + OptionalParam("sortBy", Some(q.sortBy)) + OptionalParam("from", q.from) + OptionalParam("to", q.to)
    + [("page", IntToString(q.page)), ("pageSize", IntToString(q.pageSize))]
  }

  /** The cache key of a search: every field of the query, the sort order included. */
  function SearchKey(q: NewsSearchQuery): string {
    CacheKeys.Everything(q.query, q.sources, q.language, Some(q.sortBy), q.from, q.to, q.page, q.pageSize)
  }

  /** `SearchEverythingAsync`: a blank query returns an empty page at once. */
  function SearchEverything(q: NewsSearchQuery, cache: Cache, t: Transport<NewsApiResponse>)
    : (s: Step<Result<Listing, NewsError>>)
    ensures IsBlank(q.query) ==> s == Step(Success(Listing([], 0, false)), cache, [])
    ensures s.result.Failure? ==> s.cache == cache && |s.requests| == 1
  {
    if IsBlank(q.query) then Step(Success(Listing([], 0, false)), cache, [])
    else
      var key := SearchKey(q);
      if key in cache && cache[key].ArticlePage? then
        Step(Success(Listing(cache[key].articles, cache[key].total, true)), cache, [])
      else
        var req := Request("everything", SearchParams(q));
        match FetchNews(t)
        case Failure(e) => Step(Failure(e), cache, [req])
        case Success(r) =>
          var articles := FilterArticles(r.articles);
          Step(Success(Listing(articles, r.totalResults, false)),
               cache[key := ArticlePage(articles, r.totalResults)], [req])
  }

  /** A non-blank query that misses the cache asks the upstream once, with the query
      text first; a hit asks nothing and changes nothing. */
  lemma SearchRequest(q: NewsSearchQuery, cache: Cache, t: Transport<NewsApiResponse>)
    requires !IsBlank(q.query)
    ensures var s := SearchEverything(q, cache, t);
            && (s.result.Success? && s.result.value.fromCache ==> s.cache == cache && s.requests == [])
            && (!(s.result.Success? && s.result.value.fromCache) ==>
                  s.requests == [Request("everything", SearchParams(q))]
                  && s.requests[0].params[0] == ("q", q.query))
  {
  }

  /** For a non-blank query, a cached page under the search's key is returned as
      stored; otherwise a failure writes nothing, and a success returns the
      normalised articles and stores them, with the upstream total, under that key,
      leaving every other entry as it was. */
  lemma SearchCaching(q: NewsSearchQuery, cache: Cache, t: Transport<NewsApiResponse>)
    requires !IsBlank(q.query)
    ensures var s := SearchEverything(q, cache, t);
            var key := SearchKey(q);
            && (key in cache && cache[key].ArticlePage? ==>
                  s == Step(Success(Listing(cache[key].articles, cache[key].total, true)), cache, []))
            && (!(key in cache && cache[key].ArticlePage?) ==>
                  && (FetchNews(t).Failure? ==> s.result == Failure(FetchNews(t).error) && s.cache == cache)
                  && (FetchNews(t).Success? ==>
                        var articles := FilterArticles(FetchNews(t).value.articles);
                        && s.result == Success(Listing(articles, FetchNews(t).value.totalResults, false))
                        && s.cache == cache[key := ArticlePage(articles, FetchNews(t).value.totalResults)]))
  {
  }

  /** Once a search has stored a page, the same search is answered from the cache
      with that page; a blank search is answered empty either way. */
  lemma SearchSecondCallHits(q: NewsSearchQuery, cache: Cache,
                             t: Transport<NewsApiResponse>, t2: Transport<NewsApiResponse>)
    ensures var s := SearchEverything(q, cache, t);
            s.result.Success? && !IsBlank(q.query) ==>
              SearchEverything(q, s.cache, t2)
                == Step(Success(s.result.value.(fromCache := true)), s.cache, [])
  {
  }

  // ── Sources listing ───────────────────────────────────────────────────────

  /** The query parameters of a sources request: each non-blank filter, in the
      order category, language, country. */
  function SourcesParams(category: Option<string>, language: Option<string>, country: Option<string>)
    : seq<(string, string)>
  {
    OptionalParam("category", category) + OptionalParam("language", language) + OptionalParam("country", country)
  }

  /** `GetSourcesAsync`: a cached listing is returned as stored; otherwise one
      request is sent, a failure writes nothing and a success is stored under the
      filters' key. */
  function GetSources(category: Option<string>, language: Option<string>, country: Option<string>,
                      cache: Cache, t: Transport<SourcesApiResponse>): (s: Step<Result<SourceListing, NewsError>>)
    ensures var key := CacheKeys.Sources(category, language, country);
            && (key in cache && cache[key].SourcePage? ==>
                  s == Step(Success(SourceListing(cache[key].sources, true)), cache, []))
            && (!(key in cache && cache[key].SourcePage?) ==>
                  && s.requests == [Request("top-headlines/sources", SourcesParams(category, language, country))]
                  && (FetchSources(t).Failure? ==> s.result == Failure(FetchSources(t).error) && s.cache == cache)
                  && (FetchSources(t).Success? ==>
                        && s.result == Success(SourceListing(FetchSources(t).value.sources, false))
                        && s.cache == cache[key := SourcePage(FetchSources(t).value.sources)]))
  {
    var key := CacheKeys.Sources(category, language, country);
    if key in cache && cache[key].SourcePage? then
      Step(Success(SourceListing(cache[key].sources, true)), cache, [])
    else
      var req := Request("top-headlines/sources", SourcesParams(category, language, country));
      match FetchSources(t)
      case Failure(e) => Step(Failure(e), cache, [req])
      case Success(r) => Step(Success(SourceListing(r.sources, false)), cache[key := SourcePage(r.sources)], [req])
  }

  /** A sources request names exactly the non-blank filters, in the order category,
      language, country. */
  lemma SourcesParamNames(category: Option<string>, language: Option<string>, country: Option<string>)
    ensures ParamNames(SourcesParams(category, language, country))
              == (if IsNullOrWhiteSpace(category) then [] else ["category"])
                 + (if IsNullOrWhiteSpace(language) then [] else ["language"])
                 + (if IsNullOrWhiteSpace(country) then [] else ["country"])
  {
    var c := OptionalParam("category", category);
    var l := OptionalParam("language", language);
    var k := OptionalParam("country", country);
    ParamNamesAppend(c + l, k);
    ParamNamesAppend(c, l);
    OptionalParamNames("category", category);
    OptionalParamNames("language", language);
    OptionalParamNames("country", country);
  }

  /** Once a sources call has stored a listing, the same filters are answered from
      the cache with that listing, whatever the upstream would say. */
  lemma SourcesSecondCallHits(category: Option<string>, language: Option<string>, country: Option<string>,
                              cache: Cache, t: Transport<SourcesApiResponse>, t2: Transport<SourcesApiResponse>)
    ensures var s := GetSources(category, language, country, cache, t);
            s.result.Success? ==>
              GetSources(category, language, country, s.cache, t2)
                == Step(Success(s.result.value.(fromCache := true)), s.cache, [])
  {
  }

  /** A sources body whose own status reports an error is returned and cached as
      if it were a success. */
  lemma SourcesErrorBodyCached(sources: seq<SourceDto>, cache: Cache)
    requires CacheKeys.Sources(None, None, None) !in cache
    ensures var body := SourcesApiResponse("error", sources);
            var s := GetSources(None, None, None, cache, Responded(200, None, Some(body)));
            && s.result == Success(SourceListing(sources, false))
            && s.cache[CacheKeys.Sources(None, None, None)] == SourcePage(sources)
  {
  }

  // ── Related articles ──────────────────────────────────────────────────────

  const MaxKeywords: nat := 3
  const KeywordMinLength: nat := 4
  const RelatedLanguage: string := "en"
  const RelatedSortBy: string := "relevancy"

  /** The words longer than three characters, in order. */
  function LongWords(ws: seq<string>): (r: seq<string>)
    ensures |r| <= |ws|
    ensures forall k :: 0 <= k < |r| ==> |r[k]| >= KeywordMinLength && r[k] in ws
    ensures forall w :: w in ws && |w| >= KeywordMinLength ==> w in r
  {
    if |ws| == 0 then []
    else
      var rest := LongWords(ws[1..]);
      assert forall w :: w in ws <==> w == ws[0] || w in ws[1..];
      if |ws[0]| >= KeywordMinLength then [ws[0]] + rest else rest
  }

  /** Selecting the long words of a concatenation selects from each part, so the
      order of the words is kept. */
  lemma {:induction false} LongWordsAppend(a: seq<string>, b: seq<string>)
    ensures LongWords(a + b) == LongWords(a) + LongWords(b)
    decreases |a|
  {
    if |a| > 0 {
      assert (a + b)[0] == a[0];
      assert (a + b)[1..] == a[1..] + b;
      LongWordsAppend(a[1..], b);
    } else {
      assert a + b == b;
    }
  }

  /** A single word is selected exactly when it is longer than three characters. */
  lemma LongWordsSingle(w: string)
    ensures LongWords([w]) == (if |w| >= KeywordMinLength then [w] else [])
  {
    assert [w][1..] == [];
  }

  /** The keywords of a title: its first three space-separated words longer than
      three characters. */
  function Keywords(title: string): (kws: seq<string>)
    ensures |kws| <= MaxKeywords
    ensures forall k :: 0 <= k < |kws| ==> |kws[k]| >= KeywordMinLength && ' ' !in kws[k]
  {
    Take(LongWords(Tokens(title, ' ')), MaxKeywords)
  }

  /** The keywords are the leading long words of the title, in order; when there
      are fewer than three, every long word of the title is among them. */
  lemma KeywordsLead(title: string)
    ensures Keywords(title) <= LongWords(Tokens(title, ' '))
    ensures |Keywords(title)| < MaxKeywords ==>
              forall w :: w in Tokens(title, ' ') && |w| >= KeywordMinLength ==> w in Keywords(title)
  {
  }

  /** For a title written as words separated by single spaces, the keywords are the
      first three of those words that are longer than three characters. */
  lemma KeywordsOfWords(ws: seq<string>)
    requires forall k :: 0 <= k < |ws| ==> |ws[k]| > 0 && ' ' !in ws[k]
    ensures Keywords(Join(" ", ws)) == Take(LongWords(ws), MaxKeywords)
  {
    TokensJoin(ws, ' ');
  }

  /** The articles whose title differs from `title` ignoring case, in order. */
  function ExcludeTitle(articles: seq<Article>, title: string): (r: seq<Article>)
    ensures |r| <= |articles|
    ensures forall a :: a in r ==> a in articles && !EqualsIgnoreCase(a.title, title)
    ensures forall a :: a in articles && !EqualsIgnoreCase(a.title, title) ==> a in r
  {
    if |articles| == 0 then []
    else
      var rest := ExcludeTitle(articles[1..], title);
      assert forall a :: a in articles ==> a == articles[0] || a in articles[1..];
      if EqualsIgnoreCase(articles[0].title, title) then rest else [articles[0]] + rest
  }

  /** Excluding from a concatenation excludes from each part, so the order of the
      kept articles is the search's order. */
  lemma {:induction false} ExcludeTitleAppend(a: seq<Article>, b: seq<Article>, title: string)
    ensures ExcludeTitle(a + b, title) == ExcludeTitle(a, title) + ExcludeTitle(b, title)
    decreases |a|
  {
    if |a| > 0 {
      assert (a + b)[0] == a[0];
      assert (a + b)[1..] == a[1..] + b;
      ExcludeTitleAppend(a[1..], b, title);
    } else {
      assert a + b == b;
    }
  }

  /** A single article is kept exactly when its title differs ignoring case. */
  lemma ExcludeTitleSingle(x: Article, title: string)
    ensures ExcludeTitle([x], title) == (if EqualsIgnoreCase(x.title, title) then [] else [x])
  {
    assert [x][1..] == [];
  }

  /** The search a title's keywords lead to. */
  function RelatedQuery(kws: seq<string>, count: int): NewsSearchQuery {
    NewsSearchQuery(Join(" OR ", kws), None, Some(RelatedLanguage), RelatedSortBy, None, None, 1, count + 1)
  }

  /** `GetRelatedArticlesAsync`: searches the title's keywords joined by " OR " and
      returns at most `count` results other than the article itself; a title
      without keywords or any failure yields no articles. */
  function GetRelatedArticles(title: string, count: int, cache: Cache, t: Transport<NewsApiResponse>)
    : (s: Step<seq<Article>>)
    ensures |s.result| <= (if count < 0 then 0 else count)
    ensures forall a :: a in s.result ==> !EqualsIgnoreCase(a.title, title)
  {
    var kws := Keywords(title);
    if |kws| == 0 then Step([], cache, [])
    else
      var search := SearchEverything(RelatedQuery(kws, count), cache, t);
      match search.result
      case Failure(_) => Step([], search.cache, search.requests)
      case Success(page) =>
        var others := ExcludeTitle(page.articles, title);
        var r := Take(others, count);
        assert forall a :: a in r ==> a in others;
        Step(r, search.cache, search.requests)
  }

  /** Without keywords nothing is searched; a failed search yields nothing and
      leaves the cache as it was; otherwise the result is the first `count` found
      articles titled differently from the original, in the search's order. */
  lemma RelatedArticlesBehaviour(title: string, count: int, cache: Cache, t: Transport<NewsApiResponse>)
    ensures |Keywords(title)| == 0 ==> GetRelatedArticles(title, count, cache, t) == Step([], cache, [])
    ensures |Keywords(title)| > 0 ==>
              var search := SearchEverything(RelatedQuery(Keywords(title), count), cache, t);
              var s := GetRelatedArticles(title, count, cache, t);
              && s.requests == search.requests && s.cache == search.cache
              && (search.result.Failure? ==> s.result == [] && s.cache == cache)
              && (search.result.Success? ==>
                    s.result == Take(ExcludeTitle(search.result.value.articles, title), count))
  {
  }

  /** Four tabs: the only long word of such a title is white space. */
  predicate FourTabs(s: string) {
    |s| == 4 && forall i :: 0 <= i < |s| ==> s[i] == '\t'
  }

  /** A title of four tabs has a keyword, yet the blank-query guard stops the
      search: no request is made. */
  lemma RelatedBlankKeyword(title: string, cache: Cache, t: Transport<NewsApiResponse>)
    requires FourTabs(title)
    ensures Keywords(title) == [title]
    ensures GetRelatedArticles(title, 6, cache, t) == Step([], cache, [])
  {
    TabsKeyword(title);
    BlankKeywordSearchesNothing(title, title, 6, cache, t);
  }

  /** A single keyword that is all white space gives a blank search, so the call
      returns nothing without a request. */
  lemma BlankKeywordSearchesNothing(title: string, w: string, count: int, cache: Cache,
                                    t: Transport<NewsApiResponse>)
    requires Keywords(title) == [w] && IsBlank(w)
    ensures GetRelatedArticles(title, count, cache, t) == Step([], cache, [])
  {
    assert Join(" OR ", [w]) == w;
  }

  /** Four tabs form one word, longer than three characters. */
  lemma TabsKeyword(s: string)
    requires FourTabs(s)
    ensures Keywords(s) == [s]
  {
    assert RunLength(s, ' ') == 4 by {
      RunLengthOfWord(s, ' ', "");
      assert s + "" == s;
    }
    assert Tokens(s, ' ') == [s] by {
      assert s[..4] == s;
      assert s[4..] == "";
    }
    LongWordsSingle(s);
  }
}

# NewsApp service core in Dafny

This project models the service layer of NewsApp, an ASP.NET Core MVC front end
for the NewsAPI.org REST service.

The model covers:

- **Top-headline, search and source listings.** The model covers how the service
  turns a query into an upstream request, and how it keys, fills and consults its
  in-memory cache.
- **Country headlines.** The three-tier fallback is modelled:
  1. top headlines for the country;
  2. the country's curated sources;
  3. a keyword search in the country's language.
- **Related articles.** Keywords are drawn from a title, and the article itself is
  excluded from the results.
- **Classification of upstream failures.** Each HTTP transport outcome maps to one
  member of the exception hierarchy.
- **The global exception filter.** It maps each exception kind to an error page
  and an HTTP status.
- **Cache key construction.** The model shows which queries share a slot.
- **The reference tables.** These are the categories, countries, languages,
  curated sources and icons, with their lookups.
- **The article view model.** This covers the display helpers and the pagination
  arithmetic.

Every service call is modelled as a pure function from its inputs, the cache and
the upstream's answers to a `Step(result, cache, requests)`. The `Step` records:

- the value returned;
- the cache afterwards;
- the requests issued, in order.

The upstream is described by a `Transport` value, one of:

- the request timed out;
- the connection failed;
- some other exception;
- a response with a status code, the error envelope that can be read from its
  body, and the typed payload when the body deserialises.

The country fallback takes one such value per tier.

Modules, one per file:

- `Wrappers` (`wrappers.dfy`): `Option` and `Result`.
- `Text` (`text.dfy`): the .NET string operations the code relies on. These are
  white-space tests, trimming, ASCII lower-casing, substring search, `Join`,
  `Split` with empty entries removed, and decimal formatting of integers.
- `Exceptions` (`exceptions.dfy`): the exception hierarchy.
- `Dtos` (`dtos.dfy`): the upstream JSON records.
- `ViewModels` (`view_models.dfy`): `Article`, its helpers, and `PaginationInfo`.
- `NewsConstants` (`news_constants.dfy`): the reference tables and lookups.
- `CacheKeys` (`cache_keys.dfy`): `CacheKeyBuilder`.
- `Fetch` (`fetch.dfy`): `FetchAsync`.
- `NewsService` (`news_service.dfy`): the listing, search, sources and related-article calls, plus `FilterArticles`.
- `CountryHeadlines` (`country_headlines.dfy`): `GetHeadlinesByCountryAsync`.
- `ExceptionFilter` (`exception_filter.dfy`): `GlobalExceptionFilter`.

Behaviours of the code worth noting:

- **Cache key case.** Only some segments of the cache keys are lower-cased. In the
  search key, `from` and `to` keep their case. The sources key lower-cases
  nothing. So two queries that differ only in case can get different slots
  (`CacheKeys.SearchDatesKeepCase`, `CacheKeys.SourcesFiltersKeepCase`).
- **Tier 2 condition.** Tier 2 of the country fallback runs when the joined
  source list is not empty. It does not test whether the mapping has an entry.
  `NewsConstants.SourcesParameterNonEmpty` shows the two tests agree on the
  shipped table.
- **Tier 1 parameters.** Tier 1 always sends both `country` and `category`, even
  when either is empty.
- **Sources envelope status.** The sources envelope's `status` is never checked.
  A sources body with status `"error"` and HTTP 200 is returned and cached
  (`Fetch.SourcesStatusUnchecked`, `NewsService.SourcesErrorBodyCached`).

## Model

| member | source | states |
|---|---|---|
| Exceptions.StatusCode | NewsApp/Infrastructure/Exceptions/NewsAppExceptions.cs:11-36 | An invalid-key exception carries status 401, a rate-limit exception 429, a generic API exception the status it was raised with, and an exception outside the API family none |
| Exceptions.ApiCode | NewsApp/Infrastructure/Exceptions/NewsAppExceptions.cs:11-36 | The two fixed subclasses carry the codes "apiKeyInvalid" and "rateLimited", a generic API exception the code it was raised with, and non-API exceptions no code |
| Exceptions.StatusDoesNotDetermineKind | NewsApp/Infrastructure/Exceptions/NewsAppExceptions.cs:16-28 | A generic API exception can carry the same status 401 as the invalid-key exception while being a different kind |
| Dtos.Defaults | NewsApp/Models/Api/NewsApiDtos.cs:7-65 | A JSON object with no properties yields an envelope with no articles, no code or message and a non-success status, and an article with empty title and url and no source |
| ViewModels.FromDto | NewsApp/Models/ViewModels/ViewModels.cs:39-50 | Every field of the record reaches the article unchanged; a missing source object gives no source id and the name "Unknown Source" |
| ViewModels.FromDtoRoundTrip | NewsApp/Models/ViewModels/ViewModels.cs:39-50 | The mapping is undone by building a record from the article, and a record that has a source object is rebuilt exactly |
| ViewModels.FromDtoMissingSourceCollides | NewsApp/Models/ViewModels/ViewModels.cs:41-42 | A record without a source cannot be told apart from one whose source is literally named "Unknown Source" without an id |
| ViewModels.DisplayAuthor | NewsApp/Models/ViewModels/ViewModels.cs:20 | The byline is the author unless the author is null or blank, and then the source name |
| ViewModels.DisplayAuthorBlank | NewsApp/Models/ViewModels/ViewModels.cs:20 | The byline is blank exactly when both the author and the source name are blank |
| ViewModels.ShortDescription | NewsApp/Models/ViewModels/ViewModels.cs:22-24 | The shown description never exceeds 160 characters; a blank one shows the placeholder, a long one shows its first 157 characters and an ellipsis |
| ViewModels.ShortDescriptionIsPrefix | NewsApp/Models/ViewModels/ViewModels.cs:22-24 | The shown text is a prefix of the description, apart from a final ellipsis, and it is shorter exactly when the description is longer than 160 characters |
| ViewModels.HasImageCharacterised | NewsApp/Models/ViewModels/ViewModels.cs:25-26 | An article has an image exactly when its URL is present, not blank, and "removed.png" occurs at no position of it in any letter case |
| ViewModels.CeilDiv | NewsApp/Models/ViewModels/ViewModels.cs:60-61 | The quotient is the ceiling of the real division, for numerators of either sign |
| ViewModels.TotalPages | NewsApp/Models/ViewModels/ViewModels.cs:60-61 | An empty result has one page; otherwise all but the last page are full and the pages hold every result |
| ViewModels.TotalPagesLeast | NewsApp/Models/ViewModels/ViewModels.cs:60-61 | There is at least one page, and no smaller number of pages of the same size holds a non-empty result |
| ViewModels.EndIndex | NewsApp/Models/ViewModels/ViewModels.cs:65 | The last shown position is at most the result count and at most the end of the current page, and it is one of the two |
| ViewModels.PageRangeWithinResults | NewsApp/Models/ViewModels/ViewModels.cs:60-65 | On every page from the first to the last, the shown range is non-empty, lies inside the results and holds at most one page |
| ViewModels.HasNextIffMoreResults | NewsApp/Models/ViewModels/ViewModels.cs:60-65 | There is a next page exactly when the current page ends before the last result |
| NewsConstants.GetCategoryIcon | NewsApp/Models/NewsConstants.cs:54-66 | The icon of a category is looked up by its lower-cased name; an unknown category gets the newspaper icon |
| NewsConstants.GetSourcesForCountry | NewsApp/Models/NewsConstants.cs:93-129 | There is a sources parameter exactly when the lower-cased code has a non-empty list, and it is the first 20 ids joined by commas |
| NewsConstants.GetLanguageForCountry | NewsApp/Models/NewsConstants.cs:72-86 | The language of the lower-cased code, English for an unmapped code |
| NewsConstants.FirstValueSpec | NewsApp/Services/NewsService.cs:220-221 | The country-name lookup finds nothing exactly when no pair has the code, and otherwise returns the value of the first pair that has it |
| NewsConstants.FirstValueFindsFirst | NewsApp/Services/NewsService.cs:220-221 | Given the position of the first pair with the code, the lookup returns that pair's value |
| NewsConstants.LookupsIgnoreCase | NewsApp/Models/NewsConstants.cs:65-133 | The icon, sources and language lookups give the same answer for a code and for its lower-cased form |
| NewsConstants.SourcesParameterDecodes | NewsApp/Models/NewsConstants.cs:124-129 | Splitting the sources parameter at its commas gives back exactly the first 20 ids of the country's list |
| NewsConstants.ShippedIdsWellFormed | NewsApp/Models/NewsConstants.cs:93-129 | Every shipped source id is non-empty and contains no comma, so joining the ids with commas loses nothing |
| NewsConstants.ListedCountriesAreMapped | NewsApp/Models/NewsConstants.cs:11-118 | Every country on the menu is lower case and has both a curated source list and a language |
| NewsConstants.ShippedListsWithinCap | NewsApp/Models/NewsConstants.cs:93-127 | No shipped source list is longer than the 20-id cap, so the cap never drops an id |
| NewsConstants.CategoriesHaveIcons | NewsApp/Models/NewsConstants.cs:5-66 | Every menu category has its own icon, and an unknown category shows the general category's icon |
| NewsConstants.SourcesParameterNonEmpty | NewsApp/Models/NewsConstants.cs:124-129 | A sources parameter, when there is one, is never the empty string |
| Text.TrimSlice | NewsApp/Services/NewsService.cs:144 | Trimming keeps a contiguous middle part of the text, drops only white space on either side, and leaves no white space at its ends |
| Text.LowerHasNoUpper | NewsApp/Services/NewsService.cs:144 | Lower-casing leaves no upper-case ASCII letter |
| Text.TrimLower | NewsApp/Services/NewsService.cs:144 | Lower-casing then trimming keeps a contiguous part of the lower-cased text with only white space dropped on either side, leaves no upper-case letter and no white space at its ends |
| Text.TokensJoin | NewsApp/Services/NewsService.cs:255 | Splitting with empty entries removed undoes joining non-empty, separator-free words |
| Text.IntToStringRoundTrip | NewsApp/Infrastructure/Cache/CacheKeyBuilder.cs:21 | The decimal text of a page number or page size parses back to that number |
| Text.IntToStringInjective | NewsApp/Infrastructure/Cache/CacheKeyBuilder.cs:21 | Different numbers have different decimal texts |
| Text.IntToStringChars | NewsApp/Infrastructure/Cache/CacheKeyBuilder.cs:21 | The decimal text of a number holds only digits and a minus sign, so never a key separator |
| CacheKeys.TopHeadlinesKeyIdentifiesQuery | NewsApp/Infrastructure/Cache/CacheKeyBuilder.cs:13-23 | When no segment contains the bar separator, two headline queries share a key exactly when they agree on every segment up to letter case and on page and page size |
| CacheKeys.TopHeadlinesCollision | NewsApp/Infrastructure/Cache/CacheKeyBuilder.cs:13-23 | A country containing the separator followed by "cat=" makes two different queries share one key |
| CacheKeys.TopHeadlinesPageDistinct | NewsApp/Infrastructure/Cache/CacheKeyBuilder.cs:13-23 | Different pages or page sizes of the same query always get different keys |
| CacheKeys.EverythingKeyIdentifiesQuery | NewsApp/Infrastructure/Cache/CacheKeyBuilder.cs:25-37 | When no segment contains the bar separator, two searches share a key exactly when their text, sources, language and sort agree up to case, their dates agree exactly, and page and page size agree |
| CacheKeys.SourcesKeyIdentifiesQuery | NewsApp/Infrastructure/Cache/CacheKeyBuilder.cs:39-40 | When category and language contain no bar separator, two source queries share a key exactly when their three filters agree exactly, a null filter counting as empty |
| CacheKeys.TopHeadlinesIgnoreCase | NewsApp/Infrastructure/Cache/CacheKeyBuilder.cs:13-23 | Headline keys ignore the letter case of country, category, sources and text, and a null field gets the same key as an empty one |
| CacheKeys.SearchDatesKeepCase | NewsApp/Infrastructure/Cache/CacheKeyBuilder.cs:25-37 | Two searches whose dates differ only in letter case get different keys |
| CacheKeys.SourcesFiltersKeepCase | NewsApp/Infrastructure/Cache/CacheKeyBuilder.cs:39-40 | Two source queries whose categories differ only in letter case get different keys |
| CacheKeys.TopHeadlinesSplit | NewsApp/Infrastructure/Cache/CacheKeyBuilder.cs:13-23 | A headline key is its prefix, its four text segments, a bar separator, then the page and page-size segments |
| CacheKeys.PageSegmentsInjective | NewsApp/Infrastructure/Cache/CacheKeyBuilder.cs:21-22 | The page and page-size segments determine both numbers |
| CacheKeys.FamiliesDisjoint | NewsApp/Infrastructure/Cache/CacheKeyBuilder.cs:13-40 | Headline, search and source keys carry their own prefixes and never collide with each other |
| Fetch.FetchNews | NewsApp/Services/NewsService.cs:295-351 | An article fetch succeeds exactly on a 2xx response whose body deserialises to an envelope with status "ok", and then returns the received envelope itself |
| Fetch.FetchSources | NewsApp/Services/NewsService.cs:295-351 | A sources fetch succeeds exactly on a 2xx response whose body deserialises, and then returns the body whatever its status |
| Fetch.TransportFailures | NewsApp/Services/NewsService.cs:299-313 | A timeout and a connection failure become API exceptions with their fixed messages; any other exception propagates unchanged |
| Fetch.HttpStatusClassified | NewsApp/Services/NewsService.cs:316-333 | HTTP 401 becomes the invalid-key exception and 429 the rate-limit exception; any other error status becomes an API exception carrying that status, the envelope's code or "", and the message "NewsAPI returned <status>: " followed by the envelope's message or "Unknown API error" |
| Fetch.UndeserialisableIsError | NewsApp/Services/NewsService.cs:335-337 | A success response whose body does not deserialise is an error for both envelope types |
| Fetch.LogicalStatusClassified | NewsApp/Services/NewsService.cs:339-348 | An "error" envelope under HTTP 2xx is an invalid-key exception exactly for the key codes, a rate-limit exception exactly for "rateLimited", and otherwise an API exception with no status and the envelope's code |
| Fetch.EmptyEnvelopeIsError | NewsApp/Services/NewsService.cs:335-348 | An empty JSON object under HTTP 200 is rejected with the generic API error |
| Fetch.SourcesStatusUnchecked | NewsApp/Services/NewsService.cs:340 | A sources envelope whose status is not "ok" is still returned as a success |
| Fetch.FetchErrorsAreApiErrors | NewsApp/Services/NewsService.cs:295-351 | Every failure that fetching itself raises is an API exception; only foreign exceptions escape the hierarchy |
| ExceptionFilter.OnException | NewsApp/Filters/GlobalExceptionFilter.cs:30-92 | The exception is always marked handled, and the response status is the status shown on the error page |
| ExceptionFilter.StatusFollowsException | NewsApp/Filters/GlobalExceptionFilter.cs:36-68 | The response status is the API exception's own status, 500 when it has none, and 500 for every other exception |
| ExceptionFilter.TitleByKind | NewsApp/Filters/GlobalExceptionFilter.cs:38-68 | Each page title belongs to exactly one exception kind; an API error shows its own message, and an unexpected error outside development shows the fixed text |
| ExceptionFilter.ClassBeatsStatus | NewsApp/Filters/GlobalExceptionFilter.cs:38-59 | A generic API exception with status 401 and the invalid-key code still gets the generic API error page, with status 401 |
| ExceptionFilter.UpstreamStatusReachesResponse | NewsApp/Filters/GlobalExceptionFilter.cs:54-90 | Any upstream error status reaches the browser unchanged; a timeout shows the timeout message with 500 |
| NewsService.ParamNames | NewsApp/Services/NewsService.cs:61-70 | The names of a request's parameters, in order, one per parameter |
| NewsService.FilterArticles | NewsApp/Services/NewsService.cs:287-291 | No more articles come out than records go in; each output has a non-blank title other than "[Removed]" and is the mapping of a kept input record |
| NewsService.FilterArticlesSelects | NewsApp/Services/NewsService.cs:287-291 | The i-th output is the mapping of the record at the i-th kept position |
| NewsService.KeptPositionsIncreasing | NewsApp/Services/NewsService.cs:287-291 | The kept positions are strictly increasing, so input order is preserved |
| NewsService.KeptPositionsExact | NewsApp/Services/NewsService.cs:289 | A position is kept exactly when its record has a non-blank title other than "[Removed]" |
| NewsService.FilterArticlesAppend | NewsApp/Services/NewsService.cs:287-291 | Filtering distributes over concatenation |
| NewsService.FilterDropsDefaults | NewsApp/Services/NewsService.cs:289 | A record without a title or titled "[Removed]" is dropped, and an empty url does not cause a drop |
| NewsService.TopHeadlinesParamNames | NewsApp/Services/NewsService.cs:48-70 | Sources are sent exactly when given; country and category exactly when there are no sources and they are non-empty; the text exactly when not blank |
| NewsService.HeadParamNames | NewsApp/Services/NewsService.cs:61-65 | Sources are sent alone when given; otherwise country and category are each sent exactly when non-empty, country first |
| NewsService.TopHeadlinesSourcesExclusive | NewsApp/Services/NewsService.cs:45-79 | A headline call sends at most one request, to top-headlines, and never combines sources with country or category; without sources it defaults to "us" and a category |
| NewsService.GetTopHeadlines | NewsApp/Services/NewsService.cs:45-79 | A page cached under the query's key (built from the effective country and category) is returned as stored with no request and the cache kept; otherwise one request is sent, a failure surfaces the fetch error and keeps the cache, and a success returns the filtered page and stores it with the upstream total under that key, nothing else changing |
| NewsService.TopHeadlinesSecondCallHits | NewsApp/Services/NewsService.cs:53-78 | After a successful call, the same query is answered from the cache with the same page, whatever the upstream would answer |
| NewsService.SearchEverything | NewsApp/Services/NewsService.cs:81-113 | A blank search text returns an empty page at once, touching neither cache nor upstream; a failure leaves the cache unchanged after exactly one request |
| NewsService.SearchRequest | NewsApp/Services/NewsService.cs:87-106 | A non-blank search either answers from the cache without a request or sends exactly one request to "everything", led by the search text |
| NewsService.SearchCaching | NewsApp/Services/NewsService.cs:87-112 | For a non-blank text, a page cached under the search's key is returned as stored; otherwise a failure keeps the cache, and a success returns the filtered page and stores it with the upstream total under that key, nothing else changing |
| NewsService.SearchSecondCallHits | NewsApp/Services/NewsService.cs:87-112 | After a successful non-blank search, the same search is answered from the cache with the same page |
| NewsService.GetSources | NewsApp/Services/NewsService.cs:115-137 | A listing cached under the filters' key is returned as stored with no request; otherwise exactly one sources request is sent with the non-blank filters, a failure keeps the cache, and a success returns the body's sources and stores them under that key |
| NewsService.SourcesParamNames | NewsApp/Services/NewsService.cs:126-129 | A sources request names exactly the non-blank filters, in the order category, language, country |
| NewsService.SourcesSecondCallHits | NewsApp/Services/NewsService.cs:118-134 | After a successful sources call, the same filters are answered from the cache with the same listing |
| NewsService.SourcesErrorBodyCached | NewsApp/Services/NewsService.cs:115-137 | A sources body with status "error" is returned as a fresh listing and stored in the cache |
| NewsService.LongWords | NewsApp/Services/NewsService.cs:256 | Exactly the words longer than three characters are kept: every kept word is one of the input words, and every long input word is kept |
| NewsService.LongWordsAppend | NewsApp/Services/NewsService.cs:256 | Selecting long words distributes over concatenation, so the words keep their order |
| NewsService.LongWordsSingle | NewsApp/Services/NewsService.cs:256 | A single word is kept exactly when it is longer than three characters |
| NewsService.Keywords | NewsApp/Services/NewsService.cs:255-258 | At most three keywords, each longer than three characters and free of spaces |
| NewsService.KeywordsLead | NewsApp/Services/NewsService.cs:255-258 | The keywords are a prefix of the title's long words; with fewer than three keywords, every long word of the title is one of them |
| NewsService.KeywordsOfWords | NewsApp/Services/NewsService.cs:255-258 | For a title made of words, the keywords are its first three words longer than three characters, in order |
| NewsService.ExcludeTitle | NewsApp/Services/NewsService.cs:273-274 | Exactly the articles whose title differs from the given one, ignoring case, are kept |
| NewsService.ExcludeTitleAppend | NewsApp/Services/NewsService.cs:273-274 | Exclusion distributes over concatenation, so the kept articles stay in the search's order |
| NewsService.ExcludeTitleSingle | NewsApp/Services/NewsService.cs:273-274 | A single article is kept exactly when its title differs from the given one ignoring case |
| NewsService.GetRelatedArticles | NewsApp/Services/NewsService.cs:250-283 | At most `count` related articles come back, none titled like the original in any case |
| NewsService.RelatedArticlesBehaviour | NewsApp/Services/NewsService.cs:250-283 | A title without keywords gives nothing and touches nothing; otherwise the call has the keyword search's requests and cache, returns nothing on failure, and on success the first `count` search results whose title differs from the original |
| NewsService.RelatedBlankKeyword | NewsApp/Services/NewsService.cs:255-263 | A title of four tabs yields a keyword, yet the blank-query guard of the search makes the call return nothing without a request |
| NewsService.BlankKeywordSearchesNothing | NewsApp/Services/NewsService.cs:255-263 | When the only keyword is white space, the joined search text is blank and the call returns nothing without a request or a cache change |
| CountryHeadlines.NormaliseCountry | NewsApp/Services/NewsService.cs:144 | The normalised country is the lower-cased input with white space removed from both ends: a slice of it with only white space on either side, no upper-case letter and no white space at its ends |
| CountryHeadlines.NormaliseTwoLetters | NewsApp/Services/NewsService.cs:144 | A two-letter lower-case code is left unchanged by normalisation |
| CountryHeadlines.Cached | NewsApp/Services/NewsService.cs:149-150 | A cache hit returns the stored page, total and strategy label, flagged as cached |
| CountryHeadlines.Tier3 | NewsApp/Services/NewsService.cs:214-247 | Tier 3 answers from its slot without a request; otherwise it sends one search and on success stores and returns it labelled "search", or on any failure returns an empty "failed" result and stores nothing |
| CountryHeadlines.FromTier2 | NewsApp/Services/NewsService.cs:180-247 | After tier 1, at most two requests follow; a fresh "sources" result has at least one article; a fresh result is stored under its own tier's key, except a failure, which stores nothing |
| CountryHeadlines.Fallback | NewsApp/Services/NewsService.cs:146-247 | For a normalised country and its table entries: at most three requests; a fresh result meets its tier's threshold and is the only value stored, under its tier's key; cached and failed results change nothing |
| CountryHeadlines.GetHeadlinesByCountry | NewsApp/Services/NewsService.cs:141-248 | At most three requests; a fresh "top-headlines" result has at least three articles and a "sources" one at least one; a fresh result is stored under its tier's key for the normalised country; cached and failed results change nothing |
| CountryHeadlines.CacheHitEndsTheCall | NewsApp/Services/NewsService.cs:148-216 | A cached answer comes from the first tier whose slot holds a labelled page; each tier before it missed its slot and was not accepted, one request each; a hit on the tier-1 slot always wins |
| CountryHeadlines.Tier1Acceptance | NewsApp/Services/NewsService.cs:148-170 | Tier 1 always asks top-headlines by country and category first, and its answer is kept exactly when it succeeds with at least three valid articles |
| CountryHeadlines.Tier1RequestShape | NewsApp/Services/NewsService.cs:154-158 | Tier 1 sends country, category, page and page size, in that order |
| CountryHeadlines.Tier2RequestShape | NewsApp/Services/NewsService.cs:189-193 | Tier 2 sends the sources with page and page size and never a country or category |
| CountryHeadlines.Tier1FallsThrough | NewsApp/Services/NewsService.cs:152-176 | A tier-1 answer that is not accepted, including any failure, leaves the outcome entirely to the later tiers, after the one tier-1 request |
| CountryHeadlines.UnmappedCountrySkipsTier2 | NewsApp/Services/NewsService.cs:180-181 | A country without curated sources goes from tier 1 straight to tier 3, and no request carries sources |
| CountryHeadlines.Tier2Step | NewsApp/Services/NewsService.cs:180-210 | Tier 2 asks with the country's sources, is kept exactly when it succeeds with at least one valid article, and otherwise hands over to tier 3 |
| CountryHeadlines.Tier2Acceptance | NewsApp/Services/NewsService.cs:180-210 | For a mapped country whose tier 1 was not accepted, the second request carries the curated sources, and its answer is kept exactly when it has at least one valid article |
| CountryHeadlines.Tier3Step | NewsApp/Services/NewsService.cs:218-247 | Tier 3 sends its one search; success returns the filtered page labelled "search", failure returns an empty "failed" result and leaves the cache alone |
| CountryHeadlines.Tier3Outcome | NewsApp/Services/NewsService.cs:212-247 | When tiers 1 and 2 are not accepted, the last request is the search, there are three requests for a mapped country and two otherwise, and the outcome is tier 3's |
| CountryHeadlines.FailedMeansSearchFailed | NewsApp/Services/NewsService.cs:243-247 | A "failed" result happens only when the search itself failed, after it was sent |
| CountryHeadlines.SearchQueryShape | NewsApp/Services/NewsService.cs:224-233 | The search text is the category, or "news" for general, then a space and the country's display name; the country's language and newest-first sorting follow |
| CountryHeadlines.LookupSearchData | NewsApp/Services/NewsService.cs:220-222 | The display name is the first listed name for the code, or the code itself when unlisted; the language is the table's language for the code |
| CountryHeadlines.RateLimitFallsThrough | NewsApp/Services/NewsService.cs:173-176 | A rate-limit response in tier 1 is swallowed and a further request is made |
| CountryHeadlines.StrategyLabels | NewsApp/Services/NewsService.cs:166-246 | The four strategy labels are "top-headlines", "sources", "search" and "failed", and they are distinct |
| CountryHeadlines.TierKeyDigit | NewsApp/Services/NewsService.cs:148-214 | Every tier key starts with "country_s" followed by its tier digit |
| CountryHeadlines.TierSlotsDisjoint | NewsApp/Services/NewsService.cs:148-214 | Slots of different tiers never coincide, and no tier slot equals any key carrying the headline, search or sources prefix |
| CountryHeadlines.BuilderKeysHavePrefix | NewsApp/Infrastructure/Cache/CacheKeyBuilder.cs:13-40 | Every headline, search and sources key starts with its family prefix, so no tier slot equals any of them |
| CountryHeadlines.TierKeyAmbiguous | NewsApp/Services/NewsService.cs:148 | Because country and category are joined by '_', the country "a_b" with category "c" shares a slot with "a" and "b_c" |
| CountryHeadlines.ListedCountriesAttemptTier2 | NewsApp/Services/NewsService.cs:144-181 | Every menu country is unchanged by normalisation and qualifies for tier 2 |
| CountryHeadlines.MappedFallbackAttemptsTier2 | NewsApp/Services/NewsService.cs:180-191 | With a source list and tier 1 not accepted, a tier-2 slot hit is returned after the one request, and otherwise the second request carries sources |
| CountryHeadlines.ListedCountryAttemptsTier2 | NewsApp/Services/NewsService.cs:144-191 | For a menu country whose tier 1 was not accepted, a tier-2 slot hit is returned after the one request, and otherwise the second request carries sources |
| CountryHeadlines.Tier2Hit | NewsApp/Services/NewsService.cs:183-185 | A labelled page in the tier-2 slot is returned without any request and without changing the cache |
| CountryHeadlines.AllTiersAsked | NewsApp/Services/NewsService.cs:146-241 | With an empty cache, a source list and neither headline tier accepted, the three requests go out in tier order and only the search page is stored, under the tier-3 key |
| CountryHeadlines.FrenchLookup | NewsApp/Models/NewsConstants.cs:11-129 | France's table entries are the three French source ids, the French language and the name "France" |
| CountryHeadlines.FrenchTechnologyExample | NewsApp/Services/NewsService.cs:141-248 | For France and technology with one article in tier 1 and none in tier 2, the three requests are made, the search is "technology France" in French, and only the tier-3 slot is filled |

## Left out

- HTTP, JSON and the clock are not modelled as effects. Each upstream answer is an
  input `Transport` value: a timeout, a connection failure, another exception, or
  a status with the parsed error envelope and the parsed payload.
  JSON parsing itself is not modelled.
  A JSON `null` for the `articles` or `sources` list cannot be represented.
  Such a null would make the C# code throw when it reads the list; in the model
  the lists are sequences.
- Cache expiry is not modelled. The cache is a map from key to a value tagged with
  its C# type. The durations (`CacheDurationMinutes`, times six for sources) are
  not modelled either, so an entry never expires within one call.
- Logging, the Polly retry and circuit-breaker policies, request ids,
  `NewsApiSettings`, `Program` and the controllers are not part of this model.
  The retry policy sits below the single fetch that the model treats as one
  answer.
- `Article.TimeAgo` and `FormatTimeAgo` are not modelled, because they read the
  system clock. Publication times are an opaque `Instant`.
- The `Languages` and `SortOptions` tables are not modelled. They only feed the
  views.
- Culture-specific string handling is left out:
  - `ToLower` and `OrdinalIgnoreCase` are modelled on ASCII letters only.
  - White space is ' ' and characters 9 to 13.
  - Lengths count `char` values, as UTF-16 does for the text in the tables.
- Concurrency is not modelled. Each call is one atomic step on the cache. In the
  C# code, concurrent requests share the `IMemoryCache` and can interleave at
  every `await`. For example, another request can fill the tier-2 slot while
  tier 1 is in flight, or two misses on one key can both fetch and both write.
- Integer overflow is not modelled. The 32-bit arithmetic is done on unbounded
  integers, e.g. `count + 1`, `page * pageSize` and `(currentPage - 1) * pageSize + 1`.
- ViewModels.TotalPages: requires a positive page size. The C# code divides a
  `double` by zero and casts infinity to `int` when the page size is 0.
- ExceptionFilter.OnException: the development-mode text `ex.ToString()` is a
  parameter, because it is produced by the runtime.
- The inner exceptions attached to the timeout and connection errors are not
  modelled.
- `FetchAsync`'s endpoint path and query-string encoding are not modelled. A
  request is modelled as its endpoint name and the ordered parameter pairs.
- ViewModels.FromDto: `ArticleSourceDto.Name`, `ArticleDto.Title` and
  `ArticleDto.Url` are declared as non-nullable strings, yet a JSON `null` in
  them is stored as null. The model types them as strings, so it cannot
  represent that null. A null source name would show as "Unknown Source" through
  the `??` fallback. A null title is dropped by `FilterArticles` like a blank one.
- ViewModels.ShortDescription: .NET counts UTF-16 code units, while the model's
  strings are sequences of Unicode characters. For text outside the Basic
  Multilingual Plane, the 160-character test and the 157-character cut count
  differently, and the C# cut can split a surrogate pair. The model never
  splits a character.
- NewsService.LongWords: the test "longer than three characters" counts
  characters, where the C# code counts UTF-16 code units. A word of two
  characters outside the Basic Multilingual Plane is a keyword for the C# code
  but not for the model.
- NewsService.GetRelatedArticles: the catch-all handler is modelled for the only
  exceptions the body can raise, the fetch failures of the search it makes.

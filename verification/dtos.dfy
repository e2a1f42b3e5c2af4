/** The shapes the upstream JSON is read into, with the defaults a missing JSON
    property leaves behind. Timestamps are kept abstract as a tick count. */
module Dtos {
  import opened Wrappers

  /** `DateTime`, kept abstract. */
  type Instant = int

  /** `ArticleSourceDto`. */
  datatype ArticleSourceDto = ArticleSourceDto(id: Option<string>, name: string)

  /** `ArticleDto`: one raw article record as the upstream returns it. */
  datatype ArticleDto = ArticleDto(
    source: Option<ArticleSourceDto>,
    author: Option<string>,
    title: string,
    description: Option<string>,
    url: string,
    urlToImage: Option<string>,
    publishedAt: Option<Instant>,
    content: Option<string>)

  /** `NewsApiResponse`: the envelope of the article endpoints. `code` and
      `message` are only present on error responses. */
  datatype NewsApiResponse = NewsApiResponse(
    status: string,
    code: Option<string>,
    message: Option<string>,
    totalResults: int,
    articles: seq<ArticleDto>)

  /** `SourceDto`: one publisher of the sources listing. */
  datatype SourceDto = SourceDto(
    id: string,
    name: string,
    description: Option<string>,
    url: Option<string>,
    category: Option<string>,
    language: Option<string>,
    country: Option<string>)

  /** `SourcesApiResponse`: the envelope of the sources endpoint. */
  datatype SourcesApiResponse = SourcesApiResponse(status: string, sources: seq<SourceDto>)

  /** `NewsApiResponse.IsSuccess`. */
  predicate IsSuccess(r: NewsApiResponse) {
    r.status == "ok"
  }

  /** `SourcesApiResponse.IsSuccess`. */
  predicate SourcesIsSuccess(r: SourcesApiResponse) {
    r.status == "ok"
  }

  /** The article record a JSON object without any property deserialises to. */
  const EmptyArticleDto: ArticleDto :=
    ArticleDto(None, None, "", None, "", None, None, None)

  /** The envelope a JSON object without any property deserialises to. */
  const EmptyNewsApiResponse: NewsApiResponse :=
    NewsApiResponse("", None, None, 0, [])

  /** The sources envelope a JSON object without any property deserialises to. */
  const EmptySourcesApiResponse: SourcesApiResponse :=
    SourcesApiResponse("", [])

  /** Missing properties: no articles, no error code or message, and a status that
      is not a success; a missing title or url is the empty string. */
  lemma Defaults()
    ensures EmptyNewsApiResponse.articles == [] && EmptyNewsApiResponse.totalResults == 0
    ensures EmptyNewsApiResponse.code.None? && EmptyNewsApiResponse.message.None?
    ensures !IsSuccess(EmptyNewsApiResponse) && !SourcesIsSuccess(EmptySourcesApiResponse)
    ensures EmptySourcesApiResponse.sources == []
    ensures EmptyArticleDto.title == "" && EmptyArticleDto.url == "" && EmptyArticleDto.source.None?
  {
  }
}

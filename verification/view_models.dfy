/** The display article mapped from a raw record, its display helpers, and the
    pagination arithmetic of the listing pages. */
module ViewModels {
  import opened Wrappers
  import opened Text
  import opened Dtos

  const UnknownSource: string := "Unknown Source"
  const NoDescription: string := "No description available."
  /** The ellipsis character U+2026 that ends a shortened description. */
  const Ellipsis: string := "\U{2026}"
  /** Longest description shown in full; longer ones are cut to `ShortPrefix` characters. */
  const MaxDescription: nat := 160
  const ShortPrefix: nat := 157
  const RemovedImageMarker: string := "removed.png"

  /** `Article`: the display form of one upstream record. */
  datatype Article = Article(
    sourceId: Option<string>,
    sourceName: string,
    author: Option<string>,
    title: string,
    description: Option<string>,
    url: string,
    imageUrl: Option<string>,
    publishedAt: Option<Instant>,
    content: Option<string>)

  // ── Mapping from the raw record ───────────────────────────────────────────

  /** `Article.FromDto`: copies every field; the source name falls back to
      "Unknown Source" when the record has no source object. */
  function FromDto(dto: ArticleDto): (a: Article)
    ensures a.title == dto.title && a.url == dto.url && a.author == dto.author
    ensures a.description == dto.description && a.imageUrl == dto.urlToImage
    ensures a.publishedAt == dto.publishedAt && a.content == dto.content
    ensures dto.source.Some? ==> a.sourceId == dto.source.value.id && a.sourceName == dto.source.value.name
    ensures dto.source.None? ==> a.sourceId.None? && a.sourceName == UnknownSource
  {
    match dto.source
    case Some(src) =>
      Article(src.id, src.name, dto.author, dto.title, dto.description, dto.url,
              dto.urlToImage, dto.publishedAt, dto.content)
    case None =>
      Article(None, UnknownSource, dto.author, dto.title, dto.description, dto.url,
              dto.urlToImage, dto.publishedAt, dto.content)
  }

  /** A raw record carrying exactly the article's fields, with a source object. */
  function ToDto(a: Article): ArticleDto {
    ArticleDto(Some(ArticleSourceDto(a.sourceId, a.sourceName)), a.author, a.title,
               a.description, a.url, a.imageUrl, a.publishedAt, a.content)
  }

  /** `FromDto` loses nothing but the presence of the source object: every article
      is the image of a record, and a record with a source object is recovered
      from its article. */
  lemma FromDtoRoundTrip(a: Article, dto: ArticleDto)
    ensures FromDto(ToDto(a)) == a
    ensures dto.source.Some? ==> ToDto(FromDto(dto)) == dto
  {
  }

  /** A record without a source object and one whose source object is literally
      named "Unknown Source" without an id map to the same article. */
  lemma FromDtoMissingSourceCollides(dto: ArticleDto)
    requires dto.source.None?
    ensures FromDto(dto) == FromDto(dto.(source := Some(ArticleSourceDto(None, UnknownSource))))
  {
  }

  // ── Display helpers ───────────────────────────────────────────────────────

  /** `Article.DisplayAuthor`: the author when there is one, the source name otherwise. */
  function DisplayAuthor(a: Article): (r: string)
    ensures !IsNullOrWhiteSpace(a.author) ==> r == a.author.value
    ensures IsNullOrWhiteSpace(a.author) ==> r == a.sourceName
  {
    if IsNullOrWhiteSpace(a.author) then a.sourceName else a.author.value
  }

  /** The displayed byline is blank only when both the author and the source name are. */
  lemma DisplayAuthorBlank(a: Article)
    ensures IsBlank(DisplayAuthor(a)) <==> IsNullOrWhiteSpace(a.author) && IsBlank(a.sourceName)
  {
  }

  /** `Article.ShortDescription`: a placeholder for a blank description, the
      description itself up to 160 characters, and otherwise its first 157
      characters followed by an ellipsis. */
  function ShortDescription(description: Option<string>): (r: string)
    ensures |r| <= MaxDescription
    ensures IsNullOrWhiteSpace(description) ==> r == NoDescription
    ensures !IsNullOrWhiteSpace(description) && |description.value| <= MaxDescription ==> r == description.value
    ensures !IsNullOrWhiteSpace(description) && |description.value| > MaxDescription ==>
              |r| == ShortPrefix + 1 && r[..ShortPrefix] <= description.value && r[ShortPrefix] == Ellipsis[0]
  {
    if IsNullOrWhiteSpace(description) then NoDescription
    else if |description.value| > MaxDescription then description.value[..ShortPrefix] + Ellipsis
    else description.value
  }

  /** The shortened text never invents content: apart from a final ellipsis it is a
      prefix of the description, and it is shorter exactly when the description is
      longer than 160 characters. */
  lemma ShortDescriptionIsPrefix(d: string)
    requires !IsBlank(d)
    ensures var r := ShortDescription(Some(d));
            r <= d || (r[..|r| - 1] <= d && r[|r| - 1] == Ellipsis[0])
    ensures |ShortDescription(Some(d))| < |d| <==> |d| > MaxDescription
  {
  }

  /** `Article.HasImage`: a non-blank image URL that does not mention
      "removed.png" in any letter case. */
  predicate HasImage(a: Article) {
    !IsNullOrWhiteSpace(a.imageUrl) && !ContainsIgnoreCase(a.imageUrl.value, RemovedImageMarker)
  }

  /** An article has an image exactly when its URL is not blank and no position of
      the lower-cased URL starts the text "removed.png". */
  lemma HasImageCharacterised(a: Article)
    ensures HasImage(a) <==>
      a.imageUrl.Some? && !IsBlank(a.imageUrl.value)
      && !(exists i :: OccursAt(Lower(a.imageUrl.value), RemovedImageMarker, i))
  {
    if a.imageUrl.Some? {
      assert Lower(RemovedImageMarker) == RemovedImageMarker;
      ContainsAt(Lower(a.imageUrl.value), RemovedImageMarker);
    }
  }

  // ── Pagination ────────────────────────────────────────────────────────────

  /** `PaginationInfo`. */
  datatype PaginationInfo = PaginationInfo(currentPage: int, pageSize: int, totalResults: int)

  /** Ceiling of `a / b` for a positive divisor (C#'s `Math.Ceiling` of the real
      quotient), for numerators of either sign. */
  function CeilDiv(a: int, b: int): (q: int)
    requires b > 0
    ensures (q - 1) * b < a <= q * b
  {
    var f := (-a) / b;
    assert f * b <= -a < (f + 1) * b;
    -f
  }

  /** `PaginationInfo.TotalPages`: one page for an empty result, otherwise as many
      pages of `pageSize` as the results need. */
  function TotalPages(p: PaginationInfo): (n: int)
    requires p.pageSize > 0
    ensures p.totalResults == 0 ==> n == 1
    ensures p.totalResults != 0 ==> (n - 1) * p.pageSize < p.totalResults <= n * p.pageSize
  {
    if p.totalResults == 0 then 1 else CeilDiv(p.totalResults, p.pageSize)
  }

  /** `PaginationInfo.HasPrevious`. */
  predicate HasPrevious(p: PaginationInfo) {
    p.currentPage > 1
  }

  /** `PaginationInfo.HasNext`. */
  predicate HasNext(p: PaginationInfo)
    requires p.pageSize > 0
  {
    p.currentPage < TotalPages(p)
  }

  /** `PaginationInfo.StartIndex`: one-based position of the page's first result. */
  function StartIndex(p: PaginationInfo): int {
    (p.currentPage - 1) * p.pageSize + 1
  }

  /** `PaginationInfo.EndIndex`: one-based position of the page's last result. */
  function EndIndex(p: PaginationInfo): (e: int)
    ensures e <= p.totalResults && e <= p.currentPage * p.pageSize
    ensures e == p.totalResults || e == p.currentPage * p.pageSize
  {
    if p.currentPage * p.pageSize < p.totalResults then p.currentPage * p.pageSize else p.totalResults
  }

  /** Multiplying by a non-negative factor keeps the order. */
  lemma MulLeMono(a: int, b: int, c: int)
    requires a <= b && c >= 0
    ensures a * c <= b * c
  {
    assert b * c - a * c == (b - a) * c;
  }

  /** A non-empty result has at least one page, and the page count is the least
      number of pages that holds every result. */
  lemma TotalPagesLeast(p: PaginationInfo, k: int)
    requires p.pageSize > 0 && p.totalResults >= 0
    ensures TotalPages(p) >= 1
    ensures p.totalResults > 0 && k * p.pageSize >= p.totalResults ==> k >= TotalPages(p)
  {
    var n := TotalPages(p);
    if p.totalResults > 0 {
      if n < 1 {
        MulLeMono(n, 0, p.pageSize);
      }
      if k < n {
        MulLeMono(k, n - 1, p.pageSize);
      }
    }
  }

  /** On any page between the first and the last of a non-empty result, the shown
      range is non-empty, lies within the results and holds at most a page. */
  lemma PageRangeWithinResults(p: PaginationInfo)
    requires p.pageSize > 0 && p.totalResults > 0
    requires 1 <= p.currentPage <= TotalPages(p)
    ensures 1 <= StartIndex(p) <= EndIndex(p) <= p.totalResults
    ensures EndIndex(p) - StartIndex(p) < p.pageSize
  {
    var n := TotalPages(p);
    assert (p.currentPage - 1) * p.pageSize <= (n - 1) * p.pageSize;
    assert (p.currentPage - 1) * p.pageSize >= 0;
  }

  /** There is a next page exactly when the current page stops short of the last result. */
  lemma HasNextIffMoreResults(p: PaginationInfo)
    requires p.pageSize > 0 && p.totalResults >= 0 && p.currentPage >= 1
    ensures HasNext(p) <==> EndIndex(p) < p.totalResults
  {
    var n := TotalPages(p);
    if p.totalResults > 0 {
      if p.currentPage < n {
        MulLeMono(p.currentPage, n - 1, p.pageSize);
      } else {
        MulLeMono(n, p.currentPage, p.pageSize);
      }
    } else {
      MulLeMono(1, p.currentPage, p.pageSize);
    }
  }
}

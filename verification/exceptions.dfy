/** The application's exception hierarchy as one datatype. The C# classes form the
    chain `Exception > NewsAppException > NewsApiException > {InvalidApiKeyException,
    RateLimitExceededException}`; each constructor below is one concrete class. */
module Exceptions {
  import opened Wrappers

  const InvalidApiKeyMessage: string :=
    "NewsAPI key is missing or invalid. Please configure a valid key in appsettings.json."
  const RateLimitMessage: string :=
    "NewsAPI rate limit exceeded. Please wait before making more requests."

  datatype NewsError =
      /** `InvalidApiKeyException`, raised for both `apiKeyInvalid` and `apiKeyMissing`. */
    | InvalidApiKey
      /** `RateLimitExceededException`. */
    | RateLimitExceeded
      /** A plain `NewsApiException`, with the optional status and API code it was given. */
    | ApiError(message: string, statusCode: Option<int>, apiCode: Option<string>)
      /** A plain `NewsAppException` that is not an API error. */
    | AppError(message: string)
      /** Any exception outside the application's hierarchy (for instance one raised
          by the HTTP stack that the client does not translate). */
    | Unexpected(message: string)
  {
    /** The exception's `Message`. */
    function Message(): string {
      match this
      case InvalidApiKey => InvalidApiKeyMessage
      case RateLimitExceeded => RateLimitMessage
      case ApiError(m, _, _) => m
      case AppError(m) => m
      case Unexpected(m) => m
    }
  }

  /** `e is NewsApiException`. */
  predicate IsNewsApiException(e: NewsError) {
    e.InvalidApiKey? || e.RateLimitExceeded? || e.ApiError?
  }

  /** `e is NewsAppException`. */
  predicate IsNewsAppException(e: NewsError) {
    !e.Unexpected?
  }

  /** `NewsApiException.StatusCode`; absent for exceptions that are not API errors. */
  function StatusCode(e: NewsError): (r: Option<int>)
    ensures e.InvalidApiKey? ==> r == Some(401)
    ensures e.RateLimitExceeded? ==> r == Some(429)
    ensures e.ApiError? ==> r == e.statusCode
    ensures !IsNewsApiException(e) ==> r.None?
  {
    match e
    case InvalidApiKey => Some(401)
    case RateLimitExceeded => Some(429)
    case ApiError(_, s, _) => s
    case _ => None
  }

  /** `NewsApiException.ApiCode`; absent for exceptions that are not API errors. */
  function ApiCode(e: NewsError): (r: Option<string>)
    ensures e.InvalidApiKey? ==> r == Some("apiKeyInvalid")
    ensures e.RateLimitExceeded? ==> r == Some("rateLimited")
    ensures e.ApiError? ==> r == e.apiCode
    ensures !IsNewsApiException(e) ==> r.None?
  {
    match e
    case InvalidApiKey => Some("apiKeyInvalid")
    case RateLimitExceeded => Some("rateLimited")
    case ApiError(_, _, c) => c
    case _ => None
  }

  /** A status code or API code identifies the specialised kind only together
      with the class: a plain API error may carry 401 or 429 too. */
  lemma StatusDoesNotDetermineKind()
    ensures StatusCode(ApiError("x", Some(401), None)) == StatusCode(InvalidApiKey)
    ensures ApiError("x", Some(401), None) != InvalidApiKey
  {
  }
}

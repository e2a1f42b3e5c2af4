/** The upstream client's classification of a request's outcome: transport
    failures, HTTP error statuses, undeserialisable bodies and error envelopes
    returned with HTTP 200 all become typed errors. The network call and the JSON
    reader are outside the model: their outcome is an input. */
module Fetch {
  import opened Wrappers
  import opened Text
  import opened Exceptions
  import opened Dtos

  const TimeoutMessage: string := "The request to NewsAPI timed out. Please try again."
  const UnreachableMessage: string := "Could not connect to NewsAPI. Check your internet connection."
  const BadBodyMessage: string := "Failed to deserialize API response."
  const UnknownApiErrorMessage: string := "Unknown API error"
  const GenericApiErrorMessage: string := "NewsAPI error"

  /** How one upstream request ended, as far as the client can observe it. */
  datatype Transport<T> =
      /** The HTTP call was cancelled by the client's timeout. */
    | TimedOut
      /** The HTTP call failed to connect. */
    | ConnectionFailed
      /** The HTTP stack raised some other exception, which the client lets through. */
    | Faulted(message: string)
      /** A response arrived. `errorEnvelope` is its body read as an article envelope
          (what the client inspects on an error status); `payload` is its body read as
          the expected response type. `None` means the body did not deserialise. */
    | Responded(status: int, errorEnvelope: Option<NewsApiResponse>, payload: Option<T>)

  /** `HttpResponseMessage.IsSuccessStatusCode`. */
  predicate IsSuccessStatusCode(status: int) {
    200 <= status <= 299
  }

  /** The error an HTTP error status is turned into. */
  function HttpError(status: int, envelope: Option<NewsApiResponse>): NewsError {
    if status == 401 then InvalidApiKey
    else if status == 429 then RateLimitExceeded
    else
      var apiMsg := if envelope.Some? && envelope.value.message.Some? then envelope.value.message.value
                    else UnknownApiErrorMessage;
      var apiCode := if envelope.Some? && envelope.value.code.Some? then envelope.value.code.value else "";
      ApiError("NewsAPI returned " + IntToString(status) + ": " + apiMsg, Some(status), Some(apiCode))
  }

  /** `FetchAsync<T>` up to, but not including, the logical-status check that only
      article envelopes receive. */
  function Classify<T>(t: Transport<T>): Result<T, NewsError> {
    match t
    case TimedOut => Failure(ApiError(TimeoutMessage, None, None))
    case ConnectionFailed => Failure(ApiError(UnreachableMessage, None, None))
    case Faulted(m) => Failure(Unexpected(m))
    case Responded(status, envelope, payload) =>
      if !IsSuccessStatusCode(status) then Failure(HttpError(status, envelope))
      else if payload.None? then Failure(ApiError(BadBodyMessage, None, None))
      else Success(payload.value)
  }

  /** The error an envelope with a failure status is turned into, by its code. */
  function LogicalError(r: NewsApiResponse): NewsError {
    if r.code == Some("apiKeyInvalid") || r.code == Some("apiKeyMissing") then InvalidApiKey
    else if r.code == Some("rateLimited") then RateLimitExceeded
    else ApiError(r.message.GetOr(GenericApiErrorMessage), None, r.code)
  }

  /** `FetchAsync<NewsApiResponse>`: a successful result is the received envelope,
      and its status is always "ok". */
  function FetchNews(t: Transport<NewsApiResponse>): (r: Result<NewsApiResponse, NewsError>)
    ensures r.Success? ==> IsSuccess(r.value)
    ensures r.Success? <==> t.Responded? && IsSuccessStatusCode(t.status) && t.payload.Some?
                            && IsSuccess(t.payload.value)
    ensures r.Success? ==> r.value == t.payload.value
  {
    match Classify(t)
    case Failure(e) => Failure(e)
    case Success(body) => if IsSuccess(body) then Success(body) else Failure(LogicalError(body))
  }

  /** `FetchAsync<SourcesApiResponse>`: the body's own status is never inspected. */
  function FetchSources(t: Transport<SourcesApiResponse>): (r: Result<SourcesApiResponse, NewsError>)
    ensures r.Success? <==> t.Responded? && IsSuccessStatusCode(t.status) && t.payload.Some?
    ensures r.Success? ==> r.value == t.payload.value
  {
    Classify(t)
  }

  // ── The classification, case by case ──────────────────────────────────────

  /** Transport failures: a timeout or a connection failure is a plain API error
      without status or code; any other transport exception passes through. */
  lemma TransportFailures(m: string)
    ensures FetchNews(TimedOut) == Failure(ApiError(TimeoutMessage, None, None))
    ensures FetchNews(ConnectionFailed) == Failure(ApiError(UnreachableMessage, None, None))
    ensures FetchNews(Faulted(m)) == Failure(Unexpected(m))
  {
  }

  /** HTTP error statuses: 401 is an invalid key, 429 the rate limit, and every other
      non-success status a plain API error carrying that status, the envelope's code
      (empty when absent) and its message. */
  lemma HttpStatusClassified(status: int, env: Option<NewsApiResponse>, payload: Option<NewsApiResponse>)
    requires !IsSuccessStatusCode(status)
    ensures status == 401 ==> FetchNews(Responded(status, env, payload)) == Failure(InvalidApiKey)
    ensures status == 429 ==> FetchNews(Responded(status, env, payload)) == Failure(RateLimitExceeded)
    ensures status != 401 && status != 429 ==>
              var r := FetchNews(Responded(status, env, payload));
              && r.Failure? && r.error.ApiError?
              && r.error.statusCode == Some(status)
              && r.error.apiCode == Some(if env.Some? && env.value.code.Some? then env.value.code.value else "")
              && r.error.message == "NewsAPI returned " + IntToString(status) + ": "
                                    + (if env.Some? && env.value.message.Some? then env.value.message.value
                                       else UnknownApiErrorMessage)
  {
  }

  /** A success status with a body that does not deserialise is an error, never an
      empty result. */
  lemma UndeserialisableIsError(status: int, env: Option<NewsApiResponse>)
    requires IsSuccessStatusCode(status)
    ensures FetchNews(Responded(status, env, None)) == Failure(ApiError(BadBodyMessage, None, None))
    ensures FetchSources(Responded(status, env, None)).Failure?
  {
  }

  /** An error envelope returned with a success status is classified by its code:
      both key codes are an invalid key, `rateLimited` is the rate limit, anything
      else a plain API error with the envelope's code and no status. */
  lemma LogicalStatusClassified(status: int, env: Option<NewsApiResponse>, body: NewsApiResponse)
    requires IsSuccessStatusCode(status) && !IsSuccess(body)
    ensures var r := FetchNews(Responded(status, env, Some(body)));
            && r.Failure?
            && (body.code == Some("apiKeyInvalid") || body.code == Some("apiKeyMissing") <==> r.error == InvalidApiKey)
            && (body.code == Some("rateLimited") <==> r.error == RateLimitExceeded)
            && (r.error.ApiError? ==> r.error.statusCode.None? && r.error.apiCode == body.code)
  {
  }

  /** An envelope without any property (status empty) is not a success: it becomes
      the generic API error rather than an empty page. */
  lemma EmptyEnvelopeIsError()
    ensures FetchNews(Responded(200, None, Some(EmptyNewsApiResponse)))
            == Failure(ApiError(GenericApiErrorMessage, None, None))
  {
  }

  /** The sources listing accepts a body whose own status reports an error. */
  lemma SourcesStatusUnchecked(sources: seq<SourceDto>)
    ensures var body := SourcesApiResponse("error", sources);
            !SourcesIsSuccess(body) && FetchSources(Responded(200, None, Some(body))) == Success(body)
  {
  }

  /** Whatever happens, a failed fetch yields an application error unless the
      transport raised something foreign; and every error the client constructs
      itself is an API error. */
  lemma FetchErrorsAreApiErrors(t: Transport<NewsApiResponse>)
    ensures FetchNews(t).Failure? && !t.Faulted? ==> IsNewsApiException(FetchNews(t).error)
    ensures FetchNews(t).Failure? && t.Faulted? ==> !IsNewsAppException(FetchNews(t).error)
  {
  }
}

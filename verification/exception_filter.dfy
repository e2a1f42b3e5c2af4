/** The boundary that turns any exception escaping a page request into a friendly
    error page: a title, a message and an HTTP status, with the exception marked
    handled. The request id and the view plumbing are outside the model; whether
    the host runs in development, and the exception's full text shown there, are
    inputs. */
module ExceptionFilter {
  import opened Wrappers
  import opened Exceptions
  import opened Dtos
  import Fetch

  const InvalidKeyTitle: string := "Invalid API Key"
  const RateLimitTitle: string := "Rate Limit Exceeded"
  const ApiErrorTitle: string := "News API Error"
  const UnexpectedTitle: string := "Unexpected Error"

  const InvalidKeyText: string :=
    "Your NewsAPI key is missing or invalid. Please add a valid API key to appsettings.json under \"NewsApi:ApiKey\". You can get a free key at https://newsapi.org/register"
  const RateLimitText: string :=
    "You've made too many requests to NewsAPI. Please wait a moment and try again. Free plans allow 100 requests/day."
  const UnexpectedText: string := "An unexpected error occurred. Please try again later."

  /** `ErrorViewModel` as the filter fills it. */
  datatype ErrorView = ErrorView(title: string, message: string, statusCode: int)

  /** What the filter leaves on the request: the error page, the response status and
      the handled flag. */
  datatype Handled = Handled(view: ErrorView, responseStatus: int, exceptionHandled: bool)

  /** The title, message and status chosen for an exception; the most specific
      class is matched first. */
  function Classify(e: NewsError, isDevelopment: bool, exceptionText: string): ErrorView {
    match e
    case InvalidApiKey => ErrorView(InvalidKeyTitle, InvalidKeyText, 401)
    case RateLimitExceeded => ErrorView(RateLimitTitle, RateLimitText, 429)
    case ApiError(m, s, _) => ErrorView(ApiErrorTitle, m, s.GetOr(500))
    case _ => ErrorView(UnexpectedTitle, if isDevelopment then exceptionText else UnexpectedText, 500)
  }

  /** `GlobalExceptionFilter.OnException`. */
  function OnException(e: NewsError, isDevelopment: bool, exceptionText: string): (h: Handled)
    ensures h.exceptionHandled
    ensures h.responseStatus == h.view.statusCode
  {
    var view := Classify(e, isDevelopment, exceptionText);
    Handled(view, view.statusCode, true)
  }

  /** The response status is the exception's own status when it is an API error
      that has one, and 500 otherwise. */
  lemma StatusFollowsException(e: NewsError, dev: bool, text: string)
    ensures OnException(e, dev, text).responseStatus ==
            (if IsNewsApiException(e) then StatusCode(e).GetOr(500) else 500)
  {
  }

  /** The title names the most specific kind: the two specialised API errors have
      their own titles, any other API error shows its own message, and everything
      else (application errors outside the API family included) is unexpected. */
  lemma TitleByKind(e: NewsError, dev: bool, text: string)
    ensures var v := OnException(e, dev, text).view;
            && (v.title == InvalidKeyTitle <==> e.InvalidApiKey?)
            && (v.title == RateLimitTitle <==> e.RateLimitExceeded?)
            && (v.title == ApiErrorTitle <==> e.ApiError?)
            && (v.title == UnexpectedTitle <==> !IsNewsApiException(e))
            && (e.ApiError? ==> v.message == e.Message())
            && (!IsNewsApiException(e) && !dev ==> v.message == UnexpectedText)
  {
  }

  /** A plain API error that happens to carry 401 is still shown as a generic API
      error, not as an invalid key: the class decides, not the status. */
  lemma ClassBeatsStatus(m: string, dev: bool, text: string)
    ensures OnException(ApiError(m, Some(401), Some("apiKeyInvalid")), dev, text).view.title == ApiErrorTitle
    ensures OnException(ApiError(m, Some(401), Some("apiKeyInvalid")), dev, text).responseStatus == 401
  {
  }

  /** From the upstream to the page: an HTTP error status that escapes a request
      comes back to the browser as the same status; a timeout or a connection
      failure, which carries no status, as a generic API error with status 500. */
  lemma UpstreamStatusReachesResponse(status: int, env: Option<NewsApiResponse>, payload: Option<NewsApiResponse>,
                                      dev: bool, text: string)
    requires !Fetch.IsSuccessStatusCode(status)
    ensures var e := Fetch.FetchNews(Fetch.Responded(status, env, payload)).error;
            OnException(e, dev, text).responseStatus == status
    ensures OnException(Fetch.FetchNews(Fetch.TimedOut).error, dev, text)
            == Handled(ErrorView(ApiErrorTitle, Fetch.TimeoutMessage, 500), 500, true)
    ensures OnException(Fetch.FetchNews(Fetch.ConnectionFailed).error, dev, text).view.statusCode == 500
  {
  }
}

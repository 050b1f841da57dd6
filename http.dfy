/**
 * The HTTP side of the SDK as the core sees it: the request object (whose header
 * dictionary the auth manager edits in place), the response, the events an observer
 * sees, the exceptions, and the collaborators whose code is not part of this model
 * (the HTTP executor, the shared response validation, the JSON codec).
 */
module Http {
  import opened Wrappers
  import opened Models

  datatype Verb = Post

  /** The content of a request at one moment: what an observer or the executor gets to see. */
  datatype RequestData = RequestData(
    verb: Verb,
    url: string,
    headers: map<string, string>,
    formParameters: seq<(string, string)>,
    body: Option<string>)

  datatype HttpResponse = HttpResponse(statusCode: int, headers: map<string, string>, body: string)

  /** What happens on the wire and at the callback hooks, in order. */
  datatype Event =
    | BeforeRequest(request: RequestData)   // OnBeforeHttpRequestEventHandler
    | Sent(request: RequestData)            // one execution of the request
    | AfterResponse(response: HttpResponse) // OnAfterHttpResponseEventHandler

  /** The exceptions the core throws or lets through. */
  datatype Error =
    | ArgumentNull(paramName: string)                        // ArgumentNullException
    | InvalidOperation(message: string)                      // InvalidOperationException
    | KeyNotFound(key: string)                               // dictionary indexer on a missing key
    | ApiException(reason: string)                           // thrown by the auth manager
    | OAuthProvider(reason: string, response: HttpResponse)  // OAuthProviderException
    | RestErrorResponse(reason: string, response: HttpResponse) // RestErrorResponseException
    | ResponseRejected(response: HttpResponse)               // thrown by the shared ValidateResponse
    | Deserialization(body: string)                          // the JSON body could not be read

  /** Code the core calls but that is not part of this model. */
  datatype Collaborators = Collaborators(
    execute: RequestData -> HttpResponse,              // HttpClientWrapper.ExecuteAsStringAsync
    validateResponse: HttpResponse -> bool,            // BaseController.ValidateResponse: true when it does not throw
    deserializeToken: string -> Option<OAuthToken>,    // ApiHelper.JsonDeserialize<OAuthToken>
    deserializeLogIn: string -> Option<LogInResponse>, // ApiHelper.JsonDeserialize<LogInResponse>
    serializeLogIn: Option<LogInRequest> -> string,    // ApiHelper.JsonSerialize
    userAgent: string)                                 // BaseController.UserAgent

  /**
   * The events of one exchange: the before-hook (when a callback is set), the one and only
   * execution (there is no retry), and the after-hook.
   */
  function Exchange(httpCallBack: bool, request: RequestData, response: HttpResponse): seq<Event>
  {
    (if httpCallBack then [BeforeRequest(request)] else [])
    + [Sent(request)]
    + (if httpCallBack then [AfterResponse(response)] else [])
  }

  /** An HTTP request as built by the HTTP client; only its header dictionary changes afterwards. */
  class HttpRequest {
    const verb: Verb
    const url: string
    var headers: map<string, string>
    const formParameters: seq<(string, string)>
    const body: Option<string>

    /** `IHttpClient.Post`: a form-encoded POST. */
    constructor Post(url: string, headers: map<string, string>, formParameters: seq<(string, string)>)
      ensures Data() == RequestData(Verb.Post, url, headers, formParameters, None)
    {
      this.verb := Verb.Post;
      this.url := url;
      this.headers := headers;
      this.formParameters := formParameters;
      this.body := None;
    }

    /** `IHttpClient.PostBody`: a POST with a text body. */
    constructor PostBody(url: string, headers: map<string, string>, body: string)
      ensures Data() == RequestData(Verb.Post, url, headers, [], Some(body))
    {
      this.verb := Verb.Post;
      this.url := url;
      this.headers := headers;
      this.formParameters := [];
      this.body := Some(body);
    }

    function Data(): RequestData
      reads this
    {
      RequestData(verb, url, headers, formParameters, body)
    }
  }
}

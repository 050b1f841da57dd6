/**
 * The login call of the session controller: a JSON POST to `/session/login`, stamped by the
 * `"global"` auth manager after the before-hook has run, sent once, and classified with the
 * 400 case ahead of the shared validation.
 */
module Session {
  import opened Wrappers
  import opened Models
  import opened Http
  import opened Environments
  import opened Authentication

  const ErrorResponse: string := "Error Response"

  /** The headers the login request is built with, before the auth manager adds its own. */
  function LoginHeaders(userAgent: string, vzM2MToken: string): (headers: map<string, string>)
    ensures headers.Keys == {"user-agent", "accept", "Content-Type", "VZ-M2M-Token"}
    ensures headers["user-agent"] == userAgent && headers["VZ-M2M-Token"] == vzM2MToken
    ensures headers["accept"] == "application/json" && headers["Content-Type"] == "application/json"
  {
    map["user-agent" := userAgent, "accept" := "application/json",
        "Content-Type" := "application/json", "VZ-M2M-Token" := vzM2MToken]
  }

  /** The request as built, before authorization: a JSON body POST to the default server. */
  function LoginRequest(config: Configuration, io: Collaborators, body: Option<LogInRequest>): RequestData
  {
    RequestData(Verb.Post, config.GetBaseUri() + "/session/login",
                LoginHeaders(io.userAgent, config.vzM2MToken), [], Some(io.serializeLogIn(body)))
  }

  /**
   * How the answer becomes the result: 400 is the documented error response, checked before
   * the shared validation; otherwise the validated body is deserialized.
   */
  function LoginOutcome(io: Collaborators, response: HttpResponse): (r: Result<LogInResponse, Error>)
    ensures r.Success? <==>
              response.statusCode != 400 && io.validateResponse(response)
              && io.deserializeLogIn(response.body).Some?
    ensures r.Success? ==> io.deserializeLogIn(response.body) == Some(r.value)
    ensures (r.Failure? && r.error.RestErrorResponse?) <==> response.statusCode == 400
    ensures r.Failure? && r.error.RestErrorResponse? ==> r.error == RestErrorResponse(ErrorResponse, response)
    ensures (r.Failure? && r.error.ResponseRejected?) <==>
              response.statusCode != 400 && !io.validateResponse(response)
  {
    if response.statusCode == 400 then Failure(RestErrorResponse(ErrorResponse, response))
    else if !io.validateResponse(response) then Failure(ResponseRejected(response))
    else
      match io.deserializeLogIn(response.body)
      case None => Failure(Deserialization(response.body))
      case Some(logIn) => Success(logIn)
  }

  /**
   * The whole login call at clock reading `now`: the before-hook sees the request as built;
   * a missing `"global"` manager or a failed authorization check ends the call there, with
   * nothing sent; otherwise the stamped request is sent once and the after-hook sees the answer.
   */
  function LoginCall(config: Configuration, httpCallBack: bool,
                     authManagers: map<string, ClientCredentialsAuthManager>,
                     io: Collaborators, body: Option<LogInRequest>, now: Long)
    : (call: (Result<LogInResponse, Error>, seq<Event>))
    ensures httpCallBack ==> |call.1| >= 1 && call.1[0] == BeforeRequest(LoginRequest(config, io, body))
    ensures "global" !in authManagers ==>
              call.0 == Failure(KeyNotFound("global"))
              && call.1 == (if httpCallBack then [BeforeRequest(LoginRequest(config, io, body))] else [])
    ensures call.0.Success? ==> "global" in authManagers && authManagers["global"].CheckAuthorization(now).None?
  {
    var request := LoginRequest(config, io, body);
    var before := if httpCallBack then [BeforeRequest(request)] else [];
    if "global" !in authManagers then (Failure(KeyNotFound("global")), before)
    else
      match authManagers["global"].AuthorizedHeaders(request.headers, now)
      case Failure(e) => (Failure(e), before)
      case Success(headers) =>
        var sent := request.(headers := headers);
        var response := io.execute(sent);
        (LoginOutcome(io, response),
         before + [Sent(sent)] + (if httpCallBack then [AfterResponse(response)] else []))
  }

  /** When the stored token is missing or expired, the call fails with the manager's exception and sends nothing. */
  lemma UnauthorizedLoginSendsNothing(config: Configuration, httpCallBack: bool,
                                      authManagers: map<string, ClientCredentialsAuthManager>,
                                      io: Collaborators, body: Option<LogInRequest>, now: Long)
    requires "global" in authManagers && authManagers["global"].CheckAuthorization(now).Some?
    ensures var (r, trace) := LoginCall(config, httpCallBack, authManagers, io, body, now);
            Some(r.error) == authManagers["global"].CheckAuthorization(now)
            && r.error.ApiException?
            && forall i :: 0 <= i < |trace| ==> !trace[i].Sent?
  {
  }

  /**
   * The request that goes out carries `Authorization: Bearer <access token>` besides the four
   * headers it was built with, goes to the default server's login path, and goes out once.
   */
  lemma AuthorizedLoginCarriesBearer(config: Configuration, httpCallBack: bool,
                                     authManagers: map<string, ClientCredentialsAuthManager>,
                                     io: Collaborators, body: Option<LogInRequest>, now: Long)
    requires "global" in authManagers && authManagers["global"].CheckAuthorization(now).None?
    ensures var (_, trace) := LoginCall(config, httpCallBack, authManagers, io, body, now);
            var token := authManagers["global"].oAuthToken.value.accessToken;
            var k := if httpCallBack then 1 else 0;
            |trace| == 2 * k + 1 && trace[k].Sent?
            && trace[k].request.headers == LoginHeaders(io.userAgent, config.vzM2MToken)["Authorization" := "Bearer " + token]
            && trace[k].request.url == EnvironmentsMap[config.environment][Default] + "/session/login"
            && forall i :: 0 <= i < |trace| && i != k ==> !trace[i].Sent?
  {
    var request := LoginRequest(config, io, body);
    var m := authManagers["global"];
    var headers := m.AuthorizedHeaders(request.headers, now).value;
    assert headers == request.headers["Authorization" := "Bearer " + m.oAuthToken.value.accessToken];
  }

  /** The before-hook runs before authorization, so the request it observes has no `Authorization` header. */
  lemma BeforeHookSeesNoAuthorization(config: Configuration,
                                      authManagers: map<string, ClientCredentialsAuthManager>,
                                      io: Collaborators, body: Option<LogInRequest>, now: Long)
    ensures var (_, trace) := LoginCall(config, true, authManagers, io, body, now);
            |trace| >= 1 && trace[0].BeforeRequest? && "Authorization" !in trace[0].request.headers
  {
  }

  /**
   * The recorded scenario: with a valid token stored, a 200 answer whose body reads as the
   * session token `bcce3ea6-fe4f-4952-bacf-eadd80718e83` gives that login response.
   */
  lemma LoginScenario(config: Configuration, m: ClientCredentialsAuthManager, body: Option<LogInRequest>, now: Long)
    requires m.CheckAuthorization(now).None?
    ensures var answer := HttpResponse(200, map["Content-Type" := "application/json"],
                                       "{\"sessionToken\":\"bcce3ea6-fe4f-4952-bacf-eadd80718e83\"}");
            var io := Collaborators(
              _ => answer, _ => true, _ => None,
              s => if s == answer.body then Some(LogInResponse(Some("bcce3ea6-fe4f-4952-bacf-eadd80718e83"))) else None,
              _ => "{\"username\":\"zbeeblebrox\",\"password\":\"IMgr8\"}", "ThingSpace-SDK");
            var (r, trace) := LoginCall(config, true, map["global" := m], io, body, now);
            r == Success(LogInResponse(Some("bcce3ea6-fe4f-4952-bacf-eadd80718e83")))
            && trace[|trace| - 1] == AfterResponse(answer)
  {
  }

  class SessionController {
    const config: Configuration
    const authManagers: map<string, ClientCredentialsAuthManager>
    /** Whether an `HttpCallBack` observer is attached. */
    const httpCallBack: bool

    constructor(config: Configuration, authManagers: map<string, ClientCredentialsAuthManager>, httpCallBack: bool)
      ensures this.config == config && this.authManagers == authManagers && this.httpCallBack == httpCallBack
    {
      this.config := config;
      this.authManagers := authManagers;
      this.httpCallBack := httpCallBack;
    }

    /** Starts a session: returns the M2M session token the later API calls need. */
    method LoginUsingPOSTAsync(io: Collaborators, now: Long, body: Option<LogInRequest> := None)
      returns (r: Result<LogInResponse, Error>, trace: seq<Event>)
      ensures (r, trace) == LoginCall(config, httpCallBack, authManagers, io, body, now)
    {
      var baseUri := config.GetBaseUri();
      var queryBuilder := baseUri;
      queryBuilder := queryBuilder + "/session/login";

      var headers := map[
        "user-agent" := io.userAgent,
        "accept" := "application/json",
        "Content-Type" := "application/json",
        "VZ-M2M-Token" := config.vzM2MToken];
      var bodyText := io.serializeLogIn(body);

      var httpRequest := new HttpRequest.PostBody(queryBuilder, headers, bodyText);
      trace := [];
      if httpCallBack {
        trace := trace + [BeforeRequest(httpRequest.Data())];
      }
      ghost var request := httpRequest.Data();
      assert request == LoginRequest(config, io, body);
      ghost var before := trace;
      assert before == if httpCallBack then [BeforeRequest(request)] else [];

      if "global" !in authManagers {
        return Failure(KeyNotFound("global")), trace;
      }
      var applied := authManagers["global"].ApplyAsync(httpRequest, now);
      if applied.Failure? {
        return Failure(applied.error), trace;
      }
      httpRequest := applied.value;

      assert httpRequest.Data() == request.(headers := applied.value.headers);
      var response := io.execute(httpRequest.Data());
      trace := trace + [Sent(httpRequest.Data())];
      if httpCallBack {
        trace := trace + [AfterResponse(response)];
      }
      assert trace == before + [Sent(httpRequest.Data())] + (if httpCallBack then [AfterResponse(response)] else []);

      if response.statusCode == 400 {
        return Failure(RestErrorResponse(ErrorResponse, response)), trace;
      }
      if !io.validateResponse(response) {
        return Failure(ResponseRejected(response)), trace;
      }
      var logIn := io.deserializeLogIn(response.body);
      if logIn.None? {
        return Failure(Deserialization(response.body)), trace;
      }
      r := Success(logIn.value);
    }

    /** The blocking form: the same result and the same events as the asynchronous one. */
    method LoginUsingPOST(io: Collaborators, now: Long, body: Option<LogInRequest> := None)
      returns (r: Result<LogInResponse, Error>, trace: seq<Event>)
      ensures (r, trace) == LoginCall(config, httpCallBack, authManagers, io, body, now)
    {
      r, trace := LoginUsingPOSTAsync(io, now, body);
    }
  }
}

/**
 * The access-token request of the client-credentials grant (section 4.4.2 of RFC 6749):
 * URL, headers, form fields, and the classification of the provider's answer
 * (error responses as in section 5.2 of RFC 6749).
 */
module OAuthAuthorization {
  import opened Wrappers
  import opened Models
  import opened Http
  import opened Environments

  const ProviderError: string := "OAuth 2 provider returned an error."
  const ClientAuthenticationFailed: string := "OAuth 2 provider says client authentication failed."

  /** A form field as the controller collects it; a None value is a null that will be dropped. */
  type FormParameter = (string, Option<string>)

  /** `fields.Where(kvp => kvp.Value != null)`: the non-null fields, in their original order. */
  function NonNullFields(fields: seq<FormParameter>): (kept: seq<(string, string)>)
    ensures |kept| <= |fields|
    ensures forall p :: p in kept ==> (p.0, Some(p.1)) in fields
  {
    if fields == [] then []
    else
      var rest := NonNullFields(fields[1..]);
      match fields[0].1
      case None => rest
      case Some(v) => [(fields[0].0, v)] + rest
  }

  /** Filtering a concatenation filters each part. */
  lemma {:induction false} NonNullFieldsAppend(xs: seq<FormParameter>, ys: seq<FormParameter>)
    ensures NonNullFields(xs + ys) == NonNullFields(xs) + NonNullFields(ys)
  {
    if xs != [] {
      assert (xs + ys)[1..] == xs[1..] + ys;
      NonNullFieldsAppend(xs[1..], ys);
    } else {
      assert xs + ys == ys;
    }
  }

  /** A field is sent exactly when it was collected with a non-null value. */
  lemma {:induction false} NonNullFieldsMembership(fields: seq<FormParameter>, name: string, value: string)
    ensures (name, value) in NonNullFields(fields) <==> (name, Some(value)) in fields
  {
    if fields != [] {
      NonNullFieldsMembership(fields[1..], name, value);
      assert fields == [fields[0]] + fields[1..];
    }
  }

  /** Filtering never adds fields and keeps all of them when none is null. */
  lemma {:induction false} NonNullFieldsLength(fields: seq<FormParameter>)
    ensures |NonNullFields(fields)| <= |fields|
    ensures (forall i :: 0 <= i < |fields| ==> fields[i].1.Some?) ==> |NonNullFields(fields)| == |fields|
  {
    if fields != [] {
      NonNullFieldsLength(fields[1..]);
    }
  }

  /** The form fields collected before filtering: grant type, scope, then the caller's extra fields. */
  function CollectedFields(scope: Option<string>, fieldParameters: Option<seq<FormParameter>>): seq<FormParameter>
  {
    [("grant_type", Some("client_credentials")), ("scope", scope)]
      + (if fieldParameters.None? then [] else fieldParameters.value)
  }

  /** The headers of the token request. */
  function TokenHeaders(userAgent: string, authorization: string, vzM2MToken: string): (headers: map<string, string>)
    ensures headers.Keys == {"user-agent", "accept", "Authorization", "VZ-M2M-Token"}
    ensures headers["user-agent"] == userAgent && headers["accept"] == "application/json"
    ensures headers["Authorization"] == authorization && headers["VZ-M2M-Token"] == vzM2MToken
  {
    map["user-agent" := userAgent, "accept" := "application/json",
        "Authorization" := authorization, "VZ-M2M-Token" := vzM2MToken]
  }

  /** The request sent to the token endpoint. */
  function TokenRequest(config: Configuration, userAgent: string, authorization: string,
                        scope: Option<string>, fieldParameters: Option<seq<FormParameter>>): RequestData
  {
    RequestData(Verb.Post, config.GetBaseUri(OauthServer) + "/oauth2/token",
                TokenHeaders(userAgent, authorization, config.vzM2MToken),
                NonNullFields(CollectedFields(scope, fieldParameters)), None)
  }

  /** The URL is the OAuth server's base URL followed by the token path. */
  lemma TokenRequestUrl(config: Configuration, userAgent: string, authorization: string,
                        scope: Option<string>, fieldParameters: Option<seq<FormParameter>>)
    ensures var request := TokenRequest(config, userAgent, authorization, scope, fieldParameters);
            request.url[..|config.GetBaseUri(OauthServer)|] == EnvironmentsMap[config.environment][OauthServer]
            && request.url[|config.GetBaseUri(OauthServer)|..] == "/oauth2/token"
  {
  }

  /**
   * The sent form fields: `grant_type=client_credentials` first, then `scope` only when it is
   * not null, then the caller's fields with the null ones removed, in their order.
   */
  lemma TokenFormFields(scope: Option<string>, fieldParameters: Option<seq<FormParameter>>)
    ensures NonNullFields(CollectedFields(scope, fieldParameters))
         == [("grant_type", "client_credentials")]
            + (if scope.Some? then [("scope", scope.value)] else [])
            + NonNullFields(if fieldParameters.None? then [] else fieldParameters.value)
  {
    var fixed: seq<FormParameter> := [("grant_type", Some("client_credentials")), ("scope", scope)];
    var extra := if fieldParameters.None? then [] else fieldParameters.value;
    NonNullFieldsAppend(fixed, extra);
    assert fixed[1..] == [("scope", scope)];
    assert fixed[1..][1..] == [];
  }

  /**
   * How the provider's answer becomes the result: 400 and 401 are OAuth provider errors,
   * checked before the shared validation; every other status goes through that validation
   * and then the body is deserialized.
   */
  function TokenOutcome(io: Collaborators, response: HttpResponse): (r: Result<OAuthToken, Error>)
    ensures r.Success? <==>
              response.statusCode != 400 && response.statusCode != 401
              && io.validateResponse(response) && io.deserializeToken(response.body).Some?
    ensures r.Success? ==> io.deserializeToken(response.body) == Some(r.value)
    ensures (r.Failure? && r.error.OAuthProvider?) <==> response.statusCode in {400, 401}
    ensures r.Failure? && r.error.OAuthProvider? ==>
              r.error.response == response
              && (r.error.reason == ProviderError <==> response.statusCode == 400)
    ensures (r.Failure? && r.error.ResponseRejected?) <==>
              response.statusCode != 400 && response.statusCode != 401 && !io.validateResponse(response)
    ensures response.statusCode == 400 ==> r == Failure(OAuthProvider(ProviderError, response))
    ensures response.statusCode == 401 ==> r == Failure(OAuthProvider(ClientAuthenticationFailed, response))
    ensures response.statusCode !in {400, 401} && !io.validateResponse(response) ==>
              r == Failure(ResponseRejected(response))
    ensures response.statusCode !in {400, 401} && io.validateResponse(response)
            && io.deserializeToken(response.body).None? ==>
              r == Failure(Deserialization(response.body))
  {
    if response.statusCode == 400 then Failure(OAuthProvider(ProviderError, response))
    else if response.statusCode == 401 then Failure(OAuthProvider(ClientAuthenticationFailed, response))
    else if !io.validateResponse(response) then Failure(ResponseRejected(response))
    else
      match io.deserializeToken(response.body)
      case None => Failure(Deserialization(response.body))
      case Some(token) => Success(token)
  }

  /** The whole call: the request, the events around its single execution, and its result. */
  function TokenCall(config: Configuration, httpCallBack: bool, io: Collaborators, authorization: string,
                     scope: Option<string>, fieldParameters: Option<seq<FormParameter>>)
    : (call: (Result<OAuthToken, Error>, seq<Event>))
    ensures var request := TokenRequest(config, io.userAgent, authorization, scope, fieldParameters);
            var response := io.execute(request);
            var k := if httpCallBack then 1 else 0;
            |call.1| == 2 * k + 1 && call.1[k] == Sent(request)
            && (httpCallBack ==> call.1[0] == BeforeRequest(request) && call.1[2] == AfterResponse(response))
            && call.0 == TokenOutcome(io, response)
  {
    var request := TokenRequest(config, io.userAgent, authorization, scope, fieldParameters);
    var response := io.execute(request);
    (TokenOutcome(io, response), Exchange(httpCallBack, request, response))
  }

  /** A token call sends exactly one request, to the token endpoint, whatever its outcome. */
  lemma TokenCallSendsOnce(config: Configuration, httpCallBack: bool, io: Collaborators, authorization: string,
                           scope: Option<string>, fieldParameters: Option<seq<FormParameter>>)
    ensures var (_, trace) := TokenCall(config, httpCallBack, io, authorization, scope, fieldParameters);
            var request := TokenRequest(config, io.userAgent, authorization, scope, fieldParameters);
            (forall i :: 0 <= i < |trace| && trace[i].Sent? ==> trace[i].request == request)
            && |set i | 0 <= i < |trace| && trace[i].Sent?| == 1
  {
    var (_, trace) := TokenCall(config, httpCallBack, io, authorization, scope, fieldParameters);
    var k := if httpCallBack then 1 else 0;
    assert trace[k].Sent?;
    assert (set i | 0 <= i < |trace| && trace[i].Sent?) == {k};
  }

  class OAuthAuthorizationController {
    const config: Configuration
    /** Whether an `HttpCallBack` observer is attached. */
    const httpCallBack: bool

    constructor(config: Configuration, httpCallBack: bool)
      ensures this.config == config && this.httpCallBack == httpCallBack
    {
      this.config := config;
      this.httpCallBack := httpCallBack;
    }

    /** Requests a new token with the given Basic `authorization` header. */
    method RequestTokenAsync(io: Collaborators, authorization: string, scope: Option<string> := None,
                             fieldParameters: Option<seq<FormParameter>> := None)
      returns (r: Result<OAuthToken, Error>, trace: seq<Event>)
      ensures (r, trace) == TokenCall(config, httpCallBack, io, authorization, scope, fieldParameters)
    {
      var baseUri := config.GetBaseUri(OauthServer);
      var queryBuilder := baseUri;
      queryBuilder := queryBuilder + "/oauth2/token";

      var headers := map[
        "user-agent" := io.userAgent,
        "accept" := "application/json",
        "Authorization" := authorization,
        "VZ-M2M-Token" := config.vzM2MToken];

      var fields: seq<FormParameter> := [("grant_type", Some("client_credentials")), ("scope", scope)];
      // PrepareFormFieldsFromObject: the extra fields arrive already flattened (see README).
      fields := fields + (if fieldParameters.None? then [] else fieldParameters.value);
      var kept := NonNullFields(fields);

      var httpRequest := new HttpRequest.Post(queryBuilder, headers, kept);
      trace := [];
      if httpCallBack {
        trace := trace + [BeforeRequest(httpRequest.Data())];
      }

      var response := io.execute(httpRequest.Data());
      trace := trace + [Sent(httpRequest.Data())];
      if httpCallBack {
        trace := trace + [AfterResponse(response)];
      }
      assert httpRequest.Data() == TokenRequest(config, io.userAgent, authorization, scope, fieldParameters);
      assert trace == Exchange(httpCallBack, httpRequest.Data(), response);

      if response.statusCode == 400 {
        return Failure(OAuthProvider(ProviderError, response)), trace;
      }
      if response.statusCode == 401 {
        return Failure(OAuthProvider(ClientAuthenticationFailed, response)), trace;
      }
      if !io.validateResponse(response) {
        return Failure(ResponseRejected(response)), trace;
      }
      var token := io.deserializeToken(response.body);
      if token.None? {
        return Failure(Deserialization(response.body)), trace;
      }
      r := Success(token.value);
    }

    /** The blocking form: the same result and the same events as the asynchronous one. */
    method RequestToken(io: Collaborators, authorization: string, scope: Option<string> := None,
                        fieldParameters: Option<seq<FormParameter>> := None)
      returns (r: Result<OAuthToken, Error>, trace: seq<Event>)
      ensures (r, trace) == TokenCall(config, httpCallBack, io, authorization, scope, fieldParameters)
    {
      r, trace := RequestTokenAsync(io, authorization, scope, fieldParameters);
    }
  }
}

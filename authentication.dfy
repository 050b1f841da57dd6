/**
 * The OAuth 2 client-credentials auth manager: one credential pair, at most one token,
 * the expiry test, the check-then-stamp of the bearer header, the token fetch with its
 * expiry bookkeeping, and the HTTP Basic client authentication of the token request
 * (section 2 of RFC 7617, used as in section 2.3.1 of RFC 6749).
 */
module Authentication {
  import opened Wrappers
  import opened Models
  import opened Http
  import opened Environments
  import opened OAuthAuthorization
  import Base64
  import Utf8

  const TokenMissing: string := "OAuth token is missing."
  const NotAuthorized: string := "Client is not authorized. An OAuth token is needed to make API calls."
  const TokenExpired: string := "OAuth token is expired. A valid token is needed to make API calls."

  // ---- HTTP Basic client authentication -------------------------------------------------

  /** Splits user-id and password at the first colon, as a server reading RFC 7617 credentials does. */
  function SplitAtFirstColon(text: string): Option<(string, string)>
  {
    if text == [] then None
    else if text[0] == ':' then Some(([], text[1..]))
    else
      match SplitAtFirstColon(text[1..])
      case None => None
      case Some((user, password)) => Some(([text[0]] + user, password))
  }

  lemma {:induction false} SplitJoined(id: string, secret: string)
    requires ':' !in id
    ensures SplitAtFirstColon(id + ":" + secret) == Some((id, secret))
  {
    if id == [] {
      assert id + ":" + secret == [':'] + secret;
    } else {
      SplitJoined(id[1..], secret);
      assert (id + ":" + secret)[1..] == id[1..] + ":" + secret;
      assert [id[0]] + id[1..] == id;
    }
  }

  /** What a server recovers from a Basic `Authorization` value: None when it is malformed. */
  function ParseBasicAuthorization(header: string): Option<(string, string)>
  {
    if |header| < 6 || header[..6] != "Basic " then None
    else
      match Base64.Decode(header[6..])
      case None => None
      case Some(octets) =>
        match Utf8.Decode(octets)
        case None => None
        case Some(text) => SplitAtFirstColon(text)
  }

  /**
   * `"Basic " + base64(utf8(clientId + ":" + clientSecret))`. The header carries the
   * credentials faithfully: a server gets the pair back whenever the client id has no colon.
   */
  function BasicAuthorizationHeader(clientId: string, clientSecret: string): (header: string)
    ensures |header| >= 6 && header[..6] == "Basic "
    ensures ':' !in clientId ==> ParseBasicAuthorization(header) == Some((clientId, clientSecret))
  {
    var octets := Utf8.Encode(clientId + ":" + clientSecret);
    var header := "Basic " + Base64.Encode(octets);
    assert header[6..] == Base64.Encode(octets);
    Base64.DecodeEncode(octets);
    Utf8.DecodeEncode(clientId + ":" + clientSecret);
    if ':' in clientId then header
    else SplitJoined(clientId, clientSecret); header
  }

  /**
   * No form-encoding happens before base64, so a colon inside the client id cannot be told
   * apart from the separator: two different credential pairs give the same header.
   */
  lemma ColonInClientIdIsAmbiguous(u: string, v: string, secret: string)
    ensures BasicAuthorizationHeader(u + ":" + v, secret) == BasicAuthorizationHeader(u, v + ":" + secret)
  {
    assert (u + ":" + v) + ":" + secret == u + ":" + (v + ":" + secret);
  }

  // ---- Token expiry bookkeeping ---------------------------------------------------------

  /**
   * What the fetch does to the token it receives: `Expiry = now + ExpiresIn` (64-bit, unchecked)
   * when `ExpiresIn` is present and nonzero; otherwise the token is left as parsed.
   */
  function StampExpiry(token: OAuthToken, now: Long): (stamped: OAuthToken)
    ensures stamped.accessToken == token.accessToken && stamped.expiresIn == token.expiresIn
    ensures token.expiresIn.Some? && token.expiresIn.value != 0 ==>
              stamped.expiry == Some(WrapLong(now + token.expiresIn.value))
    ensures token.expiresIn.None? || token.expiresIn.value == 0 ==> stamped == token
  {
    if token.expiresIn.Some? && token.expiresIn.value != 0 then
      token.(expiry := Some(WrapLong(now + token.expiresIn.value)))
    else
      token
  }

  // ---- The manager ----------------------------------------------------------------------

  class ClientCredentialsAuthManager {
    const oAuthClientId: string
    const oAuthClientSecret: string
    /** Get-only: a fetched token is installed by rebuilding the client, never stored here. */
    const oAuthToken: Option<OAuthToken>
    /** The token controller, built without a callback observer. */
    const oAuthApi: OAuthAuthorizationController

    constructor(oAuthClientId: string, oAuthClientSecret: string, oAuthToken: Option<OAuthToken>,
                config: Configuration)
      ensures this.oAuthClientId == oAuthClientId && this.oAuthClientSecret == oAuthClientSecret
      ensures this.oAuthToken == oAuthToken
      ensures fresh(oAuthApi) && oAuthApi.config == config && !oAuthApi.httpCallBack
    {
      this.oAuthClientId := oAuthClientId;
      this.oAuthClientSecret := oAuthClientSecret;
      this.oAuthToken := oAuthToken;
      this.oAuthApi := new OAuthAuthorizationController(config, false);
    }

    /**
     * Whether this manager holds exactly these credentials and this token: the null-aware
     * token comparison amounts to plain equality of the optional tokens.
     */
    function Equals(oAuthClientId: string, oAuthClientSecret: string, oAuthToken: Option<OAuthToken>): (r: bool)
      ensures r <==> oAuthClientId == this.oAuthClientId && oAuthClientSecret == this.oAuthClientSecret
                     && oAuthToken == this.oAuthToken
      ensures oAuthToken.None? != this.oAuthToken.None? ==> !r
    {
      oAuthClientId == this.oAuthClientId
      && oAuthClientSecret == this.oAuthClientSecret
      && ((oAuthToken.None? && this.oAuthToken.None?)
          || (oAuthToken.Some? && this.oAuthToken.Some? && oAuthToken.value == this.oAuthToken.value))
    }

    /** Fails when no token is stored; otherwise true exactly when the expiry lies strictly before `now`. */
    function IsTokenExpired(now: Long): (r: Result<bool, Error>)
      ensures r.Failure? <==> oAuthToken.None?
      ensures r.Failure? ==> r.error == InvalidOperation(TokenMissing)
      ensures r == Success(true) <==>
                oAuthToken.Some? && oAuthToken.value.expiry.Some? && oAuthToken.value.expiry.value < now
    {
      if oAuthToken.None? then Failure(InvalidOperation(TokenMissing))
      else Success(oAuthToken.value.expiry.Some? && oAuthToken.value.expiry.value < now)
    }

    /**
     * The check before stamping: the missing token is reported before expiry is looked at,
     * so the expiry test never throws here.
     */
    function CheckAuthorization(now: Long): (r: Option<Error>)
      ensures r.None? <==> IsTokenExpired(now) == Success(false)
      ensures r.Some? ==> r.value == ApiException(if oAuthToken.None? then NotAuthorized else TokenExpired)
    {
      if oAuthToken.None? then Some(ApiException(NotAuthorized))
      else
        match IsTokenExpired(now)
        case Failure(e) => Some(e)
        case Success(expired) => if expired then Some(ApiException(TokenExpired)) else None
    }

    /**
     * The header dictionary after `Apply`: the bearer header is set and nothing else changes;
     * when the check fails, its exception instead.
     */
    function AuthorizedHeaders(headers: map<string, string>, now: Long): (r: Result<map<string, string>, Error>)
      ensures r.Failure? <==> CheckAuthorization(now).Some?
      ensures r.Failure? ==> Some(r.error) == CheckAuthorization(now)
      ensures r.Success? ==>
                oAuthToken.Some?
                && r.value.Keys == headers.Keys + {"Authorization"}
                && r.value["Authorization"] == "Bearer " + oAuthToken.value.accessToken
                && forall k :: k in headers && k != "Authorization" ==> r.value[k] == headers[k]
    {
      match CheckAuthorization(now)
      case Some(e) => Failure(e)
      case None => Success(headers["Authorization" := "Bearer " + oAuthToken.value.accessToken])
    }

    /** Checks the token, then stamps `Authorization: Bearer <token>` on the request in place. */
    method ApplyAsync(httpRequest: HttpRequest, now: Long) returns (r: Result<HttpRequest, Error>)
      modifies httpRequest
      ensures match AuthorizedHeaders(old(httpRequest.headers), now)
              case Failure(e) => r == Failure(e) && httpRequest.headers == old(httpRequest.headers)
              case Success(h) => r == Success(httpRequest) && httpRequest.headers == h
    {
      var check := CheckAuthorization(now);
      if check.Some? {
        return Failure(check.value);
      }
      httpRequest.headers := httpRequest.headers["Authorization" := "Bearer " + oAuthToken.value.accessToken];
      r := Success(httpRequest);
    }

    /** The blocking form of `ApplyAsync`. */
    method Apply(httpRequest: HttpRequest, now: Long) returns (r: Result<HttpRequest, Error>)
      modifies httpRequest
      ensures match AuthorizedHeaders(old(httpRequest.headers), now)
              case Failure(e) => r == Failure(e) && httpRequest.headers == old(httpRequest.headers)
              case Success(h) => r == Success(httpRequest) && httpRequest.headers == h
    {
      r := ApplyAsync(httpRequest, now);
    }

    /** `BuildBasicAuthheader`. */
    function BuildBasicAuthHeader(): (header: string)
      ensures |header| >= 6 && header[..6] == "Basic "
      ensures ':' !in oAuthClientId ==> ParseBasicAuthorization(header) == Some((oAuthClientId, oAuthClientSecret))
    {
      BasicAuthorizationHeader(oAuthClientId, oAuthClientSecret)
    }

    /**
     * Fetches a token with this manager's Basic credentials and stamps its expiry. A failed
     * request passes its exception through; nothing is retried.
     */
    method FetchTokenAsync(io: Collaborators, now: Long, additionalParameters: Option<seq<FormParameter>> := None)
      returns (r: Result<OAuthToken, Error>, trace: seq<Event>)
      ensures var (outcome, events) := TokenCall(oAuthApi.config, oAuthApi.httpCallBack, io,
                                                 BasicAuthorizationHeader(oAuthClientId, oAuthClientSecret),
                                                 None, additionalParameters);
              trace == events
              && (outcome.Failure? ==> r == Failure(outcome.error))
              && (outcome.Success? ==> r == Success(StampExpiry(outcome.value, now)))
    {
      var token;
      token, trace := oAuthApi.RequestTokenAsync(io, BuildBasicAuthHeader(), fieldParameters := additionalParameters);
      if token.Failure? {
        return Failure(token.error), trace;
      }
      var fetched := token.value;
      if fetched.expiresIn.Some? && fetched.expiresIn.value != 0 {
        fetched := fetched.(expiry := Some(WrapLong(now + fetched.expiresIn.value)));
      }
      r := Success(fetched);
    }

    /** The blocking form of `FetchTokenAsync`. */
    method FetchToken(io: Collaborators, now: Long, additionalParameters: Option<seq<FormParameter>> := None)
      returns (r: Result<OAuthToken, Error>, trace: seq<Event>)
      ensures var (outcome, events) := TokenCall(oAuthApi.config, oAuthApi.httpCallBack, io,
                                                 BasicAuthorizationHeader(oAuthClientId, oAuthClientSecret),
                                                 None, additionalParameters);
              trace == events
              && (outcome.Failure? ==> r == Failure(outcome.error))
              && (outcome.Success? ==> r == Success(StampExpiry(outcome.value, now)))
    {
      r, trace := FetchTokenAsync(io, now, additionalParameters);
    }
  }

  /** Once expired, a stored token stays expired. */
  lemma ExpiryIsPermanent(m: ClientCredentialsAuthManager, earlier: Long, later: Long)
    requires earlier <= later && m.IsTokenExpired(earlier) == Success(true)
    ensures m.IsTokenExpired(later) == Success(true)
  {
  }

  /** A token without an expiry never expires. */
  lemma NoExpiryNeverExpires(m: ClientCredentialsAuthManager, now: Long)
    requires m.oAuthToken.Some? && m.oAuthToken.value.expiry.None?
    ensures m.IsTokenExpired(now) == Success(false) && m.CheckAuthorization(now).None?
  {
  }

  /**
   * A token fetched at `issuedAt` with lifetime `e` and then installed in a manager is
   * accepted by `Apply` up to and including `issuedAt + e`, and refused after it.
   */
  lemma FetchedTokenLifetime(m: ClientCredentialsAuthManager, token: OAuthToken, issuedAt: Long, now: Long)
    requires token.expiresIn.Some? && token.expiresIn.value != 0
    requires MinLong <= issuedAt + token.expiresIn.value <= MaxLong
    requires m.oAuthToken == Some(StampExpiry(token, issuedAt))
    ensures m.IsTokenExpired(now) == Success(issuedAt + token.expiresIn.value < now)
    ensures m.CheckAuthorization(now).None? <==> now <= issuedAt + token.expiresIn.value
  {
  }

  /**
   * The unchecked 64-bit sum: a lifetime so long that `now + ExpiresIn` passes the largest
   * `long` wraps to a negative expiry, and the fresh token is already expired.
   */
  lemma OverlongLifetimeWrapsToExpired(m: ClientCredentialsAuthManager, token: OAuthToken, issuedAt: Long)
    requires token.expiresIn.Some? && 0 <= issuedAt && issuedAt + token.expiresIn.value > MaxLong
    requires m.oAuthToken == Some(StampExpiry(token, issuedAt))
    ensures m.oAuthToken.value.expiry.value < 0
    ensures m.CheckAuthorization(issuedAt) == Some(ApiException(TokenExpired))
  {
    var sum := issuedAt + token.expiresIn.value;
    assert WrapLong(sum) == sum - LongModulus;
  }
}

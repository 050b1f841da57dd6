# ThingSpace Connectivity Management SDK: the OAuth 2 client-credentials core, in Dafny

This project models the part of the ThingSpace Connectivity Management C# SDK that is
ordinary logic rather than calls into HTTP and JSON libraries:

- **The client-credentials auth manager** (`ClientCredentialsAuthManager`). It holds a client
  id, a client secret and at most one OAuth token. It covers:
  - structural `Equals`;
  - the expiry test (`IsTokenExpired`, strict `Expiry < now`);
  - the check-then-stamp `Apply`, which either throws or sets `Authorization: Bearer <token>`;
  - the token fetch and its expiry bookkeeping (`Expiry = now + ExpiresIn`, unchecked 64-bit);
  - the HTTP Basic client authentication of the token request
    (`"Basic " + base64(utf8(id ":" secret))`, section 2 of RFC 7617, used as in section 2.3.1
    of RFC 6749).

  Base64 (section 4 of RFC 4648) and UTF-8 (RFC 3629) are written out. This lets the model prove
  that a server decoding the header gets the credential pair back whenever the client id has
  no colon, and that a colon in the client id makes two credential pairs send the same header.
- **The token request** of section 4.4.2 of RFC 6749 (`OAuthAuthorizationController.RequestTokenAsync`):
  - the URL and the four fixed headers;
  - the ordered form fields with null values removed;
  - the classification of the answer: 400 and 401 are OAuth provider errors, as in section 5.2
    of RFC 6749, and they are checked before the shared validation.
- **The login call** (`SessionController.LoginUsingPOSTAsync`):
  - the request to the default server;
  - the `"global"` auth manager is applied after the before-request hook and before the single
    execution;
  - 400 is classified ahead of the shared validation.
- **The client facade** (`ThingSpaceConnectivityManagementAPIClient`):
  - the constant environment × server table of base URLs;
  - the constructor's rule for the `"global"` manager: keep the supplied one when it `Equals` the
    requested credentials and token, otherwise install a new one;
  - the lazily created controllers;
  - the `Builder` with its defaults and setters, and the `ToBuilder`/`Build` round trip that
    installs a fetched token.
- **`LogInResponse`**: the one-field value type with null-aware `Equals` and a fixed `ToString`.
  The constructor stores its `sessionToken` argument unchanged, and the argument defaults to null
  (`Models.LogInResponse`, a datatype whose one field defaults to `None`).

What the core calls but does not define is passed in as a `Collaborators` value of functions:
- the HTTP executor;
- the shared `ValidateResponse`;
- the JSON reader and writer;
- the user agent.

The clock is an integer parameter `now` (seconds since the epoch, a C# `long`). An attached
`HttpCallBack` observer is a boolean. Each call returns the trace of events around its single
execution: the before-hook, the request sent, and the after-hook. This shows the hook order
and that nothing is retried.

The manager, the controllers, the client and the builder are classes:
- the request's header dictionary is edited in place by `Apply`;
- the builder's setters assign its fields;
- the client caches its controllers.

Each method is proved against a function that states the whole call (`TokenCall`, `LoginCall`,
`AuthorizedHeaders`, `StampExpiry`). The lemmas beside those functions state what the source
promises.

## Behaviour of the code worth noting

- **Partial update on a null secret.** `Builder.ClientCredentialsAuth` stores the client id before
  it checks the secret for null. A null secret throws `ArgumentNullException` and leaves the new id
  in place (ThingSpaceConnectivityManagementAPIClient.cs:241-242).
- **Expiry without a lifetime.** `FetchTokenAsync` leaves `Expiry` as the JSON gave it when
  `ExpiresIn` is absent or zero (ClientCredentialsAuthManager.cs:137-140).
- **Wrap-around.** `now + ExpiresIn` is unchecked `long` arithmetic. A lifetime that overflows
  gives a negative expiry, and the fresh token is already expired.
- **A reused manager keeps its configuration.** The manager builds its token controller from the
  client that created it (ClientCredentialsAuthManager.cs:39). `Build` keeps the supplied `"global"`
  manager when it equals the requested credentials and token, and otherwise replaces it with the
  manager it builds. A rebuilt client that keeps the manager, for example after changing the
  environment, still fetches tokens from the OAuth server of the earlier client's environment.
- **No callback on token fetches.** That token controller is created without the callback, so
  fetching a token emits no hook events.

## Model

| member | source | states |
|---|---|---|
| Environments.EnvironmentsMapIsTotal | ThingSpaceConnectivityManagementAPI.Standard/ThingSpaceConnectivityManagementAPIClient.cs:23-40 | every (environment, server) pair has a base URL in the table |
| Environments.BaseUrisAreDistinct | ThingSpaceConnectivityManagementAPI.Standard/ThingSpaceConnectivityManagementAPIClient.cs:23-40 | the four base URLs are pairwise different, so a URL determines environment and server |
| Environments.Configuration.GetBaseUri | ThingSpaceConnectivityManagementAPI.Standard/ThingSpaceConnectivityManagementAPIClient.cs:139-145 | the URL is exactly the table entry for the current environment and the alias, the alias defaulting to `Server.Default`; the template-parameter list is empty |
| Models.WrapLong | ThingSpaceConnectivityManagementAPI.Standard/Authentication/ClientCredentialsAuthManager.cs:139 | unchecked `long` arithmetic: the identity inside the range, congruent modulo 2^64 outside it |
| Models.LogInResponse.Equals | ThingSpaceConnectivityManagementAPI.Standard/Models/LogInResponse.cs:57-71 | false for null and for other types; otherwise true exactly when both tokens are null or both are the same text |
| Models.EqualsIsReflexive | ThingSpaceConnectivityManagementAPI.Standard/Models/LogInResponse.cs:64-67 | a response equals itself |
| Models.EqualsIsSymmetric | ThingSpaceConnectivityManagementAPI.Standard/Models/LogInResponse.cs:69-70 | the null-aware comparison is symmetric |
| Models.EqualsIsTransitive | ThingSpaceConnectivityManagementAPI.Standard/Models/LogInResponse.cs:69-70 | the null-aware comparison is transitive |
| Models.LogInResponse.AppendFields | ThingSpaceConnectivityManagementAPI.Standard/Models/LogInResponse.cs:78-81 | appends exactly one entry, `this.SessionToken = X` with X `null` for a null token and the token text otherwise |
| Models.LogInResponse.ToString | ThingSpaceConnectivityManagementAPI.Standard/Models/LogInResponse.cs:47-54 | the text is `LogInResponse : (this.SessionToken = X)` |
| Models.TextDeterminesToken | ThingSpaceConnectivityManagementAPI.Standard/Models/LogInResponse.cs:78-81 | equal texts mean equal responses, except a null token and the token `"null"` |
| Models.NullTokenPrintsLikeNullText | ThingSpaceConnectivityManagementAPI.Standard/Models/LogInResponse.cs:80 | a null token and the token `"null"` print alike although the responses are not equal |
| Base64.Encode | ThingSpaceConnectivityManagementAPI.Standard/Authentication/ClientCredentialsAuthManager.cs:152 | the padded encoding has 4·⌈n/3⌉ characters |
| Base64.DecodeEncode | ThingSpaceConnectivityManagementAPI.Standard/Authentication/ClientCredentialsAuthManager.cs:152 | decoding the encoding of any octet string gives it back |
| Utf8.EncodeScalar | ThingSpaceConnectivityManagementAPI.Standard/Authentication/ClientCredentialsAuthManager.cs:151 | each character takes one to four octets |
| Utf8.DecodeEncode | ThingSpaceConnectivityManagementAPI.Standard/Authentication/ClientCredentialsAuthManager.cs:151 | strict decoding of the encoding of any string gives it back |
| Authentication.BasicAuthorizationHeader | ThingSpaceConnectivityManagementAPI.Standard/Authentication/ClientCredentialsAuthManager.cs:149-153 | the header starts with `Basic `, and a server reading it recovers the id and secret whenever the id has no colon |
| Authentication.ColonInClientIdIsAmbiguous | ThingSpaceConnectivityManagementAPI.Standard/Authentication/ClientCredentialsAuthManager.cs:151 | without form-encoding, the credentials `u:v`/`w` and `u`/`v:w` give the same header |
| Authentication.StampExpiry | ThingSpaceConnectivityManagementAPI.Standard/Authentication/ClientCredentialsAuthManager.cs:137-140 | access token and lifetime are kept; expiry becomes `now + ExpiresIn` (wrapped) when the lifetime is present and nonzero, else the token is unchanged |
| Authentication.ClientCredentialsAuthManager.constructor | ThingSpaceConnectivityManagementAPI.Standard/Authentication/ClientCredentialsAuthManager.cs:30-40 | stores the credentials and token; its token controller uses the creating client's configuration and has no callback |
| Authentication.ClientCredentialsAuthManager.Equals | ThingSpaceConnectivityManagementAPI.Standard/Authentication/ClientCredentialsAuthManager.cs:64-69 | true exactly when id, secret and token all match, both-null tokens included; false when only one token is null |
| Authentication.ClientCredentialsAuthManager.IsTokenExpired | ThingSpaceConnectivityManagementAPI.Standard/Authentication/ClientCredentialsAuthManager.cs:75-84 | throws `InvalidOperationException("OAuth token is missing.")` exactly when no token is stored; otherwise true exactly when there is an expiry strictly before `now` |
| Authentication.ClientCredentialsAuthManager.CheckAuthorization | ThingSpaceConnectivityManagementAPI.Standard/Authentication/ClientCredentialsAuthManager.cs:158-171 | passes exactly when a token is stored and not expired; a missing token is reported as "not authorized" before expiry is tested, an expired one as "expired" |
| Authentication.ClientCredentialsAuthManager.AuthorizedHeaders | ThingSpaceConnectivityManagementAPI.Standard/Authentication/ClientCredentialsAuthManager.cs:109-111 | on success the headers gain `Authorization: Bearer <access token>` and every other header is unchanged; on failure, the check's exception |
| Authentication.ClientCredentialsAuthManager.ApplyAsync | ThingSpaceConnectivityManagementAPI.Standard/Authentication/ClientCredentialsAuthManager.cs:105-113 | a failed check leaves the request untouched; otherwise the same request is returned with its headers updated in place |
| Authentication.ClientCredentialsAuthManager.Apply | ThingSpaceConnectivityManagementAPI.Standard/Authentication/ClientCredentialsAuthManager.cs:92-97 | the blocking form has the same effect and result |
| Authentication.ClientCredentialsAuthManager.BuildBasicAuthHeader | ThingSpaceConnectivityManagementAPI.Standard/Authentication/ClientCredentialsAuthManager.cs:149-153 | the manager's header starts with `Basic `, and a server reading it recovers this manager's id and secret whenever the id has no colon |
| Authentication.ClientCredentialsAuthManager.FetchTokenAsync | ThingSpaceConnectivityManagementAPI.Standard/Authentication/ClientCredentialsAuthManager.cs:132-143 | requests a token with the Basic header and the extra fields, passes a failure through, stamps the expiry on success, sends once, and leaves the manager's own token alone |
| Authentication.ClientCredentialsAuthManager.FetchToken | ThingSpaceConnectivityManagementAPI.Standard/Authentication/ClientCredentialsAuthManager.cs:120-125 | the blocking form has the same result and events |
| Authentication.ExpiryIsPermanent | ThingSpaceConnectivityManagementAPI.Standard/Authentication/ClientCredentialsAuthManager.cs:82-83 | once expired, a token stays expired at every later time |
| Authentication.NoExpiryNeverExpires | ThingSpaceConnectivityManagementAPI.Standard/Authentication/ClientCredentialsAuthManager.cs:82-83 | a stored token without an expiry is never expired and always passes the check |
| Authentication.FetchedTokenLifetime | ThingSpaceConnectivityManagementAPI.Standard/Authentication/ClientCredentialsAuthManager.cs:137-140 | a token fetched at T with lifetime e (no overflow) passes the check exactly up to and including T+e |
| Authentication.OverlongLifetimeWrapsToExpired | ThingSpaceConnectivityManagementAPI.Standard/Authentication/ClientCredentialsAuthManager.cs:139 | a lifetime that overflows `long` wraps to a negative expiry, so the token fails the check at once |
| OAuthAuthorization.NonNullFieldsAppend | ThingSpaceConnectivityManagementAPI.Standard/Controllers/OAuthAuthorizationController.cs:97-100 | removing null fields distributes over concatenation |
| OAuthAuthorization.NonNullFields | ThingSpaceConnectivityManagementAPI.Standard/Controllers/OAuthAuthorizationController.cs:100 | never adds fields, and every field it keeps was collected with that non-null value (order and membership in the lemmas below) |
| OAuthAuthorization.NonNullFieldsMembership | ThingSpaceConnectivityManagementAPI.Standard/Controllers/OAuthAuthorizationController.cs:100 | a field is sent exactly when it was collected with a non-null value |
| OAuthAuthorization.NonNullFieldsLength | ThingSpaceConnectivityManagementAPI.Standard/Controllers/OAuthAuthorizationController.cs:100 | filtering never adds fields and keeps them all when none is null |
| OAuthAuthorization.TokenHeaders | ThingSpaceConnectivityManagementAPI.Standard/Controllers/OAuthAuthorizationController.cs:81-87 | exactly the four headers: user-agent, `accept: application/json`, `Authorization` set to the argument, `VZ-M2M-Token` set to the configured token |
| OAuthAuthorization.TokenRequestUrl | ThingSpaceConnectivityManagementAPI.Standard/Controllers/OAuthAuthorizationController.cs:74-78 | the URL is the OAuth server's base URL followed by `/oauth2/token` |
| OAuthAuthorization.TokenFormFields | ThingSpaceConnectivityManagementAPI.Standard/Controllers/OAuthAuthorizationController.cs:90-100 | `grant_type=client_credentials` first, `scope` only when not null, then the non-null extra fields in order |
| OAuthAuthorization.TokenOutcome | ThingSpaceConnectivityManagementAPI.Standard/Controllers/OAuthAuthorizationController.cs:118-131 | 400 gives the provider error "returned an error", 401 the provider error "client authentication failed", both before validation; other statuses are validated (a rejection carries the response), then the body is read (a failure carries the body) |
| OAuthAuthorization.TokenCall | ThingSpaceConnectivityManagementAPI.Standard/Controllers/OAuthAuthorizationController.cs:74-131 | the token request is sent exactly once, between the before-hook and the after-hook when a callback is set, and the result is the classification of its answer |
| OAuthAuthorization.TokenCallSendsOnce | ThingSpaceConnectivityManagementAPI.Standard/Controllers/OAuthAuthorizationController.cs:103-116 | exactly one request is sent, and it is the token request |
| OAuthAuthorization.OAuthAuthorizationController.constructor | ThingSpaceConnectivityManagementAPI.Standard/Controllers/OAuthAuthorizationController.cs:37-40 | keeps the configuration and whether a callback is attached |
| OAuthAuthorization.OAuthAuthorizationController.RequestTokenAsync | ThingSpaceConnectivityManagementAPI.Standard/Controllers/OAuthAuthorizationController.cs:67-132 | builds URL, the four headers and the filtered fields, runs the hooks around one execution, and classifies the answer as `TokenCall` states |
| OAuthAuthorization.OAuthAuthorizationController.RequestToken | ThingSpaceConnectivityManagementAPI.Standard/Controllers/OAuthAuthorizationController.cs:49-57 | the blocking form returns the same result and events as the asynchronous one |
| Session.LoginOutcome | ThingSpaceConnectivityManagementAPI.Standard/Controllers/SessionController.cs:102-110 | 400 is `RestErrorResponseException("Error Response")` before validation; otherwise a validated body is read as the login response |
| Session.LoginHeaders | ThingSpaceConnectivityManagementAPI.Standard/Controllers/SessionController.cs:73-79 | exactly the four headers: user-agent, `accept` and `Content-Type` both `application/json`, `VZ-M2M-Token` set to the configured token |
| Session.LoginCall | ThingSpaceConnectivityManagementAPI.Standard/Controllers/SessionController.cs:61-111 | the before-hook comes first and sees the request as built; a missing `"global"` manager throws `KeyNotFoundException` with only that hook run; success needs a token that passes the manager's check |
| Session.UnauthorizedLoginSendsNothing | ThingSpaceConnectivityManagementAPI.Standard/Controllers/SessionController.cs:87-95 | when the `"global"` manager's check fails, the call fails with its exception and nothing is sent |
| Session.AuthorizedLoginCarriesBearer | ThingSpaceConnectivityManagementAPI.Standard/Controllers/SessionController.cs:66-95 | the one request sent goes to the default server's `/session/login` with the four headers plus `Authorization: Bearer <access token>` |
| Session.BeforeHookSeesNoAuthorization | ThingSpaceConnectivityManagementAPI.Standard/Controllers/SessionController.cs:87-92 | the before-hook runs first and sees no `Authorization` header |
| Session.LoginScenario | ThingSpaceConnectivityManagementAPI.Tests/SessionControllerTest.cs:46-84 | with a valid token and a 200 answer carrying session token `bcce3ea6-fe4f-4952-bacf-eadd80718e83`, the result carries that token and the after-hook sees the answer |
| Session.SessionController.constructor | ThingSpaceConnectivityManagementAPI.Standard/Controllers/SessionController.cs:37-40 | keeps configuration, managers and callback |
| Session.SessionController.LoginUsingPOSTAsync | ThingSpaceConnectivityManagementAPI.Standard/Controllers/SessionController.cs:61-111 | builds the request, runs the before-hook, applies the `"global"` manager (a missing key throws), sends once, runs the after-hook and classifies the answer as `LoginCall` states |
| Session.SessionController.LoginUsingPOST | ThingSpaceConnectivityManagementAPI.Standard/Controllers/SessionController.cs:47-53 | the blocking form returns the same result and events |
| Client.ThingSpaceConnectivityManagementAPIClient.constructor | ThingSpaceConnectivityManagementAPI.Standard/ThingSpaceConnectivityManagementAPIClient.cs:50-84 | copies the supplied dictionary (null as empty); keeps its `"global"` manager when it `Equals` the credentials and token, else installs a new one; all other keys are unchanged |
| Client.ThingSpaceConnectivityManagementAPIClient.ClientCredentialsAuth | ThingSpaceConnectivityManagementAPI.Standard/ThingSpaceConnectivityManagementAPIClient.cs:131 | is the manager registered under `"global"` |
| Client.ThingSpaceConnectivityManagementAPIClient.SessionController | ThingSpaceConnectivityManagementAPI.Standard/ThingSpaceConnectivityManagementAPIClient.cs:68-69 | created on first use with this client's settings, the same object afterwards |
| Client.ThingSpaceConnectivityManagementAPIClient.OAuthAuthorizationController | ThingSpaceConnectivityManagementAPI.Standard/ThingSpaceConnectivityManagementAPIClient.cs:70-71 | created on first use with this client's settings, the same object afterwards |
| Client.ThingSpaceConnectivityManagementAPIClient.ToBuilder | ThingSpaceConnectivityManagementAPI.Standard/ThingSpaceConnectivityManagementAPIClient.cs:151-164 | the builder carries the session token, environment, callback, dictionary, and the manager's credentials and token |
| Client.ThingSpaceConnectivityManagementAPIClient.RebuildWithToken | ThingSpaceConnectivityManagementAPI.Standard/ThingSpaceConnectivityManagementAPIClient.cs:151-164 | `ToBuilder().OAuthToken(t).Build()` keeps settings and credentials; with the current token the same manager and dictionary survive, otherwise a new manager holds `t` |
| Client.ThingSpaceConnectivityManagementAPIClient.RebuildInEnvironment | ThingSpaceConnectivityManagementAPI.Standard/ThingSpaceConnectivityManagementAPIClient.cs:73-83 | changing only the environment keeps the old manager and with it the old configuration of its token requests |
| Client.Builder.constructor | ThingSpaceConnectivityManagementAPI.Standard/ThingSpaceConnectivityManagementAPIClient.cs:223-231 | defaults: empty session token, production, empty credentials, no token, no managers, no callback |
| Client.Builder.ClientCredentialsAuth | ThingSpaceConnectivityManagementAPI.Standard/ThingSpaceConnectivityManagementAPIClient.cs:239-244 | a null id throws and changes nothing; a null secret throws after the id is stored; otherwise both are set; other settings unchanged |
| Client.Builder.OAuthToken | ThingSpaceConnectivityManagementAPI.Standard/ThingSpaceConnectivityManagementAPIClient.cs:251-255 | sets the token (null allowed) and nothing else |
| Client.Builder.VZM2MToken | ThingSpaceConnectivityManagementAPI.Standard/ThingSpaceConnectivityManagementAPIClient.cs:262-266 | a null throws and changes nothing; otherwise only the session token is set |
| Client.Builder.Environment | ThingSpaceConnectivityManagementAPI.Standard/ThingSpaceConnectivityManagementAPIClient.cs:273-277 | sets the environment and nothing else |
| Client.Builder.AuthManagers | ThingSpaceConnectivityManagementAPI.Standard/ThingSpaceConnectivityManagementAPIClient.cs:311-315 | a null throws and changes nothing; otherwise only the dictionary is set |
| Client.Builder.HttpCallBack | ThingSpaceConnectivityManagementAPI.Standard/ThingSpaceConnectivityManagementAPIClient.cs:322-326 | sets the callback and nothing else |
| Client.Builder.Build | ThingSpaceConnectivityManagementAPI.Standard/ThingSpaceConnectivityManagementAPIClient.cs:332-346 | a new client from the collected settings, under the constructor's `"global"` rule |

## Left out

- HTTP execution (`Post`, `PostBody`, `ExecuteAsStringAsync`, `HttpClientWrapper`) is the `execute` parameter. `HttpClientConfiguration`, the builder's `HttpClientConfig` and `HttpClient` setters, and the client's `HttpClient` are not modelled: they only configure that transport.
- JSON reading and writing are parameters. `OAuthToken.Equals` is field-wise equality of the datatype.
- Base-controller code that is not part of this model is a parameter: `ValidateResponse`, `UserAgent`, `GetClientInstance`. `PrepareFormFieldsFromObject` is not part of this model: the token request's extra fields arrive already flattened into an ordered list of name and optional value. `AppendUrlWithTemplateParameters` is the identity, because the parameter list is empty.
- The field contents of `RestErrorResponseException` (filled from the JSON body) are not modelled. The exception carries the response instead.
- Asynchronous plumbing is not modelled: `Task.Factory.StartNew`, `RunTaskSynchronously`, `ConfigureAwait`, cancellation tokens. The blocking forms are proved to behave like the asynchronous ones. A token fetch racing with `Apply` is a concurrency matter and is not modelled.
- The clock: `DateTime.UtcNow` and the floating-point `TotalSeconds` cast to `long` become the `now` parameter.
- `CreateFromEnvironment` reads process environment variables and is not modelled. Neither is the client's `ToString`: it prints `HttpClientConfiguration`, which is not part of this model.
- Callback hooks record a snapshot of the request. The C# observer receives the request object itself, and that object later gains the `Authorization` header; this aliasing is not modelled.
- The dictionary holds `ClientCredentialsAuthManager` values only. Other `IAuthManager` implementations, and the failing cast the constructor would then hit, are not modelled.
- C# strings that may be null are `Option<string>` only where the code handles null: the builder setters and the form fields. Elsewhere strings are never null. For example, `Equals` called with a null id would throw a `NullReferenceException`, and this is not modelled.
- A token whose `AccessToken` is null is not modelled: the access token is a string.
- The JSON reader returns no value or a value, never a successful null. A body of `null`, which the C# reader turns into a null `OAuthToken` or `LogInResponse` that the controllers return, is a `Deserialization` failure here.
- Strings are sequences of Unicode scalar values, so C# strings holding lone surrogates are not represented.
- Authentication.BasicAuthorizationHeader: the round-trip is stated only for client ids without a colon. `ColonInClientIdIsAmbiguous` shows that no stronger statement holds.

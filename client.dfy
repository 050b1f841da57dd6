/**
 * The SDK client: configuration holder and controller factory. Its constructor decides
 * whether the supplied `"global"` auth manager is kept or replaced; its builder carries the
 * settings from one client to the next (`ToBuilder` then `Build`), which is how a fetched
 * token is installed.
 */
module Client {
  import opened Wrappers
  import opened Models
  import opened Http
  import opened Environments
  import opened Authentication
  import Session
  import OAuthAuthorization

  /** The auth-manager dictionary, keyed by scheme name; the client-credentials manager lives at `"global"`. */
  type Registry = map<string, ClientCredentialsAuthManager>

  /** The constructor keeps the supplied `"global"` manager exactly when it holds these credentials and this token. */
  predicate ReusesGlobal(given: Registry, oAuthClientId: string, oAuthClientSecret: string, oAuthToken: Option<OAuthToken>)
  {
    "global" in given && given["global"].Equals(oAuthClientId, oAuthClientSecret, oAuthToken)
  }

  class ThingSpaceConnectivityManagementAPIClient {
    const vzM2MToken: string
    const environment: Environment
    /** Whether an `HttpCallBack` observer is attached. */
    const httpCallBack: bool
    const authManagers: Registry
    const clientCredentialsAuthManager: ClientCredentialsAuthManager
    /** The lazily created controllers: null until first asked for. */
    var session: Session.SessionController?
    var oAuthAuthorization: OAuthAuthorization.OAuthAuthorizationController?

    /** The `"global"` entry is this client's manager, and every controller created so far shares this client's settings. */
    predicate Valid()
      reads this, session, oAuthAuthorization
    {
      "global" in authManagers && authManagers["global"] == clientCredentialsAuthManager
      && (session != null ==>
            session.config == Config() && session.authManagers == authManagers && session.httpCallBack == httpCallBack)
      && (oAuthAuthorization != null ==>
            oAuthAuthorization.config == Config() && oAuthAuthorization.httpCallBack == httpCallBack)
    }

    /** What the controllers read from this client. */
    function Config(): Configuration
    {
      Configuration(vzM2MToken, environment)
    }

    /**
     * Copies the supplied dictionary (null reads as empty), keeps its `"global"` manager when it
     * matches the credentials and token, and otherwise installs a new manager under `"global"`.
     */
    constructor(vzM2MToken: string, environment: Environment, oAuthClientId: string, oAuthClientSecret: string,
                oAuthToken: Option<OAuthToken>, authManagers: Option<Registry>, httpCallBack: bool)
      ensures this.vzM2MToken == vzM2MToken && this.environment == environment && this.httpCallBack == httpCallBack
      ensures var given := if authManagers.None? then map[] else authManagers.value;
              this.authManagers == given["global" := clientCredentialsAuthManager]
              && (ReusesGlobal(given, oAuthClientId, oAuthClientSecret, oAuthToken) ==>
                    clientCredentialsAuthManager == given["global"])
              && (!ReusesGlobal(given, oAuthClientId, oAuthClientSecret, oAuthToken) ==>
                    fresh(clientCredentialsAuthManager)
                    && clientCredentialsAuthManager.oAuthApi.config == Config()
                    && !clientCredentialsAuthManager.oAuthApi.httpCallBack)
      ensures clientCredentialsAuthManager.Equals(oAuthClientId, oAuthClientSecret, oAuthToken)
      ensures session == null && oAuthAuthorization == null
      ensures Valid()
    {
      this.vzM2MToken := vzM2MToken;
      this.environment := environment;
      this.httpCallBack := httpCallBack;
      var managers: Registry := if authManagers.None? then map[] else authManagers.value;
      var manager: ClientCredentialsAuthManager? := null;
      if "global" in managers {
        manager := managers["global"];
      }
      if "global" !in managers || !manager.Equals(oAuthClientId, oAuthClientSecret, oAuthToken) {
        manager := new ClientCredentialsAuthManager(oAuthClientId, oAuthClientSecret, oAuthToken,
                                                    Configuration(vzM2MToken, environment));
        managers := managers["global" := manager];
      }
      this.authManagers := managers;
      this.clientCredentialsAuthManager := manager;
      this.session := null;
      this.oAuthAuthorization := null;
    }

    /** The manager holding the client credentials: the one registered under `"global"`. */
    function ClientCredentialsAuth(): (m: ClientCredentialsAuthManager)
      reads this, session, oAuthAuthorization
      ensures Valid() ==> "global" in authManagers && m == authManagers["global"]
    {
      clientCredentialsAuthManager
    }

    /** The session controller, created on first use and the same object afterwards. */
    method SessionController() returns (c: Session.SessionController)
      requires Valid()
      modifies this
      ensures old(session) != null ==> c == old(session)
      ensures old(session) == null ==> fresh(c)
      ensures c.config == Config() && c.authManagers == authManagers && c.httpCallBack == httpCallBack
      ensures session == c && oAuthAuthorization == old(oAuthAuthorization)
      ensures Valid()
    {
      if session == null {
        session := new Session.SessionController(Config(), authManagers, httpCallBack);
      }
      c := session;
    }

    /** The token controller, created on first use and the same object afterwards. */
    method OAuthAuthorizationController() returns (c: OAuthAuthorization.OAuthAuthorizationController)
      requires Valid()
      modifies this
      ensures old(oAuthAuthorization) != null ==> c == old(oAuthAuthorization)
      ensures old(oAuthAuthorization) == null ==> fresh(c)
      ensures c.config == Config() && c.httpCallBack == httpCallBack
      ensures oAuthAuthorization == c && session == old(session)
      ensures Valid()
    {
      if oAuthAuthorization == null {
        oAuthAuthorization := new OAuthAuthorization.OAuthAuthorizationController(Config(), httpCallBack);
      }
      c := oAuthAuthorization;
    }

    /** A builder preloaded with this client's settings and its manager's credentials and token. */
    method ToBuilder() returns (b: Builder)
      ensures fresh(b)
      ensures b.vzM2MToken == vzM2MToken && b.environment == environment && b.httpCallBack == httpCallBack
      ensures b.oAuthClientId == clientCredentialsAuthManager.oAuthClientId
      ensures b.oAuthClientSecret == clientCredentialsAuthManager.oAuthClientSecret
      ensures b.oAuthToken == clientCredentialsAuthManager.oAuthToken
      ensures b.authManagers == authManagers
    {
      b := new Builder();
      var _ := b.VZM2MToken(Some(vzM2MToken));
      var _ := b.Environment(environment);
      var _ := b.OAuthToken(clientCredentialsAuthManager.oAuthToken);
      var _ := b.ClientCredentialsAuth(Some(clientCredentialsAuthManager.oAuthClientId),
                                       Some(clientCredentialsAuthManager.oAuthClientSecret));
      var _ := b.HttpCallBack(httpCallBack);
      var _ := b.AuthManagers(Some(authManagers));
    }

    /**
     * `ToBuilder().OAuthToken(t).Build()`, the way a fetched token is installed. With the
     * current token the same manager object survives and the dictionary is unchanged; with
     * another token a new manager with the same credentials replaces it under `"global"`.
     */
    method RebuildWithToken(oAuthToken: Option<OAuthToken>) returns (client: ThingSpaceConnectivityManagementAPIClient)
      requires Valid()
      ensures fresh(client) && client.Valid()
      ensures client.vzM2MToken == vzM2MToken && client.environment == environment
      ensures client.httpCallBack == httpCallBack
      ensures client.ClientCredentialsAuth().oAuthToken == oAuthToken
      ensures client.ClientCredentialsAuth().oAuthClientId == clientCredentialsAuthManager.oAuthClientId
      ensures client.ClientCredentialsAuth().oAuthClientSecret == clientCredentialsAuthManager.oAuthClientSecret
      ensures oAuthToken == clientCredentialsAuthManager.oAuthToken ==>
                client.ClientCredentialsAuth() == clientCredentialsAuthManager && client.authManagers == authManagers
      ensures oAuthToken != clientCredentialsAuthManager.oAuthToken ==>
                fresh(client.ClientCredentialsAuth())
                && client.ClientCredentialsAuth().oAuthApi.config == Config()
                && client.authManagers == authManagers["global" := client.ClientCredentialsAuth()]
    {
      var b := ToBuilder();
      var _ := b.OAuthToken(oAuthToken);
      client := b.Build();
    }

    /**
     * `ToBuilder().Environment(e).Build()`: the credentials and token match, so the old manager
     * is kept, and with it the configuration it was created with: its token requests still go
     * to the previous environment's OAuth server.
     */
    method RebuildInEnvironment(environment: Environment) returns (client: ThingSpaceConnectivityManagementAPIClient)
      requires Valid()
      ensures fresh(client) && client.Valid()
      ensures client.environment == environment && client.vzM2MToken == vzM2MToken
      ensures client.ClientCredentialsAuth() == clientCredentialsAuthManager && client.authManagers == authManagers
      ensures client.ClientCredentialsAuth().oAuthApi.config == clientCredentialsAuthManager.oAuthApi.config
    {
      var b := ToBuilder();
      var _ := b.Environment(environment);
      client := b.Build();
    }
  }

  /** Collects the settings of a client; `Build` hands them to the client constructor. */
  class Builder {
    var vzM2MToken: string
    var environment: Environment
    var oAuthClientId: string
    var oAuthClientSecret: string
    var oAuthToken: Option<OAuthToken>
    var authManagers: Registry
    var httpCallBack: bool

    /** The defaults: empty M2M token, production, empty credentials, no token, no managers, no callback. */
    constructor()
      ensures vzM2MToken == "" && environment == Production
      ensures oAuthClientId == "" && oAuthClientSecret == "" && oAuthToken == None
      ensures authManagers == map[] && !httpCallBack
    {
      vzM2MToken := "";
      environment := Production;
      oAuthClientId := "";
      oAuthClientSecret := "";
      oAuthToken := None;
      authManagers := map[];
      httpCallBack := false;
    }

    /**
     * Sets both credentials; a null is refused with the parameter's name. The id is stored
     * before the secret is checked, so a null secret still replaces the id.
     */
    method ClientCredentialsAuth(oAuthClientId: Option<string>, oAuthClientSecret: Option<string>)
      returns (r: Result<Builder, Error>)
      modifies this
      ensures oAuthClientId.None? ==>
                r == Failure(ArgumentNull("oAuthClientId"))
                && this.oAuthClientId == old(this.oAuthClientId) && this.oAuthClientSecret == old(this.oAuthClientSecret)
      ensures oAuthClientId.Some? && oAuthClientSecret.None? ==>
                r == Failure(ArgumentNull("oAuthClientSecret"))
                && this.oAuthClientId == oAuthClientId.value && this.oAuthClientSecret == old(this.oAuthClientSecret)
      ensures oAuthClientId.Some? && oAuthClientSecret.Some? ==>
                r == Success(this)
                && this.oAuthClientId == oAuthClientId.value && this.oAuthClientSecret == oAuthClientSecret.value
      ensures vzM2MToken == old(vzM2MToken) && environment == old(environment) && oAuthToken == old(oAuthToken)
      ensures authManagers == old(authManagers) && httpCallBack == old(httpCallBack)
    {
      if oAuthClientId.None? {
        return Failure(ArgumentNull("oAuthClientId"));
      }
      this.oAuthClientId := oAuthClientId.value;
      if oAuthClientSecret.None? {
        return Failure(ArgumentNull("oAuthClientSecret"));
      }
      this.oAuthClientSecret := oAuthClientSecret.value;
      r := Success(this);
    }

    /** Sets the token; null (None) is accepted and clears it. */
    method OAuthToken(oAuthToken: Option<OAuthToken>) returns (b: Builder)
      modifies this
      ensures b == this && this.oAuthToken == oAuthToken
      ensures vzM2MToken == old(vzM2MToken) && environment == old(environment)
      ensures oAuthClientId == old(oAuthClientId) && oAuthClientSecret == old(oAuthClientSecret)
      ensures authManagers == old(authManagers) && httpCallBack == old(httpCallBack)
    {
      this.oAuthToken := oAuthToken;
      b := this;
    }

    /** Sets the M2M session token; a null is refused and changes nothing. */
    method VZM2MToken(vzM2MToken: Option<string>) returns (r: Result<Builder, Error>)
      modifies this
      ensures vzM2MToken.None? ==> r == Failure(ArgumentNull("vZM2MToken")) && this.vzM2MToken == old(this.vzM2MToken)
      ensures vzM2MToken.Some? ==> r == Success(this) && this.vzM2MToken == vzM2MToken.value
      ensures environment == old(environment) && oAuthToken == old(oAuthToken)
      ensures oAuthClientId == old(oAuthClientId) && oAuthClientSecret == old(oAuthClientSecret)
      ensures authManagers == old(authManagers) && httpCallBack == old(httpCallBack)
    {
      if vzM2MToken.None? {
        return Failure(ArgumentNull("vZM2MToken"));
      }
      this.vzM2MToken := vzM2MToken.value;
      r := Success(this);
    }

    method Environment(environment: Environment) returns (b: Builder)
      modifies this
      ensures b == this && this.environment == environment
      ensures vzM2MToken == old(vzM2MToken) && oAuthToken == old(oAuthToken)
      ensures oAuthClientId == old(oAuthClientId) && oAuthClientSecret == old(oAuthClientSecret)
      ensures authManagers == old(authManagers) && httpCallBack == old(httpCallBack)
    {
      this.environment := environment;
      b := this;
    }

    /** Sets the auth-manager dictionary; a null is refused and changes nothing. */
    method AuthManagers(authManagers: Option<Registry>) returns (r: Result<Builder, Error>)
      modifies this
      ensures authManagers.None? ==> r == Failure(ArgumentNull("authManagers")) && this.authManagers == old(this.authManagers)
      ensures authManagers.Some? ==> r == Success(this) && this.authManagers == authManagers.value
      ensures vzM2MToken == old(vzM2MToken) && environment == old(environment) && oAuthToken == old(oAuthToken)
      ensures oAuthClientId == old(oAuthClientId) && oAuthClientSecret == old(oAuthClientSecret)
      ensures httpCallBack == old(httpCallBack)
    {
      if authManagers.None? {
        return Failure(ArgumentNull("authManagers"));
      }
      this.authManagers := authManagers.value;
      r := Success(this);
    }

    method HttpCallBack(httpCallBack: bool) returns (b: Builder)
      modifies this
      ensures b == this && this.httpCallBack == httpCallBack
      ensures vzM2MToken == old(vzM2MToken) && environment == old(environment) && oAuthToken == old(oAuthToken)
      ensures oAuthClientId == old(oAuthClientId) && oAuthClientSecret == old(oAuthClientSecret)
      ensures authManagers == old(authManagers)
    {
      this.httpCallBack := httpCallBack;
      b := this;
    }

    /** A new client from the collected settings. */
    method Build() returns (client: ThingSpaceConnectivityManagementAPIClient)
      ensures fresh(client) && client.Valid()
      ensures client.vzM2MToken == vzM2MToken && client.environment == environment
      ensures client.httpCallBack == httpCallBack
      ensures client.authManagers == authManagers["global" := client.clientCredentialsAuthManager]
      ensures client.clientCredentialsAuthManager.Equals(oAuthClientId, oAuthClientSecret, oAuthToken)
      ensures ReusesGlobal(authManagers, oAuthClientId, oAuthClientSecret, oAuthToken) ==>
                client.clientCredentialsAuthManager == authManagers["global"]
      ensures !ReusesGlobal(authManagers, oAuthClientId, oAuthClientSecret, oAuthToken) ==>
                fresh(client.clientCredentialsAuthManager)
                && client.clientCredentialsAuthManager.oAuthApi.config == client.Config()
    {
      client := new ThingSpaceConnectivityManagementAPIClient(
        vzM2MToken, environment, oAuthClientId, oAuthClientSecret, oAuthToken, Some(authManagers), httpCallBack);
    }
  }
}

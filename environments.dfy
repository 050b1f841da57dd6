/**
 * The deployment environments and server aliases, the constant table of base URLs,
 * and the part of the client's configuration the controllers read.
 */
module Environments {

  datatype Environment = Production | Staging

  /** The server aliases of `Server.cs`. */
  datatype Server = Default | OauthServer

  const EnvironmentsMap: map<Environment, map<Server, string>> := map[
    Production := map[
      Default := "https://thingspace.verizon.com/api/m2m/v1",
      OauthServer := "https://thingspace.verizon.com/api/ts/v1"],
    Staging := map[
      Default := "https://staging.thingspace.verizon.com/api/m2m/v1",
      OauthServer := "https://staging.thingspace.verizon.com/api/ts/v1"]]

  /** Every (environment, alias) pair has a base URL. */
  lemma EnvironmentsMapIsTotal(environment: Environment, alias: Server)
    ensures environment in EnvironmentsMap && alias in EnvironmentsMap[environment]
  {
  }

  /**
   * What a controller reads from the client: the M2M session token and the environment.
   * Both are get-only on the client, so a copy taken at construction sees the same values.
   */
  datatype Configuration = Configuration(vzM2MToken: string, environment: Environment)
  {
    /**
     * The base URL of `alias` in the current environment. The template-parameter list the
     * client appends is empty, so the table entry is returned as it stands.
     */
    function GetBaseUri(alias: Server := Default): (url: string)
      ensures environment in EnvironmentsMap && alias in EnvironmentsMap[environment]
      ensures url == EnvironmentsMap[environment][alias]
    {
      EnvironmentsMapIsTotal(environment, alias);
      var url := EnvironmentsMap[environment][alias];
      url
    }
  }

  /** The four base URLs are pairwise different: no alias or environment shares a URL with another. */
  lemma BaseUrisAreDistinct(a: Configuration, b: Configuration, aliasA: Server, aliasB: Server)
    requires a.GetBaseUri(aliasA) == b.GetBaseUri(aliasB)
    ensures a.environment == b.environment && aliasA == aliasB
  {
  }
}

/** How the two classes' readings of the same credentials relate. The
    authenticator reads the grouped setting and tests PHP `empty()`; the login
    page reads flat settings and compares them with ''. */
module SsoConsistency {
  import opened Wrappers
  import opened Wp
  import opened Entra
  import SsoAuthenticator
  import SsoPublic

  /** The grouped setting holding the given credentials. */
  function Grouped(clientId: string, clientSecret: string, tenantId: string): map<string, string> {
    map["client_id" := clientId, "client_secret" := clientSecret, "tenant_id" := tenantId]
  }

  /** The flat settings holding the given credentials. */
  function Flat(plugin: string, clientId: string, clientSecret: string, tenantId: string): map<string, string> {
    map[SsoPublic.SettingKey(plugin, "client-id") := clientId,
        SsoPublic.SettingKey(plugin, "client-secret") := clientSecret,
        SsoPublic.SettingKey(plugin, "tenant-id") := tenantId]
  }

  lemma FlatSettings(plugin: string, clientId: string, clientSecret: string, tenantId: string)
    ensures var flat := Flat(plugin, clientId, clientSecret, tenantId);
      && SsoPublic.Setting(flat, plugin, "client-id") == clientId
      && SsoPublic.Setting(flat, plugin, "client-secret") == clientSecret
      && SsoPublic.Setting(flat, plugin, "tenant-id") == tenantId
  {
    var id := SsoPublic.SettingKey(plugin, "client-id");
    var tenant := SsoPublic.SettingKey(plugin, "tenant-id");
    assert id[|plugin| + 8] == 'c' && tenant[|plugin| + 8] == 't';
  }

  /** Non-empty credentials other than "0" pass both checks, and both classes
      then send the browser to the same tenant's authorize endpoint. */
  lemma BothChecksAcceptCredentials(plugin: string, clientId: string, clientSecret: string, tenantId: string,
                                    req: SsoPublic.Request, host: Host)
    requires clientId != "" && clientId != "0"
    requires clientSecret != "" && clientSecret != "0"
    requires tenantId != "" && tenantId != "0"
    ensures SsoAuthenticator.GetConfig(plugin, Grouped(clientId, clientSecret, tenantId), host).Success?
    ensures SsoPublic.BuildLoginUrl(plugin, Flat(plugin, clientId, clientSecret, tenantId), req, host).Success?
    ensures SsoPublic.BuildLoginUrl(plugin, Flat(plugin, clientId, clientSecret, tenantId), req, host).value.base
         == AuthorizeEndpoint(SsoAuthenticator.GetConfig(plugin, Grouped(clientId, clientSecret, tenantId), host).value.tenantId, host)
  {
    var grouped := Grouped(clientId, clientSecret, tenantId);
    assert Get(grouped, "client_id") == Some(clientId);
    assert Get(grouped, "client_secret") == Some(clientSecret);
    assert Get(grouped, "tenant_id") == Some(tenantId);
    var config := SsoAuthenticator.GetConfig(plugin, grouped, host);
    assert config.Success? && config.value.tenantId == tenantId;
    FlatSettings(plugin, clientId, clientSecret, tenantId);
    var login := SsoPublic.BuildLoginUrl(plugin, Flat(plugin, clientId, clientSecret, tenantId), req, host);
    assert login.Success? && login.value.base == AuthorizeEndpoint(tenantId, host);
  }

  /** A credential "0" is refused by the authenticator (PHP `empty("0")`) but
      accepted by the login page, which only rejects ''. */
  lemma ZeroCredentialSplitsChecks(plugin: string, clientSecret: string, tenantId: string,
                                   req: SsoPublic.Request, host: Host)
    requires clientSecret != "" && tenantId != ""
    ensures SsoAuthenticator.GetConfig(plugin, Grouped("0", clientSecret, tenantId), host).Failure?
    ensures SsoPublic.BuildLoginUrl(plugin, Flat(plugin, "0", clientSecret, tenantId), req, host).Success?
  {
    FlatSettings(plugin, "0", clientSecret, tenantId);
  }
}

/** The Microsoft Entra ID endpoints the plugin talks to (OAuth 2.0
    authorization-code grant, section 4.1 of RFC 6749). */
module Entra {
  import opened Wp

  const BaseUrl: string := "https://login.microsoftonline.com/"

  /** The scopes both classes request. */
  const Scope: string := "openid profile email"

  function AuthorizeEndpoint(tenantId: string, host: Host): string {
    BaseUrl + host.urlencode(tenantId) + "/oauth2/v2.0/authorize"
  }

  function TokenEndpoint(tenantId: string, host: Host): string {
    BaseUrl + host.urlencode(tenantId) + "/oauth2/v2.0/token"
  }
}

/** The protocol steps of the login (class Azure_SSO_Authenticator): the
    configuration check, the authorization request with its anti-forgery token,
    the callback check, the token response and the lookup of the local account. */
module SsoAuthenticator {
  import opened Wrappers
  import opened Php
  import opened Wp
  import opened Entra

  /** The three credentials, as read from the plugin's grouped setting. */
  datatype Config = Config(clientId: string, clientSecret: string, tenantId: string)

  const SsoErrorHeadline: string := "An error occurred during SSO login."

  /** Number of random bytes behind one anti-forgery token. */
  const EntropyBytes: nat := 64

  /** The session entry that holds the anti-forgery token. */
  function AntiforgeryKey(plugin: string): string {
    plugin + "-antiforgery"
  }

  /** get_config: the credentials from the grouped setting, or the configuration
      page when any of them is PHP-empty (absent, "" or "0"). */
  function GetConfig(plugin: string, settings: map<string, string>, host: Host): (r: Result<Config, Abort>)
    ensures r.Success? <==>
      !Empty(Get(settings, "client_id")) && !Empty(Get(settings, "client_secret")) && !Empty(Get(settings, "tenant_id"))
    ensures r.Success? ==>
      r.value == Config(settings["client_id"], settings["client_secret"], settings["tenant_id"])
    ensures r.Failure? ==> r.error == ConfigurationAbort(plugin, host)
  {
    var clientId := Get(settings, "client_id");
    var clientSecret := Get(settings, "client_secret");
    var tenantId := Get(settings, "tenant_id");
    if Empty(clientId) || Empty(clientSecret) || Empty(tenantId) then
      Failure(ConfigurationAbort(plugin, host))
    else
      Success(Config(clientId.value, clientSecret.value, tenantId.value))
  }

  /** The authorize redirect for a configuration and an anti-forgery token
      (section 4.1.1 of RFC 6749). */
  function AuthorizeRequestUrl(config: Config, antiforgery: string, host: Host): (u: Url)
    ensures u.base == AuthorizeEndpoint(config.tenantId, host)
  {
    Url(AuthorizeEndpoint(config.tenantId, host),
        [("client_id", config.clientId),
         ("response_type", "code"),
         ("redirect_uri", host.loginUrl("")),
         ("response_mode", "query"),
         ("scope", Scope),
         ("state", antiforgery)])
  }

  /** What a provider reads from the authorize redirect: the client, the
      authorization-code response type in the query, the scopes, the
      anti-forgery token as `state`, and never the client secret. */
  lemma AuthorizeRequestArguments(config: Config, antiforgery: string, host: Host)
    ensures var q := AuthorizeRequestUrl(config, antiforgery, host).query;
      && QueryValue(q, "client_id") == Some(config.clientId)
      && QueryValue(q, "response_type") == Some("code")
      && QueryValue(q, "redirect_uri") == Some(host.loginUrl(""))
      && QueryValue(q, "response_mode") == Some("query")
      && QueryValue(q, "scope") == Some(Scope)
      && QueryValue(q, "state") == Some(antiforgery)
      && QueryValue(q, "client_secret") == None
  {
    var q := AuthorizeRequestUrl(config, antiforgery, host).query;
    QueryValueAt(q, 0, "client_id");
    QueryValueAt(q, 1, "response_type");
    QueryValueAt(q, 2, "redirect_uri");
    QueryValueAt(q, 3, "response_mode");
    QueryValueAt(q, 4, "scope");
    QueryValueAt(q, 5, "state");
    QueryValueAbsent(q, "client_secret");
  }

  /** What request_authorization_code did: aborted on the configuration page
      (returning false), or redirected the browser (returning true). */
  datatype AuthorizationRequest = NotConfigured(abort: Abort) | Redirected(location: Url)

  /** The body of the token request (section 4.1.3 of RFC 6749). */
  function TokenRequestParams(config: Config, code: string, host: Host): seq<(string, string)>
  {
    [("client_id", config.clientId),
     ("scope", Scope),
     ("code", code),
     ("redirect_uri", host.loginUrl("")),
     ("grant_type", "authorization_code"),
     ("client_secret", config.clientSecret)]
  }

  /** What the token endpoint reads: the authorization-code grant with the code
      verbatim, the client credentials and the login page as redirect URI. */
  lemma TokenRequestArguments(config: Config, code: string, host: Host)
    ensures var params := TokenRequestParams(config, code, host);
      && QueryValue(params, "grant_type") == Some("authorization_code")
      && QueryValue(params, "code") == Some(code)
      && QueryValue(params, "client_id") == Some(config.clientId)
      && QueryValue(params, "client_secret") == Some(config.clientSecret)
      && QueryValue(params, "redirect_uri") == Some(host.loginUrl(""))
      && QueryValue(params, "scope") == Some(Scope)
  {
    var params := TokenRequestParams(config, code, host);
    QueryValueAt(params, 0, "client_id");
    QueryValueAt(params, 1, "scope");
    QueryValueAt(params, 2, "code");
    QueryValueAt(params, 3, "redirect_uri");
    QueryValueAt(params, 4, "grant_type");
    QueryValueAt(params, 5, "client_secret");
  }

  /** The token request carries the redirect URI of the authorization request,
      as the provider requires (section 4.1.3 of RFC 6749). */
  lemma TokenRequestRepeatsRedirectUri(config: Config, antiforgery: string, code: string, host: Host)
    ensures QueryValue(TokenRequestParams(config, code, host), "redirect_uri")
         == QueryValue(AuthorizeRequestUrl(config, antiforgery, host).query, "redirect_uri")
         != None
  {
    TokenRequestArguments(config, code, host);
    AuthorizeRequestArguments(config, antiforgery, host);
  }

  /** The two tokens exactly as the provider sent them; None where a field was absent. */
  datatype TokenPair = TokenPair(idToken: Option<string>, accessToken: Option<string>)

  /** The handling of the token endpoint's response body in request_id_token. */
  function ClassifyTokenResponse(body: string, host: Host): (r: Result<TokenPair, WpError>)
    ensures Empty(Some(body)) ==> r.Failure? && r.error.code == "empty_response"
    ensures !Empty(Some(body)) && "error" in host.jsonDecode(body) ==>
      r.Failure? && r.error.code == host.escHtml(host.jsonDecode(body)["error"])
    ensures r.Success? <==> !Empty(Some(body)) && "error" !in host.jsonDecode(body)
    ensures r.Success? ==>
      r.value.idToken == Get(host.jsonDecode(body), "id_token") &&
      r.value.accessToken == Get(host.jsonDecode(body), "access_token")
  {
    if Empty(Some(body)) then
      Failure(WpError("empty_response",
        ErrorMessage(SsoErrorHeadline, "The response from the server was empty.")))
    else
      var fields := host.jsonDecode(body);
      if "error" in fields then
        var error := host.escHtml(fields["error"]);
        var description := host.escHtml(Get(fields, "error_description").GetOr(""));
        Failure(WpError(error, ErrorMessage(SsoErrorHeadline + " (" + error + ")", description)))
      else
        Success(TokenPair(Get(fields, "id_token"), Get(fields, "access_token")))
  }

  /** What request_id_token returned: nothing after the configuration page, a
      WP_Error, or the token pair. */
  datatype TokenOutcome = TokenUnconfigured(abort: Abort) | TokenFailed(error: WpError) | TokenReceived(tokens: TokenPair)

  /** request_id_token: exchange the code at the token endpoint (the network
      call is the host's `remotePost`). */
  function RequestIdToken(plugin: string, settings: map<string, string>, code: string, host: Host): (r: TokenOutcome)
    ensures r.TokenUnconfigured? <==> GetConfig(plugin, settings, host).Failure?
    ensures r.TokenUnconfigured? ==> r.abort == ConfigurationAbort(plugin, host)
    ensures GetConfig(plugin, settings, host).Success? ==>
      var config := GetConfig(plugin, settings, host).value;
      var response := ClassifyTokenResponse(
        host.remotePost(TokenEndpoint(config.tenantId, host), TokenRequestParams(config, code, host)), host);
      (r.TokenReceived? <==> response.Success?) &&
      (r.TokenReceived? ==> r.tokens == response.value) &&
      (r.TokenFailed? ==> r.error == response.error)
  {
    match GetConfig(plugin, settings, host)
    case Failure(abort) => TokenUnconfigured(abort)
    case Success(config) =>
      var body := host.remotePost(TokenEndpoint(config.tenantId, host), TokenRequestParams(config, code, host));
      match ClassifyTokenResponse(body, host)
      case Failure(error) => TokenFailed(error)
      case Success(tokens) => TokenReceived(tokens)
  }

  /** The second `.`-separated segment of a compact token; "" (null) when there is none. */
  function IdTokenPayload(idToken: string): (payload: string)
    ensures '.' !in payload
  {
    var parts := Explode('.', idToken);
    if |parts| >= 2 then parts[1] else ""
  }

  /** For a token `header.payload.signature` the payload segment is the one decoded. */
  lemma IdTokenPayloadOfParts(header: string, payload: string, signature: string)
    requires '.' !in header && '.' !in payload
    ensures IdTokenPayload(header + "." + payload + "." + signature) == payload
  {
    var token := header + "." + payload + "." + signature;
    assert token == header + ['.'] + (payload + ['.'] + signature);
    ExplodeAfterFirst('.', header, payload + ['.'] + signature);
    ExplodeAfterFirst('.', payload, signature);
  }

  /** The `email` claim of the token's payload, null when absent. */
  function ClaimedEmail(idToken: string, host: Host): Option<string> {
    Get(host.jsonDecode(host.base64Decode(IdTokenPayload(idToken))), "email")
  }

  /** sign_in: the local account whose email is the token's `email` claim.
      The signature is not checked and the access token is not used. */
  function SignIn(idToken: string, accessToken: string, host: Host): (r: Result<User, WpError>)
    ensures r.Success? <==> host.userByEmail(ClaimedEmail(idToken, host)).Some?
    ensures r.Success? ==> r.value == host.userByEmail(ClaimedEmail(idToken, host)).value
    ensures r.Failure? ==> r.error.code == "user_not_found"
  {
    match host.userByEmail(ClaimedEmail(idToken, host))
    case None =>
      Failure(WpError("user_not_found",
        ErrorMessage("Your account has not been registered on this site.",
                     "Login was successful, but site did not accept user.")))
    case Some(user) => Success(user)
  }

  /** The authenticator with the PHP session it reads and writes. */
  class Authenticator {
    const pluginName: string
    var session: map<string, string>

    constructor (pluginName: string, session: map<string, string>)
      ensures this.pluginName == pluginName && this.session == session
    {
      this.pluginName := pluginName;
      this.session := session;
    }

    /** request_authorization_code: `entropy` is the result of random_bytes(64).
        On success the session holds the hex token and the redirect carries it
        as `state`; otherwise nothing is stored and nothing is redirected. */
    method RequestAuthorizationCode(settings: map<string, string>, entropy: seq<Byte>, host: Host)
      returns (r: AuthorizationRequest)
      requires |entropy| == EntropyBytes
      modifies this
      ensures GetConfig(pluginName, settings, host).Failure? ==>
        session == old(session) && r == NotConfigured(ConfigurationAbort(pluginName, host))
      ensures GetConfig(pluginName, settings, host).Success? ==>
        session == old(session)[AntiforgeryKey(pluginName) := Bin2Hex(entropy)] &&
        r == Redirected(AuthorizeRequestUrl(GetConfig(pluginName, settings, host).value, Bin2Hex(entropy), host))
    {
      var config := GetConfig(pluginName, settings, host);
      if config.Failure? {
        return NotConfigured(config.error);
      }
      var antiforgery := Bin2Hex(entropy);
      session := session[AntiforgeryKey(pluginName) := antiforgery];
      r := Redirected(AuthorizeRequestUrl(config.value, antiforgery, host));
    }

    /** handle_authorization_code_response: the guards in source order. The
        session is only read; the stored token stays valid afterwards. */
    function HandleAuthorizationCodeResponse(get: map<string, string>): (r: Result<string, WpError>)
      reads this
      ensures ("code" !in get || "state" !in get) ==> r.Failure? && r.error.code == "missing_parameters"
      ensures "code" in get && "state" in get && AntiforgeryKey(pluginName) !in session ==>
        r.Failure? && r.error.code == "missing_parameters"
      ensures ("code" in get && "state" in get && AntiforgeryKey(pluginName) in session &&
               get["state"] != session[AntiforgeryKey(pluginName)]) ==>
        r.Failure? && r.error.code == "nonce_invalid"
      ensures r.Success? <==>
        ("code" in get && "state" in get && AntiforgeryKey(pluginName) in session &&
         get["state"] == session[AntiforgeryKey(pluginName)])
      ensures r.Success? ==> r.value == get["code"]
    {
      if "code" !in get || "state" !in get then
        Failure(WpError("missing_parameters",
          ErrorMessage(SsoErrorHeadline, "The authorization code or state is missing.")))
      else if AntiforgeryKey(pluginName) !in session then
        Failure(WpError("missing_parameters", ErrorMessage(SsoErrorHeadline, "The nonce is missing.")))
      else if get["state"] != session[AntiforgeryKey(pluginName)] then
        Failure(WpError("nonce_invalid", ErrorMessage(SsoErrorHeadline, "The nonce is invalid.")))
      else
        Success(get["code"])
    }

    /** A provider redirect that echoes the issued `state` with a code is
        accepted after the authorization request, and the code comes back verbatim. */
    method AuthorizationRoundTrip(settings: map<string, string>, entropy: seq<Byte>, host: Host, code: string)
      returns (request: AuthorizationRequest, response: Option<Result<string, WpError>>)
      requires |entropy| == EntropyBytes
      modifies this
      ensures request.Redirected? <==> GetConfig(pluginName, settings, host).Success?
      ensures request.Redirected? <==> response.Some?
      ensures request.Redirected? ==> response == Some(Success(code))
      ensures request.Redirected? ==>
        AntiforgeryKey(pluginName) in session && |session[AntiforgeryKey(pluginName)]| == 2 * EntropyBytes
    {
      request := RequestAuthorizationCode(settings, entropy, host);
      if request.Redirected? {
        AuthorizeRequestArguments(GetConfig(pluginName, settings, host).value, Bin2Hex(entropy), host);
        var state := QueryValue(request.location.query, "state");
        var get := map["code" := code, "state" := state.value];
        response := Some(HandleAuthorizationCodeResponse(get));
      } else {
        response := None;
      }
    }
  }
}

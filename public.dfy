/** The login-page side of the plugin (class Azure_SSO_Public): whether the
    login page sends the visitor straight to the provider, the login URL with
    its state, the plugin's endpoint URLs, and the dispatch of the endpoint. */
module SsoPublic {
  import opened Wrappers
  import opened Wp
  import opened Entra

  /** The superglobals of one request. */
  datatype Request = Request(get: map<string, string>, post: map<string, string>, request: map<string, string>)

  // ---------------------------------------------------------------------------
  // Redirect-loop guard
  // ---------------------------------------------------------------------------

  /** auto_redirect_to_sso. `autoRedirect` is the `-option-auto-redirect`
      setting after the `-auto-redirect` filter. When the guard lets the
      request through, start_login runs and its result is returned. */
  method AutoRedirectToSso(plugin: string, autoRedirect: bool, settings: map<string, string>, req: Request, host: Host)
    returns (started: Option<Result<Url, Abort>>)
    ensures started.Some? <==>
      && autoRedirect
      && NoRedirectMarker(plugin) !in req.get
      && "loggedout" !in req.get
      && ("action" in req.request ==> req.request["action"] == "login")
      && "code" !in req.get
      && "log" !in req.post
    ensures started.Some? ==> started.value == BuildLoginUrl(plugin, settings, req, host)
    ensures NoRedirectMarker(plugin) in req.get ==> started.None?
  {
    var redirect := autoRedirect;
    redirect := redirect && NoRedirectMarker(plugin) !in req.get;
    var action := if "action" in req.request then req.request["action"] else "login";
    action := if "loggedout" in req.get then "loggedout" else action;
    redirect := redirect && action == "login";
    redirect := redirect && "code" !in req.get && "log" !in req.post;
    if redirect {
      started := Some(BuildLoginUrl(plugin, settings, req, host));
    } else {
      started := None;
    }
  }

  // ---------------------------------------------------------------------------
  // Login URL and its state
  // ---------------------------------------------------------------------------

  /** The key of a flat setting. */
  function SettingKey(plugin: string, name: string): string {
    plugin + "-option-" + name
  }

  /** A flat setting read with get_option($key, ''). */
  function Setting(settings: map<string, string>, plugin: string, name: string): string {
    Get(settings, SettingKey(plugin, name)).GetOr("")
  }

  /** The action a state nonce is made for: the plugin name, bound to the
      redirect target when there is one. */
  function NonceAction(plugin: string, redirectTo: Option<string>): string {
    if redirectTo.Some? then plugin + "_" + redirectTo.value else plugin
  }

  /** The nonce action determines the redirect target it was made for. */
  lemma NonceActionInjective(plugin: string, a: Option<string>, b: Option<string>)
    requires NonceAction(plugin, a) == NonceAction(plugin, b)
    ensures a == b
  {
    if a.Some? && b.Some? {
      var n := |plugin| + 1;
      assert NonceAction(plugin, a)[n..] == a.value;
      assert NonceAction(plugin, b)[n..] == b.value;
    }
  }

  /** The state data of build_login_url: the sanitised `redirect_to` of the
      query, if any, followed by a nonce made for it. */
  function StateData(plugin: string, req: Request, host: Host): seq<(string, string)> {
    if "redirect_to" in req.get then
      var target := host.escUrlRaw(req.get["redirect_to"]);
      [("redirect_to", target), ("nonce", host.createNonce(NonceAction(plugin, Some(target))))]
    else
      [("nonce", host.createNonce(NonceAction(plugin, None)))]
  }

  /** The sanitised `redirect_to` of the query, if any. */
  function RedirectTarget(req: Request, host: Host): Option<string> {
    if "redirect_to" in req.get then Some(host.escUrlRaw(req.get["redirect_to"])) else None
  }

  /** What the state data carries: the redirect target exactly when the query
      has one, and always a nonce bound to it; nothing else. */
  lemma StateDataContents(plugin: string, req: Request, host: Host)
    ensures var data := StateData(plugin, req, host);
      && QueryValue(data, "redirect_to") == RedirectTarget(req, host)
      && QueryValue(data, "nonce") == Some(host.createNonce(NonceAction(plugin, RedirectTarget(req, host))))
      && |data| == (if "redirect_to" in req.get then 2 else 1)
  {
    var data := StateData(plugin, req, host);
    if "redirect_to" in req.get {
      QueryValueAt(data, 0, "redirect_to");
      QueryValueAt(data, 1, "nonce");
    } else {
      QueryValueAbsent(data, "redirect_to");
      QueryValueAt(data, 0, "nonce");
    }
  }

  /** build_login_url: the configuration page when a flat setting is '', else
      the authorize URL with the callback endpoint and the JSON state. */
  function BuildLoginUrl(plugin: string, settings: map<string, string>, req: Request, host: Host): (r: Result<Url, Abort>)
    ensures r.Failure? <==>
      (Setting(settings, plugin, "client-id") == "" ||
       Setting(settings, plugin, "client-secret") == "" ||
       Setting(settings, plugin, "tenant-id") == "")
    ensures r.Failure? ==> r.error == ConfigurationAbort(plugin, host)
    ensures r.Success? ==> r.value.base == AuthorizeEndpoint(Setting(settings, plugin, "tenant-id"), host)
  {
    var clientId := Setting(settings, plugin, "client-id");
    var clientSecret := Setting(settings, plugin, "client-secret");
    var tenantId := Setting(settings, plugin, "tenant-id");
    if clientId == "" || clientSecret == "" || tenantId == "" then
      Failure(ConfigurationAbort(plugin, host))
    else
      Success(Url(AuthorizeEndpoint(tenantId, host),
        [("client_id", clientId),
         ("response_type", "code"),
         ("redirect_uri", BuildEndpointUrl(plugin, "callback", false, host)),
         ("response_mode", "query"),
         ("scope", Scope),
         ("state", host.jsonEncode(StateData(plugin, req, host)))]))
  }

  /** What a provider reads from the login URL: the configured client, the
      authorization-code response type, the callback endpoint as redirect URI,
      the scopes and the JSON-encoded state data; never the client secret. */
  lemma LoginUrlArguments(plugin: string, settings: map<string, string>, req: Request, host: Host)
    requires BuildLoginUrl(plugin, settings, req, host).Success?
    ensures var q := BuildLoginUrl(plugin, settings, req, host).value.query;
      && QueryValue(q, "client_id") == Some(Setting(settings, plugin, "client-id"))
      && QueryValue(q, "response_type") == Some("code")
      && QueryValue(q, "redirect_uri") == Some(BuildEndpointUrl(plugin, "callback", false, host))
      && QueryValue(q, "response_mode") == Some("query")
      && QueryValue(q, "scope") == Some(Scope)
      && QueryValue(q, "state") == Some(host.jsonEncode(StateData(plugin, req, host)))
      && QueryValue(q, "client_secret") == None
  {
    var q := BuildLoginUrl(plugin, settings, req, host).value.query;
    QueryValueAt(q, 0, "client_id");
    QueryValueAt(q, 1, "response_type");
    QueryValueAt(q, 2, "redirect_uri");
    QueryValueAt(q, 3, "response_mode");
    QueryValueAt(q, 4, "scope");
    QueryValueAt(q, 5, "state");
    QueryValueAbsent(q, "client_secret");
  }

  // ---------------------------------------------------------------------------
  // Endpoint URLs
  // ---------------------------------------------------------------------------

  /** The path handed to site_url for an endpoint action. */
  function EndpointPath(plugin: string, action: string, host: Host): string {
    "?" + plugin + "=" + host.urlencode(action)
  }

  predicate IsLocalHost(h: Option<string>) {
    h == Some("localhost") || h == Some("127.0.0.1")
  }

  /** build_endpoint_url: the endpoint under site_url, rebuilt once with the
      https scheme for the callback on a local host. */
  function BuildEndpointUrl(plugin: string, action: string, enforceHttps: bool, host: Host): (url: string)
    ensures url == host.siteUrl(EndpointPath(plugin, action, host),
      enforceHttps ||
      (action == "callback" && IsLocalHost(host.urlHost(host.siteUrl(EndpointPath(plugin, action, host), false)))))
    decreases if enforceHttps then 0 else 1
  {
    var url := host.siteUrl(EndpointPath(plugin, action, host), enforceHttps);
    if action == "callback" && !enforceHttps && IsLocalHost(host.urlHost(url)) then
      BuildEndpointUrl(plugin, action, true, host)
    else
      url
  }

  // ---------------------------------------------------------------------------
  // Endpoint dispatch and login button
  // ---------------------------------------------------------------------------

  /** How handle_callbacks ends the request: the template is rendered (with a
      Location header when start_login redirected), or the request exits. */
  datatype Dispatch<T> = Continue(template: T, location: Option<Url>) | Exit(abort: Option<Abort>)

  /** handle_callbacks for the value of the plugin's query variable. The
      `callback` handler is empty, so its falsy result always exits. */
  function HandleCallbacks<T>(plugin: string, template: T, queryValue: string,
                              settings: map<string, string>, req: Request, host: Host): (r: Dispatch<T>)
    ensures queryValue != "start" && queryValue != "callback" ==> r == Continue(template, None)
    ensures queryValue == "callback" ==> r == Exit(None)
    ensures queryValue == "start" ==>
      (r.Continue? <==> BuildLoginUrl(plugin, settings, req, host).Success?) &&
      (r.Continue? ==> r == Continue(template, Some(BuildLoginUrl(plugin, settings, req, host).value))) &&
      (r.Exit? ==> r.abort == Some(ConfigurationAbort(plugin, host)))
  {
    if queryValue == "start" then
      match BuildLoginUrl(plugin, settings, req, host)
      case Success(location) => Continue(template, Some(location))
      case Failure(abort) => Exit(Some(abort))
    else if queryValue == "callback" then
      Exit(None)
    else
      Continue(template, None)
  }

  /** The URL of the login button in show_login_form: the `start` endpoint,
      carrying the request's `redirect_to` when there is one. */
  function LoginButtonUrl(plugin: string, req: Request, host: Host): (u: Url)
    ensures u.base == host.siteUrl(EndpointPath(plugin, "start", host), false)
    ensures QueryValue(u.query, "redirect_to") == Get(req.request, "redirect_to")
    ensures "redirect_to" !in req.request ==> u.query == []
  {
    var start := Url(BuildEndpointUrl(plugin, "start", false, host), []);
    if "redirect_to" in req.request then AddQueryArg(start, "redirect_to", req.request["redirect_to"]) else start
  }
}

/** The WordPress host as the plugin sees it: URLs it composes, the foreign
    functions it calls, and the two shapes of failure it produces (a `wp_die`
    page and a `WP_Error`). */
module Wp {
  import opened Wrappers

  /** A URL as the plugin composes it: an address produced by the host (or a
      constant) with ordered query arguments appended by `add_query_arg` or
      `http_build_query`. The textual rendering is the host's `render`. */
  datatype Url = Url(base: string, query: seq<(string, string)>)

  /** The value of the first argument named `key`, as a receiver of the URL reads it. */
  function QueryValue(query: seq<(string, string)>, key: string): Option<string>
  {
    if query == [] then None
    else if query[0].0 == key then Some(query[0].1)
    else QueryValue(query[1..], key)
  }

  /** The first argument named `key`, at position `i`, is the one read. */
  lemma {:induction false} QueryValueAt(query: seq<(string, string)>, i: nat, key: string)
    requires i < |query| && query[i].0 == key
    requires forall j :: 0 <= j < i ==> query[j].0 != key
    ensures QueryValue(query, key) == Some(query[i].1)
  {
    if i > 0 {
      QueryValueAt(query[1..], i - 1, key);
    }
  }

  /** An argument name that does not occur reads as absent. */
  lemma {:induction false} QueryValueAbsent(query: seq<(string, string)>, key: string)
    requires forall j :: 0 <= j < |query| ==> query[j].0 != key
    ensures QueryValue(query, key) == None
  {
    if query != [] {
      QueryValueAbsent(query[1..], key);
    }
  }

  /** `add_query_arg($key, $value, $url)`: replaces an existing argument of that
      name, otherwise appends one. WordPress inserts the value unencoded; the
      structured URL here keeps it whole. */
  function AddQueryArg(u: Url, key: string, value: string): (r: Url)
    ensures r.base == u.base
    ensures QueryValue(r.query, key) == Some(value)
    ensures forall k :: k != key ==> QueryValue(r.query, k) == QueryValue(u.query, k)
  {
    Url(u.base, SetArg(u.query, key, value))
  }

  function SetArg(query: seq<(string, string)>, key: string, value: string): (r: seq<(string, string)>)
    ensures QueryValue(r, key) == Some(value)
    ensures forall k :: k != key ==> QueryValue(r, k) == QueryValue(query, k)
  {
    if query == [] then [(key, value)]
    else if query[0].0 == key then [(key, value)] + query[1..]
    else [query[0]] + SetArg(query[1..], key, value)
  }

  /** An account found by the host's user lookup. */
  datatype User = User(id: nat)

  /** The host functions and foreign calls the core uses, left uninterpreted. */
  datatype Host = Host(
    loginUrl: string -> string,                          // wp_login_url($redirect); "" for none
    adminUrl: string -> string,                          // admin_url($path)
    siteUrl: (string, bool) -> string,                   // site_url($path, $scheme): true for 'https', false for null
    urlHost: string -> Option<string>,                   // parse_url($url, PHP_URL_HOST)
    render: Url -> string,                               // a composed URL as text
    urlencode: string -> string,                         // urlencode
    escHtml: string -> string,                           // esc_html
    escUrlRaw: string -> string,                         // esc_url_raw
    createNonce: string -> string,                       // wp_create_nonce($action)
    jsonEncode: seq<(string, string)> -> string,         // json_encode of an ordered string array
    remotePost: (string, seq<(string, string)>) -> string, // wp_remote_retrieve_body(wp_remote_post(...))
    jsonDecode: string -> map<string, string>,           // json_decode($s, true); no keys when not an object
    base64Decode: string -> string,                      // base64_decode
    userByEmail: Option<string> -> Option<User>          // get_user_by('email', $email); None for false
  )

  /** A `wp_die` page: the request ends with this message. */
  datatype Abort = Abort(message: string, title: string, status: int, backLink: bool, linkUrl: Url, linkText: string)

  /** A `WP_Error` with its code and its HTML message. */
  datatype WpError = WpError(code: string, message: string)

  /** sprintf('%s<hr><small>%s</small>', headline, detail). */
  function ErrorMessage(headline: string, detail: string): string {
    headline + "<hr><small>" + detail + "</small>"
  }

  /** The GET marker that keeps the login page from redirecting to the provider. */
  function NoRedirectMarker(plugin: string): string {
    plugin + "-no-redirect"
  }

  /** The page both classes show when the client id, secret or tenant id is
      missing: status 500, linking to the login page with the anti-lockout
      marker set and the settings page as the post-login target. */
  function ConfigurationAbort(plugin: string, host: Host): (a: Abort)
    ensures a.status == 500 && a.backLink
    ensures QueryValue(a.linkUrl.query, NoRedirectMarker(plugin)) == Some("")
    ensures a.linkUrl.base == host.loginUrl(host.render(AddQueryArg(Url(host.adminUrl("options-general.php"), []), "page", plugin)))
  {
    var optionsPage := AddQueryArg(Url(host.adminUrl("options-general.php"), []), "page", plugin);
    var link := AddQueryArg(Url(host.loginUrl(host.render(optionsPage)), []), NoRedirectMarker(plugin), "");
    Abort("Azure SSO is not configured correctly. Check configuration and try again.",
          "Azure SSO Error", 500, true, link, "Configure Azure SSO")
  }
}

# Entra ID single sign-on for WordPress: a Dafny model of the login core

This project models the login core of a WordPress plugin that signs users in
through Microsoft Entra ID (Azure AD) with the OAuth 2.0 authorization-code
grant (section 4.1 of RFC 6749) and OpenID Connect, using the `state` parameter
as the anti-forgery token of section 10.12 of RFC 6749. Two PHP classes hold
that core:

- `Azure_SSO_Authenticator` (module `SsoAuthenticator`): the configuration
  check, the authorization request with its anti-forgery token kept in the PHP
  session, the check of the provider's redirect back, the handling of the token
  endpoint's response, and the lookup of the local account by the token's
  `email` claim. The class becomes a Dafny class `Authenticator` whose
  `session` field is the `$_SESSION` map; the request step is a method that
  writes it, the other steps are functions of their inputs.
- `Azure_SSO_Public` (module `SsoPublic`): the guard that decides whether the
  login page sends the visitor straight to the provider, the login URL with
  its JSON state, the plugin's endpoint URLs, the endpoint dispatcher and the
  login button's URL.

Supporting modules: `Wrappers` (Option for PHP null, Result for "value or
WP_Error"), `Php` (PHP's `empty()`, `bin2hex` with `hex2bin` as its inverse,
`explode` with `implode` as its inverse), `Wp` (a URL as a base plus ordered
query arguments, `add_query_arg`, the uninterpreted host functions, the
`wp_die` page and `WP_Error`), `Entra` (the provider's endpoints and scope) and
`SsoConsistency` (how the two classes' configuration checks relate).

Host and foreign functions are fields of the `Wp.Host` record and are left
uninterpreted: `wp_login_url`, `admin_url`, `site_url`, `parse_url`, the
rendering of a composed URL as text, `urlencode`, `esc_html`, `esc_url_raw`,
`wp_create_nonce`, `json_encode`, `json_decode`, `base64_decode`,
`wp_remote_post` with `wp_remote_retrieve_body`, and `get_user_by('email', …)`.
`random_bytes(64)` is the `entropy` parameter of the request step. `wp_die`,
`wp_redirect` and `exit` become outcome values (`Abort`, a redirect location,
`Dispatch.Exit`). The auto-redirect setting, already passed through its filter,
is a boolean parameter.

On these points the code behaves as follows, and the model follows it:

- a missing stored anti-forgery token is reported with the same code as a
  missing parameter, `missing_parameters`, and a mismatch gives `nonce_invalid`;
- the stored token is never removed, so an identical second callback is
  accepted again (there is no replay protection to prove);
- a provider `error` parameter on the redirect back is not looked at: without
  `code` it is reported as `missing_parameters`;
- the identity token's signature is not checked;
- the login page's own callback handler is empty, so no sign-in sequence
  through the endpoint exists to model.

The two classes read the credentials differently, and the model keeps both:
the authenticator reads one grouped setting and rejects PHP-empty values
(absent, `""` and `"0"`), the login page reads three flat settings with default
`''` and rejects only `''` (`SsoConsistency.ZeroCredentialSplitsChecks`). They
also send different `state` values (the raw hex token versus JSON with a
WordPress nonce) and different redirect URIs (the login page versus the
plugin's callback endpoint).

The comparison of `state` with the stored token
(src/includes/class-azure-sso-authenticator.php:131) is PHP's loose `==`; it is
modelled as string equality. The two differ only when both strings are numeric
(for instance `"1e3"` and `"1000"`). A 128-character hex token is a numeric
string when it is all decimal digits, or decimal digits around a single `e`;
a token such as `"0e"` followed by 126 decimal digits equals `"0"` under `==`,
so the code accepts `state=0` for it, while the model rejects that state.

`$_REQUEST` is taken as a map of its own (`SsoPublic.Request.request`), not
derived from `$_GET` and `$_POST`; the guard's contract holds for every
combination of the three.

WordPress's `add_query_arg` inserts argument values without URL-encoding them.
So the `redirect_to` value that the login button passes on
(src/public/class-azure-sso-public.php:86) reaches the `start` endpoint intact
only when it contains no `&`, `#`, `+`, `%` or other character with a meaning
in a query string; a value such as `https://s/x?a=1&b=2` arrives cut at the
`&`. The same holds for the arguments of the authorize redirect
(src/includes/class-azure-sso-authenticator.php:97), where
`redirect_uri` and `scope` are inserted unencoded. The model keeps each URL as
its base and its ordered arguments, so these read-backs are exact in the model.

## Model

| member | source | states |
|---|---|---|
| `Php.Bin2Hex` | src/includes/class-azure-sso-authenticator.php:83 | the anti-forgery token has two lower-case hex digits per random byte, so 64 bytes give 128 hex characters |
| `Php.Hex2BinBin2Hex` | src/includes/class-azure-sso-authenticator.php:83 | decoding the token gives back every random byte it was made from |
| `Php.Bin2HexInjective` | src/includes/class-azure-sso-authenticator.php:83 | different random bytes always give different tokens |
| `Php.Explode` | src/includes/class-azure-sso-authenticator.php:228 | splitting the identity token gives at least one segment, and no segment contains the separator |
| `Php.ImplodeExplode` | src/includes/class-azure-sso-authenticator.php:228 | joining the segments again gives back the token unchanged |
| `Php.ExplodeImplode` | src/includes/class-azure-sso-authenticator.php:228 | splitting a join of dot-free segments gives back exactly those segments |
| `Wp.AddQueryArg` | src/public/class-azure-sso-public.php:86 | the argument reads as the new value afterwards and every other argument keeps its value |
| `Wp.ConfigurationAbort` | src/includes/class-azure-sso-authenticator.php:302-315 | the configuration error page has status 500 and a back link, and links to the login page with the anti-lockout marker set and the settings page as target |
| `SsoAuthenticator.GetConfig` | src/includes/class-azure-sso-authenticator.php:296-323 | succeeds exactly when client id, client secret and tenant id are all non-empty in PHP's sense, returns them unchanged, and otherwise gives the configuration error page |
| `SsoAuthenticator.AuthorizeRequestUrl` | src/includes/class-azure-sso-authenticator.php:96 | the authorize redirect goes to the tenant's authorize endpoint |
| `SsoAuthenticator.AuthorizeRequestArguments` | src/includes/class-azure-sso-authenticator.php:87-95 | the authorize redirect carries the client id, `response_type=code`, the login page as redirect URI, `response_mode=query`, the OpenID scopes and the token as `state`, and never the client secret |
| `SsoAuthenticator.Authenticator.constructor` | src/includes/class-azure-sso-authenticator.php:62-66 | an authenticator keeps the plugin name and the session it is given |
| `SsoAuthenticator.Authenticator.RequestAuthorizationCode` | src/includes/class-azure-sso-authenticator.php:75-99 | without a complete configuration nothing is stored and the error page is the outcome; otherwise the session gains exactly the hex token under `<plugin>-antiforgery` and the browser is redirected to the authorize URL for that token |
| `SsoAuthenticator.Authenticator.HandleAuthorizationCodeResponse` | src/includes/class-azure-sso-authenticator.php:107-144 | a missing code or state, or a missing stored token, gives `missing_parameters`; a state different from the stored token gives `nonce_invalid`; it succeeds exactly when both are present and the state equals the stored token, and returns the code verbatim |
| `SsoAuthenticator.Authenticator.AuthorizationRoundTrip` | src/includes/class-azure-sso-authenticator.php:83-143 | after a configured authorization request, a redirect back that echoes the issued `state` with some code is accepted and returns that code; the stored token has 128 characters |
| `SsoAuthenticator.TokenRequestArguments` | src/includes/class-azure-sso-authenticator.php:165-173 | the token request uses the authorization-code grant, the code verbatim, the client id and secret, the login page as redirect URI and the OpenID scopes |
| `SsoAuthenticator.TokenRequestRepeatsRedirectUri` | src/includes/class-azure-sso-authenticator.php:87-171 | the token request names the same redirect URI as the authorization request |
| `SsoAuthenticator.ClassifyTokenResponse` | src/includes/class-azure-sso-authenticator.php:177-214 | an empty body (`""` or `"0"`) gives `empty_response`; a decoded `error` field gives an error whose code is that field HTML-escaped; otherwise, and only then, the id and access tokens come back exactly as received |
| `SsoAuthenticator.RequestIdToken` | src/includes/class-azure-sso-authenticator.php:154-215 | without a complete configuration the error page is the outcome; otherwise the outcome is the classification of the token endpoint's answer to the request built from the configuration and the code |
| `SsoAuthenticator.IdTokenPayloadOfParts` | src/includes/class-azure-sso-authenticator.php:228-229 | for a token `header.payload.signature` with dot-free header and payload, the payload segment is the one decoded |
| `SsoAuthenticator.SignIn` | src/includes/class-azure-sso-authenticator.php:226-245 | succeeds exactly when the host finds a user for the payload's `email` claim and returns that user; otherwise the error is `user_not_found` |
| `SsoPublic.AutoRedirectToSso` | src/public/class-azure-sso-public.php:124-146 | the login starts exactly when the filtered setting is on, the anti-lockout marker and `loggedout` are absent from GET, the request's `action` is absent or `login`, GET has no `code` and POST has no `log`; the marker alone always prevents it; when it starts, the outcome is that of the login URL builder |
| `SsoPublic.NonceActionInjective` | src/public/class-azure-sso-public.php:198-204 | the action a state nonce is made for determines the redirect target it is bound to, and an unbound nonce's action never equals a bound one's |
| `SsoPublic.StateDataContents` | src/public/class-azure-sso-public.php:197-204 | the state data holds the sanitised `redirect_to` exactly when GET has one, always a nonce made for `plugin_redirect_to` or for the plugin name, and nothing else |
| `SsoPublic.BuildLoginUrl` | src/public/class-azure-sso-public.php:174-218 | fails with the configuration error page exactly when a flat credential setting is `''`, and otherwise targets the tenant's authorize endpoint |
| `SsoPublic.LoginUrlArguments` | src/public/class-azure-sso-public.php:207-217 | the login URL carries the client id, `response_type=code`, the callback endpoint as redirect URI, `response_mode=query`, the OpenID scopes and the JSON state data, and never the client secret |
| `SsoPublic.BuildEndpointUrl` | src/public/class-azure-sso-public.php:225-235 | the endpoint URL is the site URL for the action, with the https scheme exactly when forced or when it is the callback and the default URL's host is localhost or 127.0.0.1 |
| `SsoPublic.HandleCallbacks` | src/public/class-azure-sso-public.php:97-117 | any value other than `start` or `callback` renders the template unchanged; `callback` always exits; `start` renders the template with the login redirect when the login URL could be built and exits on the configuration error page otherwise |
| `SsoPublic.LoginButtonUrl` | src/public/class-azure-sso-public.php:82-87 | the button points at the plain `start` endpoint and carries the request's `redirect_to` exactly when it has one |
| `SsoConsistency.BothChecksAcceptCredentials` | src/public/class-azure-sso-public.php:176-181 | credentials that are neither `''` nor `"0"` pass both classes' checks and both address the same tenant's authorize endpoint |
| `SsoConsistency.ZeroCredentialSplitsChecks` | src/includes/class-azure-sso-authenticator.php:302 | a client id `"0"` is refused by the authenticator but accepted by the login page |

## Left out

- `validate_id_token` (signature and claim validation through the discovery and key documents): it makes network calls, is unfinished and is never called; the model does not treat any identity token as validated.
- `handle_callback` of the login page: its body is empty (a TODO); it is modelled only through `HandleCallbacks`, where its falsy result ends the request.
- `start_login`: it is `wp_redirect(build_login_url())`; it appears inside `AutoRedirectToSso` and `HandleCallbacks` as the result of `BuildLoginUrl`, a success being the redirect location.
- The rest of `show_login_form` (button text setting and template output) and the HTML templates: rendering only.
- Translation of messages (`__`, `esc_html__`): messages are the untranslated English text, which contains nothing that escaping changes.
- `wp_die` ends the request in WordPress; the model returns its page as a value, so the unreachable `return false` after it is the same outcome.
- The textual form of composed URLs (`add_query_arg` on arrays, `http_build_query`) and any query already inside a base address produced by the host: a URL is kept as its base and its ordered arguments.
- Settings registration, the admin pages, hook wiring, rewrite endpoints, stylesheet and script enqueueing, activation and deactivation: WordPress glue without decisions.
- Non-string values in settings, superglobals or decoded JSON (arrays, numbers, booleans): every such value is a string here, and a decoded body that is not an object has no fields.
- `Wp.AddQueryArg`: the read-back of an argument holds in the model for every value, but in WordPress only for values that need no URL-encoding, because `add_query_arg` inserts values unencoded and the textual form of URLs is not modelled.
- `SsoPublic.LoginButtonUrl`: carries `redirect_to` exactly only in the model; in WordPress a value that needs URL-encoding (one holding `&`, `#`, `+` or `%`) is split or altered, because line 86 inserts it with `add_query_arg` unencoded.
- `SsoAuthenticator.AuthorizeRequestArguments`: the provider reads each argument as stated only when its value needs no URL-encoding, because line 97 builds the redirect with `add_query_arg`, which does not encode values.
- `SsoAuthenticator.Authenticator.HandleAuthorizationCodeResponse`: models the loose `==` of the state comparison as string equality, so numeric strings that PHP considers equal (such as a `0e…` token and `"0"`) are treated as different.

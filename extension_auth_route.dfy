/** The web routes that hand a session token to the extension:
    web/src/app/extension-auth/start/route.ts, which checks the extension's
    `redirect_uri` and sends the user to sign in, and the redirect check of
    web/src/app/extension-auth/after-sign-in/route.ts, which comes back with
    the token. URLs are kept as structured values; their string
    serialisation (percent-encoding) is not modelled. */
module ExtensionAuthRoute {
  import opened Wrappers
  import opened Strings

  const MissingRedirectMessage := "Missing redirect_uri"
  const InvalidRedirectMessage := "Invalid redirect_uri"
  const TokenFailureMessage := "Failed to obtain token"

  /** `new URL(u).toString()`, or `None` when the constructor throws. */
  type UrlParser = string -> Option<string>

  /** Where a route redirects to. */
  datatype Location =
    /** `<origin>/sign-in`, with `redirect_url` set when given. */
    | SignIn(origin: string, redirectUrl: Option<Location>)
    /** `<origin>/extension-auth/after-sign-in?redirect_uri=<uri>`. */
    | AfterSignIn(origin: string, redirectUri: string)
    /** The extension's redirect URL with its `jwt` parameter set. */
    | WithJwt(url: string, jwt: string)

  datatype Response = Text(status: nat, body: string) | Redirect(location: Location)

  /** The check both routes apply: the text starts with `https://` and
      contains `chromiumapp.org` somewhere (a substring test, not a host
      test). */
  predicate IsAllowedRedirect(u: string) {
    "https://" <= u && Contains(u, "chromiumapp.org")
  }

  /** The guards the two routes share, in order: a missing or empty
      `redirect_uri`, one that fails the check, one `new URL` rejects. */
  function CheckRedirect(redirectUri: Option<string>, parse: UrlParser): (r: Result<string, Response>)
    ensures r.Success? <==>
              redirectUri.Some? && redirectUri.value != "" && IsAllowedRedirect(redirectUri.value)
              && parse(redirectUri.value).Some?
    ensures r.Success? ==> r.value == parse(redirectUri.value).value
    ensures (redirectUri.None? || redirectUri.value == "") ==> r == Failure(Text(400, MissingRedirectMessage))
    ensures r.Failure? && redirectUri.Some? && redirectUri.value != "" ==> r == Failure(Text(400, InvalidRedirectMessage))
  {
    if redirectUri.None? || redirectUri.value == "" then Failure(Text(400, MissingRedirectMessage))
    else if !IsAllowedRedirect(redirectUri.value) then Failure(Text(400, InvalidRedirectMessage))
    else match parse(redirectUri.value)
      case None => Failure(Text(400, InvalidRedirectMessage))
      case Some(u) => Success(u)
  }

  /** `GET /extension-auth/start`: on success, a redirect to sign-in whose
      `redirect_url` is the after-sign-in route carrying the parsed
      extension URL. */
  function Start(redirectUri: Option<string>, origin: string, parse: UrlParser): (r: Response)
    ensures r.Redirect? <==> CheckRedirect(redirectUri, parse).Success?
    ensures r.Redirect? ==>
              && IsAllowedRedirect(redirectUri.value)
              && r.location == SignIn(origin, Some(AfterSignIn(origin, parse(redirectUri.value).value)))
    ensures r.Text? ==> r.status == 400
  {
    match CheckRedirect(redirectUri, parse)
    case Failure(response) => response
    case Success(u) => Redirect(SignIn(origin, Some(AfterSignIn(origin, u))))
  }

  /** `GET /extension-auth/after-sign-in`, with the session lookup as
      parameters: the same guards, then sign-in for a visitor without a
      user id, 500 without a token, and otherwise the extension URL with
      the token as `jwt`. */
  function AfterSignInRoute(redirectUri: Option<string>, origin: string, parse: UrlParser,
                            userId: Option<string>, token: Option<string>): (r: Response)
    ensures r.Redirect? && r.location.WithJwt? <==>
              && CheckRedirect(redirectUri, parse).Success?
              && userId.Some? && userId.value != "" && token.Some? && token.value != ""
    ensures r.Redirect? && r.location.WithJwt? ==>
              r.location == WithJwt(parse(redirectUri.value).value, token.value)
    ensures CheckRedirect(redirectUri, parse).Failure? ==> r == CheckRedirect(redirectUri, parse).error
    ensures CheckRedirect(redirectUri, parse).Success? && (userId.None? || userId.value == "") ==>
              r == Redirect(SignIn(origin, None))
    ensures CheckRedirect(redirectUri, parse).Success? && userId.Some? && userId.value != ""
            && (token.None? || token.value == "") ==>
              r == Text(500, TokenFailureMessage)
  {
    match CheckRedirect(redirectUri, parse)
    case Failure(response) => response
    case Success(u) =>
      if userId.None? || userId.value == "" then Redirect(SignIn(origin, None))
      else if token.None? || token.value == "" then Text(500, TokenFailureMessage)
      else Redirect(WithJwt(u, token.value))
  }

  /** The two routes chained: the start route sends the user away with
      the serialised extension URL, and after sign-in that serialised URL
      comes back as `redirect_uri`. When serialising is stable (the
      serialised URL passes the check and parses to itself), a user with a
      token is sent to exactly the URL the start route embedded. */
  lemma StartThenAfterSignIn(redirectUri: Option<string>, origin: string, parse: UrlParser,
                             userId: string, token: string)
    requires CheckRedirect(redirectUri, parse).Success?
    requires var u := parse(redirectUri.value).value; IsAllowedRedirect(u) && parse(u) == Some(u)
    requires userId != "" && token != ""
    ensures Start(redirectUri, origin, parse).Redirect?
    ensures var served := Start(redirectUri, origin, parse).location.redirectUrl.value.redirectUri;
            AfterSignInRoute(Some(served), origin, parse, Some(userId), Some(token)) ==
              Redirect(WithJwt(served, token))
  {
    var u := parse(redirectUri.value).value;
    assert Start(redirectUri, origin, parse).location.redirectUrl.value.redirectUri == u;
    assert CheckRedirect(Some(u), parse) == Success(u);
  }

  /** The check is a substring test: a URL on any host whatever is accepted
      once `chromiumapp.org` appears in its path. */
  lemma SubstringIsNotHost(host: string, path: string)
    requires "chromiumapp.org" <= path
    ensures IsAllowedRedirect("https://" + host + "/" + path)
  {
    var u := "https://" + host + "/" + path;
    var i := |"https://" + host + "/"|;
    assert u[i..] == path;
    assert "https://" <= u;
  }
}

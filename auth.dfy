/** The session evaluator of extension/src/auth.ts: whether the stored
    credentials form a usable session, clearing them when they do not. */
module Auth {
  import opened Wrappers
  import opened Strings
  import opened ConfigStore

  /** The two claims of a token payload the extension reads: `sub`
      (section 4.1.2 of RFC 7519) and `exp` (section 4.1.4, a NumericDate in
      seconds). `None` when the claim is absent or not of the JSON type read. */
  datatype Claims = Claims(sub: Option<string>, exp: Option<int>)

  /** `atob`, UTF-8 percent-decoding and `JSON.parse` of a payload written in
      the standard base64 alphabet: `None` where one of them throws, and also
      where the payload parses to a falsy JSON value (`null`, `false`, `0`,
      `""`), which `parseJwt` returns and every caller treats like `null`.
      The model keeps it abstract and takes it as a parameter. */
  type PayloadDecoder = string -> Option<Claims>

  /** The base64url alphabet of section 5 of RFC 4648. */
  predicate InBase64UrlAlphabet(c: char) {
    'A' <= c <= 'Z' || 'a' <= c <= 'z' || '0' <= c <= '9' || c == '-' || c == '_'
  }

  /** The base64 alphabet of section 4 of RFC 4648. */
  predicate InBase64Alphabet(c: char) {
    'A' <= c <= 'Z' || 'a' <= c <= 'z' || '0' <= c <= '9' || c == '+' || c == '/'
  }

  function Base64UrlChar(c: char): char {
    if c == '-' then '+' else if c == '_' then '/' else c
  }

  /** `.replace(/-/g, "+").replace(/_/g, "/")`: each character mapped on its
      own, so the length is kept and only `-` and `_` change. */
  function Base64UrlToBase64(s: string): (r: string)
    ensures |r| == |s|
    ensures forall i :: 0 <= i < |s| ==> r[i] == Base64UrlChar(s[i])
    ensures '-' !in r && '_' !in r
  {
    if |s| == 0 then [] else [Base64UrlChar(s[0])] + Base64UrlToBase64(s[1..])
  }

  /** A base64url segment becomes a base64 string, and the mapping loses
      nothing: distinct segments stay distinct. */
  lemma Base64UrlAlphabetMapping(s: string, t: string)
    requires forall i :: 0 <= i < |s| ==> InBase64UrlAlphabet(s[i])
    requires forall i :: 0 <= i < |t| ==> InBase64UrlAlphabet(t[i])
    ensures forall i :: 0 <= i < |s| ==> InBase64Alphabet(Base64UrlToBase64(s)[i])
    ensures Base64UrlToBase64(s) == Base64UrlToBase64(t) ==> s == t
  {
    if Base64UrlToBase64(s) == Base64UrlToBase64(t) {
      assert forall i :: 0 <= i < |s| ==> Base64UrlChar(s[i]) == Base64UrlChar(t[i]);
    }
  }

  /** The dot-separated segments of a token (JWS Compact Serialization,
      section 7.1 of RFC 7515). */
  function Segments(token: string): (parts: seq<string>)
    ensures |parts| == multiset(token)['.'] + 1
  {
    Split(token, '.')
  }

  /** `parseJwt`: the payload claims of the second segment, or `None` when
      that segment is missing or empty or does not decode. The signature is
      never checked. */
  function ParseJwt(token: string, decode: PayloadDecoder): (r: Option<Claims>)
    ensures (|Segments(token)| < 2 || Segments(token)[1] == "") ==> r == None
    ensures |Segments(token)| >= 2 && Segments(token)[1] != "" ==>
              r == decode(Base64UrlToBase64(Segments(token)[1]))
    ensures r.Some? ==>
              |Segments(token)| >= 2 && Segments(token)[1] != ""
              && decode(Base64UrlToBase64(Segments(token)[1])) == r
  {
    var parts := Segments(token);
    if |parts| < 2 || parts[1] == "" then None
    else decode(Base64UrlToBase64(parts[1]))
  }

  /** The payload decoded and carries a truthy `sub`. */
  predicate HasSubject(p: Option<Claims>) {
    p.Some? && p.value.sub.Some? && p.value.sub.value != ""
  }

  datatype AuthState = AuthState(
    isAuthenticated: bool,
    userId: Option<string>,
    token: Option<string>,
    expiresAt: Option<int>)

  const Unauthenticated := AuthState(false, None, None, None)

  /** A non-zero stored expiry strictly before `now`. */
  predicate Expired(c: Config, now: int) {
    c.clerkTokenExpiresAt != 0 && now > c.clerkTokenExpiresAt
  }

  /** What `getAuthState` returns and whether it clears the auth keys. */
  datatype Verdict = Verdict(state: AuthState, clear: bool)

  /** The decision sequence of `getAuthState` over a configuration read at
      time `now`: empty credentials, then segment count, then expiry, then
      payload. */
  function Evaluate(c: Config, now: int, decode: PayloadDecoder): (v: Verdict)
    ensures v.state.isAuthenticated <==>
              && c.clerkToken != "" && c.clerkUserId != ""
              && |Segments(c.clerkToken)| == 3
              && !Expired(c, now)
              && HasSubject(ParseJwt(c.clerkToken, decode))
    ensures !v.state.isAuthenticated ==> v.state == Unauthenticated
    ensures v.state.isAuthenticated ==>
              v.state.userId == Some(c.clerkUserId) && v.state.token == Some(c.clerkToken)
    ensures v.state.isAuthenticated ==>
              v.state.expiresAt == if c.clerkTokenExpiresAt == 0 then None else Some(c.clerkTokenExpiresAt)
    ensures v.clear <==> c.clerkToken != "" && c.clerkUserId != "" && !v.state.isAuthenticated
  {
    if c.clerkToken == "" || c.clerkUserId == "" then Verdict(Unauthenticated, false)
    else if |Segments(c.clerkToken)| != 3 then Verdict(Unauthenticated, true)
    else if Expired(c, now) then Verdict(Unauthenticated, true)
    else if !HasSubject(ParseJwt(c.clerkToken, decode)) then Verdict(Unauthenticated, true)
    else
      Verdict(AuthState(true, Some(c.clerkUserId), Some(c.clerkToken),
                        if c.clerkTokenExpiresAt == 0 then None else Some(c.clerkTokenExpiresAt)),
              false)
  }

  /** Expiry is strict: a session whose expiry equals `now`, or which has no
      expiry, is not rejected by the expiry step. */
  lemma ExpiryIsStrict(c: Config, now: int)
    requires c.clerkTokenExpiresAt == 0 || c.clerkTokenExpiresAt == now
    ensures !Expired(c, now)
  {
  }

  /** The stored user id is trusted: the token's `sub` is never compared with it. */
  lemma SubjectMayDiffer(c: Config, now: int, decode: PayloadDecoder, sub: string)
    requires c.clerkToken != "" && c.clerkUserId != "" && |Segments(c.clerkToken)| == 3
    requires !Expired(c, now)
    requires ParseJwt(c.clerkToken, decode) == Some(Claims(Some(sub), None))
    requires sub != "" && sub != c.clerkUserId
    ensures Evaluate(c, now, decode).state.isAuthenticated
    ensures Evaluate(c, now, decode).state.userId == Some(c.clerkUserId)
  {
  }

  /** Once cleared, the store evaluates as unauthenticated without another
      write, whatever the time. */
  lemma ClearedStoreIsQuiet(items: map<string, Value>, now: int, decode: PayloadDecoder)
    requires WellTyped(items)
    ensures WellTyped(items - AuthKeys)
    ensures Evaluate(ConfigOf(items - AuthKeys), now, decode) == Verdict(Unauthenticated, false)
  {
    ClearedConfig(items);
  }

  /** Evaluating again at the same time gives the same state and writes
      nothing: `isAuthenticated` followed by `getToken` agree. */
  lemma EvaluateIsStable(items: map<string, Value>, now: int, decode: PayloadDecoder)
    requires WellTyped(items)
    ensures var v := Evaluate(ConfigOf(items), now, decode);
            var after := if v.clear then items - AuthKeys else items;
            WellTyped(after) && Evaluate(ConfigOf(after), now, decode) == v.(clear := false)
  {
    ClearedStoreIsQuiet(items, now, decode);
  }

  /** `getAuthState`: reads the store once, and clears the three auth keys
      exactly when it rejects credentials that were present. */
  method GetAuthState(store: SyncStore, now: int, decode: PayloadDecoder) returns (state: AuthState)
    requires store.Valid()
    modifies store
    ensures store.Valid()
    ensures state == Evaluate(ConfigOf(old(store.items)), now, decode).state
    ensures store.items == if Evaluate(ConfigOf(old(store.items)), now, decode).clear
                           then old(store.items) - AuthKeys else old(store.items)
  {
    var config := ConfigOf(store.items);
    if config.clerkToken == "" || config.clerkUserId == "" {
      return Unauthenticated;
    }
    var tokenParts := Split(config.clerkToken, '.');
    if |tokenParts| != 3 {
      store.ClearAuthData();
      return Unauthenticated;
    }
    if config.clerkTokenExpiresAt != 0 && now > config.clerkTokenExpiresAt {
      store.ClearAuthData();
      return Unauthenticated;
    }
    var tokenPayload := ParseJwt(config.clerkToken, decode);
    if tokenPayload.None? || tokenPayload.value.sub.None? || tokenPayload.value.sub.value == "" {
      store.ClearAuthData();
      return Unauthenticated;
    }
    state := AuthState(true, Some(config.clerkUserId), Some(config.clerkToken),
                       if config.clerkTokenExpiresAt == 0 then None else Some(config.clerkTokenExpiresAt));
  }

  /** `isAuthenticated`: the flag of `getAuthState`. */
  method IsAuthenticated(store: SyncStore, now: int, decode: PayloadDecoder) returns (b: bool)
    requires store.Valid()
    modifies store
    ensures store.Valid()
    ensures b == Evaluate(ConfigOf(old(store.items)), now, decode).state.isAuthenticated
    ensures store.items == if Evaluate(ConfigOf(old(store.items)), now, decode).clear
                           then old(store.items) - AuthKeys else old(store.items)
  {
    var state := GetAuthState(store, now, decode);
    b := state.isAuthenticated;
  }

  /** `getToken`: the token of `getAuthState`. */
  method GetToken(store: SyncStore, now: int, decode: PayloadDecoder) returns (token: Option<string>)
    requires store.Valid()
    modifies store
    ensures store.Valid()
    ensures token == Evaluate(ConfigOf(old(store.items)), now, decode).state.token
    ensures store.items == if Evaluate(ConfigOf(old(store.items)), now, decode).clear
                           then old(store.items) - AuthKeys else old(store.items)
  {
    var state := GetAuthState(store, now, decode);
    token := state.token;
  }
}

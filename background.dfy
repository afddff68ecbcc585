/** The extension's background script: the context-menu handler and
    `handleSaveLinkMessage` of extension/src/background.ts, and the message
    router and `handleSaveAuthMessage` of extension/dist/background.js. */
module Background {
  import opened Wrappers
  import opened Strings
  import opened ConfigStore
  import opened Auth
  import opened ApiClient

  /** A runtime message: a JavaScript object whose fields are strings.
      A field that is absent (or undefined) is not a key. */
  type Message = map<string, string>

  function Field(m: Message, key: string): Option<string> {
    if key in m then Some(m[key]) else None
  }

  /** The field is present and truthy (a non-empty string). */
  predicate FieldTruthy(f: Option<string>) {
    f.Some? && f.value != ""
  }

  /** What a handler sends back: `{success: true, id?}` or `{success: false, error}`. */
  datatype Reply = Succeeded(id: Option<string>) | Failed(error: string)

  const ContextMenuId := "quicklinks-save-link"
  const SaveLinkKind := "SAVE_LINK"
  const GetConfigKind := "GET_CONFIG"
  const CheckAuthKind := "CHECK_AUTH"
  const SaveAuthKind := "QUICKLINKS_SAVE_AUTH"

  /** The message types the router answers (asynchronously). */
  const RoutedKinds: set<string> := {SaveLinkKind, GetConfigKind, CheckAuthKind, SaveAuthKind}

  const MissingTokenMessage := "Missing token"
  const InvalidTokenMessage := "Invalid token"
  const LoginFirstMessage := "Please log in first from the extension options"
  const LinkSavedMessage := "Link saved!"

  /** One hour in milliseconds: the expiry given to a token without `exp`. */
  const DefaultSessionMillis := 60 * 60 * 1000

  // ---------------------------------------------------------------------
  // Save-auth handler

  /** The adopted form of a caller-supplied API base URL: trimmed, accepted
      only with an `http://` or `https://` prefix, all trailing `/` removed. */
  function NormalizeBaseUrl(candidate: string): (r: Option<string>)
    ensures r.Some? <==> "http://" <= Trim(candidate) || "https://" <= Trim(candidate)
    ensures r.Some? ==> r.value <= Trim(candidate)
    ensures r.Some? ==> forall i :: |r.value| <= i < |Trim(candidate)| ==> Trim(candidate)[i] == '/'
    ensures r.Some? ==> r.value == [] || r.value[|r.value| - 1] != '/'
  {
    var trimmed := Trim(candidate);
    if "http://" <= trimmed || "https://" <= trimmed then Some(TrimRightChar(trimmed, '/')) else None
  }

  /** A base URL with a host keeps its scheme when normalised. */
  lemma NormalizeKeepsScheme(candidate: string, scheme: string)
    requires scheme == "http://" || scheme == "https://"
    requires scheme <= Trim(candidate)
    requires exists i :: |scheme| <= i < |Trim(candidate)| && Trim(candidate)[i] != '/'
    ensures NormalizeBaseUrl(candidate).Some?
    ensures scheme <= NormalizeBaseUrl(candidate).value
  {
    var t := Trim(candidate);
    var r := NormalizeBaseUrl(candidate).value;
    var i :| |scheme| <= i < |t| && t[i] != '/';
    assert i < |r|;
    assert r == t[..|r|];
    assert scheme == t[..|scheme|];
  }

  /** `message.userId || (payload && payload.sub)`. */
  function ResolveUserId(msg: Message, payload: Option<Claims>): (r: Option<string>)
    ensures r.Some? ==> r.value != ""
    ensures FieldTruthy(Field(msg, "userId")) ==> r == Field(msg, "userId")
    ensures !FieldTruthy(Field(msg, "userId")) ==>
              (r.Some? <==> payload.Some? && FieldTruthy(payload.value.sub)) && (r.Some? ==> r == payload.value.sub)
  {
    if FieldTruthy(Field(msg, "userId")) then Field(msg, "userId")
    else if payload.Some? && payload.value.sub.Some? && payload.value.sub.value != "" then payload.value.sub
    else None
  }

  /** `exp ? exp * 1000 : Date.now() + 3600000`: seconds to milliseconds. */
  function ExpiryMillis(payload: Claims, now: int): (r: int)
    ensures (payload.exp.Some? && payload.exp.value != 0) ==> r % 1000 == 0 && r / 1000 == payload.exp.value
    ensures !(payload.exp.Some? && payload.exp.value != 0) ==> r - now == DefaultSessionMillis
  {
    if payload.exp.Some? && payload.exp.value != 0 then payload.exp.value * 1000 else now + DefaultSessionMillis
  }

  /** The merged update: the three auth keys, and the base URL when one is
      adopted. */
  function AuthUpdates(token: string, userId: string, expiresAt: int, base: Option<string>): (u: map<string, Value>)
    ensures u.Keys == AuthKeys + (if base.Some? then {ApiBaseUrlKey} else {})
    ensures u[ClerkTokenKey] == Text(token) && u[ClerkUserIdKey] == Text(userId)
    ensures u[ClerkTokenExpiresAtKey] == Number(expiresAt)
    ensures base.Some? ==> u[ApiBaseUrlKey] == Text(base.value)
    ensures WellTyped(u)
  {
    var updates := map[ClerkTokenKey := Text(token),
                       ClerkUserIdKey := Text(userId),
                       ClerkTokenExpiresAtKey := Number(expiresAt)];
    if base.Some? then updates[ApiBaseUrlKey := Text(base.value)] else updates
  }

  /** The single merged write `handleSaveAuthMessage` makes, or the error it
      returns without writing. */
  function SaveAuthUpdates(msg: Message, now: int, decode: PayloadDecoder): (r: Result<map<string, Value>, string>)
    ensures !FieldTruthy(Field(msg, "token")) ==> r == Failure(MissingTokenMessage)
    ensures r.Success? <==>
              && FieldTruthy(Field(msg, "token"))
              && ParseJwt(msg["token"], decode).Some?
              && ResolveUserId(msg, ParseJwt(msg["token"], decode)).Some?
    ensures FieldTruthy(Field(msg, "token")) && ParseJwt(msg["token"], decode).None? ==> r == Failure(InvalidTokenMessage)
    ensures FieldTruthy(Field(msg, "token")) && ResolveUserId(msg, ParseJwt(msg["token"], decode)).None? ==>
              r == Failure(InvalidTokenMessage)
    ensures r.Success? ==>
              var base := if "apiBaseUrl" in msg then NormalizeBaseUrl(msg["apiBaseUrl"]) else None;
              && r.value.Keys == AuthKeys + (if base.Some? then {ApiBaseUrlKey} else {})
              && (base.Some? ==> r.value[ApiBaseUrlKey] == Text(base.value))
    ensures r.Success? ==>
              && FieldTruthy(Field(msg, "token"))
              && var payload := ParseJwt(msg["token"], decode);
                 && payload.Some?
                 && var userId := ResolveUserId(msg, payload);
                    && userId.Some?
                    && r.value.Keys >= AuthKeys
                    && r.value[ClerkTokenKey] == Text(msg["token"])
                    && r.value[ClerkUserIdKey] == Text(userId.value)
                    && r.value[ClerkTokenExpiresAtKey] == Number(ExpiryMillis(payload.value, now))
    ensures r.Success? ==> WellTyped(r.value)
  {
    var token := Field(msg, "token");
    if !FieldTruthy(token) then Failure(MissingTokenMessage)
    else
      var payload := ParseJwt(token.value, decode);
      var userId := ResolveUserId(msg, payload);
      if payload.None? || userId.None? then Failure(InvalidTokenMessage)
      else
        var base := if "apiBaseUrl" in msg then NormalizeBaseUrl(msg["apiBaseUrl"]) else None;
        Success(AuthUpdates(token.value, userId.value, ExpiryMillis(payload.value, now), base))
  }

  /** `handleSaveAuthMessage`: builds the updates, adds the base URL in place
      when one is adopted, and writes once. A rejected storage write
      (`writeError`) is caught and reported; it never propagates. */
  method HandleSaveAuthMessage(store: SyncStore, msg: Message, now: int, decode: PayloadDecoder, writeError: Option<string>)
    returns (reply: Reply)
    requires store.Valid()
    modifies store
    ensures store.Valid()
    ensures var plan := SaveAuthUpdates(msg, now, decode);
            && (plan.Failure? ==> reply == Failed(plan.error) && store.items == old(store.items))
            && (plan.Success? && writeError.Some? ==> reply == Failed(writeError.value) && store.items == old(store.items))
            && (plan.Success? && writeError.None? ==> reply == Succeeded(None) && store.items == old(store.items) + plan.value)
  {
    var token := Field(msg, "token");
    if token.None? || token.value == "" {
      return Failed(MissingTokenMessage);
    }
    var payload := ParseJwt(token.value, decode);
    var userId := ResolveUserId(msg, payload);
    if payload.None? || userId.None? {
      return Failed(InvalidTokenMessage);
    }
    var expiresAt := ExpiryMillis(payload.value, now);
    var updates := map[ClerkTokenKey := Text(token.value),
                       ClerkUserIdKey := Text(userId.value),
                       ClerkTokenExpiresAtKey := Number(expiresAt)];
    if "apiBaseUrl" in msg {
      var trimmed := Trim(msg["apiBaseUrl"]);
      if "http://" <= trimmed || "https://" <= trimmed {
        updates := updates[ApiBaseUrlKey := Text(TrimRightChar(trimmed, '/'))];
      }
    }
    assert SaveAuthUpdates(msg, now, decode) == Success(updates);
    if writeError.Some? {
      return Failed(writeError.value);
    }
    store.SaveConfig(updates);
    reply := Succeeded(None);
  }

  /** Round trip with the session evaluator: a three-segment token whose
      payload carries `sub` and a future `exp`, saved without an explicit user
      id, is then evaluated as an authenticated session for that subject,
      expiring at `exp` seconds in milliseconds. */
  lemma SaveAuthThenEvaluate(items: map<string, Value>, msg: Message, now: int, later: int,
                             decode: PayloadDecoder, sub: string, exp: int)
    requires WellTyped(items)
    requires "token" in msg && "userId" !in msg
    requires |Segments(msg["token"])| == 3
    requires ParseJwt(msg["token"], decode) == Some(Claims(Some(sub), Some(exp)))
    requires sub != "" && exp != 0 && later <= exp * 1000
    ensures SaveAuthUpdates(msg, now, decode).Success?
    ensures var after := items + SaveAuthUpdates(msg, now, decode).value;
            WellTyped(after) &&
            Evaluate(ConfigOf(after), later, decode) ==
              Verdict(AuthState(true, Some(sub), Some(msg["token"]), Some(exp * 1000)), false)
  {
    var token := msg["token"];
    assert token != "";
    var payload := ParseJwt(token, decode);
    assert ResolveUserId(msg, payload) == Some(sub);
    assert ExpiryMillis(payload.value, now) == exp * 1000;
    var u := SaveAuthUpdates(msg, now, decode).value;
    var after := items + u;
    assert after[ClerkTokenKey] == Text(token);
    assert after[ClerkUserIdKey] == Text(sub);
    assert after[ClerkTokenExpiresAtKey] == Number(exp * 1000);
    assert WellTyped(after);
    var c := ConfigOf(after);
    assert c.clerkToken == token && c.clerkUserId == sub && c.clerkTokenExpiresAt == exp * 1000;
  }

  /** The save-auth handler checks neither the segment count nor the expiry:
      a token it accepts can still be rejected, and cleared, by the next
      session evaluation. */
  lemma SaveAuthDoesNotValidateFraming(items: map<string, Value>, msg: Message, now: int, decode: PayloadDecoder)
    requires WellTyped(items)
    requires SaveAuthUpdates(msg, now, decode).Success?
    requires |Segments(msg["token"])| != 3
    ensures var after := items + SaveAuthUpdates(msg, now, decode).value;
            WellTyped(after) && Evaluate(ConfigOf(after), now, decode) == Verdict(Unauthenticated, true)
  {
  }

  // ---------------------------------------------------------------------
  // Save-link handler

  /** The request `handleSaveLinkMessage` builds from a `SAVE_LINK` message. */
  function RequestOf(msg: Message): SaveLinkRequest {
    SaveLinkRequest(Field(msg, "url"), Field(msg, "title"), Field(msg, "page"), Field(msg, "note"))
  }

  /** The reply of `handleSaveLinkMessage` for a session verdict and a fetch outcome. */
  function SaveLinkReply(authenticated: bool, outcome: FetchOutcome): (r: Reply)
    ensures !authenticated ==> r == Failed(NotAuthenticatedMessage)
    ensures authenticated ==> (r.Succeeded? <==> Classify(outcome).Success?)
    ensures r.Succeeded? ==> r.id == Classify(outcome).value.id
    ensures authenticated && r.Failed? ==> Classify(outcome) == Failure(r.error)
  {
    if !authenticated then Failed(NotAuthenticatedMessage)
    else match Classify(outcome)
      case Success(data) => Succeeded(data.id)
      case Failure(e) => Failed(e)
  }

  /** `handleSaveLinkMessage`: checks the session, then saves; every
      failure becomes `{success: false, error}`. */
  method HandleSaveLinkMessage(store: SyncStore, msg: Message, now: int, decode: PayloadDecoder, outcome: FetchOutcome)
    returns (reply: Reply, sent: Option<HttpRequest>)
    requires store.Valid()
    modifies store
    ensures store.Valid()
    ensures var v := Evaluate(ConfigOf(old(store.items)), now, decode);
            && reply == SaveLinkReply(v.state.isAuthenticated, outcome)
            && (sent.Some? <==> v.state.isAuthenticated)
            && (sent.Some? ==> sent.value.body == RequestOf(msg))
            && store.items == if v.clear then old(store.items) - AuthKeys else old(store.items)
  {
    var authenticated := IsAuthenticated(store, now, decode);
    if !authenticated {
      return Failed(NotAuthenticatedMessage), None;
    }
    var result;
    result, sent := SaveLink(store, RequestOf(msg), now, decode, outcome);
    match result
    case Success(data) => reply := Succeeded(data.id);
    case Failure(e) => reply := Failed(e);
  }

  // ---------------------------------------------------------------------
  // Router

  /** What the router sends back through `sendResponse`. */
  datatype Response = ConfigResponse(config: Config) | AuthResponse(state: AuthState) | HandlerResponse(reply: Reply)

  /** `chrome.runtime.onMessage` listener: answers asynchronously (returns
      `true`) exactly for the four routed types, each with one response;
      other types get no response and change nothing. */
  method OnMessage(store: SyncStore, msg: Message, now: int, decode: PayloadDecoder,
                   outcome: FetchOutcome, writeError: Option<string>)
    returns (keepOpen: bool, response: Option<Response>)
    requires store.Valid()
    modifies store
    ensures store.Valid()
    ensures keepOpen <==> Field(msg, "type").Some? && msg["type"] in RoutedKinds
    ensures keepOpen <==> response.Some?
    ensures !keepOpen ==> store.items == old(store.items)
    ensures Field(msg, "type") == Some(GetConfigKind) ==>
              response == Some(ConfigResponse(ConfigOf(old(store.items)))) && store.items == old(store.items)
    ensures Field(msg, "type") == Some(CheckAuthKind) ==>
              response == Some(AuthResponse(Evaluate(ConfigOf(old(store.items)), now, decode).state))
    ensures Field(msg, "type") == Some(SaveLinkKind) ==>
              response == Some(HandlerResponse(SaveLinkReply(Evaluate(ConfigOf(old(store.items)), now, decode).state.isAuthenticated, outcome)))
    ensures Field(msg, "type") == Some(CheckAuthKind) || Field(msg, "type") == Some(SaveLinkKind) ==>
              store.items == if Evaluate(ConfigOf(old(store.items)), now, decode).clear
                             then old(store.items) - AuthKeys else old(store.items)
    ensures Field(msg, "type") == Some(SaveAuthKind) ==>
              var plan := SaveAuthUpdates(msg, now, decode);
              && response == Some(HandlerResponse(
                   if plan.Failure? then Failed(plan.error)
                   else if writeError.Some? then Failed(writeError.value)
                   else Succeeded(None)))
              && store.items == if plan.Success? && writeError.None? then old(store.items) + plan.value
                                else old(store.items)
  {
    var kind := Field(msg, "type");
    if kind == Some(SaveLinkKind) {
      var reply, _ := HandleSaveLinkMessage(store, msg, now, decode, outcome);
      return true, Some(HandlerResponse(reply));
    }
    if kind == Some(GetConfigKind) {
      return true, Some(ConfigResponse(ConfigOf(store.items)));
    }
    if kind == Some(CheckAuthKind) {
      var state := GetAuthState(store, now, decode);
      return true, Some(AuthResponse(state));
    }
    if kind == Some(SaveAuthKind) {
      var reply := HandleSaveAuthMessage(store, msg, now, decode, writeError);
      return true, Some(HandlerResponse(reply));
    }
    return false, None;
  }

  // ---------------------------------------------------------------------
  // Context menu

  /** The fields of `chrome.contextMenus.OnClickData` the handler reads. */
  datatype ClickInfo = ClickInfo(menuItemId: string, linkUrl: Option<string>, pageUrl: Option<string>, selectionText: Option<string>)

  /** The fields of the clicked tab the handler reads; the tab may be absent. */
  datatype Tab = Tab(id: Option<int>, url: Option<string>)

  /** A `QUICKLINKS_TOAST` message sent to a tab. */
  datatype TabToast = TabToast(tabId: int, message: string, toastType: string)

  /** `new URL(u).hostname`, or the message of the error the constructor throws. */
  type HostnameOf = string -> Result<string, string>

  /** `tab?.id` is truthy. */
  predicate HasTabId(tab: Option<Tab>) {
    tab.Some? && tab.value.id.Some? && tab.value.id.value != 0
  }

  function ToastTo(tab: Option<Tab>, message: string, toastType: string): (t: Option<TabToast>)
    ensures t.Some? <==> HasTabId(tab)
    ensures t.Some? ==> t.value == TabToast(tab.value.id.value, message, toastType)
  {
    if HasTabId(tab) then Some(TabToast(tab.value.id.value, message, toastType)) else None
  }

  /** `tab?.url || info.pageUrl || ""`. */
  function PageOf(info: ClickInfo, tab: Option<Tab>): (page: string)
    ensures tab.Some? && FieldTruthy(tab.value.url) ==> page == tab.value.url.value
    ensures !(tab.Some? && FieldTruthy(tab.value.url)) && FieldTruthy(info.pageUrl) ==> page == info.pageUrl.value
    ensures page == "" <==> !(tab.Some? && FieldTruthy(tab.value.url)) && !FieldTruthy(info.pageUrl)
  {
    if tab.Some? && FieldTruthy(tab.value.url) then tab.value.url.value
    else if FieldTruthy(info.pageUrl) then info.pageUrl.value
    else ""
  }

  /** `info.selectionText || new URL(linkUrl).hostname`; the URL is parsed
      only when there is no selection, and its error propagates. */
  function TitleOf(info: ClickInfo, linkUrl: string, hostname: HostnameOf): (r: Result<string, string>)
    ensures FieldTruthy(info.selectionText) ==> r == Success(info.selectionText.value)
    ensures !FieldTruthy(info.selectionText) ==> r == hostname(linkUrl)
  {
    if FieldTruthy(info.selectionText) then Success(info.selectionText.value) else hostname(linkUrl)
  }

  /** The context-menu click handler. Ignores other menu items and clicks
      without a link; without a session it sends an error toast and does not
      save; otherwise it saves and reports success or the error's message,
      each toast only when the tab has an id. */
  method OnContextMenuClicked(store: SyncStore, info: ClickInfo, tab: Option<Tab>, now: int,
                              decode: PayloadDecoder, hostname: HostnameOf, outcome: FetchOutcome)
    returns (toast: Option<TabToast>, sent: Option<HttpRequest>)
    requires store.Valid()
    modifies store
    ensures store.Valid()
    ensures info.menuItemId != ContextMenuId || !FieldTruthy(info.linkUrl) ==>
              toast == None && sent == None && store.items == old(store.items)
    ensures var v := Evaluate(ConfigOf(old(store.items)), now, decode);
            info.menuItemId == ContextMenuId && FieldTruthy(info.linkUrl) && !v.state.isAuthenticated ==>
              toast == ToastTo(tab, LoginFirstMessage, "error") && sent == None
    ensures var v := Evaluate(ConfigOf(old(store.items)), now, decode);
            info.menuItemId == ContextMenuId && FieldTruthy(info.linkUrl) && v.state.isAuthenticated ==>
              match TitleOf(info, info.linkUrl.value, hostname)
              case Failure(e) => toast == ToastTo(tab, e, "error") && sent == None
              case Success(title) =>
                var c := ConfigOf(old(store.items));
                && sent == Some(HttpRequest("POST", LinksEndpoint(c.apiBaseUrl),
                                            Headers("application/json", "Bearer " + c.clerkToken),
                                            SaveLinkRequest(info.linkUrl, Some(title), Some(PageOf(info, tab)), None)))
                && toast == (match Classify(outcome)
                             case Success(_) => ToastTo(tab, LinkSavedMessage, "success")
                             case Failure(e) => ToastTo(tab, e, "error"))
    ensures sent.Some? ==> Evaluate(ConfigOf(old(store.items)), now, decode).state.isAuthenticated
    ensures info.menuItemId == ContextMenuId && FieldTruthy(info.linkUrl) ==>
              store.items == if Evaluate(ConfigOf(old(store.items)), now, decode).clear
                             then old(store.items) - AuthKeys else old(store.items)
  {
    if info.menuItemId != ContextMenuId {
      return None, None;
    }
    var linkUrl := info.linkUrl;
    if linkUrl.None? || linkUrl.value == "" {
      return None, None;
    }
    var authenticated := IsAuthenticated(store, now, decode);
    if !authenticated {
      return ToastTo(tab, LoginFirstMessage, "error"), None;
    }
    var pageUrl := PageOf(info, tab);
    var linkText := TitleOf(info, linkUrl.value, hostname);
    if linkText.Failure? {
      return ToastTo(tab, linkText.error, "error"), None;
    }
    var result;
    result, sent := SaveLink(store, SaveLinkRequest(linkUrl, Some(linkText.value), Some(pageUrl), None), now, decode, outcome);
    if result.Failure? {
      return ToastTo(tab, result.error, "error"), sent;
    }
    toast := ToastTo(tab, LinkSavedMessage, "success");
  }
}

/** The API client of extension/src/api.ts: one authenticated
    `POST {apiBaseUrl}/api/links` and the classification of its response. */
module ApiClient {
  import opened Wrappers
  import opened Strings
  import opened ConfigStore
  import opened Auth

  const NotAuthenticatedMessage := "Not authenticated. Please log in from the options page."
  const NoTokenMessage := "Not authenticated. Please log in first."
  const NetworkErrorMessage := "Network error while calling API"
  const SessionExpiredMessage := "Session expired. Please log in again from the options page."
  const InvalidJsonMessage := "Invalid JSON response from API"

  /** `SaveLinkRequest`; fields copied from a runtime message may be missing. */
  datatype SaveLinkRequest = SaveLinkRequest(
    url: Option<string>,
    title: Option<string>,
    page: Option<string>,
    note: Option<string>)

  /** The two fields the client reads from a parsed JSON value: `error` and
      `id`, when present as strings. */
  datatype JsonData = JsonData(error: Option<string>, id: Option<string>)

  /** A response body as `response.json()` sees it: not JSON, the JSON
      literal `null`, or another JSON value. */
  datatype Body = NotJson | Null | Json(data: JsonData)

  /** What `fetch` gives: a rejection (DNS, connection) or a response. */
  datatype FetchOutcome = TransportFailure | Response(status: nat, statusText: string, body: Body)

  /** Header set of an authenticated call (`Authorization: Bearer`, section
      2.1 of RFC 6750). */
  datatype Headers = Headers(contentType: string, authorization: string)

  /** The one request `saveLink` sends. */
  datatype HttpRequest = HttpRequest(verb: string, url: string, headers: Headers, body: SaveLinkRequest)

  /** `response.ok`. */
  predicate IsOk(status: nat) {
    200 <= status <= 299
  }

  /** `errorData && errorData.error` is truthy. */
  predicate HasErrorField(body: Body) {
    body.Json? && body.data.error.Some? && body.data.error.value != ""
  }

  /** `HTTP ${response.status} ${response.statusText}`. */
  function HttpStatusMessage(status: nat, statusText: string): string {
    "HTTP " + NatToString(status) + " " + statusText
  }

  /** `${config.apiBaseUrl}/api/links`. */
  function LinksEndpoint(apiBaseUrl: string): string {
    apiBaseUrl + "/api/links"
  }

  /** The outcome `saveLink` reports for a fetch that was made, branch by
      branch in the order the code tests them. */
  function Classify(outcome: FetchOutcome): (r: Result<JsonData, string>)
    ensures outcome.TransportFailure? ==> r == Failure(NetworkErrorMessage)
    ensures outcome.Response? && outcome.status == 401 ==> r == Failure(SessionExpiredMessage)
    ensures outcome.Response? && outcome.status != 401 && !IsOk(outcome.status) ==>
              r == Failure(if HasErrorField(outcome.body) then outcome.body.data.error.value
                           else HttpStatusMessage(outcome.status, outcome.statusText))
    ensures r.Success? <==> outcome.Response? && IsOk(outcome.status) && outcome.body.Json?
    ensures r.Success? ==> r.value == outcome.body.data
    ensures outcome.Response? && IsOk(outcome.status) && !outcome.body.Json? ==> r == Failure(InvalidJsonMessage)
  {
    match outcome
    case TransportFailure => Failure(NetworkErrorMessage)
    case Response(status, statusText, body) =>
      if status == 401 then Failure(SessionExpiredMessage)
      else if !IsOk(status) then
        Failure(if HasErrorField(body) then body.data.error.value else HttpStatusMessage(status, statusText))
      else if body.Json? then Success(body.data)
      else Failure(InvalidJsonMessage)
  }

  /** A 401 is reported as an expired session even when its body carries an
      `error` field. */
  lemma UnauthorizedWinsOverBody(statusText: string, body: Body)
    ensures Classify(Response(401, statusText, body)) == Failure(SessionExpiredMessage)
  {
  }

  /** The message of a non-ok status without an `error` field names the status. */
  lemma HttpStatusMessageNamesStatus(status: nat, statusText: string)
    ensures "HTTP " <= HttpStatusMessage(status, statusText)
    ensures DigitsValue(HttpStatusMessage(status, statusText)[5..5 + |NatToString(status)|]) == status
  {
    var s := HttpStatusMessage(status, statusText);
    assert s[5..5 + |NatToString(status)|] == NatToString(status);
    DigitsValueOfNatToString(status);
  }

  /** `getAuthHeaders`: fails without a token; otherwise JSON content type
      and the bearer token. */
  method GetAuthHeaders(store: SyncStore, now: int, decode: PayloadDecoder) returns (r: Result<Headers, string>)
    requires store.Valid()
    modifies store
    ensures store.Valid()
    ensures var state := Evaluate(ConfigOf(old(store.items)), now, decode).state;
            && (state.token.None? ==> r == Failure(NoTokenMessage))
            && (state.token.Some? ==> r == Success(Headers("application/json", "Bearer " + state.token.value)))
    ensures store.items == if Evaluate(ConfigOf(old(store.items)), now, decode).clear
                           then old(store.items) - AuthKeys else old(store.items)
  {
    var token := GetToken(store, now, decode);
    if token.None? || token.value == "" {
      return Failure(NoTokenMessage);
    }
    r := Success(Headers("application/json", "Bearer " + token.value));
  }

  /** `saveLink`: the session check comes before any network call; when it
      passes exactly one request is sent and its outcome is classified. */
  method SaveLink(store: SyncStore, request: SaveLinkRequest, now: int, decode: PayloadDecoder, outcome: FetchOutcome)
    returns (r: Result<JsonData, string>, sent: Option<HttpRequest>)
    requires store.Valid()
    modifies store
    ensures store.Valid()
    ensures var v := Evaluate(ConfigOf(old(store.items)), now, decode);
            !v.state.isAuthenticated ==> r == Failure(NotAuthenticatedMessage) && sent == None
    ensures var c := ConfigOf(old(store.items));
            var v := Evaluate(c, now, decode);
            v.state.isAuthenticated ==>
              && sent == Some(HttpRequest("POST", LinksEndpoint(c.apiBaseUrl),
                                          Headers("application/json", "Bearer " + c.clerkToken), request))
              && r == Classify(outcome)
    ensures store.items == if Evaluate(ConfigOf(old(store.items)), now, decode).clear
                           then old(store.items) - AuthKeys else old(store.items)
  {
    var config := ConfigOf(store.items);
    var authenticated := IsAuthenticated(store, now, decode);
    if !authenticated {
      return Failure(NotAuthenticatedMessage), None;
    }
    var headers := GetAuthHeaders(store, now, decode);
    if headers.Failure? {
      return Failure(NoTokenMessage), None;
    }
    var url := LinksEndpoint(config.apiBaseUrl);
    sent := Some(HttpRequest("POST", url, headers.value, request));
    if outcome.TransportFailure? {
      return Failure(NetworkErrorMessage), sent;
    }
    if outcome.status == 401 {
      return Failure(SessionExpiredMessage), sent;
    }
    if !IsOk(outcome.status) {
      var errorData: Option<JsonData> := None;
      if outcome.body.Json? {
        errorData := Some(outcome.body.data);
      }
      if errorData.Some? && errorData.value.error.Some? && errorData.value.error.value != "" {
        r := Failure(errorData.value.error.value);
      } else {
        r := Failure(HttpStatusMessage(outcome.status, outcome.statusText));
      }
      return;
    }
    if !outcome.body.Json? {
      return Failure(InvalidJsonMessage), sent;
    }
    r := Success(outcome.body.data);
  }
}

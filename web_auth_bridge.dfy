/** The page-side bridge of extension/src/web-auth-bridge.ts: which
    `message` events carry a session token into the extension, and the one
    runtime message each of them becomes. */
module WebAuthBridge {
  import opened Wrappers
  import Background

  /** `event.data`: something that is not a truthy object, or an object whose
      string-valued fields are known (other fields are left out). */
  datatype EventData = NotAnObject | Object(fields: map<string, string>)

  /** The parts of a `MessageEvent` the listener reads: whether its source is
      this window, its origin, and its data. */
  datatype MessageEvent = MessageEvent(fromThisWindow: bool, origin: string, data: EventData)

  const MarkerKind := "CLIPGEST_EXTENSION_AUTH"
  const ForwardKind := "CLIPGEST_SAVE_AUTH"

  /** The field, or `None` when it is not a string field of the data. */
  function Get(fields: map<string, string>, key: string): Option<string> {
    if key in fields then Some(fields[key]) else None
  }

  /** The listener's guard chain (source, data shape, marker type, origin,
      token) and the message it sends when every guard passes. The optional
      `userId` and `apiBaseUrl` are passed on unchanged; an undefined one is
      dropped when the message is serialised. */
  function Forward(ev: MessageEvent, pageOrigin: string): (r: Option<Background.Message>)
    ensures r.Some? <==>
              && ev.fromThisWindow
              && ev.data.Object?
              && Get(ev.data.fields, "type") == Some(MarkerKind)
              && ev.origin == pageOrigin
              && Get(ev.data.fields, "token").Some? && ev.data.fields["token"] != ""
    ensures r.Some? ==>
              && "type" in r.value && "token" in r.value
              && r.value.Keys <= {"type", "token", "userId", "apiBaseUrl"}
              && r.value["type"] == ForwardKind
              && r.value["token"] == ev.data.fields["token"]
              && (forall k :: k in {"userId", "apiBaseUrl"} ==>
                    (k in r.value <==> k in ev.data.fields) && (k in r.value ==> r.value[k] == ev.data.fields[k]))
  {
    if !ev.fromThisWindow then None
    else if ev.data.NotAnObject? then None
    else
      var data := ev.data.fields;
      if Get(data, "type") != Some(MarkerKind) then None
      else if ev.origin != pageOrigin then None
      else
        var token := Get(data, "token");
        if token.None? || token.value == "" then None
        else
          var msg := map["type" := ForwardKind, "token" := token.value];
          var msg := if "userId" in data then msg["userId" := data["userId"]] else msg;
          var msg := if "apiBaseUrl" in data then msg["apiBaseUrl" := data["apiBaseUrl"]] else msg;
          Some(msg)
  }

  /** The bridge's message type is not one the built background router
      answers (it answers `QUICKLINKS_SAVE_AUTH`): a forwarded token gets no
      response and is not stored. */
  lemma ForwardedKindIsNotRouted(ev: MessageEvent, pageOrigin: string)
    requires Forward(ev, pageOrigin).Some?
    ensures Background.Field(Forward(ev, pageOrigin).value, "type") == Some(ForwardKind)
    ensures ForwardKind !in Background.RoutedKinds
  {
  }
}

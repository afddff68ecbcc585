/** The long-press and save-button state machine of
    extension/src/content-script.ts. The module-level slots
    (`longPressTimer`, `currentSaveButton`, `targetLink`, `styleInjected`)
    are the fields of one `PageAgent`; DOM events, timer callbacks and the
    reply to a save are methods the environment calls. */
module ContentScript {
  import opened Wrappers
  import opened Strings
  import Toast
  import ApiClient
  import Background

  const LongPressDuration := 500
  const SaveButtonTimeout := 5000
  const ButtonWidth := 100
  const ButtonHeight := 40
  const Padding := 10

  const SaveLabel := "\U{1F4BE} Save"
  const SavingLabel := "\U{23F3} Saving..."
  const SavedToast := "Link saved! \U{2728}"
  const FailedToast := "Failed to save link"

  /** An anchor: its resolved `href` and its `textContent` (which may be null). */
  datatype Link = Link(href: string, text: Option<string>)

  /** `event.target` as `findLinkElement` sees it: not an element, or an
      element together with what `closest("a[href]")` finds for it. */
  datatype Target = NotAnElement | Element(closestAnchor: Option<Link>)

  /** `findLinkElement`: the enclosing anchor, unless it has an empty href, a
      `javascript:` href or the href `#`. */
  function FindLinkElement(target: Target): (r: Option<Link>)
    ensures r.Some? <==>
              && target.Element? && target.closestAnchor.Some?
              && target.closestAnchor.value.href != ""
              && !("javascript:" <= target.closestAnchor.value.href)
              && target.closestAnchor.value.href != "#"
    ensures r.Some? ==> r == target.closestAnchor
  {
    if target.NotAnElement? then None
    else match target.closestAnchor
      case None => None
      case Some(link) =>
        if link.href == "" then None
        else if "javascript:" <= link.href || link.href == "#" then None
        else Some(link)
  }

  /** Where `showSaveButton` places the button for a press at (x, y): centred
      above the pointer, then clamped into the viewport with a 10-pixel
      margin (`Math.max(padding, Math.min(v, limit))`, lower bound last). */
  function ButtonPosition(x: int, y: int, innerWidth: int, innerHeight: int): (pos: (int, int))
    ensures pos.0 >= Padding && pos.1 >= Padding
    ensures innerWidth >= ButtonWidth + 2 * Padding ==> pos.0 <= innerWidth - ButtonWidth - Padding
    ensures innerHeight >= ButtonHeight + 2 * Padding ==> pos.1 <= innerHeight - ButtonHeight - Padding
    ensures Padding <= x - ButtonWidth / 2 <= innerWidth - ButtonWidth - Padding ==> pos.0 == x - ButtonWidth / 2
    ensures Padding <= y - ButtonHeight - Padding <= innerHeight - ButtonHeight - Padding ==>
              pos.1 == y - ButtonHeight - Padding
    ensures x - ButtonWidth / 2 > innerWidth - ButtonWidth - Padding ==>
              pos.0 == Max(Padding, innerWidth - ButtonWidth - Padding)
    ensures x - ButtonWidth / 2 < Padding ==> pos.0 == Padding
    ensures y - ButtonHeight - Padding > innerHeight - ButtonHeight - Padding ==>
              pos.1 == Max(Padding, innerHeight - ButtonHeight - Padding)
    ensures y - ButtonHeight - Padding < Padding ==> pos.1 == Padding
  {
    var left := x - ButtonWidth / 2;
    var top := y - ButtonHeight - Padding;
    var left := Max(Padding, Min(left, innerWidth - ButtonWidth - Padding));
    var top := Max(Padding, Min(top, innerHeight - ButtonHeight - Padding));
    (left, top)
  }

  function Min(a: int, b: int): int { if a <= b then a else b }
  function Max(a: int, b: int): int { if a >= b then a else b }

  /** `link.textContent?.trim() || link.href`. */
  function TitleOf(link: Link): (title: string)
    ensures link.text.Some? && Trim(link.text.value) != "" ==> title == Trim(link.text.value)
    ensures !(link.text.Some? && Trim(link.text.value) != "") ==> title == link.href
  {
    if link.text.Some? && Trim(link.text.value) != "" then Trim(link.text.value) else link.href
  }

  /** The `SAVE_LINK` message the save button sends for a link on page `pageHref`. */
  function SaveRequest(link: Link, pageHref: string): (m: Background.Message)
    ensures Background.Field(m, "type") == Some(Background.SaveLinkKind)
    ensures Background.RequestOf(m) == ApiClient.SaveLinkRequest(Some(link.href), Some(TitleOf(link)), Some(pageHref), None)
  {
    map["type" := Background.SaveLinkKind, "url" := link.href, "title" := TitleOf(link), "page" := pageHref]
  }

  /** A press position and the link it started on, waiting for its timer. */
  datatype Press = Press(x: int, y: int, link: Link)

  /** A save button on the page. */
  datatype SaveButton = SaveButton(id: nat, left: int, top: int, caption: string, saving: bool)

  /** A touch point. */
  datatype Point = Point(clientX: int, clientY: int)

  /** What the `SAVE_LINK` round trip ended with: the handler's reply, or a
      rejection (no receiver, or a reply without `success`). */
  datatype SaveOutcome = Replied(success: bool, error: Option<string>) | Rejected

  /** What the content script receives for a reply of the background handler. */
  function OutcomeOf(reply: Background.Reply): (o: SaveOutcome)
    ensures o.Replied? && (o.success <==> reply.Succeeded?)
    ensures reply.Failed? ==> o.error == Some(reply.error)
  {
    match reply
    case Succeeded(_) => Replied(true, None)
    case Failed(e) => Replied(false, Some(e))
  }

  /** The toast text and type for an outcome: `response.error || "Failed to save link"` on failure. */
  function ToastFor(outcome: SaveOutcome): (t: (string, string))
    ensures t.1 == "success" <==> outcome.Replied? && outcome.success
    ensures t.1 != "success" ==> t.1 == "error"
    ensures outcome.Replied? && !outcome.success && outcome.error.Some? && outcome.error.value != "" ==>
              t.0 == outcome.error.value
    ensures outcome.Replied? && outcome.success ==> t.0 == SavedToast
    ensures outcome.Rejected? || (!outcome.success && (outcome.error.None? || outcome.error.value == "")) ==>
              t.0 == FailedToast
  {
    match outcome
    case Replied(success, error) =>
      if success then (SavedToast, "success")
      else ((if error.Some? && error.value != "" then error.value else FailedToast), "error")
    case Rejected => (FailedToast, "error")
  }

  /** A failure the background handler reports with a message reaches the
      page as an error toast carrying that message. */
  lemma HandlerErrorIsShown(error: string)
    requires error != ""
    ensures ToastFor(OutcomeOf(Background.Failed(error))) == (error, "error")
  {
  }

  class PageAgent {
    const toasts: Toast.ToastSlot
    /** `longPressTimer`: the id of the last press timer, kept after it fires. */
    var longPressTimer: Option<nat>
    /** Press timers scheduled and neither fired nor cleared. */
    var pendingPress: map<nat, Press>
    var currentSaveButton: Option<SaveButton>
    var targetLink: Option<Link>
    var styleInjected: bool
    var styleElements: nat
    /** The save buttons attached to the page. */
    var buttonsInPage: seq<SaveButton>
    /** `SAVE_LINK` requests sent and not yet answered. */
    var inFlight: nat
    var nextTimer: nat
    var nextButton: nat

    /** At most one press timer is pending, and it is the one recorded; the
        page shows exactly the current button; the button and its link are
        set and cleared together; styles are added once. */
    ghost predicate Valid()
      reads this, toasts
    {
      && toasts.Valid()
      && |pendingPress| <= 1
      && (forall t :: t in pendingPress ==> longPressTimer == Some(t))
      && 1 <= nextTimer
      && (longPressTimer.Some? ==> 1 <= longPressTimer.value < nextTimer)
      && (currentSaveButton.Some? <==> targetLink.Some?)
      && buttonsInPage == (if currentSaveButton.Some? then [currentSaveButton.value] else [])
      && (currentSaveButton.Some? ==> currentSaveButton.value.id < nextButton)
      && styleElements == (if styleInjected then 1 else 0)
    }

    constructor (toasts: Toast.ToastSlot)
      requires toasts.Valid()
      ensures Valid() && this.toasts == toasts
      ensures longPressTimer == None && pendingPress == map[] && currentSaveButton == None && inFlight == 0
    {
      this.toasts := toasts;
      longPressTimer, pendingPress := None, map[];
      currentSaveButton, targetLink := None, None;
      styleInjected, styleElements := false, 0;
      buttonsInPage := [];
      inFlight := 0;
      nextTimer, nextButton := 1, 0;
    }

    /** `cancelLongPress`, which is also the whole of the mouse-up,
        mouse-move, touch-end, touch-move and touch-cancel handlers: no press
        timer is left pending. */
    method CancelLongPress()
      requires Valid()
      modifies this
      ensures Valid()
      ensures longPressTimer == None && pendingPress == map[]
      ensures currentSaveButton == old(currentSaveButton) && targetLink == old(targetLink)
      ensures buttonsInPage == old(buttonsInPage) && styleInjected == old(styleInjected)
      ensures nextTimer == old(nextTimer) && nextButton == old(nextButton) && inFlight == old(inFlight)
    {
      if longPressTimer.Some? {
        pendingPress := pendingPress - {longPressTimer.value};
        longPressTimer := None;
      }
    }

    /** `startLongPress`: cancels any earlier timer, then arms one for this press. */
    method StartLongPress(x: int, y: int, link: Link)
      requires Valid()
      modifies this
      ensures Valid()
      ensures longPressTimer == Some(old(nextTimer)) && nextTimer == old(nextTimer) + 1
      ensures pendingPress == map[old(nextTimer) := Press(x, y, link)]
      ensures currentSaveButton == old(currentSaveButton) && targetLink == old(targetLink)
      ensures buttonsInPage == old(buttonsInPage) && styleInjected == old(styleInjected)
      ensures nextButton == old(nextButton) && inFlight == old(inFlight)
    {
      CancelLongPress();
      longPressTimer := Some(nextTimer);
      pendingPress := map[nextTimer := Press(x, y, link)];
      nextTimer := nextTimer + 1;
    }

    /** `handleMouseDown`: only the primary button on a qualifying link arms a timer. */
    method OnMouseDown(button: int, clientX: int, clientY: int, target: Target)
      requires Valid()
      modifies this
      ensures Valid()
      ensures button != 0 || FindLinkElement(target).None? ==>
                && longPressTimer == old(longPressTimer) && pendingPress == old(pendingPress)
                && nextTimer == old(nextTimer)
      ensures button == 0 && FindLinkElement(target).Some? ==>
                pendingPress == map[old(nextTimer) := Press(clientX, clientY, FindLinkElement(target).value)]
      ensures currentSaveButton == old(currentSaveButton) && targetLink == old(targetLink)
      ensures buttonsInPage == old(buttonsInPage) && inFlight == old(inFlight)
    {
      if button != 0 {
        return;
      }
      var link := FindLinkElement(target);
      if link.Some? {
        StartLongPress(clientX, clientY, link.value);
      }
    }

    /** `handleTouchStart`: the first touch on a qualifying link arms a timer. */
    method OnTouchStart(touches: seq<Point>, target: Target)
      requires Valid()
      modifies this
      ensures Valid()
      ensures touches == [] || FindLinkElement(target).None? ==>
                && longPressTimer == old(longPressTimer) && pendingPress == old(pendingPress)
                && nextTimer == old(nextTimer)
      ensures touches != [] && FindLinkElement(target).Some? ==>
                pendingPress == map[old(nextTimer) := Press(touches[0].clientX, touches[0].clientY, FindLinkElement(target).value)]
      ensures currentSaveButton == old(currentSaveButton) && targetLink == old(targetLink)
      ensures buttonsInPage == old(buttonsInPage) && inFlight == old(inFlight)
    {
      if |touches| == 0 {
        return;
      }
      var link := FindLinkElement(target);
      if link.Some? {
        StartLongPress(touches[0].clientX, touches[0].clientY, link.value);
      }
    }

    /** `removeSaveButton`: afterwards there is neither a button nor a target link. */
    method RemoveSaveButton()
      requires Valid()
      modifies this
      ensures Valid()
      ensures currentSaveButton == None && targetLink == None && buttonsInPage == []
      ensures longPressTimer == old(longPressTimer) && pendingPress == old(pendingPress)
      ensures styleInjected == old(styleInjected) && nextTimer == old(nextTimer)
      ensures nextButton == old(nextButton) && inFlight == old(inFlight)
    {
      if currentSaveButton.Some? {
        buttonsInPage := [];
        currentSaveButton := None;
      }
      targetLink := None;
    }

    /** `showSaveButton`: removes any button, then attaches one at the clamped
        position and records it with its link. */
    method ShowSaveButton(x: int, y: int, link: Link, innerWidth: int, innerHeight: int)
      requires Valid()
      modifies this
      ensures Valid()
      ensures var pos := ButtonPosition(x, y, innerWidth, innerHeight);
              currentSaveButton == Some(SaveButton(old(nextButton), pos.0, pos.1, SaveLabel, false))
      ensures targetLink == Some(link) && buttonsInPage == [currentSaveButton.value]
      ensures styleInjected && styleElements == 1 && nextButton == old(nextButton) + 1
      ensures longPressTimer == old(longPressTimer) && pendingPress == old(pendingPress)
      ensures nextTimer == old(nextTimer) && inFlight == old(inFlight)
    {
      if !styleInjected {
        styleElements := styleElements + 1;
        styleInjected := true;
      }
      RemoveSaveButton();
      var left := x - ButtonWidth / 2;
      var top := y - ButtonHeight - Padding;
      left := Max(Padding, Min(left, innerWidth - ButtonWidth - Padding));
      top := Max(Padding, Min(top, innerHeight - ButtonHeight - Padding));
      var button := SaveButton(nextButton, left, top, SaveLabel, false);
      nextButton := nextButton + 1;
      buttonsInPage := [button];
      currentSaveButton := Some(button);
      targetLink := Some(link);
    }

    /** The press timer fires (only a timer that is still pending can): the
        button is shown for its press; `longPressTimer` keeps the spent id. */
    method OnPressTimer(timer: nat, innerWidth: int, innerHeight: int)
      requires Valid()
      modifies this
      ensures Valid()
      ensures timer !in old(pendingPress) ==>
                && currentSaveButton == old(currentSaveButton) && targetLink == old(targetLink)
                && pendingPress == old(pendingPress) && buttonsInPage == old(buttonsInPage)
      ensures timer in old(pendingPress) ==>
                var press := old(pendingPress)[timer];
                var pos := ButtonPosition(press.x, press.y, innerWidth, innerHeight);
                && pendingPress == map[]
                && currentSaveButton == Some(SaveButton(old(nextButton), pos.0, pos.1, SaveLabel, false))
                && targetLink == Some(press.link)
      ensures longPressTimer == old(longPressTimer) && inFlight == old(inFlight)
    {
      if timer in pendingPress {
        var press := pendingPress[timer];
        pendingPress := pendingPress - {timer};
        ShowSaveButton(press.x, press.y, press.link, innerWidth, innerHeight);
      }
    }

    /** The auto-dismiss timeout of button `id`: removes the button only if it
        is still the current one. */
    method OnDismissTimeout(id: nat)
      requires Valid()
      modifies this
      ensures Valid()
      ensures old(currentSaveButton).Some? && old(currentSaveButton).value.id == id ==>
                currentSaveButton == None && targetLink == None && buttonsInPage == []
      ensures !(old(currentSaveButton).Some? && old(currentSaveButton).value.id == id) ==>
                currentSaveButton == old(currentSaveButton) && targetLink == old(targetLink)
                && buttonsInPage == old(buttonsInPage)
      ensures pendingPress == old(pendingPress) && inFlight == old(inFlight)
    {
      if currentSaveButton.Some? && currentSaveButton.value.id == id {
        RemoveSaveButton();
      }
    }

    /** `handleDocumentClick`: a click anywhere but on the save button removes it. */
    method OnDocumentClick(onSaveButton: bool)
      requires Valid()
      modifies this
      ensures Valid()
      ensures !onSaveButton ==> currentSaveButton == None && targetLink == None && buttonsInPage == []
      ensures onSaveButton ==> currentSaveButton == old(currentSaveButton) && targetLink == old(targetLink)
      ensures pendingPress == old(pendingPress) && inFlight == old(inFlight)
    {
      if !onSaveButton {
        RemoveSaveButton();
      }
    }

    /** `handleSaveClick`, up to the `SAVE_LINK` message it sends: nothing
        without a button and a link; otherwise the button shows it is saving
        and the message carries the link, its title and the page. */
    method OnSaveClick(pageHref: string) returns (request: Option<map<string, string>>)
      requires Valid()
      modifies this
      ensures Valid()
      ensures old(targetLink).None? || old(currentSaveButton).None? ==>
                request == None && currentSaveButton == old(currentSaveButton) && inFlight == old(inFlight)
      ensures old(targetLink).Some? && old(currentSaveButton).Some? ==>
                var link := old(targetLink).value;
                && request == Some(SaveRequest(link, pageHref))
                && currentSaveButton == Some(old(currentSaveButton).value.(caption := SavingLabel, saving := true))
                && inFlight == old(inFlight) + 1
      ensures targetLink == old(targetLink) && pendingPress == old(pendingPress)
    {
      if targetLink.None? || currentSaveButton.None? {
        return None;
      }
      var button := currentSaveButton.value.(caption := SavingLabel, saving := true);
      var link := targetLink.value;
      currentSaveButton := Some(button);
      buttonsInPage := [button];
      inFlight := inFlight + 1;
      request := Some(SaveRequest(link, pageHref));
    }

    /** The rest of `handleSaveClick`: a toast for the outcome, then the
        button is removed whatever the outcome (the `finally`). */
    method OnSaveSettled(outcome: SaveOutcome)
      requires Valid() && inFlight > 0
      modifies this, toasts
      ensures Valid()
      ensures currentSaveButton == None && targetLink == None && buttonsInPage == []
      ensures inFlight == old(inFlight) - 1
      ensures toasts.currentToast.Some? && |toasts.attached| == 1
      ensures toasts.attached[0].text == ToastFor(outcome).0
      ensures toasts.attached[0].className == "quicklinks-toast " + ToastFor(outcome).1
      ensures pendingPress == old(pendingPress)
    {
      var (message, kind) := ToastFor(outcome);
      var _ := toasts.ShowToast(message, Some(kind), None);
      inFlight := inFlight - 1;
      RemoveSaveButton();
    }
  }
}

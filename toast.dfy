/** The single-slot toast of the content script
    (extension/dist/content-script.js:38-71, bundled from src/ui/toast.ts)
    and the `QUICKLINKS_TOAST` listener that drives it. Timers and animation
    frames are events the environment delivers with the toast they captured. */
module Toast {
  import opened Wrappers

  const DefaultType := "success"
  const DefaultDuration := 3000
  const ToastMessageKind := "QUICKLINKS_TOAST"

  /** A toast element: its identity, text, class list and whether it carries
      the `visible` class. */
  datatype ToastElement = ToastElement(id: nat, text: string, className: string, visible: bool, duration: int)

  class ToastSlot {
    /** `styleInjected`, and the number of style elements added to the page. */
    var styleInjected: bool
    var styleElements: nat
    /** `currentToast`, by identity. */
    var currentToast: Option<nat>
    /** The toast elements attached to the page. */
    var attached: seq<ToastElement>
    var nextId: nat

    /** Styles are added at most once, and the page shows exactly the
        current toast, if any. */
    ghost predicate Valid()
      reads this
    {
      && styleElements == (if styleInjected then 1 else 0)
      && (currentToast.None? ==> attached == [])
      && (currentToast.Some? ==> |attached| == 1 && attached[0].id == currentToast.value)
      && (forall i :: 0 <= i < |attached| ==> attached[i].id < nextId)
    }

    constructor ()
      ensures Valid() && !styleInjected && currentToast == None && attached == []
    {
      styleInjected, styleElements := false, 0;
      currentToast, attached := None, [];
      nextId := 0;
    }

    /** `injectStyles`: idempotent. */
    method InjectStyles()
      requires Valid()
      modifies this
      ensures Valid()
      ensures styleInjected && styleElements == 1
      ensures currentToast == old(currentToast) && attached == old(attached) && nextId == old(nextId)
    {
      if styleInjected {
        return;
      }
      styleElements := styleElements + 1;
      styleInjected := true;
    }

    /** `showToast(message, type = "success", duration = 3000)`: removes the
        current toast, then attaches a new one whose class names its type. */
    method ShowToast(message: string, toastType: Option<string>, duration: Option<int>) returns (id: nat)
      requires Valid()
      modifies this
      ensures Valid()
      ensures id == old(nextId) && nextId == old(nextId) + 1
      ensures styleInjected && styleElements == 1
      ensures currentToast == Some(id)
      ensures attached == [ToastElement(id, message, "quicklinks-toast " + toastType.GetOr(DefaultType),
                                        false, duration.GetOr(DefaultDuration))]
    {
      InjectStyles();
      if currentToast.Some? {
        attached := [];
      }
      id := nextId;
      nextId := nextId + 1;
      attached := [ToastElement(id, message, "quicklinks-toast " + toastType.GetOr(DefaultType),
                                false, duration.GetOr(DefaultDuration))];
      currentToast := Some(id);
    }

    /** The animation frame after `showToast`: the captured toast gets the
        `visible` class (observable only while it is attached). */
    method AnimationFrame(id: nat)
      requires Valid()
      modifies this
      ensures Valid()
      ensures currentToast == old(currentToast) && nextId == old(nextId)
      ensures |attached| == |old(attached)|
      ensures forall i :: 0 <= i < |attached| ==>
                attached[i] == if old(attached)[i].id == id then old(attached)[i].(visible := true) else old(attached)[i]
    {
      if |attached| == 1 && attached[0].id == id {
        attached := [attached[0].(visible := true)];
      }
    }

    /** The first timeout (after `duration`): the captured toast loses `visible`. */
    method FadeOut(id: nat)
      requires Valid()
      modifies this
      ensures Valid()
      ensures currentToast == old(currentToast) && nextId == old(nextId)
      ensures |attached| == |old(attached)|
      ensures forall i :: 0 <= i < |attached| ==>
                attached[i] == if old(attached)[i].id == id then old(attached)[i].(visible := false) else old(attached)[i]
    {
      if |attached| == 1 && attached[0].id == id {
        attached := [attached[0].(visible := false)];
      }
    }

    /** The second timeout (300 ms later): detaches the captured toast and
        clears `currentToast` only if it still is that toast. A newer toast
        is left alone. */
    method Cleanup(id: nat)
      requires Valid()
      modifies this
      ensures Valid()
      ensures old(currentToast) == Some(id) ==> currentToast == None && attached == []
      ensures old(currentToast) != Some(id) ==> currentToast == old(currentToast) && attached == old(attached)
      ensures nextId == old(nextId) && styleInjected == old(styleInjected)
    {
      if |attached| == 1 && attached[0].id == id {
        attached := [];
      }
      if currentToast == Some(id) {
        currentToast := None;
      }
    }

    /** The `chrome.runtime.onMessage` listener of the content script: a
        `QUICKLINKS_TOAST` message shows its text (empty when absent) with its
        `toastType`, `info` when that is missing or empty; any other message
        changes nothing. */
    method OnRuntimeMessage(msg: map<string, string>)
      requires Valid()
      modifies this
      ensures Valid()
      ensures ("type" !in msg || msg["type"] != ToastMessageKind) ==>
                currentToast == old(currentToast) && attached == old(attached) && nextId == old(nextId)
      ensures "type" in msg && msg["type"] == ToastMessageKind ==>
                && currentToast == Some(old(nextId))
                && attached == [ToastElement(old(nextId),
                                  if "message" in msg then msg["message"] else "",
                                  "quicklinks-toast " + (if "toastType" in msg && msg["toastType"] != "" then msg["toastType"] else "info"),
                                  false, DefaultDuration)]
    {
      if "type" in msg && msg["type"] == ToastMessageKind {
        var text := if "message" in msg then msg["message"] else "";
        var kind := if "toastType" in msg && msg["toastType"] != "" then msg["toastType"] else "info";
        var _ := ShowToast(text, Some(kind), None);
      }
    }
  }
}

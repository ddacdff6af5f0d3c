/** The custom alert dialog: one overlay, created on the first `showModal`
    call, appended to the body and reused by every later call. */
module Modal {
  import opened Options

  const ModalId := "custom-alert-modal"

  /** The overlay's inline display and the text of its message paragraph. */
  datatype OverlayView = OverlayView(display: string, message: string)

  /** The ids of the body's children, in order, and the overlay once it
      exists. */
  datatype ModalView = ModalView(bodyIds: seq<string>, overlay: Option<OverlayView>)

  function Count(s: seq<string>, x: string): nat
    decreases |s|
  {
    if s == [] then 0 else Count(s[..|s| - 1], x) + (if s[|s| - 1] == x then 1 else 0)
  }

  lemma CountAppend(s: seq<string>, y: string, x: string)
    ensures Count(s + [y], x) == Count(s, x) + (if y == x then 1 else 0)
  {
    assert (s + [y])[..|s|] == s;
  }

  /** The body holds one overlay when the dialog exists and none before. */
  predicate Single(v: ModalView) {
    Count(v.bodyIds, ModalId) == if v.overlay.Some? then 1 else 0
  }

  /** The effect of `showModal(message)`. */
  function Shown(v: ModalView, message: string): (r: ModalView)
    ensures r.overlay == Some(OverlayView("flex", message))
    ensures r.bodyIds == if v.overlay.None? then v.bodyIds + [ModalId] else v.bodyIds
    ensures Single(v) ==> Single(r) && Count(r.bodyIds, ModalId) == 1
  {
    if v.overlay.None? then
      CountAppend(v.bodyIds, ModalId, ModalId);
      ModalView(v.bodyIds + [ModalId], Some(OverlayView("flex", message)))
    else
      v.(overlay := Some(OverlayView("flex", message)))
  }

  /** A dismissal hides the overlay and keeps it, with its text, in the page. */
  function Hidden(v: ModalView): (r: ModalView)
    ensures r.bodyIds == v.bodyIds && r.overlay.Some? == v.overlay.Some?
    ensures r.overlay.Some? ==> r.overlay.value == OverlayView("none", v.overlay.value.message)
  {
    if v.overlay.Some? then v.(overlay := Some(v.overlay.value.(display := "none"))) else v
  }

  /** What can happen to the dialog: a call, a click on the close glyph or on
      OK, and a click anywhere in the window, which hides the dialog only when
      its target is the overlay itself (its background). */
  datatype ModalEvent = ShowCall(message: string) | CloseClick | OkClick | WindowClick(onOverlay: bool)

  function Step(v: ModalView, e: ModalEvent): ModalView {
    match e
    case ShowCall(m) => Shown(v, m)
    case CloseClick => Hidden(v)
    case OkClick => Hidden(v)
    case WindowClick(onOverlay) => if onOverlay then Hidden(v) else v
  }

  function Run(v: ModalView, events: seq<ModalEvent>): ModalView
    decreases |events|
  {
    if events == [] then v else Step(Run(v, events[..|events| - 1]), events[|events| - 1])
  }

  function ShowCalls(messages: seq<string>): (events: seq<ModalEvent>)
    ensures |events| == |messages|
    ensures forall k :: 0 <= k < |events| ==> events[k] == ShowCall(messages[k])
  {
    seq(|messages|, k requires 0 <= k < |messages| => ShowCall(messages[k]))
  }

  /** Whatever happens, there is never more than the one overlay; once it
      exists it stays, and the body gains at most that one element. */
  lemma {:induction false} RunKeepsSingle(v: ModalView, events: seq<ModalEvent>)
    requires Single(v)
    ensures Single(Run(v, events))
    ensures v.overlay.Some? ==> Run(v, events).overlay.Some?
    ensures Run(v, events).bodyIds == v.bodyIds || Run(v, events).bodyIds == v.bodyIds + [ModalId]
  {
    if events != [] {
      RunKeepsSingle(v, events[..|events| - 1]);
    }
  }

  /** After any non-empty sequence of `showModal` calls exactly one overlay
      exists, it is displayed, and it shows the last message. */
  lemma ShowCallsLeaveOne(v: ModalView, messages: seq<string>)
    requires Single(v) && messages != []
    ensures Count(Run(v, ShowCalls(messages)).bodyIds, ModalId) == 1
    ensures Run(v, ShowCalls(messages)).overlay == Some(OverlayView("flex", messages[|messages| - 1]))
  {
    var events := ShowCalls(messages);
    RunKeepsSingle(v, events[..|events| - 1]);
  }

  /** Dismissals never change the text: after the last call the overlay keeps
      its message whatever clicks follow. */
  lemma {:induction false} MessageOutlivesDismissals(v: ModalView, message: string, clicks: seq<ModalEvent>)
    requires forall k :: 0 <= k < |clicks| ==> !clicks[k].ShowCall?
    ensures Run(Shown(v, message), clicks).overlay.Some?
    ensures Run(Shown(v, message), clicks).overlay.value.message == message
    ensures Run(Shown(v, message), clicks).bodyIds == Shown(v, message).bodyIds
  {
    if clicks != [] {
      MessageOutlivesDismissals(v, message, clicks[..|clicks| - 1]);
    }
  }

  /** The overlay element. */
  class Overlay {
    var display: string
    var message: string

    constructor ()
      ensures display == "" && message == ""
    {
      display, message := "", "";
    }
  }

  /** The part of the document the dialog touches. */
  class Page {
    var bodyIds: seq<string>
    var modal: Overlay?

    function View(): ModalView
      reads this, modal
    {
      ModalView(bodyIds, if modal == null then None else Some(OverlayView(modal.display, modal.message)))
    }

    ghost predicate Valid()
      reads this, modal
    {
      Single(View())
    }

    /** A page on which the script has not shown any dialog yet. */
    constructor (ids: seq<string>)
      requires Count(ids, ModalId) == 0
      ensures Valid() && View() == ModalView(ids, None)
    {
      bodyIds, modal := ids, null;
    }

    method ShowModal(message: string)
      requires Valid()
      modifies this, modal
      ensures Valid()
      ensures View() == Shown(old(View()), message)
      ensures old(modal) != null ==> modal == old(modal)
      ensures old(modal) == null ==> fresh(modal)
    {
      if modal == null {
        var m := new Overlay();
        bodyIds := bodyIds + [ModalId];
        modal := m;
        CountAppend(old(bodyIds), ModalId, ModalId);
      }
      modal.message := message;
      modal.display := "flex";
    }

    method OnCloseClick()
      requires Valid()
      modifies modal
      ensures Valid() && View() == Step(old(View()), CloseClick)
    {
      if modal != null {
        modal.display := "none";
      }
    }

    method OnOkClick()
      requires Valid()
      modifies modal
      ensures Valid() && View() == Step(old(View()), OkClick)
    {
      if modal != null {
        modal.display := "none";
      }
    }

    /** The window's click listener, registered when the overlay is created. */
    method OnWindowClick(target: object?)
      requires Valid()
      modifies modal
      ensures Valid() && View() == Step(old(View()), WindowClick(modal != null && target == modal))
    {
      if modal != null && target == modal {
        modal.display := "none";
      }
    }
  }
}

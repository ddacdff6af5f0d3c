/** Scroll reveal: every `.fade-in` element whose top edge has come within
    150 pixels of the bottom of the viewport is given its visible style. */
module ScrollReveal {

  const ElementVisible := 150

  /** The inline style fields the pass writes. */
  datatype Style = Style(opacity: string, transform: string, transition: string)

  const Visible := Style("1", "translateY(0)", "opacity 0.6s ease, transform 0.6s ease")

  predicate Revealed(s: Style) {
    s.opacity == "1" && s.transform == "translateY(0)"
  }

  /** The element's top edge, as `getBoundingClientRect` reports it, is above
      the threshold. */
  predicate InView(top: real, innerHeight: int) {
    top < (innerHeight - ElementVisible) as real
  }

  /** One element's turn of the pass: there is no branch that hides it. */
  function RevealOne(s: Style, top: real, innerHeight: int): (r: Style)
    ensures InView(top, innerHeight) ==> r == Visible
    ensures !InView(top, innerHeight) ==> r == s
  {
    if InView(top, innerHeight) then Visible else s
  }

  /** One element is revealed after its turn exactly when it already was or
      is in view. */
  lemma RevealOneReveals(s: Style, top: real, innerHeight: int)
    ensures Revealed(RevealOne(s, top, innerHeight)) <==> Revealed(s) || InView(top, innerHeight)
  {
  }

  /** One run of `fadeInOnScroll` over the elements in document order. */
  function Pass(styles: seq<Style>, tops: seq<real>, innerHeight: int): (r: seq<Style>)
    requires |tops| == |styles|
    ensures |r| == |styles|
    ensures forall k :: 0 <= k < |r| ==> r[k] == RevealOne(styles[k], tops[k], innerHeight)
  {
    if styles == [] then []
    else [RevealOne(styles[0], tops[0], innerHeight)] + Pass(styles[1..], tops[1..], innerHeight)
  }

  /** After a pass an element is revealed exactly when it already was or is
      in view; one that is not in view is left untouched. */
  lemma PassReveals(styles: seq<Style>, tops: seq<real>, innerHeight: int, k: nat)
    requires |tops| == |styles| && k < |styles|
    ensures Revealed(Pass(styles, tops, innerHeight)[k]) <==> Revealed(styles[k]) || InView(tops[k], innerHeight)
    ensures !InView(tops[k], innerHeight) ==> Pass(styles, tops, innerHeight)[k] == styles[k]
  {
  }

  /** Running the pass again with the same layout changes nothing. */
  lemma PassIdempotent(styles: seq<Style>, tops: seq<real>, innerHeight: int)
    requires |tops| == |styles|
    ensures Pass(Pass(styles, tops, innerHeight), tops, innerHeight) == Pass(styles, tops, innerHeight)
  {
  }

  /** The layout seen by one scroll or load event. */
  datatype Frame = Frame(tops: seq<real>, innerHeight: int)

  predicate FitsAll(frames: seq<Frame>, n: nat) {
    forall j :: 0 <= j < |frames| ==> |frames[j].tops| == n
  }

  /** The styles after one pass per event, in order. */
  function Passes(styles: seq<Style>, frames: seq<Frame>): (r: seq<Style>)
    requires FitsAll(frames, |styles|)
    ensures |r| == |styles|
    decreases |frames|
  {
    if frames == [] then styles
    else
      var last := frames[|frames| - 1];
      Pass(Passes(styles, frames[..|frames| - 1]), last.tops, last.innerHeight)
  }

  /** Every event's layout has a top for element `k`. */
  predicate Covers(frames: seq<Frame>, k: nat) {
    forall j :: 0 <= j < |frames| ==> k < |frames[j].tops|
  }

  /** The element was in view at one of the events. */
  predicate SeenInView(frames: seq<Frame>, k: nat)
    requires Covers(frames, k)
  {
    exists j :: 0 <= j < |frames| && InView(frames[j].tops[k], frames[j].innerHeight)
  }

  /** Seen in view over a sequence of events means seen in view before the
      last event or at it. */
  lemma SeenInViewSplit(frames: seq<Frame>, k: nat)
    requires frames != [] && Covers(frames, k)
    ensures Covers(frames[..|frames| - 1], k)
    ensures SeenInView(frames, k) <==>
      SeenInView(frames[..|frames| - 1], k) ||
      InView(frames[|frames| - 1].tops[k], frames[|frames| - 1].innerHeight)
  {
    var init := frames[..|frames| - 1];
    assert forall j :: 0 <= j < |init| ==> init[j] == frames[j];
    if SeenInView(frames, k) {
      var j :| 0 <= j < |frames| && InView(frames[j].tops[k], frames[j].innerHeight);
      if j < |init| {
        assert InView(init[j].tops[k], init[j].innerHeight);
      }
    }
  }

  /** Over any sequence of events an element ends revealed exactly when it
      started revealed or was in view at one of the events: reveal is
      one-way. */
  lemma {:induction false} PassesReveal(styles: seq<Style>, frames: seq<Frame>, k: nat)
    requires FitsAll(frames, |styles|) && k < |styles|
    ensures Revealed(Passes(styles, frames)[k]) <==> Revealed(styles[k]) || SeenInView(frames, k)
  {
    if frames != [] {
      var init := frames[..|frames| - 1];
      var last := frames[|frames| - 1];
      assert FitsAll(init, |styles|);
      PassesReveal(styles, init, k);
      SeenInViewSplit(frames, k);
      RevealOneReveals(Passes(styles, init)[k], last.tops[k], last.innerHeight);
    }
  }

  /** `fadeInOnScroll` over the elements' styles, in place; `tops[k]` is the
      top of element `k`'s bounding rectangle and `innerHeight` the window's. */
  method FadeInOnScroll(styles: array<Style>, tops: seq<real>, innerHeight: int)
    requires |tops| == styles.Length
    modifies styles
    ensures styles[..] == Pass(old(styles[..]), tops, innerHeight)
  {
    for i := 0 to styles.Length
      invariant forall k :: 0 <= k < i ==> styles[k] == RevealOne(old(styles[k]), tops[k], innerHeight)
      invariant forall k :: i <= k < styles.Length ==> styles[k] == old(styles[k])
    {
      var elementTop := tops[i];
      if elementTop < (innerHeight - ElementVisible) as real {
        styles[i] := styles[i].(opacity := "1");
        styles[i] := styles[i].(transform := "translateY(0)");
        styles[i] := styles[i].(transition := "opacity 0.6s ease, transform 0.6s ease");
      }
    }
  }
}

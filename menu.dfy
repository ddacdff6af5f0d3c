/** The mobile navigation menu: an `active` class on the list of links and
    the bars/times icon of the menu button. */
module MobileMenu {
  import opened Options

  const Active := "active"
  const Bars := "fa-bars"
  const Times := "fa-times"

  /** The classes of the link list and of the button's icon, if it has one. */
  datatype MenuView = MenuView(nav: set<string>, icon: Option<set<string>>)

  predicate IsOpen(v: MenuView) {
    Active in v.nav
  }

  /** The times glyph while open, the bars glyph while closed. */
  predicate IconMatches(v: MenuView) {
    v.icon.Some? ==>
      (Times in v.icon.value <==> IsOpen(v)) && (Bars in v.icon.value <==> !IsOpen(v))
  }

  /** One click on the menu button. A button without an icon only toggles the
      menu: the handler stops there, on the missing element. */
  function ButtonClicked(v: MenuView): (r: MenuView)
    ensures IsOpen(r) == !IsOpen(v)
    ensures IconMatches(r)
    ensures r.nav - {Active} == v.nav - {Active}
    ensures r.icon.Some? == v.icon.Some?
    ensures r.icon.Some? ==> r.icon.value - {Bars, Times} == v.icon.value - {Bars, Times}
  {
    var nav := if Active in v.nav then v.nav - {Active} else v.nav + {Active};
    if v.icon.None? then MenuView(nav, None)
    else if Active in nav then MenuView(nav, Some(v.icon.value - {Bars} + {Times}))
    else MenuView(nav, Some(v.icon.value - {Times} + {Bars}))
  }

  /** One click on any of the navigation links. */
  function LinkClicked(v: MenuView): (r: MenuView)
    ensures !IsOpen(r)
    ensures IconMatches(r)
    ensures r.nav == v.nav - {Active}
    ensures r.icon.Some? == v.icon.Some?
    ensures r.icon.Some? ==> r.icon.value - {Bars, Times} == v.icon.value - {Bars, Times}
  {
    MenuView(v.nav - {Active}, if v.icon.Some? then Some(v.icon.value - {Times} + {Bars}) else None)
  }

  lemma LinkClickIdempotent(v: MenuView)
    ensures LinkClicked(LinkClicked(v)) == LinkClicked(v)
  {
    if v.icon.Some? {
      var i := v.icon.value - {Times} + {Bars};
      assert i - {Times} + {Bars} == i;
    }
  }

  datatype MenuEvent = ButtonClick | LinkClick

  function Step(v: MenuView, e: MenuEvent): MenuView {
    match e
    case ButtonClick => ButtonClicked(v)
    case LinkClick => LinkClicked(v)
  }

  /** The menu after a sequence of clicks, in order. */
  function Run(v: MenuView, events: seq<MenuEvent>): MenuView
    decreases |events|
  {
    if events == [] then v else Step(Run(v, events[..|events| - 1]), events[|events| - 1])
  }

  /** Number of button clicks after the last link click. */
  function PressesSinceLink(events: seq<MenuEvent>): nat
    decreases |events|
  {
    if events == [] then 0
    else if events[|events| - 1] == LinkClick then 0
    else PressesSinceLink(events[..|events| - 1]) + 1
  }

  predicate HasLinkClick(events: seq<MenuEvent>) {
    exists k :: 0 <= k < |events| && events[k] == LinkClick
  }

  /** After any clicks the icon tracks the menu, and the menu is open exactly
      when an odd number of button clicks followed the last link click (or,
      without any link click, followed the starting state). */
  lemma {:induction false} RunState(v: MenuView, events: seq<MenuEvent>)
    ensures events != [] ==> IconMatches(Run(v, events))
    ensures IsOpen(Run(v, events)) ==
      (if HasLinkClick(events) then PressesSinceLink(events) % 2 == 1
       else IsOpen(v) != (PressesSinceLink(events) % 2 == 1))
  {
    if events != [] {
      var init := events[..|events| - 1];
      RunState(v, init);
      if events[|events| - 1] == LinkClick {
        assert HasLinkClick(events) by {
          assert events[|events| - 1] == LinkClick;
        }
      } else {
        assert HasLinkClick(events) == HasLinkClick(init) by {
          if HasLinkClick(events) {
            var k :| 0 <= k < |events| && events[k] == LinkClick;
            assert init[k] == LinkClick;
          }
          if HasLinkClick(init) {
            var k :| 0 <= k < |init| && init[k] == LinkClick;
            assert events[k] == LinkClick;
          }
        }
      }
    }
  }

  /** The menu's elements; `wired` says whether the page has both the menu
      button and the link list, without which no handler is registered. */
  class Menu {
    var nav: set<string>
    var icon: Option<set<string>>
    const wired: bool

    function View(): MenuView
      reads this
    {
      MenuView(nav, icon)
    }

    constructor (nav0: set<string>, icon0: Option<set<string>>, wired0: bool)
      ensures View() == MenuView(nav0, icon0) && wired == wired0
    {
      nav, icon, wired := nav0, icon0, wired0;
    }

    method OnButtonClick()
      modifies this
      ensures View() == if wired then ButtonClicked(old(View())) else old(View())
    {
      if wired {
        if Active in nav {
          nav := nav - {Active};
        } else {
          nav := nav + {Active};
        }
        if icon.Some? {
          if Active in nav {
            icon := Some(icon.value - {Bars});
            icon := Some(icon.value + {Times});
          } else {
            icon := Some(icon.value - {Times});
            icon := Some(icon.value + {Bars});
          }
        }
      }
    }

    method OnLinkClick()
      modifies this
      ensures View() == if wired then LinkClicked(old(View())) else old(View())
    {
      if wired {
        nav := nav - {Active};
        if icon.Some? {
          icon := Some(icon.value - {Times});
          icon := Some(icon.value + {Bars});
        }
      }
    }
  }
}

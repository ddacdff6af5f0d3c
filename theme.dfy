/** The theme controller: a class on the page body, the icon of the toggle
    button, and one key of browser-local storage. */
module Theme {
  import opened Options

  const DarkTheme := "dark-theme"
  const Sun := "fa-sun"
  const Moon := "fa-moon"
  const ThemeKey := "theme"

  /** What the controller sees of the page: the classes of the body, the
      classes of the toggle's icon when the page has one, and local storage. */
  datatype ThemeView = ThemeView(body: set<string>, icon: Option<set<string>>, storage: map<string, string>)

  predicate IsDark(v: ThemeView) {
    DarkTheme in v.body
  }

  /** The icon agrees with the body: the sun while dark, the moon while light.
      A page without an icon agrees with either theme. */
  predicate IconMatches(v: ThemeView) {
    v.icon.Some? ==>
      (Sun in v.icon.value <==> IsDark(v)) && (Moon in v.icon.value <==> !IsDark(v))
  }

  /** The value `localStorage.getItem('theme')` returns; None stands for null. */
  function Saved(storage: map<string, string>): Option<string> {
    if ThemeKey in storage then Some(storage[ThemeKey]) else None
  }

  /** The effect of `applyDarkTheme(enable)`. */
  function Applied(v: ThemeView, enable: bool): (r: ThemeView)
    ensures IsDark(r) == enable
    ensures IconMatches(r)
    ensures r.body - {DarkTheme} == v.body - {DarkTheme}
    ensures r.icon.Some? == v.icon.Some?
    ensures r.icon.Some? ==> r.icon.value - {Sun, Moon} == v.icon.value - {Sun, Moon}
    ensures r.storage == v.storage
  {
    if enable then
      v.(body := v.body + {DarkTheme},
         icon := if v.icon.Some? then Some(v.icon.value - {Moon} + {Sun}) else None)
    else
      v.(body := v.body - {DarkTheme},
         icon := if v.icon.Some? then Some(v.icon.value - {Sun} + {Moon}) else None)
  }

  /** The theme chosen on load: the saved preference when it is one of the two
      known values, and dark otherwise, whether or not the system asks for dark. */
  function ResolveOnLoad(saved: Option<string>, systemPrefersDark: bool): (dark: bool)
    ensures saved == Some("dark") ==> dark
    ensures saved == Some("light") ==> !dark
    ensures saved != Some("dark") && saved != Some("light") ==> dark
  {
    if saved == Some("dark") then true
    else if saved == Some("light") then false
    else if systemPrefersDark then true
    else true
  }

  /** The page after the load handler has resolved and applied the theme. */
  function Loaded(v: ThemeView, systemPrefersDark: bool): (r: ThemeView)
    ensures IsDark(r) <==> Saved(v.storage) != Some("light")
    ensures IconMatches(r)
    ensures r.body - {DarkTheme} == v.body - {DarkTheme}
    ensures r.icon.Some? == v.icon.Some?
    ensures r.icon.Some? ==> r.icon.value - {Sun, Moon} == v.icon.value - {Sun, Moon}
    ensures r.storage == v.storage
  {
    Applied(v, ResolveOnLoad(Saved(v.storage), systemPrefersDark))
  }

  /** The page after one click on the theme toggle. */
  function Toggled(v: ThemeView): (r: ThemeView)
    ensures IsDark(r) == !IsDark(v)
    ensures IconMatches(r)
    ensures r.icon.Some? == v.icon.Some?
    ensures r.icon.Some? ==> r.icon.value - {Sun, Moon} == v.icon.value - {Sun, Moon}
    ensures Saved(r.storage) == Some(if IsDark(r) then "dark" else "light")
    ensures r.storage.Keys == v.storage.Keys + {ThemeKey}
    ensures forall k :: k in v.storage && k != ThemeKey ==> r.storage[k] == v.storage[k]
    ensures r.body - {DarkTheme} == v.body - {DarkTheme}
  {
    var isDark := IsDark(v);
    var w := Applied(v, !isDark);
    w.(storage := w.storage[ThemeKey := if !isDark then "dark" else "light"])
  }

  /** The page after `n` clicks on the toggle. */
  function Clicks(v: ThemeView, n: nat): ThemeView {
    if n == 0 then v else Toggled(Clicks(v, n - 1))
  }

  /** Only the saved value decides the theme on load: the system signal
      never changes the outcome. */
  lemma LoadIgnoresSystemPreference(v: ThemeView)
    ensures Loaded(v, true) == Loaded(v, false)
    ensures IsDark(Loaded(v, true)) <==> Saved(v.storage) != Some("light")
    ensures IconMatches(Loaded(v, true))
    ensures Loaded(v, true).storage == v.storage
  {
  }

  /** Two clicks restore the body; when the icon agreed with the body, they
      restore the icon too, and the saved value names the original theme. */
  lemma TwoClicksRestore(v: ThemeView)
    ensures Toggled(Toggled(v)).body == v.body
    ensures IconMatches(v) ==> Toggled(Toggled(v)).icon == v.icon
    ensures Saved(Toggled(Toggled(v)).storage) == Some(if IsDark(v) then "dark" else "light")
  {
    var w := Toggled(Toggled(v));
    if IsDark(v) {
      assert w.body == v.body - {DarkTheme} + {DarkTheme};
      if IconMatches(v) && v.icon.Some? {
        assert Sun in v.icon.value && Moon !in v.icon.value;
        assert w.icon.value == v.icon.value - {Sun} + {Moon} - {Moon} + {Sun};
        assert v.icon.value - {Sun} + {Moon} - {Moon} + {Sun} == v.icon.value;
      }
    } else {
      assert w.body == v.body + {DarkTheme} - {DarkTheme};
      if IconMatches(v) && v.icon.Some? {
        assert Moon in v.icon.value && Sun !in v.icon.value;
        assert w.icon.value == v.icon.value - {Moon} + {Sun} - {Sun} + {Moon};
        assert v.icon.value - {Moon} + {Sun} - {Sun} + {Moon} == v.icon.value;
      }
    }
  }

  /** After `n` clicks the theme is the starting one flipped `n mod 2` times,
      everything else on the body is as it was, and — once there has been at
      least one click — storage names the theme on screen. */
  lemma {:induction false} ClicksParity(v: ThemeView, n: nat)
    ensures IsDark(Clicks(v, n)) == (if n % 2 == 0 then IsDark(v) else !IsDark(v))
    ensures Clicks(v, n).body - {DarkTheme} == v.body - {DarkTheme}
    ensures Clicks(v, n).icon.Some? == v.icon.Some?
    ensures v.icon.Some? ==> Clicks(v, n).icon.value - {Sun, Moon} == v.icon.value - {Sun, Moon}
    ensures n > 0 ==> IconMatches(Clicks(v, n))
    ensures n > 0 ==> Saved(Clicks(v, n).storage) == Some(if IsDark(Clicks(v, n)) then "dark" else "light")
  {
    if n > 0 {
      ClicksParity(v, n - 1);
    }
  }

  /** The page's theme state; `hasToggle` says whether the page has the toggle
      button, without which no click handler is registered. */
  class ThemeController {
    var body: set<string>
    var icon: Option<set<string>>
    var storage: map<string, string>
    const hasToggle: bool

    function View(): ThemeView
      reads this
    {
      ThemeView(body, icon, storage)
    }

    constructor (body0: set<string>, icon0: Option<set<string>>, storage0: map<string, string>, hasToggle0: bool)
      requires icon0.Some? ==> hasToggle0
      ensures View() == ThemeView(body0, icon0, storage0) && hasToggle == hasToggle0
    {
      body, icon, storage, hasToggle := body0, icon0, storage0, hasToggle0;
    }

    method ApplyDarkTheme(enable: bool)
      modifies this
      ensures View() == Applied(old(View()), enable)
    {
      if enable {
        body := body + {DarkTheme};
        if icon.Some? {
          icon := Some(icon.value - {Moon});
          icon := Some(icon.value + {Sun});
        }
      } else {
        body := body - {DarkTheme};
        if icon.Some? {
          icon := Some(icon.value - {Sun});
          icon := Some(icon.value + {Moon});
        }
      }
    }

    /** The theme part of the DOMContentLoaded handler; `systemPrefersDark`
        is the answer of the `prefers-color-scheme: dark` media query. */
    method OnLoad(systemPrefersDark: bool)
      modifies this
      ensures View() == Loaded(old(View()), systemPrefersDark)
    {
      var saved := Saved(storage);
      if saved == Some("dark") {
        ApplyDarkTheme(true);
      } else if saved == Some("light") {
        ApplyDarkTheme(false);
      } else if systemPrefersDark {
        ApplyDarkTheme(true);
      } else {
        ApplyDarkTheme(true);
      }
    }

    method OnToggleClick()
      modifies this
      ensures View() == if hasToggle then Toggled(old(View())) else old(View())
    {
      if hasToggle {
        var isDark := DarkTheme in body;
        ApplyDarkTheme(!isDark);
        storage := storage[ThemeKey := if !isDark then "dark" else "light"];
      }
    }
  }
}

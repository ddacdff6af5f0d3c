/** The home-page test of the load handler, which hides the back button on
    the site's landing page. */
module HomePage {

  predicate EndsWith(s: string, suffix: string) {
    |suffix| <= |s| && s[|s| - |suffix|..] == suffix
  }

  /** `EndsWith` agrees with the definition of a suffix by concatenation. */
  lemma EndsWithIffConcat(s: string, suffix: string)
    ensures EndsWith(s, suffix) <==> exists prefix :: prefix + suffix == s
  {
    if EndsWith(s, suffix) {
      var prefix := s[..|s| - |suffix|];
      assert prefix + suffix == s;
    }
    if exists prefix :: prefix + suffix == s {
      var prefix :| prefix + suffix == s;
      assert s[|prefix|..] == suffix;
    }
  }

  /** The path names the landing page: any `index.html`, the site root, or
      the root of the project's GitHub Pages site. */
  predicate IsHomePage(path: string) {
    EndsWith(path, "index.html") || path == "/" || EndsWith(path, "/Portfolio/")
  }

  /** The same test stated without slicing. */
  lemma IsHomePageIff(path: string)
    ensures IsHomePage(path) <==>
      path == "/" ||
      (exists prefix :: prefix + "index.html" == path) ||
      (exists prefix :: prefix + "/Portfolio/" == path)
  {
    EndsWithIffConcat(path, "index.html");
    EndsWithIffConcat(path, "/Portfolio/");
  }

  /** Some paths and their verdicts: a trailing slash is needed after
      `Portfolio`, and a page other than `index.html` is not home. */
  lemma HomePageExamples(prefix: string)
    ensures IsHomePage(prefix + "index.html")
    ensures IsHomePage(prefix + "/Portfolio/")
    ensures IsHomePage("/")
    ensures !IsHomePage("/Portfolio")
    ensures !IsHomePage("/about.html")
    ensures !IsHomePage("")
  {
    IsHomePageIff(prefix + "index.html");
    IsHomePageIff(prefix + "/Portfolio/");
    assert "/Portfolio"[|"/Portfolio"| - |"index.html"|..] != "index.html";
    assert "/about.html"[|"/about.html"| - |"index.html"|..] != "index.html";
  }

  /** The `style.display` the back button is given for a path. */
  function BackButtonDisplay(path: string): (d: string)
    ensures d == "none" <==> IsHomePage(path)
    ensures d == "block" <==> !IsHomePage(path)
  {
    if IsHomePage(path) then "none" else "block"
  }

  /** The back button element; only its inline display is modelled. */
  class BackButton {
    var display: string

    constructor ()
      ensures display == ""
    {
      display := "";
    }
  }

  /** The back-button part of the load handler; a page without the button
      is left as it is. */
  method ShowBackButtonFor(button: BackButton?, path: string)
    modifies button
    ensures button != null ==> button.display == BackButtonDisplay(path)
  {
    var isHomePage := IsHomePage(path);
    if button != null {
      button.display := if isHomePage then "none" else "block";
    }
  }
}

/** The header shared by the pages: the nav link targets and the hamburger menu toggle. */
module Navigation {

  /** The labels of the nav list, in order. */
  const NavLabels: seq<string> := ["WHO WE ARE", "CAREERS", "NEWS"]

  /** The href chosen for a nav label: the who-we-are page and the careers page by their
      labels, the news page for every other label. */
  function NavHref(text: string): (href: string)
    ensures href == "who-we-are.html" <==> text == "WHO WE ARE"
    ensures href == "careers.html" <==> text == "CAREERS"
    ensures href == "news.html" <==> text != "WHO WE ARE" && text != "CAREERS"
  {
    if text == "WHO WE ARE" then "who-we-are.html"
    else if text == "CAREERS" then "careers.html"
    else "news.html"
  }

  /** The three links of the nav list lead to three different pages, and the third one,
      'NEWS', reaches the news page through the fallback branch. */
  lemma NavLinksDistinct()
    ensures forall i, j :: 0 <= i < j < |NavLabels| ==> NavHref(NavLabels[i]) != NavHref(NavLabels[j])
    ensures NavHref(NavLabels[2]) == "news.html"
  {
    assert NavLabels[0] != NavLabels[1] && NavLabels[0] != NavLabels[2] && NavLabels[1] != NavLabels[2];
  }

  /** The nav list's background on the promo page: never set, white, or transparent. */
  datatype Background = Unset | White | Transparent

  /** The hamburger button and the nav list it opens. */
  class Menu {
    var navActive: bool          // navLinks has class 'active'
    var burgerActive: bool       // hamburger has class 'active'
    var navBackground: Background

    ghost predicate Valid()
      reads this
    {
      navActive == burgerActive
    }

    /** Both elements are built without the 'active' class. */
    constructor ()
      ensures Valid() && !navActive && navBackground == Unset
    {
      navActive, burgerActive := false, false;
      navBackground := Unset;
    }

    /** The click listener of the studio pages: toggle 'active' on the list and on the button. */
    method Click()
      requires Valid()
      modifies this
      ensures Valid() && navActive == !old(navActive)
      ensures navBackground == old(navBackground)
    {
      navActive := !navActive;
      burgerActive := !burgerActive;
    }

    /** The click listener of the promo page: the same toggle, then the list is painted white
        while active and transparent otherwise. */
    method ClickAndPaint()
      requires Valid()
      modifies this
      ensures Valid() && navActive == !old(navActive)
      ensures navBackground == if navActive then White else Transparent
    {
      navActive := !navActive;
      burgerActive := !burgerActive;
      navBackground := if navActive then White else Transparent;
    }
  }

  /** Two clicks in a row restore both 'active' flags. */
  method ClickTwice(m: Menu)
    requires m.Valid()
    modifies m
    ensures m.Valid() && m.navActive == old(m.navActive) && m.burgerActive == old(m.burgerActive)
    ensures m.navBackground == old(m.navBackground)
  {
    m.Click();
    m.Click();
  }
}

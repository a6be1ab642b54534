/**
 * The navigation bar: a scroll-spy that names the section the page has
 * scrolled into, a "scrolled" style flag, the desktop link highlight and
 * the mobile menu that opens and closes.
 */
module Navbar {
  import opened SiteContent

  /** One row of the scroll-spy table: a section id and its scroll offset in pixels. */
  datatype Section = Section(id: string, offset: int)

  /** The scroll-spy table, in ascending offset order. */
  const Sections: seq<Section> := [
    Section("home", 0),
    Section("what-we-do", 500),
    Section("why-choose-us", 1200),
    Section("about", 1800)
  ]

  /** The section named when the page has not reached any row. */
  const DefaultSection: string := "home"

  /** The offset past which the bar takes its scrolled style. */
  const ScrolledThreshold: int := 50

  /** The offsets never decrease along the table. */
  predicate Ascending(s: seq<Section>)
  {
    forall i, j :: 0 <= i < j < |s| ==> s[i].offset <= s[j].offset
  }

  lemma SectionsAscending()
    ensures Ascending(Sections)
  {
  }

  /** The last row whose offset the scroll position has reached, or -1 when none has been reached. */
  function LastReached(s: seq<Section>, y: int): (r: int)
    ensures -1 <= r < |s|
    ensures r >= 0 ==> s[r].offset <= y
    ensures forall j :: r < j < |s| ==> s[j].offset > y
  {
    if s == [] then -1
    else if s[|s| - 1].offset <= y then |s| - 1
    else LastReached(s[..|s| - 1], y)
  }

  /** The id the scroll-spy names at scroll position `y`. */
  function ActiveId(s: seq<Section>, y: int): string
  {
    var r := LastReached(s, y);
    if r == -1 then DefaultSection else s[r].id
  }

  /**
   * `handleSectionChange`'s scan: walk the table in order and remember the
   * id of every row whose offset has been reached; the last one remembered wins.
   */
  method ScanActiveSection(y: int) returns (current: string)
    ensures current == ActiveId(Sections, y)
  {
    current := DefaultSection;
    var i := 0;
    while i < |Sections|
      invariant 0 <= i <= |Sections|
      invariant current == ActiveId(Sections[..i], y)
    {
      assert Sections[..i + 1][..i] == Sections[..i];
      if y >= Sections[i].offset {
        current := Sections[i].id;
      }
      i := i + 1;
    }
    assert Sections[..i] == Sections;
  }

  /** Scrolling further never moves the scroll-spy back to an earlier row. */
  lemma LastReachedMonotone(s: seq<Section>, y1: int, y2: int)
    requires y1 <= y2
    ensures LastReached(s, y1) <= LastReached(s, y2)
  {
  }

  /** On an ascending table the named row is the one whose band `[offset_i, offset_i+1)` holds `y`. */
  lemma BandSelectsRow(s: seq<Section>, i: nat, y: int)
    requires Ascending(s)
    requires i < |s|
    requires s[i].offset <= y
    requires i + 1 == |s| || y < s[i + 1].offset
    ensures LastReached(s, y) == i
  {
  }

  /** The site's bands: below 500 is home, then what-we-do, why-choose-us, and about from 1800 on. */
  lemma SiteBands(y: int)
    ensures y < 500 ==> ActiveId(Sections, y) == "home"
    ensures 500 <= y < 1200 ==> ActiveId(Sections, y) == "what-we-do"
    ensures 1200 <= y < 1800 ==> ActiveId(Sections, y) == "why-choose-us"
    ensures 1800 <= y ==> ActiveId(Sections, y) == "about"
  {
    SectionsAscending();
    if y < 0 {
      assert LastReached(Sections, y) == -1;
    } else if y < 500 {
      BandSelectsRow(Sections, 0, y);
    } else if y < 1200 {
      BandSelectsRow(Sections, 1, y);
    } else if y < 1800 {
      BandSelectsRow(Sections, 2, y);
    } else {
      BandSelectsRow(Sections, 3, y);
    }
  }

  /** The scroll-spy always names a row of the table. */
  lemma ActiveIdIsSection(y: int)
    ensures exists j :: 0 <= j < |Sections| && Sections[j].id == ActiveId(Sections, y)
  {
    SiteBands(y);
    if y < 500 {
      assert Sections[0].id == ActiveId(Sections, y);
    } else if y < 1200 {
      assert Sections[1].id == ActiveId(Sections, y);
    } else if y < 1800 {
      assert Sections[2].id == ActiveId(Sections, y);
    } else {
      assert Sections[3].id == ActiveId(Sections, y);
    }
  }

  /** `s.replace(c, "")` with a one-character string pattern. */
  function RemoveFirst(s: string, c: char): string
  {
    if s == [] then []
    else if s[0] == c then s[1..]
    else [s[0]] + RemoveFirst(s[1..], c)
  }

  /** Without a `c`, the replacement leaves the string as it is. */
  lemma {:induction false} RemoveFirstAbsent(s: string, c: char)
    requires c !in s
    ensures RemoveFirst(s, c) == s
  {
    if s != [] {
      assert c !in s[1..] by { assert forall k :: 0 <= k < |s[1..]| ==> s[1..][k] == s[k + 1]; }
      RemoveFirstAbsent(s[1..], c);
    }
  }

  /** The replacement drops the first `c` and nothing else. */
  lemma {:induction false} RemoveFirstDropsFirst(s: string, c: char, i: nat)
    requires i < |s| && s[i] == c && c !in s[..i]
    ensures RemoveFirst(s, c) == s[..i] + s[i + 1..]
  {
    if i > 0 {
      assert s[0] == s[..i][0];
      assert s[1..][..i - 1] == s[..i][1..];
      assert c !in s[1..][..i - 1];
      RemoveFirstDropsFirst(s[1..], c, i - 1);
      assert s[..i] == [s[0]] + s[1..][..i - 1];
      assert s[i + 1..] == s[1..][i..];
    }
  }

  /** A desktop link is highlighted exactly when the scroll-spy names its target. */
  predicate Highlighted(link: NavLink, activeSection: string)
  {
    activeSection == RemoveFirst(link.href, '#')
  }

  /** The site's link targets with the `#` removed. */
  lemma LinkTargets()
    ensures RemoveFirst("#home", '#') == "home" && RemoveFirst("#about", '#') == "about"
    ensures RemoveFirst("#services", '#') == "services" && RemoveFirst("#gallery", '#') == "gallery"
    ensures RemoveFirst("#clients", '#') == "clients"
  {
  }

  /**
   * Two of the scroll-spy's four sections have no link, and three of the
   * five links have no section: only Home and About Us are ever highlighted,
   * and at any scroll position at most one link is.
   */
  lemma OnlyHomeOrAboutHighlighted(y: int, k: nat)
    requires k < |NAV_LINKS|
    ensures Highlighted(NAV_LINKS[k], ActiveId(Sections, y)) ==> NAV_LINKS[k].linkLabel == "Home" || NAV_LINKS[k].linkLabel == "About Us"
    ensures Highlighted(NAV_LINKS[k], ActiveId(Sections, y)) <==> (k == 0 && y < 500) || (k == 1 && y >= 1800)
  {
    LinkTargets();
    SiteBands(y);
  }

  /** The links of the mobile menu: every link except Home. */
  function MobileLinks(links: seq<NavLink>): (r: seq<NavLink>)
    ensures forall l :: l in r <==> l in links && l.linkLabel != "Home"
  {
    if links == [] then []
    else if links[0].linkLabel != "Home" then [links[0]] + MobileLinks(links[1..])
    else MobileLinks(links[1..])
  }

  /** The filter keeps the original order: filtering a concatenation filters each part. */
  lemma {:induction false} MobileLinksKeepOrder(a: seq<NavLink>, b: seq<NavLink>)
    ensures MobileLinks(a + b) == MobileLinks(a) + MobileLinks(b)
  {
    if a == [] {
      assert a + b == b;
    } else {
      assert (a + b)[1..] == a[1..] + b;
      MobileLinksKeepOrder(a[1..], b);
    }
  }

  /** A list without a Home link passes through unchanged. */
  lemma {:induction false} MobileLinksWithoutHome(links: seq<NavLink>)
    requires forall i :: 0 <= i < |links| ==> links[i].linkLabel != "Home"
    ensures MobileLinks(links) == links
  {
    if links != [] {
      MobileLinksWithoutHome(links[1..]);
    }
  }

  /** A list that starts with Home and has no other Home link loses exactly its first entry. */
  lemma MobileLinksDropLeadingHome(links: seq<NavLink>)
    requires links != [] && links[0].linkLabel == "Home"
    requires forall i :: 1 <= i < |links| ==> links[i].linkLabel != "Home"
    ensures MobileLinks(links) == links[1..]
  {
    var rest := links[1..];
    assert forall i :: 0 <= i < |rest| ==> rest[i] == links[i + 1];
    MobileLinksWithoutHome(rest);
  }

  /** On the site: the mobile menu is the links after Home, in their order. */
  lemma SiteMobileLinks()
    ensures MobileLinks(NAV_LINKS) == NAV_LINKS[1..]
  {
    assert forall i :: 1 <= i < |NAV_LINKS| ==> |NAV_LINKS[i].linkLabel| != 4;
    MobileLinksDropLeadingHome(NAV_LINKS);
  }

  /** The bar's state. */
  class NavbarState {
    var isOpen: bool
    var scrolled: bool
    var activeSection: string

    /** The scroll-spy's value is always one of the table's ids. */
    ghost predicate Valid()
      reads this
    {
      exists j :: 0 <= j < |Sections| && Sections[j].id == activeSection
    }

    constructor ()
      ensures Valid()
      ensures !isOpen && !scrolled && activeSection == DefaultSection
    {
      isOpen := false;
      scrolled := false;
      activeSection := DefaultSection;
      new;
      assert Sections[0].id == activeSection;
    }

    /** A scroll event at position `y`: both scroll listeners run. */
    method OnScroll(y: int)
      requires Valid()
      modifies this
      ensures Valid()
      ensures scrolled <==> y > ScrolledThreshold
      ensures activeSection == ActiveId(Sections, y)
      ensures isOpen == old(isOpen)
    {
      scrolled := y > ScrolledThreshold;
      activeSection := ScanActiveSection(y);
      ActiveIdIsSection(y);
    }

    /** The menu button. */
    method ToggleMenu()
      requires Valid()
      modifies this
      ensures Valid()
      ensures isOpen == !old(isOpen)
      ensures scrolled == old(scrolled) && activeSection == old(activeSection)
    {
      isOpen := !isOpen;
    }

    /** Choosing a link (desktop, mobile or the mobile Home icon) or the mobile contact button closes the menu. */
    method LinkChosen()
      requires Valid()
      modifies this
      ensures Valid()
      ensures !isOpen
      ensures scrolled == old(scrolled) && activeSection == old(activeSection)
    {
      isOpen := false;
    }

    /** `Highlighted` for the bar's current scroll-spy value. */
    predicate LinkHighlighted(link: NavLink)
      reads this
    {
      Highlighted(link, activeSection)
    }
  }

  /** Scrolling down past every section and opening and using the menu. */
  method ScrollWalkthrough()
  {
    var nav := new NavbarState();
    LinkTargets();
    assert nav.LinkHighlighted(NAV_LINKS[0]);
    nav.OnScroll(40);
    SiteBands(40);
    assert !nav.scrolled && nav.activeSection == "home";
    nav.OnScroll(600);
    SiteBands(600);
    assert nav.scrolled && nav.activeSection == "what-we-do";
    assert !nav.LinkHighlighted(NAV_LINKS[0]) && !nav.LinkHighlighted(NAV_LINKS[1]);
    nav.OnScroll(2500);
    SiteBands(2500);
    assert nav.activeSection == "about" && nav.LinkHighlighted(NAV_LINKS[1]);
    nav.ToggleMenu();
    assert nav.isOpen;
    nav.LinkChosen();
    assert !nav.isOpen;
  }
}

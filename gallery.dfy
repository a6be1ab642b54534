/**
 * The gallery section: items shown three per page, page arrows and page
 * buttons, and a lightbox that steps through the images of the current page
 * with buttons or the arrow keys.
 */
module Gallery {
  import opened Wrappers
  import opened SiteContent

  const ItemsPerPage: nat := 3

  /** `Math.ceil(n / ItemsPerPage)`: the fewest pages of three that hold `n` items. */
  function TotalPages(n: nat): (t: nat)
    ensures n <= t * ItemsPerPage
    ensures t == 0 || (t - 1) * ItemsPerPage < n
  {
    (n + ItemsPerPage - 1) / ItemsPerPage
  }

  /** The site's five items fill two pages. */
  lemma GalleryHasTwoPages()
    ensures |GALLERY_ITEMS| == 5
    ensures TotalPages(|GALLERY_ITEMS|) == 2
  {
  }

  function Min(a: int, b: int): int
  {
    if a <= b then a else b
  }

  /**
   * `items.slice(page * 3, (page + 1) * 3)`: the items of one page. JavaScript's
   * `slice` clamps both ends to the length, so a page past the end is empty.
   */
  function PageItems<T>(items: seq<T>, page: nat): (r: seq<T>)
    ensures page < TotalPages(|items|) ==>
      && 1 <= |r| <= ItemsPerPage
      && |r| == Min(ItemsPerPage, |items| - page * ItemsPerPage)
      && r == items[page * ItemsPerPage .. page * ItemsPerPage + |r|]
    ensures page >= TotalPages(|items|) ==> r == []
  {
    var lo := Min(page * ItemsPerPage, |items|);
    var hi := Min((page + 1) * ItemsPerPage, |items|);
    items[lo..hi]
  }

  /** The first `k` pages laid end to end. */
  function FirstPages<T>(items: seq<T>, k: nat): seq<T>
  {
    if k == 0 then [] else FirstPages(items, k - 1) + PageItems(items, k - 1)
  }

  /** The first `k` pages are exactly the first `3k` items (or all of them). */
  lemma {:induction false} FirstPagesPrefix<T>(items: seq<T>, k: nat)
    ensures FirstPages(items, k) == items[..Min(k * ItemsPerPage, |items|)]
  {
    if k > 0 {
      FirstPagesPrefix(items, k - 1);
      var a := Min((k - 1) * ItemsPerPage, |items|);
      var b := Min(k * ItemsPerPage, |items|);
      assert PageItems(items, k - 1) == items[a..b];
      assert items[..a] + items[a..b] == items[..b];
    }
  }

  /** The pages partition the items: in order, each item on exactly one page, none left over. */
  lemma PagesPartitionItems<T>(items: seq<T>)
    ensures FirstPages(items, TotalPages(|items|)) == items
  {
    FirstPagesPrefix(items, TotalPages(|items|));
  }

  /** The item at position `i` of page `page` is item `page * 3 + i` of the whole list. */
  lemma PagePosition<T>(items: seq<T>, page: nat, i: nat)
    requires i < |PageItems(items, page)|
    ensures page * ItemsPerPage + i < |items|
    ensures PageItems(items, page)[i] == items[page * ItemsPerPage + i]
  {
  }

  // ----- cyclic stepping (images within a page, and pages) -----

  /** `(i + 1) % n`: the next position, wrapping from the last to the first. */
  function Succ(i: nat, n: nat): (r: nat)
    requires n > 0
    ensures r < n
  {
    (i + 1) % n
  }

  /** `i === 0 ? n - 1 : i - 1`: the previous position, wrapping from the first to the last. */
  function Pred(i: nat, n: nat): (r: nat)
    requires n > 0
    ensures i <= n ==> r < n
  {
    if i == 0 then n - 1 else i - 1
  }

  /** Stepping forward then back, or back then forward, returns to an in-range position. */
  lemma SuccPredInverse(i: nat, n: nat)
    requires i < n
    ensures Pred(Succ(i, n), n) == i
    ensures Succ(Pred(i, n), n) == i
  {
    SuccPredSteps(i, n);
    SuccPredSteps(Pred(i, n), n);
  }

  /** The steps wrap at the ends and move by one elsewhere. */
  lemma SuccPredSteps(i: nat, n: nat)
    requires i < n
    ensures Succ(i, n) == (if i == n - 1 then 0 else i + 1)
    ensures Pred(i, n) == (if i == 0 then n - 1 else i - 1)
  {
  }

  // ----- the grid click and the lightbox -----

  /** The index a grid click stores, as written: the item's position in the whole list. */
  function GridSelection(page: nat, i: nat): nat
  {
    page * ItemsPerPage + i
  }

  /** The item the lightbox reads: position `index` of the current page, if there is one. */
  function LightboxItem<T>(items: seq<T>, page: nat, index: nat): Option<T>
  {
    if index < |PageItems(items, page)| then Some(PageItems(items, page)[index]) else None
  }

  /**
   * As written, the stored index lies on the page that the lightbox reads
   * only on the first page: from page 1 on, any click yields an index past
   * the page's end, so the lightbox has no item to show.
   */
  lemma GridSelectionInRangeIffFirstPage<T>(items: seq<T>, page: nat, i: nat)
    requires i < |PageItems(items, page)|
    ensures LightboxItem(items, page, GridSelection(page, i)).Some? <==> page == 0
  {
  }

  /** On the site's data: the first item of page 2 stores index 3, and that page holds only two items. */
  lemma SecondPageClickShowsNothing()
    ensures |PageItems(GALLERY_ITEMS, 1)| == 2
    ensures GridSelection(1, 0) == 3
    ensures LightboxItem(GALLERY_ITEMS, 1, GridSelection(1, 0)) == None
  {
  }

  /** The index the click evidently means: card `i`'s position inside the page the lightbox reads, whatever the page. */
  function LocalGridSelection(i: nat): nat
  {
    i
  }

  /** With the page position stored, the lightbox shows exactly the item clicked, on every page. */
  lemma LocalSelectionShowsClickedItem<T>(items: seq<T>, page: nat, i: nat)
    requires i < |PageItems(items, page)|
    ensures LightboxItem(items, page, LocalGridSelection(i)) == Some(PageItems(items, page)[i])
    ensures LightboxItem(items, page, LocalGridSelection(i)) == Some(items[GridSelection(page, i)])
  {
    PagePosition(items, page, i);
  }

  /** The keys the lightbox listens to; any other key is `OtherKey`. */
  datatype Key = Escape | ArrowLeft | ArrowRight | OtherKey

  /** The gallery component's state over the site's items. */
  class GalleryState {
    var lightboxOpen: bool
    var selectedIndex: nat
    var currentPage: nat

    /** The current page is one of the pages. */
    ghost predicate Valid()
      reads this
    {
      currentPage < TotalPages(|GALLERY_ITEMS|)
    }

    /** `displayItems`: the items of the current page. */
    function DisplayItems(): seq<GalleryItem>
      reads this
    {
      PageItems(GALLERY_ITEMS, currentPage)
    }

    /** The item the lightbox shows, or none when the stored index is past the page's end. */
    function Shown(): Option<GalleryItem>
      reads this
    {
      LightboxItem(GALLERY_ITEMS, currentPage, selectedIndex)
    }

    constructor ()
      ensures Valid()
      ensures !lightboxOpen && selectedIndex == 0 && currentPage == 0
    {
      lightboxOpen := false;
      selectedIndex := 0;
      currentPage := 0;
    }

    /** The lightbox's next button: one step forward cyclically within the page. */
    method NextImage()
      requires Valid()
      modifies this
      ensures Valid()
      ensures selectedIndex == Succ(old(selectedIndex), |DisplayItems()|)
      ensures selectedIndex < |DisplayItems()|
      ensures lightboxOpen == old(lightboxOpen) && currentPage == old(currentPage)
    {
      selectedIndex := Succ(selectedIndex, |DisplayItems()|);
    }

    /** The lightbox's previous button: one step back cyclically within the page. */
    method PreviousImage()
      requires Valid()
      modifies this
      ensures Valid()
      ensures selectedIndex == Pred(old(selectedIndex), |DisplayItems()|)
      ensures old(selectedIndex) < |DisplayItems()| ==> selectedIndex < |DisplayItems()|
      ensures lightboxOpen == old(lightboxOpen) && currentPage == old(currentPage)
    {
      selectedIndex := Pred(selectedIndex, |DisplayItems()|);
    }

    /** The right page arrow. */
    method NextPage()
      requires Valid()
      modifies this
      ensures Valid()
      ensures currentPage == Succ(old(currentPage), TotalPages(|GALLERY_ITEMS|))
      ensures lightboxOpen == old(lightboxOpen) && selectedIndex == old(selectedIndex)
    {
      currentPage := Succ(currentPage, TotalPages(|GALLERY_ITEMS|));
    }

    /** The left page arrow. */
    method PreviousPage()
      requires Valid()
      modifies this
      ensures Valid()
      ensures currentPage == Pred(old(currentPage), TotalPages(|GALLERY_ITEMS|))
      ensures lightboxOpen == old(lightboxOpen) && selectedIndex == old(selectedIndex)
    {
      currentPage := Pred(currentPage, TotalPages(|GALLERY_ITEMS|));
    }

    /** Page button `page` (one button per page is rendered). */
    method PageClick(page: nat)
      requires Valid()
      requires page < TotalPages(|GALLERY_ITEMS|)
      modifies this
      ensures Valid()
      ensures currentPage == page
      ensures lightboxOpen == old(lightboxOpen) && selectedIndex == old(selectedIndex)
    {
      currentPage := page;
    }

    /** A click on grid card `i` of the current page, as written: stores the position in the whole list. */
    method GridClick(i: nat)
      requires Valid()
      requires i < |DisplayItems()|
      modifies this
      ensures Valid()
      ensures lightboxOpen && selectedIndex == GridSelection(currentPage, i)
      ensures currentPage == old(currentPage)
      ensures Shown().Some? <==> currentPage == 0
    {
      selectedIndex := currentPage * ItemsPerPage + i;
      lightboxOpen := true;
      GridSelectionInRangeIffFirstPage(GALLERY_ITEMS, currentPage, i);
    }

    /** The lightbox's close button. */
    method Close()
      requires Valid()
      modifies this
      ensures Valid()
      ensures !lightboxOpen
      ensures selectedIndex == old(selectedIndex) && currentPage == old(currentPage)
    {
      lightboxOpen := false;
    }

    /** A key press: ignored while the lightbox is closed; Escape closes it, the arrows step. */
    method KeyDown(key: Key)
      requires Valid()
      modifies this
      ensures Valid()
      ensures currentPage == old(currentPage)
      ensures !old(lightboxOpen) || key == OtherKey ==>
        lightboxOpen == old(lightboxOpen) && selectedIndex == old(selectedIndex)
      ensures old(lightboxOpen) && key == Escape ==> !lightboxOpen && selectedIndex == old(selectedIndex)
      ensures old(lightboxOpen) && key == ArrowLeft ==>
        lightboxOpen && selectedIndex == Pred(old(selectedIndex), |DisplayItems()|)
      ensures old(lightboxOpen) && key == ArrowRight ==>
        lightboxOpen && selectedIndex == Succ(old(selectedIndex), |DisplayItems()|)
    {
      if !lightboxOpen {
        return;
      }
      match key
      case Escape => Close();
      case ArrowLeft => PreviousImage();
      case ArrowRight => NextImage();
      case OtherKey =>
    }
  }

  /** Browsing: page 2 via the arrow, back via the button; a click there opens a lightbox with no item. */
  method BrowseWalkthrough()
  {
    var g := new GalleryState();
    GalleryHasTwoPages();
    g.GridClick(2);
    assert g.Shown() == Some(GALLERY_ITEMS[2]);
    g.KeyDown(ArrowRight);
    assert g.selectedIndex == 0;
    g.KeyDown(ArrowLeft);
    assert g.selectedIndex == 2;
    g.KeyDown(Escape);
    assert !g.lightboxOpen;
    g.KeyDown(ArrowRight);
    assert g.selectedIndex == 2;
    g.NextPage();
    assert g.currentPage == 1 && |g.DisplayItems()| == 2;
    g.GridClick(0);
    assert g.selectedIndex == 3 && g.Shown() == None;
    g.NextPage();
    assert g.currentPage == 0;
    g.PreviousPage();
    g.PageClick(0);
    assert g.currentPage == 0;
  }
}

/**
 * The offerings accordion: one card per service, at most one expanded at a
 * time, each card showing the icon its `icon` key names.
 */
module Services {
  import opened Wrappers
  import opened SiteContent

  /** The icon components the page imports. */
  datatype Icon = StethoscopeIcon | CheckCircleIcon

  /** `iconMap`: icon key to component. */
  const IconMap: map<string, Icon> := map["Stethoscope" := StethoscopeIcon, "CheckCircle" := CheckCircleIcon]

  /** `iconMap[service.icon]`: the component, or none (rendering an undefined component fails). */
  function IconFor(key: string): (r: Option<Icon>)
    ensures r.Some? <==> key == "Stethoscope" || key == "CheckCircle"
  {
    if key in IconMap then Some(IconMap[key]) else None
  }

  /** The number of offering cards. */
  const CardCount: nat := 3

  /** The icon keys the offerings use, one per card. */
  lemma ServiceIcons()
    ensures |SERVICES| == CardCount
    ensures SERVICES[0].icon == "Stethoscope" && SERVICES[1].icon == "CheckCircle" && SERVICES[2].icon == "Stethoscope"
  {
  }

  /** Every offering's icon key is in the map, so every card renders an icon. */
  lemma EveryServiceIconResolves(i: nat)
    requires i < |SERVICES|
    ensures SERVICES[i].icon in IconMap
    ensures IconFor(SERVICES[i].icon).Some?
  {
    ServiceIcons();
  }

  /** `NoCard`: the index meaning "no card expanded". */
  const NoCard: int := -1

  /** The click handler's new index: clicking the expanded card collapses it, any other card expands alone. */
  function Toggle(expanded: int, i: nat): (r: int)
    ensures r == NoCard <==> expanded == i
    ensures r != NoCard ==> r == i
  {
    if expanded == i then NoCard else i
  }

  /** Clicking the same card twice from a collapsed state gives back the collapsed state. */
  lemma ToggleTwice(expanded: int, i: nat)
    requires expanded != i
    ensures Toggle(Toggle(expanded, i), i) == NoCard
    ensures Toggle(Toggle(Toggle(expanded, i), i), i) == i
  {
  }

  /** The indexes below `n` whose card is expanded (`isExpanded`), in order. */
  function ExpandedCards(expanded: int, n: nat): (r: seq<nat>)
    ensures |r| <= 1
    ensures r == [] <==> !(0 <= expanded < n)
    ensures r != [] ==> r == [expanded]
  {
    if n == 0 then []
    else ExpandedCards(expanded, n - 1) + (if expanded == n - 1 then [n - 1] else [])
  }

  /** The accordion's state over the site's offerings. */
  class Accordion {
    var expandedIndex: int

    /** The index names a card or no card. */
    ghost predicate Valid()
      reads this
    {
      NoCard <= expandedIndex < CardCount
    }

    /** `isExpanded` for card `i`. */
    predicate IsExpanded(i: nat)
      reads this
    {
      expandedIndex == i
    }

    constructor ()
      ensures Valid()
      ensures expandedIndex == 0
      ensures ExpandedCards(expandedIndex, CardCount) == [0]
    {
      expandedIndex := 0;
    }

    /** A click on card `i`. */
    method Click(i: nat)
      requires Valid()
      requires i < CardCount
      modifies this
      ensures Valid()
      ensures expandedIndex == Toggle(old(expandedIndex), i)
      ensures |ExpandedCards(expandedIndex, CardCount)| <= 1
      ensures IsExpanded(i) <==> !old(IsExpanded(i))
    {
      expandedIndex := Toggle(expandedIndex, i);
    }
  }

  /** The first card starts open; clicking it closes it, clicking the third opens only that one. */
  method AccordionWalkthrough()
  {
    var a := new Accordion();
    assert a.IsExpanded(0);
    a.Click(0);
    assert a.expandedIndex == NoCard && ExpandedCards(a.expandedIndex, CardCount) == [];
    a.Click(2);
    assert a.IsExpanded(2) && !a.IsExpanded(0);
    a.Click(1);
    assert ExpandedCards(a.expandedIndex, CardCount) == [1];
  }
}

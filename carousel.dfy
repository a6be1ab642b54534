/**
 * The about-us carousel: four panels shown one at a time. The arrow button
 * locks the carousel (the loading overlay), and a timer later switches to
 * the next panel of the table and unlocks it.
 */
module AboutUsCarousel {

  /** The four panel ids. */
  datatype Panel = Leadership | WhatWeDo | WhyChooseUs | CoreValues

  /** One row of the component table: an id and its heading. */
  datatype Entry = Entry(id: Panel, heading: string)

  /** The component table, in display order. */
  const Components: seq<Entry> := [
    Entry(Leadership, "Our Leadership Team"),
    Entry(WhatWeDo, "What We Do"),
    Entry(WhyChooseUs, "Why Choose Us"),
    Entry(CoreValues, "Our Core Values")
  ]

  /** `findIndex`: the first row with this id, or -1. */
  function FindIndex(table: seq<Entry>, id: Panel): (r: int)
    ensures -1 <= r < |table|
    ensures r >= 0 ==> table[r].id == id && forall j :: 0 <= j < r ==> table[j].id != id
    ensures r == -1 ==> forall j :: 0 <= j < |table| ==> table[j].id != id
  {
    if table == [] then -1
    else if table[0].id == id then 0
    else
      var r := FindIndex(table[1..], id);
      assert forall j :: 1 <= j < |table| ==> table[j] == table[1..][j - 1];
      if r == -1 then -1 else r + 1
  }

  /** Every panel has a row, and row `i` is found at `i` (the ids are distinct). */
  lemma FindIndexOfRow(i: nat)
    requires i < |Components|
    ensures FindIndex(Components, Components[i].id) == i
  {
  }

  /** The panel the arrow switches to: the row after the current one, wrapping after the last. */
  function NextPanel(p: Panel): Panel
  {
    Components[(FindIndex(Components, p) + 1) % |Components|].id
  }

  /** Next is the following entry of the table, cyclically. */
  lemma NextIsFollowingEntry(i: nat)
    requires i < |Components|
    ensures NextPanel(Components[i].id) == Components[(i + 1) % |Components|].id
  {
    FindIndexOfRow(i);
  }

  /** The cycle on the site's table. */
  lemma NextPanelCycle()
    ensures NextPanel(Leadership) == WhatWeDo && NextPanel(WhatWeDo) == WhyChooseUs
    ensures NextPanel(WhyChooseUs) == CoreValues && NextPanel(CoreValues) == Leadership
  {
    NextOfRow(0, Leadership, WhatWeDo);
    NextOfRow(1, WhatWeDo, WhyChooseUs);
    NextOfRow(2, WhyChooseUs, CoreValues);
    NextOfRow(3, CoreValues, Leadership);
  }

  /** One step of the cycle, for the panels of rows `i` and `i + 1` (wrapping). */
  lemma NextOfRow(i: nat, p: Panel, q: Panel)
    requires i < |Components| && Components[i].id == p && Components[(i + 1) % |Components|].id == q
    ensures NextPanel(p) == q
  {
    NextIsFollowingEntry(i);
  }

  /** Four advances return to the starting panel, and fewer never do. */
  lemma FourAdvancesReturn(p: Panel)
    ensures NextPanel(NextPanel(NextPanel(NextPanel(p)))) == p
    ensures NextPanel(p) != p && NextPanel(NextPanel(p)) != p && NextPanel(NextPanel(NextPanel(p))) != p
  {
    NextPanelCycle();
  }

  /** `currentLabel`: the heading of the panel's row, or the empty string. */
  function CurrentLabel(p: Panel): (s: string)
    ensures FindIndex(Components, p) >= 0 ==> s == Components[FindIndex(Components, p)].heading
    ensures FindIndex(Components, p) == -1 ==> s == ""
  {
    var i := FindIndex(Components, p);
    if i == -1 then "" else Components[i].heading
  }

  /** Every panel has a heading: the lookup never falls back to the empty string. */
  lemma EveryPanelHasHeading(p: Panel)
    ensures FindIndex(Components, p) >= 0
    ensures CurrentLabel(p) != ""
  {
  }

  /** The panels that are not hidden, in table order. */
  function Shown(table: seq<Entry>, current: Panel): (r: seq<Panel>)
    ensures forall q :: q in r <==> (exists j :: 0 <= j < |table| && table[j].id == q) && q == current
  {
    if table == [] then []
    else
      var rest := Shown(table[1..], current);
      assert forall j :: 1 <= j < |table| ==> table[j] == table[1..][j - 1];
      if table[0].id == current then [table[0].id] + rest else rest
  }

  /** Exactly one panel is not hidden: the current one. */
  lemma ExactlyCurrentShown(current: Panel)
    ensures Shown(Components, current) == [current]
  {
  }

  /**
   * A panel receives a true `isVisible` exactly when the section has been
   * revealed and the panel is the one shown, so at most one panel is
   * visible, and none before the reveal.
   */
  lemma VisiblePanel(c: Carousel, revealed: bool, p: Panel)
    ensures c.PanelVisible(p, revealed) <==> revealed && Shown(Components, c.current) == [p]
    ensures !revealed ==> !c.PanelVisible(p, revealed)
    ensures forall q :: c.PanelVisible(p, revealed) && c.PanelVisible(q, revealed) ==> p == q
  {
    ExactlyCurrentShown(c.current);
  }

  /** The carousel's state. */
  class Carousel {
    var current: Panel
    var isLoading: bool
    /** Switches scheduled and not yet applied: each timer's target, oldest first. */
    var pending: seq<Panel>

    /** The overlay is up only while some switch is scheduled. */
    ghost predicate Valid()
      reads this
    {
      isLoading ==> pending != []
    }

    /** With only the arrow in use, at most one switch is scheduled, exactly while loading. */
    predicate SingleSwitch()
      reads this
    {
      |pending| <= 1 && (isLoading <==> |pending| == 1)
    }

    /** `isVisible` passed to panel `p`: the section has been revealed and `p` is current. */
    predicate PanelVisible(p: Panel, revealed: bool)
      reads this
    {
      revealed && current == p
    }

    constructor ()
      ensures Valid() && SingleSwitch()
      ensures current == Leadership && !isLoading && pending == []
    {
      current := Leadership;
      isLoading := false;
      pending := [];
    }

    /**
     * The arrow button. It is disabled while loading; otherwise it raises
     * the overlay and schedules the switch to the panel after the one
     * current at the press.
     */
    method NextPressed()
      requires Valid()
      modifies this
      ensures Valid()
      ensures old(isLoading) ==> current == old(current) && isLoading && pending == old(pending)
      ensures !old(isLoading) ==> current == old(current) && isLoading && pending == old(pending) + [NextPanel(old(current))]
      ensures old(SingleSwitch()) ==> SingleSwitch()
    {
      if isLoading {
        return;
      }
      isLoading := true;
      pending := pending + [NextPanel(current)];
    }

    /** `handleComponentClick(id)`: raises the overlay and schedules the switch to exactly `id` (no guard). */
    method ComponentClick(id: Panel)
      requires Valid()
      modifies this
      ensures Valid()
      ensures current == old(current) && isLoading && pending == old(pending) + [id]
    {
      isLoading := true;
      pending := pending + [id];
    }

    /** The oldest scheduled timer fires: its target becomes current and the overlay drops. */
    method TimerFires()
      requires Valid()
      requires pending != []
      modifies this
      ensures Valid()
      ensures current == old(pending)[0] && !isLoading && pending == old(pending)[1..]
      ensures old(SingleSwitch()) ==> SingleSwitch()
    {
      current := pending[0];
      pending := pending[1..];
      isLoading := false;
    }
  }

  /** Four presses, each followed by its timer, come back to the leadership panel; presses while loading are ignored. */
  method CycleWalkthrough()
  {
    var c := new Carousel();
    NextPanelCycle();
    c.NextPressed();
    c.NextPressed();
    assert c.pending == [WhatWeDo];
    c.TimerFires();
    assert c.current == WhatWeDo && CurrentLabel(c.current) == "What We Do";
    c.NextPressed();
    c.TimerFires();
    c.NextPressed();
    c.TimerFires();
    assert c.current == CoreValues;
    c.NextPressed();
    c.TimerFires();
    assert c.current == Leadership && !c.isLoading;
    c.ComponentClick(WhyChooseUs);
    c.TimerFires();
    assert c.current == WhyChooseUs;
  }
}

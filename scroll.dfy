/**
 * The scroll indicator (src/components/ScrollIndicator.tsx): a side navigation
 * over the page's sections that highlights the one last reported in view by
 * an intersection observer, appears once the page is scrolled past 30% of the
 * window height, and can be collapsed with a toggle button.
 */
module ScrollIndicator {

  datatype Section = Section(id: string, text: string)

  const Sections: seq<Section> := [
    Section("hero", "Inicio"),
    Section("characters", "Personajes"),
    Section("clips", "Clips"),
    Section("merch", "Merch"),
    Section("gallery", "Galer√≠a")
  ]

  /** The ids of the section elements that src/app/page.tsx renders. */
  const PageElementIds: set<string> := {"characters", "clips", "merch", "gallery"}

  /** What the observer reports about one observed element. */
  datatype Entry = Entry(targetId: string, isIntersecting: bool)

  /** The section ids in the list are pairwise distinct. */
  lemma SectionIdsDistinct()
    ensures forall i, j :: 0 <= i < j < |Sections| ==> Sections[i].id != Sections[j].id
  {
  }

  /** The mount effect observes, in list order, the sections whose element exists. */
  function ObservedIds(sections: seq<Section>, existing: set<string>): (ids: set<string>)
    ensures forall id :: id in ids <==> id in existing && exists i :: 0 <= i < |sections| && sections[i].id == id
  {
    if sections == [] then {}
    else
      var rest := ObservedIds(sections[1..], existing);
      assert forall i :: 0 <= i < |sections| - 1 ==> sections[1..][i] == sections[i + 1];
      if sections[0].id in existing then {sections[0].id} + rest else rest
  }

  /** On this page the "hero" entry has no element to observe, so it is never highlighted. */
  lemma HeroIsNotObserved()
    ensures "hero" !in ObservedIds(Sections, PageElementIds)
    ensures ObservedIds(Sections, PageElementIds) == PageElementIds
  {
    assert Sections[1].id == "characters" && Sections[2].id == "clips";
    assert Sections[3].id == "merch" && Sections[4].id == "gallery";
  }

  /**
   * `handleIntersection` as a function: walking the batch in order, every
   * intersecting entry overwrites the active section.
   */
  function AfterBatch(active: string, entries: seq<Entry>): (r: string)
    ensures r == active || exists i :: 0 <= i < |entries| && entries[i].isIntersecting && r == entries[i].targetId
    decreases |entries|
  {
    if entries == [] then active
    else
      var before := AfterBatch(active, entries[..|entries| - 1]);
      var last := entries[|entries| - 1];
      if last.isIntersecting then last.targetId else before
  }

  /** A batch without intersecting entries leaves the active section as it was; leaving never clears it. */
  lemma {:induction false} BatchWithoutIntersectionKeeps(active: string, entries: seq<Entry>)
    requires forall i :: 0 <= i < |entries| ==> !entries[i].isIntersecting
    ensures AfterBatch(active, entries) == active
    decreases |entries|
  {
    if entries != [] {
      BatchWithoutIntersectionKeeps(active, entries[..|entries| - 1]);
    }
  }

  /** A batch with an intersecting entry ends on the id of the last intersecting entry. */
  lemma {:induction false} BatchPicksLastIntersecting(active: string, entries: seq<Entry>, k: nat)
    requires k < |entries| && entries[k].isIntersecting
    requires forall i :: k < i < |entries| ==> !entries[i].isIntersecting
    ensures AfterBatch(active, entries) == entries[k].targetId
    decreases |entries|
  {
    if k < |entries| - 1 {
      BatchPicksLastIntersecting(active, entries[..|entries| - 1], k);
    }
  }

  /** The active section is always empty or an id some entry of the batch (or an earlier one) carried. */
  lemma {:induction false} BatchStaysObserved(active: string, entries: seq<Entry>, observed: set<string>)
    requires active == "" || active in observed
    requires forall i :: 0 <= i < |entries| ==> entries[i].targetId in observed
    ensures AfterBatch(active, entries) == "" || AfterBatch(active, entries) in observed
    decreases |entries|
  {
    if entries != [] {
      BatchStaysObserved(active, entries[..|entries| - 1], observed);
    }
  }

  /** An indicator item is highlighted when its id is the active section. */
  predicate IsActive(activeSection: string, section: Section)
  {
    activeSection == section.id
  }

  /** At most one item of the list is highlighted at any time. */
  lemma AtMostOneActive(activeSection: string, i: nat, j: nat)
    requires i < |Sections| && j < |Sections|
    requires IsActive(activeSection, Sections[i]) && IsActive(activeSection, Sections[j])
    ensures i == j
  {
    SectionIdsDistinct();
  }

  /** `isVisible` of the throttled scroll handler: scrolled past 30% of the window height. */
  predicate ScrolledFarEnough(scrollY: real, innerHeight: real)
  {
    scrollY > innerHeight * 0.3
  }

  /**
   * Scrolling further down never hides the indicator, and at the top of the
   * page it is hidden.
   */
  lemma ScrollThreshold(scrollY: real, further: real, innerHeight: real)
    requires innerHeight >= 0.0
    ensures ScrolledFarEnough(scrollY, innerHeight) && scrollY <= further ==> ScrolledFarEnough(further, innerHeight)
    ensures !ScrolledFarEnough(0.0, innerHeight)
  {
  }

  /** The stone picture of an item: `Math.floor(Math.random() * 3) + 1` for a draw in [0, 1). */
  function StoneNumber(draw: real): (n: int)
    requires 0.0 <= draw < 1.0
    ensures 1 <= n <= 3
  {
    (draw * 3.0).Floor + 1
  }

  class Indicators {
    var activeSection: string
    var isVisible: bool
    var isIndicatorVisible: bool
    /** The ids of the elements the observer watches. */
    var observed: set<string>

    ghost predicate Valid()
      reads this
    {
      activeSection == "" || activeSection in observed
    }

    /** The navigation is rendered. */
    predicate ShowsNav()
      reads this
    {
      isVisible && isIndicatorVisible
    }

    /** The toggle button is rendered. */
    predicate ShowsToggle()
      reads this
    {
      isVisible
    }

    /**
     * Mount: the initial state, then the mount effect runs the scroll handler
     * once and observes every listed section whose element exists.
     */
    constructor (existing: set<string>, scrollY: real, innerHeight: real)
      ensures Valid()
      ensures activeSection == "" && isIndicatorVisible
      ensures isVisible <==> ScrolledFarEnough(scrollY, innerHeight)
      ensures observed == ObservedIds(Sections, existing)
    {
      activeSection := "";
      isIndicatorVisible := true;
      isVisible := ScrolledFarEnough(scrollY, innerHeight);
      observed := ObservedIds(Sections, existing);
    }

    /** The observer callback: a loop over the batch, each intersecting entry overwriting the active section. */
    method HandleIntersection(entries: seq<Entry>)
      requires Valid()
      requires forall i :: 0 <= i < |entries| ==> entries[i].targetId in observed
      modifies this`activeSection
      ensures Valid()
      ensures activeSection == AfterBatch(old(activeSection), entries)
    {
      ghost var start := activeSection;
      var i := 0;
      while i < |entries|
        invariant 0 <= i <= |entries|
        invariant activeSection == AfterBatch(start, entries[..i])
      {
        assert entries[..i + 1][..i] == entries[..i];
        if entries[i].isIntersecting {
          activeSection := entries[i].targetId;
        }
        i := i + 1;
      }
      assert entries[..|entries|] == entries;
      BatchStaysObserved(start, entries, observed);
    }

    /** The (throttled) scroll handler. */
    method HandleScroll(scrollY: real, innerHeight: real)
      modifies this`isVisible
      ensures isVisible <==> ScrolledFarEnough(scrollY, innerHeight)
      ensures ShowsToggle() <==> ScrolledFarEnough(scrollY, innerHeight)
      ensures ShowsNav() <==> ScrolledFarEnough(scrollY, innerHeight) && isIndicatorVisible
    {
      isVisible := ScrolledFarEnough(scrollY, innerHeight);
    }

    /** The toggle button collapses or restores the navigation. */
    method ToggleIndicator()
      modifies this`isIndicatorVisible
      ensures isIndicatorVisible == !old(isIndicatorVisible)
      ensures ShowsToggle() == old(ShowsToggle())
      ensures ShowsNav() <==> ShowsToggle() && !old(isIndicatorVisible)
    {
      isIndicatorVisible := !isIndicatorVisible;
    }
  }
}

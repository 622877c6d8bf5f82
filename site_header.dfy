/** The fixed site header: the scroll rule with a "pointer near the top" override, and the
    navigation bar that highlights the active section. */
module SiteHeader {
  import opened Options
  import opened ScrollRule

  /** A pointer closer than this many pixels to the top of the viewport pins the header. */
  const MouseThreshold: int := 50

  /** One link of the navigation bar (`caption` is the source's `label`, a keyword here). */
  datatype NavItem = NavItem(id: string, caption: string)

  /** The navigation bar, in order. */
  const NavItems: seq<NavItem> := [
    NavItem("home", "Início"),
    NavItem("about", "Sobre"),
    NavItem("properties", "Propriedades"),
    NavItem("services", "Serviços"),
    NavItem("contact", "Contato")
  ]

  /** An item is drawn highlighted exactly when its id is the active section. */
  predicate IsHighlighted(activeSection: string, item: NavItem)
  {
    activeSection == item.id
  }

  /** No two items share an id. */
  predicate DistinctIds(items: seq<NavItem>)
  {
    forall i, j :: 0 <= i < j < |items| ==> items[i].id != items[j].id
  }

  /** How many items of the bar are drawn highlighted. */
  function HighlightCount(activeSection: string, items: seq<NavItem>): (n: nat)
    ensures n <= |items|
    ensures n == 0 <==> forall i :: 0 <= i < |items| ==> !IsHighlighted(activeSection, items[i])
    ensures DistinctIds(items) ==> n <= 1
  {
    if items == [] then 0
    else (if IsHighlighted(activeSection, items[0]) then 1 else 0) + HighlightCount(activeSection, items[1..])
  }

  /** With distinct ids, choosing an item's id as the active section highlights that item
      and no other. */
  lemma OnlyChosenItemHighlighted(items: seq<NavItem>, i: int)
    requires DistinctIds(items) && 0 <= i < |items|
    ensures forall j :: 0 <= j < |items| ==> (IsHighlighted(items[i].id, items[j]) <==> j == i)
    ensures HighlightCount(items[i].id, items) == 1
  {
    assert IsHighlighted(items[i].id, items[i]);
  }

  /** The bar's ids are distinct, so at most one link is ever highlighted. */
  lemma AtMostOneHighlighted(activeSection: string)
    ensures DistinctIds(NavItems)
    ensures HighlightCount(activeSection, NavItems) <= 1
  {
  }

  /** The `Header` component: the active section it was given (or "home"), whether it is
      shown, and the two refs its listeners keep. */
  class Header {
    const activeSection: string
    var isVisible: bool
    var lastScrollY: int
    var mouseNearTop: bool

    /** While the pointer pins the header, the header is shown. */
    predicate Valid()
      reads this
    {
      mouseNearTop ==> isVisible
    }

    /** The optional `activeSection` prop defaults to "home" when it is not passed. */
    constructor (activeSectionProp: Option<string>)
      ensures activeSectionProp.None? ==> activeSection == "home"
      ensures activeSectionProp.Some? ==> activeSection == activeSectionProp.value
      ensures isVisible && lastScrollY == 0 && !mouseNearTop
      ensures Valid()
    {
      activeSection := if activeSectionProp.Some? then activeSectionProp.value else "home";
      isVisible, lastScrollY, mouseNearTop := true, 0, false;
    }

    /** `handleScroll`: ignored entirely while the pointer is near the top; otherwise the
        scroll rule decides visibility and the position is recorded. */
    method HandleScroll(scrollY: int)
      requires Valid()
      modifies this
      ensures Valid()
      ensures old(mouseNearTop) ==> isVisible == old(isVisible) && lastScrollY == old(lastScrollY)
      ensures !old(mouseNearTop) ==>
        isVisible == NextVisibility(scrollY, old(lastScrollY), old(isVisible)) && lastScrollY == scrollY
      ensures mouseNearTop == old(mouseNearTop)
    {
      if mouseNearTop {
        return;
      }
      var currentScrollY := scrollY;
      if currentScrollY > lastScrollY && currentScrollY > ScrollThreshold {
        isVisible := false;
      } else if currentScrollY < lastScrollY || currentScrollY <= ScrollThreshold {
        isVisible := true;
      }
      lastScrollY := currentScrollY;
    }

    /** `handleMouseMove`: a pointer near the top pins and shows the header; elsewhere the
        pin is released and the header hides when the page sits past the threshold and below
        the last recorded position. */
    method HandleMouseMove(clientY: int, scrollY: int)
      requires Valid()
      modifies this
      ensures Valid()
      ensures mouseNearTop == (clientY < MouseThreshold)
      ensures mouseNearTop ==> isVisible
      ensures !mouseNearTop ==> isVisible == AfterPointerLeaves(scrollY, old(lastScrollY), old(isVisible))
      ensures lastScrollY == old(lastScrollY)
    {
      if clientY < MouseThreshold {
        mouseNearTop := true;
        isVisible := true;
      } else {
        mouseNearTop := false;
        if scrollY > 50 && scrollY > lastScrollY {
          isVisible := false;
        }
      }
    }

    /** How many links of the bar this header draws highlighted. */
    function Highlighted(): (n: nat)
      reads this
      ensures n <= 1
      ensures n == 1 <==> exists i :: 0 <= i < |NavItems| && NavItems[i].id == activeSection
    {
      AtMostOneHighlighted(activeSection);
      HighlightCount(activeSection, NavItems)
    }
  }

  /** A header created without an `activeSection` highlights the "Início" link and only it. */
  lemma DefaultHighlightsHome(header: Header)
    requires header.activeSection == "home"
    ensures IsHighlighted(header.activeSection, NavItems[0])
    ensures forall j :: 1 <= j < |NavItems| ==> !IsHighlighted(header.activeSection, NavItems[j])
    ensures header.Highlighted() == 1
  {
    AtMostOneHighlighted(header.activeSection);
    OnlyChosenItemHighlighted(NavItems, 0);
  }
}

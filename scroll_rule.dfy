/** The scroll-direction visibility rule shared by the site header and the floating search
    widget: hide while scrolling down past a threshold, show when scrolling up or near the top. */
module ScrollRule {

  /** Scroll positions at or above this many pixels from the top always show the element. */
  const ScrollThreshold: int := 50

  /** Visibility after a scroll event that is not ignored, given the new position `current`,
      the last recorded position `last` and the visibility before the event. */
  function NextVisibility(current: int, last: int, visible: bool): (r: bool)
    ensures !r <==> current > ScrollThreshold && (current > last || (current == last && !visible))
    ensures current <= ScrollThreshold ==> r
    ensures current < last ==> r
  {
    if current > last && current > ScrollThreshold then false
    else if current < last || current <= ScrollThreshold then true
    else visible
  }

  /** Visibility after the pointer moves away from the edge that pins the element: it hides
      when the page is past the threshold and below the last recorded position, and is never
      shown by this event. */
  function AfterPointerLeaves(scrollY: int, last: int, visible: bool): (r: bool)
    ensures r ==> visible
    ensures !r <==> !visible || (scrollY > ScrollThreshold && scrollY > last)
  {
    if scrollY > ScrollThreshold && scrollY > last then false else visible
  }

  /** A second scroll event at the position just recorded changes nothing. */
  lemma RepeatedScrollIsIdempotent(current: int, last: int, visible: bool)
    ensures NextVisibility(current, current, NextVisibility(current, last, visible))
         == NextVisibility(current, last, visible)
  {
  }

  /** Scrolling down past the threshold and then back up to the top shows the element again,
      whatever happened before. */
  lemma DownThenUpShows(down: int, up: int, last: int, visible: bool)
    requires last < down && ScrollThreshold < down && up < down
    ensures !NextVisibility(down, last, visible)
    ensures NextVisibility(up, down, NextVisibility(down, last, visible))
  {
  }
}

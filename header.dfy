/**
 * The site header's show-on-scroll-up rule: the header hides while the page
 * scrolls down past the threshold and shows again when it scrolls up or
 * returns near the top. Scroll positions are reals; only comparisons are made.
 */
module Header {

  /** Positions below this always show the header. */
  const Threshold: real := 50.0

  class ScrollState {
    var isVisible: bool
    var lastScrollY: real

    /** The header is hidden only after a move down that ended past the threshold. */
    ghost predicate Valid()
      reads this
    {
      !isVisible ==> lastScrollY > Threshold
    }

    /** Mounted: visible, last position 0. */
    constructor ()
      ensures Valid()
      ensures isVisible && lastScrollY == 0.0
    {
      isVisible := true;
      lastScrollY := 0.0;
    }

    /**
     * `handleScroll` for a new position `y`: show when moving up or below the
     * threshold, hide when moving down and past it, otherwise keep the current
     * visibility; the position is remembered in every case.
     */
    method HandleScroll(y: real)
      requires Valid()
      modifies this
      ensures Valid()
      ensures y < old(lastScrollY) || y < Threshold ==> isVisible
      ensures y > old(lastScrollY) && y > Threshold ==> !isVisible
      ensures !(y < old(lastScrollY) || y < Threshold) && !(y > old(lastScrollY) && y > Threshold) ==>
                isVisible == old(isVisible)
      ensures lastScrollY == y
    {
      if y < lastScrollY || y < Threshold {
        isVisible := true;
      } else if y > lastScrollY && y > Threshold {
        isVisible := false;
      }
      lastScrollY := y;
    }
  }

  /**
   * From the top down to exactly 50 (visibility kept), on to 100 (hidden), a
   * repeated 100 (kept hidden), then up to 60 (shown).
   */
  method ScrollScenario() returns (atThreshold: bool, down: bool, still: bool, up: bool)
    ensures atThreshold && !down && !still && up
  {
    var h := new ScrollState();
    h.HandleScroll(50.0);
    atThreshold := h.isVisible;
    h.HandleScroll(100.0);
    down := h.isVisible;
    h.HandleScroll(100.0);
    still := h.isVisible;
    h.HandleScroll(60.0);
    up := h.isVisible;
  }
}

/**
 * The eligibility check a container passes before the effect is applied to it: every child
 * must fit in the viewport together with room for the animation and the padding.
 * Child heights are given (they are measured from the page).
 */
module Selection {
  import opened Wrappers
  import opened Parallax

  /** A child of this content height leaves room for the slide at both ends and the padding. */
  predicate ChildFits(cfg: Config, windowHeight: real, height: real)
  {
    height + cfg.maxOffset * 2.0 + cfg.padding * 2.0 <= windowHeight
  }

  predicate AllChildrenFit(cfg: Config, windowHeight: real, heights: seq<real>)
  {
    forall k :: 0 <= k < |heights| ==> ChildFits(cfg, windowHeight, heights[k])
  }

  /**
   * Scans the children in order and rejects the container at the first one that is too high;
   * `tooHigh` is that child's position (the one the script reports).
   */
  method IsValidSelection(cfg: Config, windowHeight: real, heights: seq<real>)
    returns (valid: bool, tooHigh: Option<nat>)
    ensures valid <==> AllChildrenFit(cfg, windowHeight, heights)
    ensures valid <==> tooHigh == None
    ensures tooHigh.Some? ==>
      && tooHigh.value < |heights|
      && !ChildFits(cfg, windowHeight, heights[tooHigh.value])
      && forall k :: 0 <= k < tooHigh.value ==> ChildFits(cfg, windowHeight, heights[k])
  {
    var animationSpace, totalPadding := cfg.maxOffset * 2.0, cfg.padding * 2.0;
    for i := 0 to |heights|
      invariant forall k :: 0 <= k < i ==> ChildFits(cfg, windowHeight, heights[k])
    {
      if heights[i] + animationSpace + totalPadding > windowHeight {
        return false, Some(i);
      }
    }
    return true, None;
  }
}

/**
 * The controller of one invocation: the per-container active and next indexes recorded at the
 * last frame, the list of containers currently in the viewport, and the per-frame update that
 * moves the blocks' classes and styles.
 */
module Controller {
  import opened Wrappers
  import opened Parallax
  import opened Selection
  import opened ArrayItems
  import opened Blocks

  /** `m[k]`, `None` standing for `undefined`. */
  function Get(m: map<int, int>, k: int): (r: Option<int>)
    ensures r.Some? <==> k in m
    ensures r.Some? ==> r.value == m[k]
  {
    if k in m then Some(m[k]) else None
  }

  /** How a container's visibility changes, given the list of containers seen in the viewport. */
  function ViewChangeOf(inView: bool, inViewBefore: seq<int>, containerIndex: int): (v: ViewChange)
    ensures v == OutOfView <==> !inView
    ensures v == StayedInView <==> inView && containerIndex in inViewBefore
  {
    if !inView then OutOfView
    else if containerIndex in inViewBefore then StayedInView
    else EnteredView
  }

  /** A block after the effect is taken off and put back: no class, pushed down by `maxOffset`. */
  function Remade(maxOffset: real): (b: Block)
    ensures !b.active && !b.next && !b.willChange
    ensures b.transform == Some(maxOffset) && b.opacity == None
  {
    WithStyle(Unstyled, Some(maxOffset), None)
  }

  class StickyParallax {
    const cfg: Config
    const windowHeight: real
    /** The active index recorded for each container at its last update. */
    var activeIndexes: map<int, int>
    /** The next index recorded for each container at its last update. */
    var nextIndexes: map<int, int>
    /** The containers that were in the viewport at their last update. */
    var activeContainerIndexes: seq<int>

    ghost predicate Valid()
      reads this
    {
      windowHeight > 0.0 && NoDuplicates(activeContainerIndexes)
    }

    /** The state of a fresh invocation: nothing recorded, no container in view. */
    constructor(cfg: Config, windowHeight: real)
      requires windowHeight > 0.0
      ensures Valid()
      ensures this.cfg == cfg && this.windowHeight == windowHeight
      ensures activeIndexes == map[] && nextIndexes == map[] && activeContainerIndexes == []
    {
      this.cfg := cfg;
      this.windowHeight := windowHeight;
      activeIndexes, nextIndexes, activeContainerIndexes := map[], map[], [];
    }

    /**
     * `updateBlocks`: one frame for the container numbered `containerIndex`, whose bounding
     * rectangle spans `top` to `bottom`. Records the container's visibility and its new indexes,
     * and updates every block as `BlockAfterUpdate` says.
     */
    method UpdateBlocks(blocks: array<Block>, containerIndex: int, top: real, bottom: real)
      requires Valid()
      modifies this, blocks
      ensures Valid()
      ensures var s := CalculateBlockSettings(cfg, top, bottom, windowHeight, blocks.Length);
        && activeIndexes == old(activeIndexes)[containerIndex := s.active]
        && nextIndexes == old(nextIndexes)[containerIndex := s.next]
      ensures activeContainerIndexes ==
        if !InViewport(top, bottom, windowHeight) then Without(old(activeContainerIndexes), containerIndex)
        else if containerIndex in old(activeContainerIndexes) then old(activeContainerIndexes)
        else old(activeContainerIndexes) + [containerIndex]
      ensures containerIndex in activeContainerIndexes <==> InViewport(top, bottom, windowHeight)
      ensures forall i :: 0 <= i < blocks.Length ==>
        blocks[i] == BlockAfterUpdate(old(blocks[i]), i,
          Get(old(activeIndexes), containerIndex), Get(old(nextIndexes), containerIndex),
          CalculateBlockSettings(cfg, top, bottom, windowHeight, blocks.Length),
          ViewChangeOf(InViewport(top, bottom, windowHeight), old(activeContainerIndexes), containerIndex))
      ensures Marks(old(blocks[..]), Get(old(activeIndexes), containerIndex), Get(old(nextIndexes), containerIndex))
        ==> Marks(blocks[..], Some(activeIndexes[containerIndex]), Some(nextIndexes[containerIndex]))
      ensures InViewport(top, bottom, windowHeight)
        && (containerIndex in old(activeContainerIndexes) ==>
              OthersHidden(old(blocks[..]), Get(old(activeIndexes), containerIndex)))
        ==> OthersHidden(blocks[..], Some(activeIndexes[containerIndex]))
    {
      var s := CalculateBlockSettings(cfg, top, bottom, windowHeight, blocks.Length);
      var prevActive, prevNext := Get(activeIndexes, containerIndex), Get(nextIndexes, containerIndex);
      ghost var view := ViewChangeOf(InViewport(top, bottom, windowHeight), activeContainerIndexes, containerIndex);
      ghost var before := blocks[..];

      if !InViewport(top, bottom, windowHeight) {
        WithoutNoDuplicates(activeContainerIndexes, containerIndex);
        activeContainerIndexes := RemoveItem(activeContainerIndexes, containerIndex);
        SetAllOpacity(blocks, 1.0);
      } else if containerIndex !in activeContainerIndexes {
        activeContainerIndexes := activeContainerIndexes + [containerIndex];
        SetAllOpacity(blocks, 0.0);
      }
      ghost var viewed := blocks[..];
      assert forall i :: 0 <= i < blocks.Length ==> viewed[i] == AfterViewChange(before[i], view);
      ApplyIndexChange(blocks, prevActive, prevNext, s);

      activeIndexes := activeIndexes[containerIndex := s.active];
      nextIndexes := nextIndexes[containerIndex := s.next];

      assert forall i :: 0 <= i < blocks.Length ==>
        blocks[..][i] == BlockAfterUpdate(before[i], i, prevActive, prevNext, s, view);
      if Marks(before, prevActive, prevNext) {
        UpdateKeepsAllMarks(before, blocks[..], prevActive, prevNext, s, view);
      }
      if view != OutOfView && (view == StayedInView ==> OthersHidden(before, prevActive)) {
        UpdateHidesAllOthers(before, blocks[..], prevActive, prevNext, s, view);
      }
    }

    /**
     * The corrected reset at the start of a (re)initialisation. Besides the in-view list it also
     * forgets the recorded indexes, so nothing is recorded and no container is in view.
     */
    method Reset()
      requires Valid()
      modifies this
      ensures Valid()
      ensures activeIndexes == map[] && nextIndexes == map[] && activeContainerIndexes == []
    {
      activeIndexes, nextIndexes, activeContainerIndexes := map[], map[], [];
    }

    /** The reset as the script performs it: only the list of containers in view is cleared. */
    method ResetAsWritten()
      requires Valid()
      modifies this
      ensures Valid()
      ensures activeIndexes == old(activeIndexes) && nextIndexes == old(nextIndexes)
      ensures activeContainerIndexes == []
    {
      activeContainerIndexes := [];
    }

    /**
     * One container's pass of the initialisation: take the effect off, check the child heights,
     * and, when they fit, put the effect back and run a first update under number `index`.
     */
    method InitContainer(blocks: array<Block>, heights: seq<real>, top: real, bottom: real, index: int)
      returns (valid: bool)
      requires Valid()
      requires |heights| == blocks.Length
      modifies this, blocks
      ensures Valid()
      ensures valid <==> AllChildrenFit(cfg, windowHeight, heights)
      ensures !valid ==>
        && (forall i :: 0 <= i < blocks.Length ==> blocks[i] == Unstyled)
        && activeIndexes == old(activeIndexes) && nextIndexes == old(nextIndexes)
        && activeContainerIndexes == old(activeContainerIndexes)
      ensures valid ==>
        var s := CalculateBlockSettings(cfg, top, bottom, windowHeight, blocks.Length);
        && activeIndexes == old(activeIndexes)[index := s.active]
        && nextIndexes == old(nextIndexes)[index := s.next]
        && (forall i :: 0 <= i < blocks.Length ==>
              blocks[i] == BlockAfterUpdate(Remade(cfg.maxOffset), i,
                Get(old(activeIndexes), index), Get(old(nextIndexes), index), s,
                ViewChangeOf(InViewport(top, bottom, windowHeight), old(activeContainerIndexes), index)))
      ensures valid ==>
        && activeContainerIndexes ==
             (if !InViewport(top, bottom, windowHeight) then Without(old(activeContainerIndexes), index)
              else if index in old(activeContainerIndexes) then old(activeContainerIndexes)
              else old(activeContainerIndexes) + [index])
        && (index in activeContainerIndexes <==> InViewport(top, bottom, windowHeight))
      ensures valid && index !in old(activeIndexes) && index !in old(nextIndexes) ==>
        Marks(blocks[..], Some(activeIndexes[index]), Some(nextIndexes[index]))
    {
      UnmakeBlocks(blocks);
      var tooHigh;
      valid, tooHigh := IsValidSelection(cfg, windowHeight, heights);
      if !valid {
        return;
      }
      MakeBlocks(blocks, cfg.maxOffset);
      assert Marks(blocks[..], None, None) by {
        forall i | 0 <= i < blocks.Length ensures MarkedAt(blocks[..][i], i, None, None) {
          UnstyledUnmarked(i);
        }
      }
      UpdateBlocks(blocks, index, top, bottom);
    }
  }

  /**
   * Re-initialising at an unchanged scroll position, as the script does it: the first pass marks
   * the second of three blocks active; the second pass takes every class off, finds the same
   * active index still recorded, and so never puts the class back.
   */
  method ReinitAsWrittenLosesActiveClass() returns (activeClass: bool)
    ensures !activeClass
  {
    var heights := [100.0, 100.0, 100.0];
    var p := new StickyParallax(Defaults, 800.0);
    var blocks := new Block[3](_ => Unstyled);
    p.ResetAsWritten();
    var valid := p.InitContainer(blocks, heights, -1200.0, 2000.0, 0);
    assert valid;
    p.ResetAsWritten();
    valid := p.InitContainer(blocks, heights, -1200.0, 2000.0, 0);
    assert valid;
    activeClass := blocks[1].active;
  }

  /** The same two passes with a reset that also forgets the indexes: the active block is marked. */
  method ReinitMarksActiveBlock() returns (activeClass: bool)
    ensures activeClass
  {
    var heights := [100.0, 100.0, 100.0];
    var p := new StickyParallax(Defaults, 800.0);
    var blocks := new Block[3](_ => Unstyled);
    p.Reset();
    var valid := p.InitContainer(blocks, heights, -1200.0, 2000.0, 0);
    assert valid;
    p.Reset();
    valid := p.InitContainer(blocks, heights, -1200.0, 2000.0, 0);
    assert valid;
    activeClass := blocks[1].active;
  }
}

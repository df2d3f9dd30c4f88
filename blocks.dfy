/**
 * The state the effect keeps on the blocks of one container: three marker classes
 * (active, next, will-change) and two inline styles (the vertical translation and the opacity).
 * A container's blocks are an array whose elements the script updates in place; an index
 * outside the array names no block, and writing to it changes nothing.
 */
module Blocks {
  import opened Wrappers
  import opened Parallax

  /** The marker classes: `sticky-block-active`, `sticky-block-next`, `sticky-block-will-change`. */
  datatype BlockClass = Active | Next | WillChange

  /** One block: its marker classes, and its `translateY` offset and opacity when set inline. */
  datatype Block = Block(active: bool, next: bool, willChange: bool,
                         transform: Option<real>, opacity: Option<real>)

  /** A block with no marker class and no inline style. */
  const Unstyled := Block(false, false, false, None, None)

  function HasClass(b: Block, cls: BlockClass): bool
  {
    match cls
    case Active => b.active
    case Next => b.next
    case WillChange => b.willChange
  }

  /** Adds (`state`) or removes the class `cls`. */
  function WithClass(b: Block, cls: BlockClass, state: bool): (r: Block)
    ensures HasClass(r, cls) == state
    ensures forall c :: c != cls ==> HasClass(r, c) == HasClass(b, c)
    ensures r.transform == b.transform && r.opacity == b.opacity
  {
    match cls
    case Active => b.(active := state)
    case Next => b.(next := state)
    case WillChange => b.(willChange := state)
  }

  /** Writes the styles that are given and leaves the others as they were. */
  function WithStyle(b: Block, offset: Option<real>, opacity: Option<real>): (r: Block)
    ensures forall c :: HasClass(r, c) == HasClass(b, c)
    ensures offset.Some? ==> r.transform == offset
    ensures offset.None? ==> r.transform == b.transform
    ensures opacity.Some? ==> r.opacity == opacity
    ensures opacity.None? ==> r.opacity == b.opacity
  {
    b.(transform := if offset.Some? then offset else b.transform,
       opacity := if opacity.Some? then opacity else b.opacity)
  }

  /** `blocks[index]`: the index when it names a block of the array, `None` (undefined) otherwise. */
  function BlockAt(index: Option<int>, length: int): (r: Option<int>)
    ensures r.Some? <==> index.Some? && 0 <= index.value < length
    ensures r.Some? ==> r == index
  {
    if index.Some? && 0 <= index.value < length then index else None
  }

  /** `setBlockClass`: toggles a class on the block at `index`, if there is one. */
  method SetBlockClass(blocks: array<Block>, index: Option<int>, cls: BlockClass, state: bool)
    modifies blocks
    ensures forall i :: 0 <= i < blocks.Length ==>
      blocks[i] == if index == Some(i) then WithClass(old(blocks[i]), cls, state) else old(blocks[i])
  {
    if index.Some? && 0 <= index.value < blocks.Length {
      blocks[index.value] := WithClass(blocks[index.value], cls, state);
    }
  }

  /** `setBlockStyle`: writes the given styles on the block at `index`, if there is one. */
  method SetBlockStyle(blocks: array<Block>, index: Option<int>, offset: Option<real>,
                       opacity: Option<real>)
    modifies blocks
    ensures forall i :: 0 <= i < blocks.Length ==>
      blocks[i] == if index == Some(i) then WithStyle(old(blocks[i]), offset, opacity) else old(blocks[i])
  {
    if index.Some? && 0 <= index.value < blocks.Length {
      blocks[index.value] := WithStyle(blocks[index.value], offset, opacity);
    }
  }

  /** Sets the same opacity on every block of the container. */
  method SetAllOpacity(blocks: array<Block>, opacity: real)
    modifies blocks
    ensures forall i :: 0 <= i < blocks.Length ==>
      blocks[i] == WithStyle(old(blocks[i]), None, Some(opacity))
  {
    for k := 0 to blocks.Length
      invariant forall i :: 0 <= i < k ==> blocks[i] == WithStyle(old(blocks[i]), None, Some(opacity))
      invariant forall i :: k <= i < blocks.Length ==> blocks[i] == old(blocks[i])
    {
      blocks[k] := WithStyle(blocks[k], None, Some(opacity));
    }
  }

  /** What taking the effect off a container does to its blocks: no marker class, no inline style. */
  method UnmakeBlocks(blocks: array<Block>)
    modifies blocks
    ensures forall i :: 0 <= i < blocks.Length ==> blocks[i] == Unstyled
  {
    for k := 0 to blocks.Length
      invariant forall i :: 0 <= i < k ==> blocks[i] == Unstyled
    {
      blocks[k] := Unstyled;
    }
  }

  /** What applying the effect does to the blocks: each is pushed down by `maxOffset`. */
  method MakeBlocks(blocks: array<Block>, maxOffset: real)
    modifies blocks
    ensures forall i :: 0 <= i < blocks.Length ==>
      blocks[i] == WithStyle(old(blocks[i]), Some(maxOffset), None)
  {
    for k := 0 to blocks.Length
      invariant forall i :: 0 <= i < k ==> blocks[i] == WithStyle(old(blocks[i]), Some(maxOffset), None)
      invariant forall i :: k <= i < blocks.Length ==> blocks[i] == old(blocks[i])
    {
      blocks[k] := WithStyle(blocks[k], Some(maxOffset), None);
    }
  }

  /** How the container's visibility changed in this frame. */
  datatype ViewChange =
    | OutOfView       // not in the viewport: every block is made fully opaque
    | EnteredView     // in the viewport and not in it before: every block is made transparent
    | StayedInView    // in the viewport, as before: nothing to reset

  /** Entering or leaving the viewport resets every block's opacity. */
  function AfterViewChange(b: Block, view: ViewChange): (r: Block)
    ensures forall c :: HasClass(r, c) == HasClass(b, c)
    ensures r.transform == b.transform
    ensures view == StayedInView ==> r == b
  {
    match view
    case OutOfView => WithStyle(b, None, Some(1.0))
    case EnteredView => WithStyle(b, None, Some(0.0))
    case StayedInView => b
  }

  /** A new active index moves the active class and hides the block that loses it. */
  function AfterActiveMove(b: Block, i: int, prevActive: Option<int>, active: int): (r: Block)
    ensures r.next == b.next && r.willChange == b.willChange && r.transform == b.transform
    ensures prevActive == Some(active) ==> r == b
  {
    if prevActive == Some(active) then b
    else if active == i then WithClass(b, Active, true)
    else if prevActive == Some(i) then WithStyle(WithClass(b, Active, false), None, Some(0.0))
    else b
  }

  /** A new next index moves the next class. */
  function AfterNextMove(b: Block, i: int, prevNext: Option<int>, next: int): (r: Block)
    ensures r.active == b.active && r.willChange == b.willChange
    ensures r.transform == b.transform && r.opacity == b.opacity
    ensures prevNext == Some(next) ==> r == b
  {
    if prevNext == Some(next) then b
    else if next == i then WithClass(b, Next, true)
    else if prevNext == Some(i) then WithClass(b, Next, false)
    else b
  }

  /**
   * When either index changed, will-change is taken off the previous blocks that are no longer
   * current and put on the current ones.
   */
  function AfterWillChangeMove(b: Block, i: int, prevActive: Option<int>, prevNext: Option<int>,
                               active: int, next: int): (r: Block)
    ensures r.active == b.active && r.next == b.next
    ensures r.transform == b.transform && r.opacity == b.opacity
    ensures prevActive == Some(active) && prevNext == Some(next) ==> r == b
  {
    if prevActive == Some(active) && prevNext == Some(next) then b
    else if i == active || i == next then WithClass(b, WillChange, true)
    else if prevActive == Some(i) || prevNext == Some(i) then WithClass(b, WillChange, false)
    else b
  }

  /** The active block gets this frame's offset and, when there is one, its opacity. */
  function AfterActiveStyle(b: Block, i: int, s: Settings): (r: Block)
    ensures forall c :: HasClass(r, c) == HasClass(b, c)
    ensures i != s.active ==> r == b
  {
    if s.active == i then WithStyle(b, Some(s.offset), s.opacity) else b
  }

  /** The active-class part of the update: only when the active index changed. */
  method MoveActiveClass(blocks: array<Block>, prevActive: Option<int>, active: int)
    modifies blocks
    ensures forall i :: 0 <= i < blocks.Length ==>
      blocks[i] == AfterActiveMove(old(blocks[i]), i, prevActive, active)
  {
    if prevActive != Some(active) {
      SetBlockClass(blocks, prevActive, Active, false);
      SetBlockStyle(blocks, prevActive, None, Some(0.0));
      SetBlockClass(blocks, Some(active), Active, true);
    }
  }

  /** The next-class part of the update: only when the next index changed. */
  method MoveNextClass(blocks: array<Block>, prevNext: Option<int>, next: int)
    modifies blocks
    ensures forall i :: 0 <= i < blocks.Length ==>
      blocks[i] == AfterNextMove(old(blocks[i]), i, prevNext, next)
  {
    if prevNext != Some(next) {
      SetBlockClass(blocks, prevNext, Next, false);
      SetBlockClass(blocks, Some(next), Next, true);
    }
  }

  /**
   * The will-change part of the update. Blocks are compared as the script compares them, as
   * elements: an index outside the array names no block, and two such indexes compare equal.
   */
  method MoveWillChange(blocks: array<Block>, prevActive: Option<int>, prevNext: Option<int>,
                        active: int, next: int)
    modifies blocks
    ensures forall i :: 0 <= i < blocks.Length ==>
      blocks[i] == AfterWillChangeMove(old(blocks[i]), i, prevActive, prevNext, active, next)
  {
    if prevActive != Some(active) || prevNext != Some(next) {
      var prevActiveBlock, prevNextBlock := BlockAt(prevActive, blocks.Length), BlockAt(prevNext, blocks.Length);
      var activeBlock, nextBlock := BlockAt(Some(active), blocks.Length), BlockAt(Some(next), blocks.Length);
      if prevNextBlock != activeBlock && prevNextBlock != nextBlock {
        SetBlockClass(blocks, prevNextBlock, WillChange, false);
      }
      if prevActiveBlock != activeBlock && prevActiveBlock != nextBlock {
        SetBlockClass(blocks, prevActiveBlock, WillChange, false);
      }
      SetBlockClass(blocks, activeBlock, WillChange, true);
      SetBlockClass(blocks, nextBlock, WillChange, true);
    }
  }

  /** The part of a frame that follows the indexes: classes move, the active block is styled. */
  function AfterIndexChange(b: Block, i: int, prevActive: Option<int>, prevNext: Option<int>,
                            s: Settings): (r: Block)
    ensures prevActive == Some(s.active) && prevNext == Some(s.next) && i != s.active ==> r == b
  {
    var b1 := AfterActiveMove(b, i, prevActive, s.active);
    var b2 := AfterNextMove(b1, i, prevNext, s.next);
    var b3 := AfterWillChangeMove(b2, i, prevActive, prevNext, s.active, s.next);
    AfterActiveStyle(b3, i, s)
  }

  /**
   * Block `i` after one frame of the update, given the indexes recorded for the previous frame
   * (`None` when none was recorded) and this frame's settings `s`.
   */
  function BlockAfterUpdate(b: Block, i: int, prevActive: Option<int>, prevNext: Option<int>,
                            s: Settings, view: ViewChange): (r: Block)
    ensures (view == StayedInView && prevActive == Some(s.active) && prevNext == Some(s.next)
             && i != s.active) ==> r == b
  {
    AfterIndexChange(AfterViewChange(b, view), i, prevActive, prevNext, s)
  }

  /** The class and style writes of one frame, after the opacity reset. */
  method ApplyIndexChange(blocks: array<Block>, prevActive: Option<int>, prevNext: Option<int>,
                          s: Settings)
    modifies blocks
    ensures forall i :: 0 <= i < blocks.Length ==>
      blocks[i] == AfterIndexChange(old(blocks[i]), i, prevActive, prevNext, s)
  {
    MoveActiveClass(blocks, prevActive, s.active);
    MoveNextClass(blocks, prevNext, s.next);
    MoveWillChange(blocks, prevActive, prevNext, s.active, s.next);
    SetBlockStyle(blocks, Some(s.active), Some(s.offset), s.opacity);
  }

  /**
   * Block `i` carries the active class exactly when it is the active block, the next class
   * exactly when it is the next block, and will-change exactly when it is one of the two.
   */
  predicate MarkedAt(b: Block, i: int, active: Option<int>, next: Option<int>)
  {
    && (b.active <==> active == Some(i))
    && (b.next <==> next == Some(i))
    && (b.willChange <==> active == Some(i) || next == Some(i))
  }

  predicate Marks(blocks: seq<Block>, active: Option<int>, next: Option<int>)
  {
    forall i :: 0 <= i < |blocks| ==> MarkedAt(blocks[i], i, active, next)
  }

  /** Every block but the active one is transparent. */
  predicate OthersHidden(blocks: seq<Block>, active: Option<int>)
  {
    forall i :: 0 <= i < |blocks| && active != Some(i) ==> blocks[i].opacity == Some(0.0)
  }

  /** A block with no classes is correctly marked when no index is recorded. */
  lemma UnstyledUnmarked(i: int)
    ensures MarkedAt(Unstyled, i, None, None)
  {
  }

  /** One frame moves the marker classes from the recorded indexes to the new ones. */
  lemma UpdateKeepsMarks(b: Block, i: int, prevActive: Option<int>, prevNext: Option<int>,
                         s: Settings, view: ViewChange)
    requires MarkedAt(b, i, prevActive, prevNext)
    ensures MarkedAt(BlockAfterUpdate(b, i, prevActive, prevNext, s, view), i, Some(s.active), Some(s.next))
  {
  }

  /**
   * If the recorded indexes are stale (the block lost its classes but the index is still
   * recorded), an unchanged index restores nothing: the active block stays unmarked.
   */
  lemma StaleIndexLeavesActiveUnmarked(b: Block, i: int, prevNext: Option<int>, s: Settings,
                                       view: ViewChange)
    requires !b.active && s.active == i
    ensures !BlockAfterUpdate(b, i, Some(i), prevNext, s, view).active
  {
  }

  /**
   * While the container is in the viewport, only the active block is visible: entering hides
   * every block, and a change of active block hides the previous one.
   */
  lemma UpdateHidesOthers(b: Block, i: int, prevActive: Option<int>, prevNext: Option<int>,
                          s: Settings, view: ViewChange)
    requires view != OutOfView
    requires view == StayedInView && prevActive != Some(i) ==> b.opacity == Some(0.0)
    requires i != s.active
    ensures BlockAfterUpdate(b, i, prevActive, prevNext, s, view).opacity == Some(0.0)
  {
  }

  /** Over a whole container: one frame keeps the classes marking exactly the recorded indexes. */
  lemma UpdateKeepsAllMarks(before: seq<Block>, after: seq<Block>, prevActive: Option<int>,
                            prevNext: Option<int>, s: Settings, view: ViewChange)
    requires |after| == |before|
    requires forall i :: 0 <= i < |before| ==>
      after[i] == BlockAfterUpdate(before[i], i, prevActive, prevNext, s, view)
    requires Marks(before, prevActive, prevNext)
    ensures Marks(after, Some(s.active), Some(s.next))
  {
    forall i | 0 <= i < |after| ensures MarkedAt(after[i], i, Some(s.active), Some(s.next)) {
      UpdateKeepsMarks(before[i], i, prevActive, prevNext, s, view);
    }
  }

  /** Over a whole container: in the viewport, one frame leaves only the active block visible. */
  lemma UpdateHidesAllOthers(before: seq<Block>, after: seq<Block>, prevActive: Option<int>,
                             prevNext: Option<int>, s: Settings, view: ViewChange)
    requires |after| == |before|
    requires forall i :: 0 <= i < |before| ==>
      after[i] == BlockAfterUpdate(before[i], i, prevActive, prevNext, s, view)
    requires view != OutOfView
    requires view == StayedInView ==> OthersHidden(before, prevActive)
    ensures OthersHidden(after, Some(s.active))
  {
  }

  /**
   * Only the active block is moved: it gets this frame's offset and, inside the scrolling
   * range, this frame's opacity; every other block keeps its translation.
   */
  lemma UpdateMovesOnlyActive(b: Block, i: int, prevActive: Option<int>, prevNext: Option<int>,
                              s: Settings, view: ViewChange)
    ensures i == s.active ==> BlockAfterUpdate(b, i, prevActive, prevNext, s, view).transform == Some(s.offset)
    ensures i == s.active && s.opacity.Some? ==>
      BlockAfterUpdate(b, i, prevActive, prevNext, s, view).opacity == s.opacity
    ensures i != s.active ==> BlockAfterUpdate(b, i, prevActive, prevNext, s, view).transform == b.transform
  {
  }
}

# Sticky parallax: a verified model of the per-frame logic

BIWS StickyParallax is a browser script. It pins one block of a container while the next block
slides in with a vertical offset and a fade, driven by scrolling. This project models the
logic under the DOM plumbing in `src/js/biws.stickyparallax-0.0.1.js`:

- the opacity rule (`calculateOpacity`);
- the per-frame settings (`calculateBlockSettings`): the active index, next index, offset and
  optional opacity, computed from the container's bounding rectangle and the viewport height;
- the eligibility check on child heights (`isValidSelection`);
- the removal helper (`arrayRemoveItem`);
- the per-frame bookkeeping (`updateBlocks`): the recorded `activeIndexes`/`nextIndexes`, the
  list `activeContainerIndexes`, and each block's marker classes and inline styles.

The modules:

- `Wrappers` holds `Option`, which stands for JavaScript's `undefined`.
- `JsMath` holds `Math.abs` and `Math.ceil`, and JavaScript's `%` on numbers (the remainder has
  the sign of the dividend). It is all over exact reals.
- `Parallax` holds the options (defaults 40 / 25 / 50), the opacity rule, the next-index case
  table and the settings.
- `Selection` holds the child-height check. It is a method with the source's early-return loop,
  proved equal to a `forall`.
- `ArrayItems` holds `arrayRemoveItem` as a loop. It is proved to compute `Without`, the list
  filtered of the item.
- `Blocks` holds the state of one block (three classes, two inline styles) in an array, the
  setters that ignore an index naming no block, and `BlockAfterUpdate`. That function gives a
  block's state after one frame.
- `Controller` holds the class `StickyParallax` with the recorded indexes and the in-view list.
  It also holds `UpdateBlocks`, the reset at the start of `init`, and one container's pass of
  `init`.

Some properties one might expect of the plugin do not hold of its code. The model follows the
code and states where it departs:

- One might expect the next index to stay in `[0, blockCount-1]`. With a single block the code
  yields 1, because `active === 0` is tested before `active === blocks.length - 1`. With no
  blocks it yields 0, 1 or -1. `NextIndex` keeps this, and `NextIndexSingleBlock` and
  `NextIndexNoBlocks` state it. The range property is proved for `blockCount >= 2`.
- One might expect the opacity to be 0 once `|offset| >= maxOffset`. The code returns 1 at
  `|offset| == maxOffset` when `opacityOffset >= maxOffset`, so `OpacityAtWindowEnds` requires
  `opacityOffset < maxOffset`.
- One might expect a second initialisation without scrolling to leave the blocks as the first
  one did. The code does not (see Findings).

## Model

| member | source | states |
|---|---|---|
| `JsMath.Abs` | src/js/biws.stickyparallax-0.0.1.js:138 | the result is non-negative and is `x` or `-x` |
| `JsMath.Ceil` | src/js/biws.stickyparallax-0.0.1.js:166 | `Math.ceil`: the result `c` is the integer with `c - 1 < x <= c` |
| `JsMath.Rem` | src/js/biws.stickyparallax-0.0.1.js:167 | JS `%` with a positive divisor: the remainder has the dividend's sign, lies in `[0, d)` or `(-d, 0]`, is no larger in magnitude than the dividend, and differs from it by `d` times the quotient truncated towards zero |
| `Parallax.Defaults` | src/js/biws.stickyparallax-0.0.1.js:11-13 | defines the default options: `maxOffset` 40, `opacityOffset` 25, `padding` 50 |
| `Parallax.CalculateOpacity` | src/js/biws.stickyparallax-0.0.1.js:137-151 | opacity lies in `[0, 1]`; it is 0 past `maxOffset`, 1 up to `opacityOffset` (within `maxOffset`), and below 1 inside the fade window; the divisor is positive wherever it is used |
| `Parallax.OpacityDependsOnMagnitude` | src/js/biws.stickyparallax-0.0.1.js:137-151 | offsets of equal magnitude get equal opacity |
| `Parallax.OpacityNonIncreasing` | src/js/biws.stickyparallax-0.0.1.js:137-151 | opacity never increases as `abs(offset)` grows |
| `Parallax.OpacityLinearInFadeWindow` | src/js/biws.stickyparallax-0.0.1.js:143-150 | inside the fade window, the opacity difference of two offsets is their magnitude difference over `maxOffset - opacityOffset` (a linear ramp) |
| `Parallax.OpacityAtWindowEnds` | src/js/biws.stickyparallax-0.0.1.js:139-150 | with `opacityOffset < maxOffset`, the opacity is 0 at `abs(offset) == maxOffset` and 1 at `abs(offset) == opacityOffset` (the ramp meets both plateaus) |
| `Parallax.OpacityExample` | src/js/biws.stickyparallax-0.0.1.js:11-12 | with the default options, offsets of 30 and -30 give opacity 2/3 |
| `Parallax.NextIndex` | src/js/biws.stickyparallax-0.0.1.js:170-180 | next always differs from active; next is adjacent to active for active in `[-1, blockCount]`; next is in `[0, blockCount-1]` once there are two blocks; next is 0 before the first block and the last block after the last; between the ends, the next block is the one above exactly when the offset is positive |
| `Parallax.NextIndexSingleBlock` | src/js/biws.stickyparallax-0.0.1.js:172-175 | with one block and active 0 the next index is 1, a block that does not exist |
| `Parallax.NextIndexNoBlocks` | src/js/biws.stickyparallax-0.0.1.js:157-180 | with no blocks the next index is 0 until the container's top reaches the viewport's top, 1 while less than one viewport height is scrolled, -1 while more is scrolled and the container still reaches into the viewport, and 1 again once the container is above the viewport |
| `Parallax.NoBlocksExamples` | src/js/biws.stickyparallax-0.0.1.js:157-180 | with the default options, window height 800 and no blocks, top -1700 and bottom 1300 give next -1, and top -3000 and bottom -10 give next 1 |
| `Parallax.CalculateBlockSettings` | src/js/biws.stickyparallax-0.0.1.js:152-186 | below the viewport: active -1, offset `maxOffset`, no opacity. Above it: active `blockCount`, offset `-maxOffset`, no opacity. Otherwise: the scrolled index and offset, with opacity given by the opacity rule, and the offset in `(-maxOffset, maxOffset]` when `maxOffset > 0`. Next follows the case table. No opacity means no block is active. |
| `Parallax.ScrolledIndex` | src/js/biws.stickyparallax-0.0.1.js:166 | the active index is at least -1, and the scrolled distance `abs(top)` lies in `(active * vh, (active + 1) * vh]` |
| `Parallax.ScrollOffset` | src/js/biws.stickyparallax-0.0.1.js:167 | for a container whose top has passed the viewport top, the offset lies in `(-maxOffset, maxOffset]` |
| `Parallax.ScrolledBlocks` | src/js/biws.stickyparallax-0.0.1.js:166 | `ceil(scrolled / vh) - 1` brackets the scrolled distance between consecutive multiples of the viewport height |
| `Parallax.InViewOffset` | src/js/biws.stickyparallax-0.0.1.js:167 | a remainder in `(-vh, 0]` maps to an offset in `(-maxOffset, maxOffset]` |
| `Parallax.SettingsExample` | src/js/biws.stickyparallax-0.0.1.js:152-186 | three blocks scrolled 1.5 viewport heights, default options: active 1, next 2, offset 0, opacity 1 |
| `Parallax.InViewport` | src/js/biws.stickyparallax-0.0.1.js:72-75 | defines `isInViewPort`: the container's top is above the viewport's bottom and its bottom below the viewport's top |
| `Selection.ChildFits` | src/js/biws.stickyparallax-0.0.1.js:77-92 | defines the height test: a child fits when its height plus twice `maxOffset` and twice `padding` is at most the window height |
| `Selection.IsValidSelection` | src/js/biws.stickyparallax-0.0.1.js:76-98 | accepted iff every child height plus `2 * maxOffset` plus `2 * padding` fits the viewport height; on rejection, the reported child is the first one that does not fit |
| `ArrayItems.Without` | src/js/biws.stickyparallax-0.0.1.js:49-54 | the filtered list holds no occurrence of the item and only elements of the input, and equals the input when the item is absent |
| `ArrayItems.IndexOf` | src/js/biws.stickyparallax-0.0.1.js:51 | the first position of the item, or -1 when it is absent |
| `ArrayItems.WithoutAppend` | src/js/biws.stickyparallax-0.0.1.js:49-54 | removal distributes over concatenation (the order of the kept elements is unchanged) |
| `ArrayItems.WithoutSplice` | src/js/biws.stickyparallax-0.0.1.js:51-52 | splicing out one occurrence does not change the final filtered list |
| `ArrayItems.WithoutMultiset` | src/js/biws.stickyparallax-0.0.1.js:49-54 | exactly the occurrences of the item are removed; every other element keeps its multiplicity |
| `ArrayItems.WithoutNoDuplicates` | src/js/biws.stickyparallax-0.0.1.js:234 | removing from a list without duplicates keeps it without duplicates |
| `ArrayItems.RemoveItem` | src/js/biws.stickyparallax-0.0.1.js:49-54 | the loop terminates, and its result is the input with every occurrence of the item dropped, the rest in order |
| `Blocks.WithClass` | src/js/biws.stickyparallax-0.0.1.js:192-196 | adds or removes exactly one class and leaves the other classes and the styles alone |
| `Blocks.WithStyle` | src/js/biws.stickyparallax-0.0.1.js:212-217 | writes only the styles that are given, and leaves the classes alone |
| `Blocks.BlockAt` | src/js/biws.stickyparallax-0.0.1.js:231 | `blocks[index]` is a block exactly when the index is defined and in range |
| `Blocks.SetBlockClass` | src/js/biws.stickyparallax-0.0.1.js:188-197 | only the block at the index changes, and a missing block changes nothing |
| `Blocks.SetBlockStyle` | src/js/biws.stickyparallax-0.0.1.js:207-218 | only the block at the index changes, and a missing block changes nothing |
| `Blocks.SetAllOpacity` | src/js/biws.stickyparallax-0.0.1.js:235-248 | every block gets the given opacity, and nothing else changes |
| `Blocks.UnmakeBlocks` | src/js/biws.stickyparallax-0.0.1.js:336-346 | every block loses its marker classes and its inline transform and opacity |
| `Blocks.MakeBlocks` | src/js/biws.stickyparallax-0.0.1.js:306-311 | every block is translated by `maxOffset`, and nothing else changes |
| `Blocks.MoveActiveClass` | src/js/biws.stickyparallax-0.0.1.js:250-260 | when the active index changed, the class moves and the previous active block is hidden; otherwise nothing changes |
| `Blocks.MoveNextClass` | src/js/biws.stickyparallax-0.0.1.js:261-268 | when the next index changed, the next class moves; otherwise nothing changes |
| `Blocks.MoveWillChange` | src/js/biws.stickyparallax-0.0.1.js:269-282 | the element comparisons of the source amount to: will-change is set on the current blocks and taken off the previous ones that are no longer current |
| `Blocks.ApplyIndexChange` | src/js/biws.stickyparallax-0.0.1.js:250-288 | the class moves and the active block's style write, in the source's order |
| `Blocks.AfterViewChange` | src/js/biws.stickyparallax-0.0.1.js:233-249 | defines a block after the in-view branch: only its opacity may change, and staying in view changes nothing |
| `Blocks.AfterActiveMove` | src/js/biws.stickyparallax-0.0.1.js:250-260 | defines a block after the active-class move: the next and will-change classes and the translation are kept, and an unchanged active index changes nothing |
| `Blocks.AfterNextMove` | src/js/biws.stickyparallax-0.0.1.js:261-268 | defines a block after the next-class move: only the next class may change, and an unchanged next index changes nothing |
| `Blocks.AfterWillChangeMove` | src/js/biws.stickyparallax-0.0.1.js:269-282 | defines a block after the will-change move: only the will-change class may change, and unchanged indexes change nothing |
| `Blocks.AfterActiveStyle` | src/js/biws.stickyparallax-0.0.1.js:284-288 | defines a block after the active block's style write: classes are kept, and any other block is untouched |
| `Blocks.AfterIndexChange` | src/js/biws.stickyparallax-0.0.1.js:250-288 | defines the four steps in the source's order; with unchanged indexes a block other than the active one is untouched |
| `Blocks.BlockAfterUpdate` | src/js/biws.stickyparallax-0.0.1.js:233-288 | defines a block after one frame; with the container staying in view and unchanged indexes, a block other than the active one is untouched |
| `Blocks.UnstyledUnmarked` | src/js/biws.stickyparallax-0.0.1.js:343-345 | a block without classes is correctly marked when no index is recorded |
| `Blocks.UpdateKeepsMarks` | src/js/biws.stickyparallax-0.0.1.js:250-282 | if block `i` carries the active / next / will-change classes exactly for the recorded indexes, after a frame it carries them exactly for the new ones (an index naming no block marks nothing) |
| `Blocks.UpdateKeepsAllMarks` | src/js/biws.stickyparallax-0.0.1.js:250-282 | the same for every block of a container |
| `Blocks.StaleIndexLeavesActiveUnmarked` | src/js/biws.stickyparallax-0.0.1.js:250 | when the recorded active index equals the new one, a block that lost its class does not get it back |
| `Blocks.UpdateHidesOthers` | src/js/biws.stickyparallax-0.0.1.js:241-258 | while in the viewport, every block other than the active one ends the frame with opacity 0 |
| `Blocks.UpdateHidesAllOthers` | src/js/biws.stickyparallax-0.0.1.js:241-258 | the same for every block of a container |
| `Blocks.UpdateMovesOnlyActive` | src/js/biws.stickyparallax-0.0.1.js:284-288 | only the active block's translation changes; it gets the frame's offset and, when present, the frame's opacity |
| `Controller.Get` | src/js/biws.stickyparallax-0.0.1.js:250-251 | reading a map gives a value exactly for recorded keys |
| `Controller.ViewChangeOf` | src/js/biws.stickyparallax-0.0.1.js:233-249 | out of view resets to opacity 1; in view, and not seen in view before, resets to 0; otherwise there is no reset |
| `Controller.Remade` | src/js/biws.stickyparallax-0.0.1.js:306-346 | a block taken off and put back has no class and is translated by `maxOffset` |
| `Controller.StickyParallax.constructor` | src/js/biws.stickyparallax-0.0.1.js:24-30 | nothing is recorded and no container is in view |
| `Controller.StickyParallax.UpdateBlocks` | src/js/biws.stickyparallax-0.0.1.js:228-292 | the recorded indexes become the frame's settings. The container is in the in-view list iff its rectangle meets the viewport, and the list never gains a duplicate. Every block becomes `BlockAfterUpdate` of its old state. The classes keep marking exactly the recorded blocks, and in view only the active block stays visible. |
| `Controller.StickyParallax.Reset` | src/js/biws.stickyparallax-0.0.1.js:352 | corrected reset: forgets the recorded indexes as well as the in-view list |
| `Controller.StickyParallax.ResetAsWritten` | src/js/biws.stickyparallax-0.0.1.js:352 | as written: clears the in-view list only; the recorded indexes survive |
| `Controller.StickyParallax.InitContainer` | src/js/biws.stickyparallax-0.0.1.js:357-368 | the effect is taken off; the container is kept iff its children fit; a kept container is put back and updated once, and is in the in-view list iff its rectangle meets the viewport; after a reset, its classes mark exactly the new active and next blocks |
| `Controller.ReinitAsWrittenLosesActiveClass` | src/js/biws.stickyparallax-0.0.1.js:351-368 | re-initialising twice at the same scroll position, as written, leaves the active block without its class |
| `Controller.ReinitMarksActiveBlock` | src/js/biws.stickyparallax-0.0.1.js:351-368 | with the corrected reset, the same two passes leave the active block marked |

## Findings

| source | as written | input that shows it | evidently intended | confidence | as-written member | corrected member |
|---|---|---|---|---|---|---|
| src/js/biws.stickyparallax-0.0.1.js:352 | `init` clears `activeContainerIndexes` but keeps `activeIndexes` and `nextIndexes`, while `unmakeStickyParallax` strips every block's classes. `updateBlocks` then sees unchanged indexes and restores no class. | default options, window height 800, one container of three 100px blocks with rect top -1200 and bottom 2000, initialised twice (as a resize that keeps the height does) | a re-initialisation gives the same classes as the first one; the active block keeps `sticky-block-active` | high; not executed | `Controller.StickyParallax.ResetAsWritten`, shown by `Controller.ReinitAsWrittenLosesActiveClass` | `Controller.StickyParallax.Reset`, proved by `Controller.ReinitMarksActiveBlock` and `Controller.StickyParallax.InitContainer` |

## Left out

- DOM queries and geometry are inputs, not computed: the container's `getBoundingClientRect` (top and bottom), the viewport height, and each child's `getElementHeight`. Both `calculateBlockSettings` and `isInViewPort` use the same rectangle.
- The viewport height must be positive (`windowHeight > 0`). A zero height would produce `Infinity`/`NaN` in the source, and those values are not modelled.
- Numbers are exact reals. IEEE rounding, `NaN` and infinities are not modelled.
- The event loop is not modelled: the `scroll`/`resize` listeners, `requestAnimationFrame`, the `tick` flag, and the resize handler's re-read of the viewport height.
- `init`'s loop over every matched container is not modelled. That includes its numbering of valid containers and `validContainers`. Only one container's pass is modelled (`InitContainer`).
- Argument checks and logging are not modelled: the missing selector, the empty match set, `isElement`, the `getComputedStyle` support check and every `console` call. `IsValidSelection` returns the position of the child the source reports.
- DOM restructuring and styling of the container are not modelled: `wrapContent`/`unwrapContent`/`isContentWrapped`, the container's class and `height`, and the zeroed paddings and margins. Only the block state the effect reads back is kept: the three marker classes, the `translateY` offset and the opacity, with the CSS strings abstracted to numbers.
- `RemoveItem`: the source splices the list in place. The model returns the new list, and `UpdateBlocks` stores it back into `activeContainerIndexes`, the list's only holder.

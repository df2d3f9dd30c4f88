/**
 * The per-frame geometry of the sticky parallax effect: the opacity rule, the next-block
 * tie-break and the settings computed from a container's bounding rectangle.
 * Lengths are CSS pixels, modelled as exact reals.
 */
module Parallax {
  import opened Wrappers
  import opened JsMath

  /** The options of one invocation: the largest translation, where the fade begins, and padding. */
  datatype Config = Config(maxOffset: real, opacityOffset: real, padding: real)

  /** The defaults of the invocation's option object. */
  const Defaults := Config(40.0, 25.0, 50.0)

  /**
   * The opacity of the active block for a given offset: opaque up to `opacityOffset`,
   * transparent past `maxOffset`, and a linear fade in between.
   */
  function CalculateOpacity(cfg: Config, offset: real): (r: real)
    ensures 0.0 <= r <= 1.0
    ensures Abs(offset) > cfg.maxOffset ==> r == 0.0
    ensures Abs(offset) <= cfg.maxOffset && Abs(offset) <= cfg.opacityOffset ==> r == 1.0
    ensures cfg.opacityOffset < Abs(offset) <= cfg.maxOffset ==> r < 1.0
  {
    var abs := Abs(offset);
    if abs > cfg.maxOffset then 0.0
    else
      var diff := abs - cfg.opacityOffset;
      if diff <= 0.0 then 1.0
      else
        // reached only when opacityOffset < abs <= maxOffset, so the factor is positive
        var factor := cfg.maxOffset - cfg.opacityOffset;
        assert 0.0 < diff <= factor;
        RatioInUnit(diff, factor);
        1.0 - diff / factor
  }

  lemma RatioInUnit(x: real, y: real)
    requires 0.0 < x <= y
    ensures 0.0 < x / y <= 1.0
  {
  }

  /** The opacity depends on the offset only through its magnitude. */
  lemma OpacityDependsOnMagnitude(cfg: Config, x: real, y: real)
    requires Abs(x) == Abs(y)
    ensures CalculateOpacity(cfg, x) == CalculateOpacity(cfg, y)
  {
  }

  /** The further a block is from its resting place, the more transparent it is. */
  lemma OpacityNonIncreasing(cfg: Config, x: real, y: real)
    requires Abs(x) <= Abs(y)
    ensures CalculateOpacity(cfg, y) <= CalculateOpacity(cfg, x)
  {
    var a, b := Abs(x), Abs(y);
    if b <= cfg.maxOffset && a > cfg.opacityOffset {
      var f := cfg.maxOffset - cfg.opacityOffset;
      assert f > 0.0;
      assert (b - cfg.opacityOffset) / f - (a - cfg.opacityOffset) / f == (b - a) / f;
      NonNegativeRatio(b - a, f);
    }
  }

  lemma NonNegativeRatio(x: real, y: real)
    requires x >= 0.0 && y > 0.0
    ensures x / y >= 0.0
  {
  }

  /**
   * Within the fade window the opacity falls by the same amount for every pixel of offset:
   * the slope is `1 / (maxOffset - opacityOffset)`.
   */
  lemma OpacityLinearInFadeWindow(cfg: Config, x: real, y: real)
    requires cfg.opacityOffset < Abs(x) <= cfg.maxOffset
    requires cfg.opacityOffset < Abs(y) <= cfg.maxOffset
    ensures CalculateOpacity(cfg, x) - CalculateOpacity(cfg, y)
         == (Abs(y) - Abs(x)) / (cfg.maxOffset - cfg.opacityOffset)
  {
  }

  /** When the fade window is not empty, the rule is continuous at both of its ends. */
  lemma OpacityAtWindowEnds(cfg: Config, x: real)
    requires cfg.opacityOffset < cfg.maxOffset
    ensures Abs(x) == cfg.maxOffset ==> CalculateOpacity(cfg, x) == 0.0
    ensures Abs(x) == cfg.opacityOffset ==> CalculateOpacity(cfg, x) == 1.0
  {
  }

  /** With the default options, an offset of 30 is two thirds opaque. */
  lemma OpacityExample()
    ensures CalculateOpacity(Defaults, 30.0) == 2.0 / 3.0
    ensures CalculateOpacity(Defaults, -30.0) == 2.0 / 3.0
  {
  }

  /** What one frame decides for one container; `opacity` is absent outside the scrolling range. */
  datatype Settings = Settings(active: int, next: int, offset: real, opacity: Option<real>)

  /**
   * The block that is prepared to take over from the active one. Before the first block it is
   * the first block, after the last one it is the last block, and in between it is a neighbour
   * of the active block, chosen by the direction of the offset.
   */
  function NextIndex(active: int, offset: real, blockCount: nat): (next: int)
    ensures next != active
    ensures -1 <= active <= blockCount ==> next == active - 1 || next == active + 1
    ensures blockCount >= 2 ==> 0 <= next < blockCount
    ensures active < 0 ==> next == 0
    ensures active >= blockCount && active > 0 ==> next == blockCount - 1
    ensures 0 < active < blockCount - 1 ==> (next < active <==> offset > 0.0)
  {
    if active < 0 then 0
    else if active == 0 then active + 1
    else if active == blockCount - 1 then active - 1
    else if active >= blockCount then blockCount - 1
    else if offset > 0.0 then active - 1
    else active + 1
  }

  /**
   * With a single block the rule names a second block that does not exist: the test for the
   * first block comes before the test for the last one.
   */
  lemma NextIndexSingleBlock(offset: real)
    ensures NextIndex(0, offset, 1) == 1
    ensures NextIndex(1, offset, 1) == 0
  {
  }

  /**
   * A container with no blocks passes the height check and is still updated. Its next index is
   * 0 until the container's top reaches the viewport's top, 1 while less than one viewport
   * height is scrolled, -1 while more is scrolled and the container still reaches into the
   * viewport, and 1 again once the container is above the viewport.
   */
  lemma {:induction false} NextIndexNoBlocks(cfg: Config, top: real, bottom: real, windowHeight: real)
    requires windowHeight > 0.0
    ensures top > 0.0 || (top == 0.0 && bottom >= 0.0) ==>
      CalculateBlockSettings(cfg, top, bottom, windowHeight, 0).next == 0
    ensures -windowHeight <= top < 0.0 && bottom >= 0.0 ==>
      CalculateBlockSettings(cfg, top, bottom, windowHeight, 0).next == 1
    ensures top < -windowHeight && bottom >= 0.0 ==>
      CalculateBlockSettings(cfg, top, bottom, windowHeight, 0).next == -1
    ensures top <= 0.0 && bottom < 0.0 ==>
      CalculateBlockSettings(cfg, top, bottom, windowHeight, 0).next == 1
  {
    if top <= 0.0 && bottom >= 0.0 {
      var active := ScrolledIndex(top, windowHeight);
      var scrolled := Abs(top);
      assert active as real * windowHeight < scrolled <= (active + 1) as real * windowHeight;
      if top == 0.0 {
        if active >= 0 {
          MulLeftMono(windowHeight, 0.0, active as real);
          assert false;
        }
      } else if -windowHeight <= top {
        if active >= 1 {
          MulLeftMono(windowHeight, 1.0, active as real);
          assert false;
        }
        if active <= -1 {
          MulLeftMono(windowHeight, (active + 1) as real, 0.0);
          assert false;
        }
      } else {
        if active <= 0 {
          MulLeftMono(windowHeight, (active + 1) as real, 1.0);
          assert false;
        }
      }
    }
  }

  /** Two zero-block containers: one reaching into the viewport, one above it. */
  lemma NoBlocksExamples()
    ensures CalculateBlockSettings(Defaults, -1700.0, 1300.0, 800.0, 0).next == -1
    ensures CalculateBlockSettings(Defaults, -3000.0, -10.0, 800.0, 0).next == 1
  {
  }

  /** The container's rectangle intersects the viewport. */
  predicate InViewport(top: real, bottom: real, windowHeight: real)
  {
    top < windowHeight && bottom > 0.0
  }

  /**
   * The settings of one container for one frame, from the top and bottom of its bounding
   * rectangle relative to the viewport. A container below the viewport has not started (active
   * index -1, blocks pushed down by `maxOffset`); one above it has finished (active index
   * `blockCount`, pushed up); otherwise every viewport height scrolled past is one block.
   */
  function CalculateBlockSettings(cfg: Config, top: real, bottom: real, windowHeight: real,
                                  blockCount: nat): (s: Settings)
    requires windowHeight > 0.0
    ensures top > 0.0 ==> s.active == -1 && s.offset == cfg.maxOffset && s.opacity == None
    ensures top <= 0.0 && bottom < 0.0 ==>
      s.active == blockCount && s.offset == -cfg.maxOffset && s.opacity == None
    ensures top <= 0.0 && bottom >= 0.0 ==>
      && s.active == ScrolledIndex(top, windowHeight) >= -1
      && s.offset == ScrollOffset(cfg, top, windowHeight)
      && s.opacity == Some(CalculateOpacity(cfg, s.offset))
    ensures top <= 0.0 && bottom >= 0.0 && cfg.maxOffset > 0.0 ==>
      -cfg.maxOffset < s.offset <= cfg.maxOffset
    ensures s.next == NextIndex(s.active, s.offset, blockCount)
    ensures s.opacity == None ==> !(0 <= s.active < blockCount)
  {
    if top > 0.0 then
      var active := -1;
      Settings(active, NextIndex(active, cfg.maxOffset, blockCount), cfg.maxOffset, None)
    else if bottom < 0.0 then
      var active := blockCount;
      Settings(active, NextIndex(active, -cfg.maxOffset, blockCount), -cfg.maxOffset, None)
    else
      var active := ScrolledIndex(top, windowHeight);
      var offset := ScrollOffset(cfg, top, windowHeight);
      Settings(active, NextIndex(active, offset, blockCount), offset, Some(CalculateOpacity(cfg, offset)))
  }

  /**
   * The active block inside the scrolling range: one less than the number of viewport heights
   * scrolled past, rounded up, so that the scrolled distance lies in the block's own stretch.
   */
  function ScrolledIndex(top: real, windowHeight: real): (active: int)
    requires windowHeight > 0.0
    ensures active >= -1
    ensures active as real * windowHeight < Abs(top) <= (active + 1) as real * windowHeight
  {
    var active := Ceil(Abs(top) / windowHeight) - 1;
    ScrolledBlocks(Abs(top), windowHeight, active);
    active
  }

  /**
   * The active block's offset inside the scrolling range: the part of the viewport height
   * scrolled into the current stretch, mapped linearly from `maxOffset` down towards `-maxOffset`.
   */
  function ScrollOffset(cfg: Config, top: real, windowHeight: real): (offset: real)
    requires windowHeight > 0.0
    ensures top <= 0.0 && cfg.maxOffset > 0.0 ==> -cfg.maxOffset < offset <= cfg.maxOffset
  {
    var rem := Rem(top, windowHeight);
    InViewOffset(cfg.maxOffset, rem, windowHeight);
    (rem / windowHeight * 2.0 * cfg.maxOffset) + cfg.maxOffset
  }

  /** The active index counts the whole viewport heights scrolled past. */
  lemma ScrolledBlocks(scrolled: real, windowHeight: real, active: int)
    requires scrolled >= 0.0 && windowHeight > 0.0
    requires active == Ceil(scrolled / windowHeight) - 1
    ensures active >= -1
    ensures active as real * windowHeight < scrolled <= (active + 1) as real * windowHeight
  {
    var x := scrolled / windowHeight;
    var c := (active + 1) as real;
    assert c - 1.0 < x <= c;
    assert scrolled == x * windowHeight;
    MulLeftStrict(windowHeight, c - 1.0, x);
    MulLeftMono(windowHeight, x, c);
    assert active as real == c - 1.0;
  }

  /** A remainder in `(-windowHeight, 0]` maps to an offset in `(-maxOffset, maxOffset]`. */
  lemma InViewOffset(maxOffset: real, rem: real, windowHeight: real)
    requires windowHeight > 0.0
    ensures -windowHeight < rem <= 0.0 && maxOffset > 0.0 ==>
      -maxOffset < (rem / windowHeight * 2.0 * maxOffset) + maxOffset <= maxOffset
  {
    if -windowHeight < rem <= 0.0 && maxOffset > 0.0 {
      var t := rem / windowHeight;
      assert rem == t * windowHeight;
      MulLeftStrict(windowHeight, -1.0, t);
      MulLeftMono(windowHeight, t, 0.0);
      assert -1.0 < t <= 0.0;
      MulLeftStrict(maxOffset, -2.0, t * 2.0);
      MulLeftMono(maxOffset, t * 2.0, 0.0);
    }
  }

  /**
   * A container with three blocks scrolled one and a half viewport heights past its top:
   * the second block is active, exactly at its resting place and fully opaque, and the third
   * is next.
   */
  lemma SettingsExample()
    ensures CalculateBlockSettings(Defaults, -1200.0, 2000.0, 800.0, 3)
         == Settings(1, 2, 0.0, Some(1.0))
  {
  }
}

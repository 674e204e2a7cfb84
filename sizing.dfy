/** The secondary-pane sizing function of the splitter layout
    (`getSecondaryPaneSize`) and the properties its callers rely on.

    Every size is a `real`: the host's numbers are IEEE doubles, but every
    value this function is asked about is an exact dyadic rational, and no
    rounding happens inside the computation. */
module Sizing {
  import opened Config

  /** Position of the pointer past the container's near edge along the active
      axis. With `offsetMouse` the pointer is taken to grip the splitter at its
      middle, so the split line lies half a splitter thickness before it. */
  function PointerOffset(vertical: bool, container: Rect, splitter: Rect, pos: Position, offsetMouse: bool): real {
    Coord(vertical, pos) - Origin(vertical, container)
      - (if offsetMouse then Extent(vertical, splitter) / 2.0 else 0.0)
  }

  /** The offset pulled back into `[0, free]`, where `free` is the container
      extent minus the splitter thickness (the room the two panes share). */
  function ClampOffset(offset: real, free: real): (r: real)
    ensures 0.0 <= free ==> 0.0 <= r <= free
    ensures 0.0 <= offset <= free ==> r == offset
  {
    if offset < 0.0 then 0.0
    else if offset > free then free
    else offset
  }

  /** Secondary size before the minimums: the pane after the splitter is the
      secondary one unless `primaryIndex` is exactly 1. */
  function RawSecondary(primaryIndex: int, offset: real, free: real): real {
    if primaryIndex == 1 then offset else free - offset
  }

  /** A length as a percentage of the container extent. */
  function ToPercent(x: real, total: real): real
    requires total != 0.0
  {
    x * 100.0 / total
  }

  /** The minimum-size policy, in whatever unit `secondary` and `free` are given.
      The primary pane implicitly gets `free - secondary`. A violated primary
      minimum is repaired first, and then the secondary minimum is not looked at,
      so the primary minimum wins whenever both cannot hold. */
  function ApplyMinimums(secondary: real, free: real, primaryMin: real, secondaryMin: real): (r: real)
    // the primary pane keeps its minimum whenever there is room for it
    ensures primaryMin <= free ==> primaryMin <= free - r
    // the secondary pane keeps its minimum whenever there is room for both
    ensures primaryMin + secondaryMin <= free ==> secondaryMin <= r
    // when only the primary minimum fits, the primary pane gets exactly that
    ensures primaryMin <= free < primaryMin + secondaryMin ==> r == free - primaryMin
    // a violated primary minimum that fits is met exactly
    ensures primaryMin <= free && free - secondary < primaryMin ==> r == free - primaryMin
    // a violated secondary minimum is met exactly when both minimums fit and the primary one holds
    ensures primaryMin + secondaryMin <= free && primaryMin <= free - secondary && secondary < secondaryMin
         ==> r == secondaryMin
    // when not even the primary minimum fits, the secondary pane collapses to 0
    ensures 0.0 <= secondary && free < primaryMin ==> r == 0.0
    // a split that meets both minimums is left alone
    ensures primaryMin <= free - secondary && secondaryMin <= secondary ==> r == secondary
    // a split inside the free space stays inside it
    ensures 0.0 <= secondary <= free && 0.0 <= primaryMin && 0.0 <= secondaryMin ==> 0.0 <= r <= free
  {
    var primary := free - secondary;
    if primary < primaryMin then
      if free - primaryMin > 0.0 then free - primaryMin else 0.0
    else if secondary < secondaryMin then
      if free - primaryMin < secondaryMin then free - primaryMin else secondaryMin
    else
      secondary
  }

  /** Percentage mode divides by the container extent along the active axis. */
  predicate Measurable(props: Props, container: Rect) {
    props.percentage ==> Extent(props.vertical, container) != 0.0
  }

  /** The room the two panes share: the container extent minus the splitter thickness. */
  function FreeRoom(props: Props, container: Rect, splitter: Rect): real {
    Extent(props.vertical, container) - Extent(props.vertical, splitter)
  }

  /** Secondary size in pixels for a pointer at `pos`, before the minimums. */
  function SplitSecondary(props: Props, container: Rect, splitter: Rect, pos: Position, offsetMouse: bool): real {
    var free := FreeRoom(props, container, splitter);
    RawSecondary(props.primaryIndex, ClampOffset(PointerOffset(props.vertical, container, splitter, pos, offsetMouse), free), free)
  }

  /** A pixel length in the configured unit. */
  function InUnit(props: Props, container: Rect, x: real): real
    requires Measurable(props, container)
  {
    if props.percentage then ToPercent(x, Extent(props.vertical, container)) else x
  }

  /** `getSecondaryPaneSize`: the secondary pane size, in pixels or in percent of
      the container extent, for a pointer at `pos`. */
  function GetSecondaryPaneSize(props: Props, container: Rect, splitter: Rect, pos: Position, offsetMouse: bool): (r: real)
    requires Measurable(props, container)
    // with the splitter inside the container and non-negative minimums, the size
    // never leaves the room the panes share, in the configured unit
    ensures SplitterFits(props, container, splitter) && NonNegativeMinimums(props)
         ==> 0.0 <= r <= InUnit(props, container, FreeRoom(props, container, splitter))
  {
    var split := SplitSecondary(props, container, splitter, pos, offsetMouse);
    var free := FreeRoom(props, container, splitter);
    assert SplitterFits(props, container, splitter)
        ==> 0.0 <= InUnit(props, container, split) <= InUnit(props, container, free) by {
      if SplitterFits(props, container, splitter) {
        SplitWithinRoom(props, container, splitter, pos, offsetMouse);
        InUnitMonotone(props, container, split, free);
      }
    }
    ApplyMinimums(InUnit(props, container, split), InUnit(props, container, free),
                  props.primaryMinSize, props.secondaryMinSize)
  }

  /** Before the minimums, the split lies in the room the panes share. */
  lemma SplitWithinRoom(props: Props, container: Rect, splitter: Rect, pos: Position, offsetMouse: bool)
    requires SplitterFits(props, container, splitter)
    ensures 0.0 <= SplitSecondary(props, container, splitter, pos, offsetMouse) <= FreeRoom(props, container, splitter)
  {
  }

  /** The splitter fits inside the container along the active axis. */
  predicate SplitterFits(props: Props, container: Rect, splitter: Rect) {
    0.0 <= Extent(props.vertical, splitter) <= Extent(props.vertical, container)
  }

  predicate NoMinimums(props: Props) {
    props.primaryMinSize == 0.0 && props.secondaryMinSize == 0.0
  }

  predicate NonNegativeMinimums(props: Props) {
    0.0 <= props.primaryMinSize && 0.0 <= props.secondaryMinSize
  }

  /** `pos` moved by `d` along the active axis. */
  function MoveAlong(vertical: bool, pos: Position, d: real): Position {
    if vertical then pos.(top := pos.top + d) else pos.(left := pos.left + d)
  }

  // ---------------------------------------------------------------------------
  // Properties of the clamp and of the minimum policy

  /** The clamp picks the point of `[0, free]` nearest to the offset. */
  lemma ClampIsNearest(offset: real, free: real, x: real)
    requires 0.0 <= x <= free
    ensures var r := ClampOffset(offset, free);
      (if r <= offset then offset - r else r - offset) <= (if x <= offset then offset - x else x - offset)
  {
  }

  /** Moving the raw split further into the secondary pane never shrinks it. */
  lemma ApplyMinimumsMonotone(a: real, b: real, free: real, primaryMin: real, secondaryMin: real)
    requires 0.0 <= a <= b
    ensures ApplyMinimums(a, free, primaryMin, secondaryMin) <= ApplyMinimums(b, free, primaryMin, secondaryMin)
  {
  }

  /** Without minimums, the policy commutes with a change of unit by a positive factor. */
  lemma ApplyMinimumsScales(secondary: real, free: real, k: real)
    requires 0.0 < k
    ensures ApplyMinimums(secondary * k, free * k, 0.0, 0.0) == ApplyMinimums(secondary, free, 0.0, 0.0) * k
  {
    assert free * k - secondary * k == (free - secondary) * k;
    SignScales(free - secondary, k);
    SignScales(secondary, k);
    SignScales(free, k);
  }

  lemma SignScales(x: real, k: real)
    requires 0.0 < k
    ensures x < 0.0 <==> x * k < 0.0
    ensures x > 0.0 <==> x * k > 0.0
  {
  }

  lemma PercentIsFactor(x: real, total: real)
    requires total != 0.0
    ensures ToPercent(x, total) == x * (100.0 / total)
  {
  }

  // ---------------------------------------------------------------------------
  // Properties of getSecondaryPaneSize

  /** With `offsetMouse` the result is the one for a pointer half a splitter
      thickness nearer the container's near edge. */
  lemma OffsetMouseCentresOnSplitter(props: Props, container: Rect, splitter: Rect, pos: Position)
    requires Measurable(props, container)
    ensures GetSecondaryPaneSize(props, container, splitter, pos, true)
         == GetSecondaryPaneSize(props, container, splitter,
              MoveAlong(props.vertical, pos, -Extent(props.vertical, splitter) / 2.0), false)
  {
  }

  /** Pixel mode, no minimums, the first pane primary: the secondary pane is the
      room after the split line, with the split line held inside the container. */
  lemma PixelFirstPanePrimary(props: Props, container: Rect, splitter: Rect, pos: Position, offsetMouse: bool)
    requires !props.percentage && props.primaryIndex != 1 && NoMinimums(props)
    requires SplitterFits(props, container, splitter)
    ensures var free := FreeRoom(props, container, splitter);
      var o := PointerOffset(props.vertical, container, splitter, pos, offsetMouse);
      var r := GetSecondaryPaneSize(props, container, splitter, pos, offsetMouse);
      (0.0 <= o <= free ==> r == free - o) && (o < 0.0 ==> r == free) && (free < o ==> r == 0.0)
  {
  }

  /** Pixel mode, no minimums, the second pane primary: the secondary pane is the
      room before the split line, with the split line held inside the container. */
  lemma PixelSecondPanePrimary(props: Props, container: Rect, splitter: Rect, pos: Position, offsetMouse: bool)
    requires !props.percentage && props.primaryIndex == 1 && NoMinimums(props)
    requires SplitterFits(props, container, splitter)
    ensures var free := FreeRoom(props, container, splitter);
      var o := PointerOffset(props.vertical, container, splitter, pos, offsetMouse);
      var r := GetSecondaryPaneSize(props, container, splitter, pos, offsetMouse);
      (0.0 <= o <= free ==> r == o) && (o < 0.0 ==> r == 0.0) && (free < o ==> r == free)
  {
  }

  /** Percentage mode returns the pixel-mode size as a percentage of the
      container extent, with no rounding. */
  lemma PercentageIsScaledPixels(props: Props, container: Rect, splitter: Rect, pos: Position, offsetMouse: bool)
    requires props.percentage && NoMinimums(props)
    requires 0.0 < Extent(props.vertical, container)
    ensures var pixels := props.(percentage := false);
      GetSecondaryPaneSize(props, container, splitter, pos, offsetMouse)
        == ToPercent(GetSecondaryPaneSize(pixels, container, splitter, pos, offsetMouse), Extent(props.vertical, container))
  {
    var pixels := props.(percentage := false);
    assert SplitSecondary(pixels, container, splitter, pos, offsetMouse) == SplitSecondary(props, container, splitter, pos, offsetMouse);
    PercentCommutesWithMinimums(SplitSecondary(props, container, splitter, pos, offsetMouse),
      FreeRoom(props, container, splitter), Extent(props.vertical, container));
  }

  /** Without minimums, converting to percent before or after the policy is the same. */
  lemma PercentCommutesWithMinimums(secondary: real, free: real, total: real)
    requires 0.0 < total
    ensures ApplyMinimums(ToPercent(secondary, total), ToPercent(free, total), 0.0, 0.0)
         == ToPercent(ApplyMinimums(secondary, free, 0.0, 0.0), total)
  {
    var k := 100.0 / total;
    var pixels := ApplyMinimums(secondary, free, 0.0, 0.0);
    PercentIsFactor(secondary, total);
    PercentIsFactor(free, total);
    PercentIsFactor(pixels, total);
    ApplyMinimumsScales(secondary, free, k);
    calc {
      ApplyMinimums(ToPercent(secondary, total), ToPercent(free, total), 0.0, 0.0);
      ApplyMinimums(secondary * k, free * k, 0.0, 0.0);
      pixels * k;
      ToPercent(pixels, total);
    }
  }

  /** Pixel mode with non-negative minimums: the result never leaves the room
      the two panes share; a violated minimum is raised to exactly that minimum;
      the primary minimum wins over the secondary one; and a primary minimum
      larger than that room collapses the secondary pane to 0. */
  lemma PixelMinimums(props: Props, container: Rect, splitter: Rect, pos: Position, offsetMouse: bool)
    requires !props.percentage && NonNegativeMinimums(props)
    requires SplitterFits(props, container, splitter)
    ensures var free := FreeRoom(props, container, splitter);
      var r := GetSecondaryPaneSize(props, container, splitter, pos, offsetMouse);
      var split := SplitSecondary(props, container, splitter, pos, offsetMouse);
      var pMin, sMin := props.primaryMinSize, props.secondaryMinSize;
      && 0.0 <= r <= free
      && (pMin <= free - split && sMin <= split ==> r == split)
      && (pMin <= free && free - split < pMin ==> r == free - pMin)
      && (pMin + sMin <= free && pMin <= free - split && split < sMin ==> r == sMin)
      && (pMin <= free ==> pMin <= free - r)
      && (pMin + sMin <= free ==> sMin <= r)
      && (pMin <= free < pMin + sMin ==> r == free - pMin)
      && (free < pMin ==> r == 0.0)
  {
  }

  /** Moving the pointer towards the far edge shrinks the secondary pane when it
      is the second pane, and grows it when it is the first. */
  lemma PointerMonotone(props: Props, container: Rect, splitter: Rect, p: Position, q: Position, offsetMouse: bool)
    requires Measurable(props, container) && SplitterFits(props, container, splitter)
    requires Coord(props.vertical, p) <= Coord(props.vertical, q)
    ensures var rp := GetSecondaryPaneSize(props, container, splitter, p, offsetMouse);
      var rq := GetSecondaryPaneSize(props, container, splitter, q, offsetMouse);
      if props.primaryIndex == 1 then rp <= rq else rq <= rp
  {
    var sp := SplitSecondary(props, container, splitter, p, offsetMouse);
    var sq := SplitSecondary(props, container, splitter, q, offsetMouse);
    var lo, hi := if props.primaryIndex == 1 then sp else sq, if props.primaryIndex == 1 then sq else sp;
    SplitSecondaryMonotone(props, container, splitter, p, q, offsetMouse);
    InUnitMonotone(props, container, lo, hi);
    ApplyMinimumsMonotone(InUnit(props, container, lo), InUnit(props, container, hi),
      InUnit(props, container, FreeRoom(props, container, splitter)), props.primaryMinSize, props.secondaryMinSize);
  }

  /** Before the minimums, the split is non-negative and moves with the pointer. */
  lemma SplitSecondaryMonotone(props: Props, container: Rect, splitter: Rect, p: Position, q: Position, offsetMouse: bool)
    requires SplitterFits(props, container, splitter)
    requires Coord(props.vertical, p) <= Coord(props.vertical, q)
    ensures var sp := SplitSecondary(props, container, splitter, p, offsetMouse);
      var sq := SplitSecondary(props, container, splitter, q, offsetMouse);
      0.0 <= sp && 0.0 <= sq && (if props.primaryIndex == 1 then sp <= sq else sq <= sp)
  {
  }

  lemma InUnitMonotone(props: Props, container: Rect, a: real, b: real)
    requires Measurable(props, container) && 0.0 <= Extent(props.vertical, container)
    requires 0.0 <= a <= b
    ensures 0.0 <= InUnit(props, container, a) <= InUnit(props, container, b)
  {
    if props.percentage {
      PercentMonotone(a, b, Extent(props.vertical, container));
    }
  }

  lemma PercentMonotone(a: real, b: real, total: real)
    requires 0.0 <= a <= b && 0.0 < total
    ensures 0.0 <= ToPercent(a, total) <= ToPercent(b, total)
  {
    PercentIsFactor(a, total);
    PercentIsFactor(b, total);
    var k := 100.0 / total;
    assert 0.0 < k;
    assert b * k - a * k == (b - a) * k;
  }

  /** The pointer that splits the shared room evenly: the start of the
      container plus half of what the splitter leaves free, on both axes. */
  function CentrePosition(container: Rect, splitter: Rect): Position {
    Position(container.left + (container.width - splitter.width) / 2.0,
             container.top + (container.height - splitter.height) / 2.0)
  }

  /** Half the room the panes share, in pixels. */
  function HalfRoom(props: Props, container: Rect, splitter: Rect): real {
    FreeRoom(props, container, splitter) / 2.0
  }

  /** At the centre pointer both panes get half of the shared room, in the
      configured unit, whichever pane is primary, as long as the minimums ask
      for no more than that half. */
  lemma EvenSplit(props: Props, container: Rect, splitter: Rect)
    requires Measurable(props, container) && SplitterFits(props, container, splitter)
    requires props.primaryMinSize <= InUnit(props, container, HalfRoom(props, container, splitter))
    requires props.secondaryMinSize <= InUnit(props, container, HalfRoom(props, container, splitter))
    ensures GetSecondaryPaneSize(props, container, splitter, CentrePosition(container, splitter), false)
         == InUnit(props, container, HalfRoom(props, container, splitter))
  {
    var free := FreeRoom(props, container, splitter);
    var half := HalfRoom(props, container, splitter);
    assert PointerOffset(props.vertical, container, splitter, CentrePosition(container, splitter), false) == half;
    assert SplitSecondary(props, container, splitter, CentrePosition(container, splitter), false) == half;
    assert InUnit(props, container, free) == InUnit(props, container, half) + InUnit(props, container, half) by {
      if props.percentage {
        var total := Extent(props.vertical, container);
        PercentIsFactor(free, total);
        PercentIsFactor(half, total);
        assert free * (100.0 / total) == half * (100.0 / total) + half * (100.0 / total);
      }
    }
  }
}

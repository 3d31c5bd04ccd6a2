/** The arithmetic the engine applies at each step, as functions: the clamp
    `setBoxArea` commits, the self-heal of `setAreaPosition`, the per-handle
    constraint check, the pixel-to-percent conversion, the aspect-ratio
    strategy and the move step, with the properties the frame promises. */
module Constraints {
  import opened Types
  import opened Geometry
  import opened PointDependencies
  import opened Resolver
  import opened InitialAreaPosition

  // ---------------------------------------------------------------------
  // setBoxArea

  /** The rectangle `setBoxArea(a)` commits. Left and top are clamped into
      the container for the candidate size, the size into
      [minimum, 100 - position]; a size that lands exactly on its minimum
      outside a move rolls its position back to the previous area's. */
  function BoxArea(a: Area, m: Sizes, prev: Area, moving: bool): (r: Area)
    ensures r.width >= m.width && r.height >= m.height
  {
    var l0 := Max(0.0, Min(a.left, 100.0 - a.width));
    var t0 := Max(0.0, Min(a.top, 100.0 - a.height));
    var w := Max(m.width, Min(a.width, 100.0 - l0));
    var h := Max(m.height, Min(a.height, 100.0 - t0));
    var l := if w == m.width && !moving then prev.left else l0;
    var t := if h == m.height && !moving then prev.top else t0;
    Area(t, l, w, h)
  }

  /** A candidate size between the minimum and 100 is kept, and, unless the
      minimum rollback applies, the position is the candidate's clamped into
      [0, 100 - size]. */
  lemma BoxAreaKeepsFittingSize(a: Area, m: Sizes, prev: Area, moving: bool)
    ensures m.width <= a.width <= 100.0 ==>
      && BoxArea(a, m, prev, moving).width == a.width
      && (a.width != m.width || moving ==>
            BoxArea(a, m, prev, moving).left == Max(0.0, Min(a.left, 100.0 - a.width)))
    ensures m.height <= a.height <= 100.0 ==>
      && BoxArea(a, m, prev, moving).height == a.height
      && (a.height != m.height || moving ==>
            BoxArea(a, m, prev, moving).top == Max(0.0, Min(a.top, 100.0 - a.height)))
  {
  }

  /** The rollback: outside a move, a committed size equal to the minimum
      takes the previous area's position; otherwise the position is the
      clamped candidate. */
  lemma BoxAreaRollback(a: Area, m: Sizes, prev: Area, moving: bool)
    ensures var r := BoxArea(a, m, prev, moving);
      r.left == if r.width == m.width && !moving then prev.left else Max(0.0, Min(a.left, 100.0 - a.width))
    ensures var r := BoxArea(a, m, prev, moving);
      r.top == if r.height == m.height && !moving then prev.top else Max(0.0, Min(a.top, 100.0 - a.height))
  {
  }

  /** The committed area lies in the container and has at least the minimum
      size, provided the previous area did (the rollback target) and, during
      a move, the candidate is at least the minimum. */
  lemma BoxAreaInBounds(a: Area, m: Sizes, prev: Area, moving: bool)
    requires AreaValid(prev, m)
    requires moving ==> a.width >= m.width && a.height >= m.height && m.width <= 100.0 && m.height <= 100.0
    ensures AreaValid(BoxArea(a, m, prev, moving), m)
  {
  }

  /** An axis whose candidate already fits (inside the container, at least
      the minimum) and whose previous position equals the candidate's comes
      out unchanged, whichever branch of the rollback applies. */
  lemma BoxAreaKeepsFittingAxes(a: Area, m: Sizes, prev: Area, moving: bool)
    ensures m.width <= a.width && 0.0 <= a.left && a.left + a.width <= 100.0 && prev.left == a.left ==>
      BoxArea(a, m, prev, moving).left == a.left && BoxArea(a, m, prev, moving).width == a.width
    ensures m.height <= a.height && 0.0 <= a.top && a.top + a.height <= 100.0 && prev.top == a.top ==>
      BoxArea(a, m, prev, moving).top == a.top && BoxArea(a, m, prev, moving).height == a.height
  {
  }

  /** Re-committing a valid area over itself changes nothing. */
  lemma BoxAreaFixedPoint(a: Area, m: Sizes, moving: bool)
    requires AreaValid(a, m)
    ensures BoxArea(a, m, a, moving) == a
  {
  }

  /** The default full-container area is a fixed point of the clamp whenever
      both minimum sizes are below 100. */
  lemma InitialAreaIsFixedPoint(m: Sizes, prev: Area, moving: bool)
    requires m.width < 100.0 && m.height < 100.0
    ensures BoxArea(InitialArea, m, prev, moving) == InitialArea
  {
  }

  // ---------------------------------------------------------------------
  // setAreaPosition

  /** The derived area is at or below a minimum, so it is re-committed. */
  predicate Heals(d: Area, m: Sizes) {
    d.width <= m.width || d.height <= m.height
  }

  /** The area `setAreaPosition` commits for handles `p` in state `s`: the
      derived area, or, when a size is at or below its minimum, that area
      with the minimum substituted and sent through `setBoxArea` with the
      snapshot of the area before the step as previous area. */
  function SettledArea(s: SelectionState, p: Points): (r: Area)
    requires Complete(p)
    ensures r.width >= s.minSizes.width && r.height >= s.minSizes.height
  {
    var d := Derive(p);
    var m := s.minSizes;
    if d.width <= m.width then BoxArea(d.(width := m.width), m, s.areaPosition, s.isMoving)
    else if d.height <= m.height then BoxArea(d.(height := m.height), m, s.areaPosition, s.isMoving)
    else d
  }

  /** The self-heal outside a move holds the position of the area from
      before the step on the axis that collapsed, at exactly the minimum
      size; without a heal the derived area is committed as it is. */
  lemma SettleHoldsPosition(s: SelectionState, p: Points)
    requires Complete(p) && !s.isMoving
    ensures var d, m, r := Derive(p), s.minSizes, SettledArea(s, p);
      && (d.width <= m.width ==> r.width == m.width && r.left == s.areaPosition.left)
      && (m.width < d.width && d.height <= m.height ==> r.height == m.height && r.top == s.areaPosition.top)
      && (!Heals(d, m) ==> r == d)
  {
  }

  /** An axis of the derived area that fits and sits where the area before
      the step sat keeps its position and length through the self-heal. */
  lemma SettledKeepsFittingAxes(s: SelectionState, p: Points)
    requires Complete(p)
    ensures var d, m, r := Derive(p), s.minSizes, SettledArea(s, p);
      m.width <= d.width && 0.0 <= d.left && d.left + d.width <= 100.0 && s.areaPosition.left == d.left ==>
        r.left == d.left && r.width == d.width
    ensures var d, m, r := Derive(p), s.minSizes, SettledArea(s, p);
      m.height <= d.height && 0.0 <= d.top && d.top + d.height <= 100.0 && s.areaPosition.top == d.top ==>
        r.top == d.top && r.height == d.height
  {
    var d, m := Derive(p), s.minSizes;
    if d.width <= m.width {
      BoxAreaKeepsFittingAxes(d.(width := m.width), m, s.areaPosition, s.isMoving);
    } else if d.height <= m.height {
      BoxAreaKeepsFittingAxes(d.(height := m.height), m, s.areaPosition, s.isMoving);
    }
  }

  // ---------------------------------------------------------------------
  // checkPointConstraints and the candidate of onResizing

  /** `checkPointConstraints`: dragging `h` to `c` must leave the side of
      area `a` that `h` controls at least the minimum long. */
  function CheckPointConstraints(h: Point, c: Position, a: Area, m: Sizes): bool {
    match h
    case NW => c.left <= a.left + a.width - m.width && c.top <= a.top + a.height - m.height
    case N  => c.top <= a.top + a.height - m.height
    case NE => c.left >= a.left + m.width && c.top <= a.top + a.height - m.height
    case E  => c.left >= a.left + m.width
    case SE => c.left >= a.left + m.width && c.top >= a.top + m.height
    case S  => c.top >= a.top + m.height
    case SW => c.left <= a.left + a.width - m.width && c.top >= a.top + m.height
    case W  => c.left <= a.left + a.width - m.width
  }

  predicate MovesX(h: Point) { MovesWest(h) || MovesEast(h) }
  predicate MovesY(h: Point) { MovesNorth(h) || MovesSouth(h) }

  /** The check accepts exactly the drags whose dragged rectangle keeps at
      least the minimum size on every axis the handle controls. */
  lemma ConstraintsMeanMinimumSize(h: Point, c: Position, a: Area, m: Sizes)
    ensures CheckPointConstraints(h, c, a, m) <==>
      (MovesX(h) ==> Dragged(a, h, c).width >= m.width) &&
      (MovesY(h) ==> Dragged(a, h, c).height >= m.height)
  {
  }

  /** The pointer coordinate in pixels, clamped into the container, in
      percent of the container. */
  function PixelToPercent(px: real, size: real): (r: real)
    requires size > 0.0
    ensures 0.0 <= r <= 100.0
    ensures 0.0 <= px <= size ==> r * size == px * 100.0
  {
    var clamped := Max(0.0, Min(px, size));
    assert clamped / size <= 1.0 by {
      assert clamped <= size;
      DivAtMostOne(clamped, size);
    }
    clamped / size * 100.0
  }

  lemma DivAtMostOne(x: real, y: real)
    requires 0.0 <= x <= y && y > 0.0
    ensures 0.0 <= x / y <= 1.0
  {
  }

  /** The position handed on for handle `h`: E and W keep their current top,
      N and S their current left, corners take both candidate coordinates.
      So a handle follows the pointer exactly on the axes it controls. */
  function RoleCandidate(h: Point, pos: Position, current: Position): (c: Position)
    ensures c.left == (if MovesX(h) then pos.left else current.left)
    ensures c.top == (if MovesY(h) then pos.top else current.top)
  {
    match h
    case E | W => Position(pos.left, current.top)
    case N | S => Position(current.left, pos.top)
    case _ => pos
  }

  // ---------------------------------------------------------------------
  // resizeAreaWithKeepAspectRatio

  /** Roles whose ratio rule keeps the new width. */
  predicate KeepsWidth(h: Point) { h == SE || h == SW || h == E || h == W }

  /** The ratio of the previous area is defined (and, where the rule divides
      by it, non-zero). */
  predicate RatioDefined(h: Point, prev: Area) {
    prev.height != 0.0 && (KeepsWidth(h) ==> prev.width != 0.0)
  }

  /** The size (and, for NW, the position) the ratio strategy asks for;
      `None` stands for the NaN the source starts `left` and `top` with. */
  datatype RatioTarget = RatioTarget(width: real, height: real, left: Option<real>, top: Option<real>)

  function Abs(x: real): real { if x < 0.0 then -x else x }

  /** The ratio rule per role, for the area `a` after the ordinary resolve,
      the area `prev` before the step and the south-east handle `anchor`
      before the step. */
  function AspectTarget(h: Point, a: Area, prev: Area, anchor: Position): (t: RatioTarget)
    requires RatioDefined(h, prev)
    ensures KeepsWidth(h) ==> t.width == a.width
    ensures !KeepsWidth(h) ==> t.height == a.height
    ensures t.width * prev.height == t.height * prev.width
    ensures h == NW ==> t.left == Some(Abs(anchor.left - t.width)) && t.top == Some(anchor.top - t.height)
    ensures h != NW ==> t.left.None? && t.top.None?
  {
    match h
    case SE | SW | E | W => RatioTarget(a.width, HeightForWidth(a.width, prev), None, None)
    case NE | N | S => RatioTarget(WidthForHeight(a.height, prev), a.height, None, None)
    case NW =>
      var w := WidthForHeight(a.height, prev);
      RatioTarget(w, a.height, Some(Abs(anchor.left - w)), Some(anchor.top - a.height))
  }

  /** `width / ratio`: the height that gives `width` the ratio of `prev`. */
  function HeightForWidth(width: real, prev: Area): (r: real)
    requires prev.height != 0.0 && prev.width != 0.0
    ensures width * prev.height == r * prev.width
  {
    RatioCrossMultiply(width, prev.width, prev.height, true);
    width / (prev.width / prev.height)
  }

  /** `height * ratio`: the width that gives `height` the ratio of `prev`. */
  function WidthForHeight(height: real, prev: Area): (r: real)
    requires prev.height != 0.0
    ensures r * prev.height == height * prev.width
  {
    RatioCrossMultiply(height, prev.width, prev.height, false);
    height * (prev.width / prev.height)
  }

  /** Two rectangles have the same width-to-height ratio (stated without
      division, so it also covers zero sizes). */
  predicate SameRatio(x: Area, y: Area) {
    x.width * y.height == x.height * y.width
  }

  lemma RatioCrossMultiply(x: real, pw: real, ph: real, keepWidth: bool)
    requires ph != 0.0 && (keepWidth ==> pw != 0.0)
    ensures keepWidth ==> x * ph == (x / (pw / ph)) * pw
    ensures !keepWidth ==> (x * (pw / ph)) * ph == x * pw
  {
    var ratio := pw / ph;
    assert ratio * ph == pw;
    if keepWidth {
      assert ratio != 0.0;
      var y := x / ratio;
      assert y * ratio == x;
      calc {
        y * pw;
        y * (ratio * ph);
        (y * ratio) * ph;
        x * ph;
      }
    } else {
      calc {
        (x * ratio) * ph;
        x * (ratio * ph);
        x * pw;
      }
    }
  }

  /** JavaScript's `x || fallback` on a number: NaN (`None`) and 0 both give
      the fallback. */
  function OrElse(x: Option<real>, fallback: real): real {
    if x.Some? && x.value != 0.0 then x.value else fallback
  }

  /** The area the ratio strategy commits for target `t`: the previous area
      again when the target reaches 100 on either side, otherwise the target
      size at the target position (or the resolved area's position) through
      `setBoxArea`. */
  function CommitTarget(t: RatioTarget, a: Area, prev: Area, m: Sizes, moving: bool): Area {
    if t.height >= 100.0 || t.width >= 100.0 then BoxArea(prev, m, prev, moving)
    else BoxArea(Area(OrElse(t.top, a.top), OrElse(t.left, a.left), t.width, t.height), m, prev, moving)
  }

  /** The ratio strategy for handle `h`, after the ordinary resolve gave `a`. */
  function RatioCommit(h: Point, a: Area, prev: Area, anchor: Position, m: Sizes, moving: bool): Area
    requires RatioDefined(h, prev)
  {
    CommitTarget(AspectTarget(h, a, prev, anchor), a, prev, m, moving)
  }

  /** A target below 100 and at least the minimum is committed at its size. */
  lemma CommitTargetKeepsSize(t: RatioTarget, a: Area, prev: Area, m: Sizes, moving: bool)
    requires t.width < 100.0 && t.height < 100.0 && m.width <= t.width && m.height <= t.height
    ensures CommitTarget(t, a, prev, m, moving).width == t.width
    ensures CommitTarget(t, a, prev, m, moving).height == t.height
  {
    var cand := Area(OrElse(t.top, a.top), OrElse(t.left, a.left), t.width, t.height);
    BoxAreaKeepsFittingSize(cand, m, prev, moving);
  }

  /** Overflow abort: when the target reaches 100, the step re-commits the
      previous area, which comes back unchanged. */
  lemma RatioAbortRestoresPrevious(h: Point, a: Area, prev: Area, anchor: Position, m: Sizes, moving: bool)
    requires RatioDefined(h, prev) && AreaValid(prev, m)
    requires AspectTarget(h, a, prev, anchor).height >= 100.0 || AspectTarget(h, a, prev, anchor).width >= 100.0
    ensures RatioCommit(h, a, prev, anchor, m, moving) == prev
  {
    BoxAreaFixedPoint(prev, m, moving);
  }

  /** On the commit path, a target that is at least the minimum size is
      committed at exactly that size, so the committed area has the previous
      area's width-to-height ratio. */
  lemma RatioCommitKeepsRatio(h: Point, a: Area, prev: Area, anchor: Position, m: Sizes, moving: bool)
    requires RatioDefined(h, prev)
    requires var t := AspectTarget(h, a, prev, anchor);
      t.width < 100.0 && t.height < 100.0 && m.width <= t.width && m.height <= t.height
    ensures var r, t := RatioCommit(h, a, prev, anchor, m, moving), AspectTarget(h, a, prev, anchor);
      r.width == t.width && r.height == t.height
    ensures SameRatio(RatioCommit(h, a, prev, anchor, m, moving), prev)
    ensures var r := RatioCommit(h, a, prev, anchor, m, moving);
      r.height != 0.0 ==> r.width / r.height == prev.width / prev.height
  {
    CommitTargetKeepsRatio(AspectTarget(h, a, prev, anchor), a, prev, m, moving);
  }

  /** A committed target of the previous area's ratio keeps that ratio. */
  lemma CommitTargetKeepsRatio(t: RatioTarget, a: Area, prev: Area, m: Sizes, moving: bool)
    requires t.width < 100.0 && t.height < 100.0 && m.width <= t.width && m.height <= t.height
    requires t.width * prev.height == t.height * prev.width && prev.height != 0.0
    ensures SameRatio(CommitTarget(t, a, prev, m, moving), prev)
    ensures var r := CommitTarget(t, a, prev, m, moving);
      r.width == t.width && r.height == t.height &&
      (r.height != 0.0 ==> r.width / r.height == prev.width / prev.height)
  {
    CommitTargetKeepsSize(t, a, prev, m, moving);
    SizedLikeTargetKeepsRatio(CommitTarget(t, a, prev, m, moving), t, prev);
  }

  /** An area with the target's size has the target's ratio. */
  lemma SizedLikeTargetKeepsRatio(r: Area, t: RatioTarget, prev: Area)
    requires r.width == t.width && r.height == t.height
    requires t.width * prev.height == t.height * prev.width && prev.height != 0.0
    ensures SameRatio(r, prev)
    ensures r.height != 0.0 ==> r.width / r.height == prev.width / prev.height
  {
    SameSizeSameCross(r.width, r.height, t.width, t.height, prev.width, prev.height);
    if r.height != 0.0 {
      CrossToQuotient(r.width, r.height, prev.width, prev.height);
    }
  }

  lemma SameSizeSameCross(rw: real, rh: real, tw: real, th: real, pw: real, ph: real)
    requires rw == tw && rh == th && tw * ph == th * pw
    ensures rw * ph == rh * pw
  {
  }

  lemma CrossToQuotient(w: real, h: real, pw: real, ph: real)
    requires h != 0.0 && ph != 0.0 && w * ph == h * pw
    ensures w / h == pw / ph
  {
    calc {
      w / h;
      (w * ph) / (h * ph);
      (h * pw) / (h * ph);
      pw / ph;
    }
  }

  /** NW re-anchoring: when the re-anchored left and top come out positive
      and the target fits strictly above the minimum, the committed area's
      bottom-right corner is where the south-east handle was before the
      step. */
  lemma NorthWestKeepsSouthEastAnchored(a: Area, prev: Area, anchor: Position, m: Sizes, moving: bool)
    requires RatioDefined(NW, prev)
    requires var t := AspectTarget(NW, a, prev, anchor);
      && t.width < 100.0 && t.height < 100.0
      && m.width < t.width && m.height < t.height
      && 0.0 < anchor.left - t.width && 0.0 < anchor.top - t.height
      && anchor.left <= 100.0 && anchor.top <= 100.0
    ensures var r := RatioCommit(NW, a, prev, anchor, m, moving);
      r.left + r.width == anchor.left && r.top + r.height == anchor.top
  {
    var t := AspectTarget(NW, a, prev, anchor);
    var cand := Area(OrElse(t.top, a.top), OrElse(t.left, a.left), t.width, t.height);
    assert cand.left == anchor.left - t.width;
    assert cand.top == anchor.top - t.height;
    BoxAreaKeepsFittingSize(cand, m, prev, moving);
  }

  /** The `||` fallback in the NW rule: a re-anchored left of exactly 0 is
      read as "unset", so the resolved area's left is used and the south-east
      corner moves. With the previous area {top 50, left 0, 40 x 40}, dragging
      NW to (10, 50) commits left 10, so the right edge goes from 40 to 50. */
  lemma NorthWestZeroLeftFallsBack()
    ensures var prev := Area(50.0, 0.0, 40.0, 40.0);
      var m := Sizes(5.0, 5.0);
      var resolved := Area(50.0, 10.0, 30.0, 40.0);
      var r := RatioCommit(NW, resolved, prev, Position(40.0, 90.0), m, false);
      AspectTarget(NW, resolved, prev, Position(40.0, 90.0)).left == Some(0.0)
      && r == Area(50.0, 10.0, 40.0, 40.0)
      && r.left + r.width != 40.0
  {
    var prev := Area(50.0, 0.0, 40.0, 40.0);
    var resolved := Area(50.0, 10.0, 30.0, 40.0);
    var t := AspectTarget(NW, resolved, prev, Position(40.0, 90.0));
    NorthWestZeroLeftTarget(prev, resolved);
    assert RatioCommit(NW, resolved, prev, Position(40.0, 90.0), Sizes(5.0, 5.0), false)
        == CommitTarget(t, resolved, prev, Sizes(5.0, 5.0), false);
    NorthWestZeroLeftCommit(t, resolved, prev);
  }

  lemma NorthWestZeroLeftCommit(t: RatioTarget, resolved: Area, prev: Area)
    requires t == RatioTarget(40.0, 40.0, Some(0.0), Some(50.0))
    requires prev == Area(50.0, 0.0, 40.0, 40.0) && resolved == Area(50.0, 10.0, 30.0, 40.0)
    ensures CommitTarget(t, resolved, prev, Sizes(5.0, 5.0), false) == Area(50.0, 10.0, 40.0, 40.0)
  {
    BoxAreaKeepsFittingSize(Area(50.0, 10.0, 40.0, 40.0), Sizes(5.0, 5.0), prev, false);
  }

  lemma NorthWestZeroLeftTarget(prev: Area, resolved: Area)
    requires prev == Area(50.0, 0.0, 40.0, 40.0) && resolved == Area(50.0, 10.0, 30.0, 40.0)
    ensures AspectTarget(NW, resolved, prev, Position(40.0, 90.0)) == RatioTarget(40.0, 40.0, Some(0.0), Some(50.0))
  {
    SquareRatioKeepsHeightAsWidth(NW, resolved, prev, Position(40.0, 90.0));
  }

  /** Under a square previous area, a role that keeps the height gets the
      same width. */
  lemma SquareRatioKeepsHeightAsWidth(h: Point, a: Area, prev: Area, anchor: Position)
    requires prev.width == prev.height && prev.height != 0.0 && !KeepsWidth(h)
    ensures AspectTarget(h, a, prev, anchor).width == a.height
  {
    var t := AspectTarget(h, a, prev, anchor);
    assert (t.width - a.height) * prev.height == 0.0;
  }

  // ---------------------------------------------------------------------
  // onMoving

  /** The candidate `onMoving` hands to `setBoxArea`: the pointer offset
      since the press, in percent of the container, added to the area's
      position at the press, clamped so the current size fits. */
  function MoveTarget(a: Area, startX: real, startY: real, startLeft: real, startTop: real,
                      clientX: real, clientY: real, containerWidth: real, containerHeight: real): (r: Area)
    requires containerWidth > 0.0 && containerHeight > 0.0
    ensures r.width == a.width && r.height == a.height
  {
    var dLeft := (clientX - startX) / containerWidth * 100.0;
    var dTop := (clientY - startY) / containerHeight * 100.0;
    var newLeft := Max(0.0, Min(startLeft + dLeft, 100.0 - a.width));
    var newTop := Max(0.0, Min(startTop + dTop, 100.0 - a.height));
    Area(newTop, newLeft, a.width, a.height)
  }

  /** Moving never changes the size: during a move, an area whose size lies
      between the minimum and 100 is committed at that size, at the clamped
      moved position, which keeps it inside the container. */
  lemma MovingKeepsSize(a: Area, m: Sizes, prev: Area, startX: real, startY: real, startLeft: real,
                        startTop: real, clientX: real, clientY: real, cw: real, ch: real)
    requires cw > 0.0 && ch > 0.0
    requires m.width <= a.width <= 100.0 && m.height <= a.height <= 100.0
    ensures var t := MoveTarget(a, startX, startY, startLeft, startTop, clientX, clientY, cw, ch);
      var r := BoxArea(t, m, prev, true);
      && r.width == a.width && r.height == a.height
      && r.left == t.left && r.top == t.top
      && 0.0 <= r.left <= 100.0 - a.width && 0.0 <= r.top <= 100.0 - a.height
  {
    var t := MoveTarget(a, startX, startY, startLeft, startTop, clientX, clientY, cw, ch);
    BoxAreaKeepsFittingSize(t, m, prev, true);
  }
}

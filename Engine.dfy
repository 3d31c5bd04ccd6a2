/** The engine's transitions as functions on a snapshot of everything the
    `SimpleSelectionFrame` object holds: its state record, the handle
    positions, the press origin and the areas it has announced through the
    `areaChanged` event. The class in SelectionFrame.dfy performs the same
    steps in place and is proved against these functions. */
module Engine {
  import opened Types
  import opened Geometry
  import opened PointDependencies
  import opened Resolver
  import opened Constraints
  import opened InitialAreaPosition
  import opened InitialPointPositions
  import opened InitialState

  /** A snapshot of the object: state, handles, `startX`/`startY` (pointer
      position at the press, in pixels), `startLeft`/`startTop` (area
      position at the press, in percent) and the sequence of areas
      dispatched with `areaChanged`. */
  datatype Config = Config(
    state: SelectionState,
    points: Points,
    startX: real,
    startY: real,
    startLeft: real,
    startTop: real,
    events: seq<Area>)

  /** What the pointer went down on. */
  datatype PointerTarget =
    | NoTarget
    | OnHandle(handle: Point, offsetLeft: real, offsetTop: real)
    | InsideArea
    | Elsewhere

  /** Every handle has a position, and a handle is active exactly while a
      resize session runs. */
  predicate WellFormed(c: Config) {
    Complete(c.points) && (c.state.isResizing <==> c.state.activePoint.Some?)
  }

  /** The invariant a session keeps: non-negative minimum sizes, the area
      and its snapshot inside the container and at least the minimum, the
      handles laid out for the area, and the area the last one announced. */
  predicate Settled(c: Config) {
    && WellFormed(c)
    && c.state.minSizes.width >= 0.0 && c.state.minSizes.height >= 0.0
    && AreaValid(c.state.areaPosition, c.state.minSizes)
    && AreaValid(c.state.prevAreaPosition, c.state.minSizes)
    && c.points == Layout(c.state.areaPosition)
    && |c.events| > 0 && c.events[|c.events| - 1] == c.state.areaPosition
  }

  // ---------------------------------------------------------------------
  // The steps

  /** `setBoxArea(a)`: commit the clamped area, lay the handles out for it
      and announce it. */
  function BoxStep(c: Config, a: Area): (r: Config)
    ensures r.points == Layout(r.state.areaPosition)
    ensures r.events == c.events + [r.state.areaPosition]
    ensures r.state == c.state.(areaPosition := r.state.areaPosition)
    ensures r.state.areaPosition.width >= c.state.minSizes.width
    ensures r.state.areaPosition.height >= c.state.minSizes.height
  {
    var area := BoxArea(a, c.state.minSizes, c.state.prevAreaPosition, c.state.isMoving);
    c.(state := c.state.(areaPosition := area), points := Layout(area), events := c.events + [area])
  }

  /** `setAreaPosition()`: snapshot the area, commit the area derived from
      the handles (self-healed through `setBoxArea` when a size is at or
      below its minimum, which also lays the handles out again) and announce
      it. */
  function SettleStep(c: Config): (r: Config)
    requires Complete(c.points)
    ensures Complete(r.points)
    ensures r.state.prevAreaPosition == c.state.areaPosition
    ensures r.state.areaPosition == SettledArea(c.state, c.points)
    ensures r.state == c.state.(prevAreaPosition := c.state.areaPosition, areaPosition := r.state.areaPosition)
    ensures r.events == c.events + [r.state.areaPosition]
  {
    var area := SettledArea(c.state, c.points);
    var points := if Heals(Derive(c.points), c.state.minSizes) then Layout(area) else c.points;
    c.(state := c.state.(prevAreaPosition := c.state.areaPosition, areaPosition := area),
       points := points, events := c.events + [area])
  }

  /** The snapshot `setAreaPosition` has after writing the derived area,
      before its self-heal check. */
  function Derived(c: Config): Config
    requires Complete(c.points)
  {
    c.(state := c.state.(prevAreaPosition := c.state.areaPosition, areaPosition := Derive(c.points)))
  }

  /** The settle step is the self-heal through `setBoxArea` when a derived
      size is at or below its minimum (width first), and otherwise the
      announcement of the derived area. */
  lemma SettleStepCases(c: Config)
    requires Complete(c.points)
    ensures var d, m := Derive(c.points), c.state.minSizes;
      && (d.width <= m.width ==> SettleStep(c) == BoxStep(Derived(c), d.(width := m.width)))
      && (m.width < d.width && d.height <= m.height ==> SettleStep(c) == BoxStep(Derived(c), d.(height := m.height)))
      && (!Heals(d, m) ==> SettleStep(c) == Derived(c).(events := c.events + [d]))
  {
  }

  /** `handlePointPosition(h, pos)`: move the handle, resolve the others
      from it, then settle the area. */
  function HandleStep(c: Config, h: Point, pos: Position): (r: Config)
    requires Complete(c.points)
    ensures Complete(r.points)
    ensures r.state.prevAreaPosition == c.state.areaPosition
  {
    SettleStep(c.(points := Resolve(c.points, h, pos)))
  }

  /** `resizeAreaWithKeepAspectRatio(h, pos)`: the ordinary handle step,
      then the ratio strategy's commit. */
  function RatioStep(c: Config, h: Point, pos: Position): Config
    requires Complete(c.points) && RatioDefined(h, c.state.areaPosition)
  {
    var c1 := HandleStep(c, h, pos);
    var prev := c1.state.prevAreaPosition;
    var t := AspectTarget(h, c1.state.areaPosition, prev, c.points[SE]);
    if t.height >= 100.0 || t.width >= 100.0 then BoxStep(c1, prev)
    else BoxStep(c1, Area(OrElse(t.top, c1.state.areaPosition.top), OrElse(t.left, c1.state.areaPosition.left),
                          t.width, t.height))
  }

  /** The part of `onResizing` after the pointer has been converted to
      percent: reject a position the constraint check refuses, otherwise
      hand the role's candidate to the ratio strategy or the ordinary step. */
  function DragHandle(c: Config, h: Point, pos: Position): Config
    requires Complete(c.points)
    requires c.state.keepAspectRatio ==> RatioDefined(h, c.state.areaPosition)
  {
    if !CheckPointConstraints(h, pos, c.state.areaPosition, c.state.minSizes) then c
    else
      var cand := RoleCandidate(h, pos, c.points[h]);
      if c.state.keepAspectRatio then RatioStep(c, h, cand) else HandleStep(c, h, cand)
  }

  /** The division the ratio strategy performs is defined for the active
      handle. */
  predicate ResizeDefined(c: Config) {
    c.state.keepAspectRatio && c.state.activePoint.Some? ==>
      RatioDefined(c.state.activePoint.value, c.state.areaPosition)
  }

  /** The pointer position `onResizing` hands on: pointer minus press
      origin, clamped into the container, in percent. */
  function PointerPercent(c: Config, clientX: real, clientY: real, containerWidth: real, containerHeight: real): Position
    requires containerWidth > 0.0 && containerHeight > 0.0
  {
    Position(PixelToPercent(clientX - c.startX, containerWidth), PixelToPercent(clientY - c.startY, containerHeight))
  }

  /** `onResizing`: nothing without a resize session, otherwise drag the
      active handle to the pointer. */
  function ResizeStep(c: Config, clientX: real, clientY: real, containerWidth: real, containerHeight: real): Config
    requires WellFormed(c) && ResizeDefined(c)
    requires containerWidth > 0.0 && containerHeight > 0.0
  {
    if !c.state.isResizing && c.state.activePoint.None? then c
    else DragHandle(c, c.state.activePoint.value, PointerPercent(c, clientX, clientY, containerWidth, containerHeight))
  }

  /** `onMoving`: nothing while a handle is active, otherwise commit the
      area moved by the pointer offset since the press. */
  function MoveStep(c: Config, clientX: real, clientY: real, containerWidth: real, containerHeight: real): Config
    requires containerWidth > 0.0 && containerHeight > 0.0
  {
    if c.state.activePoint.Some? then c
    else BoxStep(c, MoveTarget(c.state.areaPosition, c.startX, c.startY, c.startLeft, c.startTop,
                               clientX, clientY, containerWidth, containerHeight))
  }

  /** `onEndMoving`: end both sessions and clear the pointer origin. */
  function EndMovingStep(c: Config): Config {
    c.(state := c.state.(isMoving := false, isResizing := false, activePoint := None), startX := 0.0, startY := 0.0)
  }

  /** The pointer-down listener: ignored without a target, while disabled or
      while events are suppressed; on a handle it starts a resize session
      and records the pointer relative to the handle's offset; on the
      container outside the area's element it starts a move session and
      records the pointer and the area's position. */
  function PointerDownStep(c: Config, target: PointerTarget, clientX: real, clientY: real): Config {
    if target.NoTarget? || c.state.isDisabled || c.state.preventEventCondition then c
    else match target
      case OnHandle(h, offsetLeft, offsetTop) =>
        c.(state := c.state.(isResizing := true, activePoint := Some(h)),
           startY := clientY - offsetTop, startX := clientX - offsetLeft)
      case InsideArea =>
        c.(state := c.state.(isMoving := true), startY := clientY, startX := clientX,
           startLeft := c.state.areaPosition.left, startTop := c.state.areaPosition.top)
      case _ => c
  }

  /** The pointer-move listener: ignored while events are suppressed,
      otherwise resize during a resize session, then move during a move
      session. */
  function PointerMoveStep(c: Config, clientX: real, clientY: real, containerWidth: real, containerHeight: real): Config
    requires WellFormed(c) && ResizeDefined(c)
    requires containerWidth > 0.0 && containerHeight > 0.0
  {
    if c.state.preventEventCondition then c
    else
      var c1 := if c.state.isResizing then ResizeStep(c, clientX, clientY, containerWidth, containerHeight) else c;
      if c1.state.isMoving then MoveStep(c1, clientX, clientY, containerWidth, containerHeight) else c1
  }

  /** `reset(a)`: commit `a` with the current constraints, then return every
      state field but the area to its initial value. */
  function ResetStep(c: Config, a: Area): Config {
    var c1 := BoxStep(c, a);
    c1.(state := Initial.(areaPosition := c1.state.areaPosition))
  }

  /** `togglePointsOff()`: flip the hidden flag. */
  function TogglePointsOffStep(c: Config): Config {
    c.(state := c.state.(isHidden := !c.state.isHidden))
  }

  /** `toggleDisable()`: flip the disabled flag. */
  function ToggleDisableStep(c: Config): Config {
    c.(state := c.state.(isDisabled := !c.state.isDisabled))
  }

  /** The object right after construction with the given minimum sizes:
      initial state and handles, then one `setAreaPosition`. */
  function StartConfig(m: Sizes): Config {
    InitialPointsDeriveInitialArea();
    SettleStep(Config(Initial.(minSizes := m), InitialPoints, 0.0, 0.0, 0.0, 0.0, []))
  }

  // ---------------------------------------------------------------------
  // Properties

  /** A settle step over handles that already describe the area and its
      snapshot, with no self-heal, only announces the area. */
  lemma SettleStepWithoutHeal(c: Config)
    requires Complete(c.points)
    requires Derive(c.points) == c.state.areaPosition == c.state.prevAreaPosition
    requires !Heals(c.state.areaPosition, c.state.minSizes)
    ensures SettleStep(c) == c.(events := c.events + [c.state.areaPosition])
  {
  }

  /** With both minimum sizes below 100, construction commits the full
      container without a self-heal and announces it once. */
  lemma StartConfigIsInitial(m: Sizes)
    requires m.width < 100.0 && m.height < 100.0
    ensures StartConfig(m) == Config(Initial.(minSizes := m), InitialPoints, 0.0, 0.0, 0.0, 0.0, [InitialArea])
  {
    InitialPointsDeriveInitialArea();
    var c0 := Config(Initial.(minSizes := m), InitialPoints, 0.0, 0.0, 0.0, 0.0, []);
    assert c0.state.areaPosition == InitialArea == c0.state.prevAreaPosition;
    assert StartConfig(m) == SettleStep(c0);
    SettleStepWithoutHeal(c0);
  }

  /** For non-negative minimum sizes below 100, the constructed object is
      settled. */
  lemma StartConfigSettled(m: Sizes)
    requires 0.0 <= m.width < 100.0 && 0.0 <= m.height < 100.0
    ensures Settled(StartConfig(m))
  {
    StartConfigIsInitial(m);
    InitialPointsAreLayoutOfInitialArea();
    var c := StartConfig(m);
    assert c.state.areaPosition == InitialArea && c.state.prevAreaPosition == InitialArea;
    assert c.points == Layout(InitialArea);
  }

  /** Only the axes a handle controls depend on the candidate, so the role
      rule does not change the dragged rectangle. */
  lemma DraggedIgnoresRole(a: Area, h: Point, pos: Position, current: Position)
    ensures Dragged(a, h, RoleCandidate(h, pos, current)) == Dragged(a, h, pos)
  {
  }

  /** A drag to a position inside the container that passes the constraint
      check gives a rectangle inside the container and at least the minimum
      size. */
  lemma CheckedDragIsValid(a: Area, m: Sizes, h: Point, pos: Position)
    requires AreaValid(a, m)
    requires 0.0 <= pos.left <= 100.0 && 0.0 <= pos.top <= 100.0
    requires CheckPointConstraints(h, pos, a, m)
    ensures AreaValid(Dragged(a, h, pos), m)
  {
    ConstraintsMeanMinimumSize(h, pos, a, m);
  }

  /** The self-heal of an area that is at least the minimum size keeps it
      inside the container. */
  lemma SettledAreaValid(s: SelectionState, d: Area, p: Points)
    requires Complete(p) && Derive(p) == d
    requires AreaValid(s.areaPosition, s.minSizes) && AreaValid(d, s.minSizes)
    ensures AreaValid(SettledArea(s, p), s.minSizes)
    ensures !Heals(d, s.minSizes) ==> SettledArea(s, p) == d
  {
    var m := s.minSizes;
    if d.width <= m.width {
      BoxAreaInBounds(d.(width := m.width), m, s.areaPosition, s.isMoving);
    } else if d.height <= m.height {
      BoxAreaInBounds(d.(height := m.height), m, s.areaPosition, s.isMoving);
    }
  }

  /** The ordinary handle step from a settled snapshot, for a dragged
      rectangle inside the container and at least the minimum: the result is
      settled again, its snapshot is the area before the step, and without a
      self-heal it commits exactly the dragged rectangle. */
  lemma HandleStepSettles(c: Config, h: Point, cand: Position)
    requires Settled(c)
    requires AreaValid(Dragged(c.state.areaPosition, h, cand), c.state.minSizes)
    ensures Settled(HandleStep(c, h, cand))
    ensures var d := Dragged(c.state.areaPosition, h, cand);
      !Heals(d, c.state.minSizes) ==> HandleStep(c, h, cand).state.areaPosition == d
  {
    var a := c.state.areaPosition;
    var d := Dragged(a, h, cand);
    var p := Resolve(c.points, h, cand);
    ResolveLayout(a, h, cand);
    ResolveDerive(a, h, cand);
    SettledAreaValid(c.state, d, p);
  }

  /** The ratio step from a settled snapshot, outside a move, for a valid
      dragged rectangle, leaves a settled snapshot. */
  lemma RatioStepSettles(c: Config, h: Point, cand: Position)
    requires Settled(c) && !c.state.isMoving && RatioDefined(h, c.state.areaPosition)
    requires AreaValid(Dragged(c.state.areaPosition, h, cand), c.state.minSizes)
    ensures Settled(RatioStep(c, h, cand))
  {
    HandleStepSettles(c, h, cand);
    var c1 := HandleStep(c, h, cand);
    var prev := c1.state.prevAreaPosition;
    var t := AspectTarget(h, c1.state.areaPosition, prev, c.points[SE]);
    var x := if t.height >= 100.0 || t.width >= 100.0 then prev
             else Area(OrElse(t.top, c1.state.areaPosition.top), OrElse(t.left, c1.state.areaPosition.left), t.width, t.height);
    assert RatioStep(c, h, cand) == BoxStep(c1, x);
    BoxStepSettles(c1, x);
  }

  /** Outside a move, committing any candidate over a settled snapshot
      leaves it settled. */
  lemma BoxStepSettles(c: Config, x: Area)
    requires Settled(c) && !c.state.isMoving
    ensures Settled(BoxStep(c, x))
  {
    BoxAreaInBounds(x, c.state.minSizes, c.state.prevAreaPosition, false);
  }

  /** Dragging a handle to any position inside the container keeps the
      snapshot settled (for the ratio strategy: outside a move). */
  lemma DragHandleSettles(c: Config, h: Point, pos: Position)
    requires Settled(c)
    requires 0.0 <= pos.left <= 100.0 && 0.0 <= pos.top <= 100.0
    requires c.state.keepAspectRatio ==> RatioDefined(h, c.state.areaPosition) && !c.state.isMoving
    ensures Settled(DragHandle(c, h, pos))
  {
    var a := c.state.areaPosition;
    if CheckPointConstraints(h, pos, a, c.state.minSizes) {
      var cand := RoleCandidate(h, pos, c.points[h]);
      DraggedIgnoresRole(a, h, pos, c.points[h]);
      CheckedDragIsValid(a, c.state.minSizes, h, pos);
      if c.state.keepAspectRatio {
        RatioStepSettles(c, h, cand);
      } else {
        HandleStepSettles(c, h, cand);
      }
    }
  }

  /** A pointer position the constraint check refuses leaves the whole
      snapshot unchanged: no handle moves and nothing is announced. */
  lemma RejectedResizeChangesNothing(c: Config, clientX: real, clientY: real, cw: real, ch: real)
    requires WellFormed(c) && ResizeDefined(c) && cw > 0.0 && ch > 0.0
    requires c.state.activePoint.Some?
    requires !CheckPointConstraints(c.state.activePoint.value, PointerPercent(c, clientX, clientY, cw, ch),
                                    c.state.areaPosition, c.state.minSizes)
    ensures ResizeStep(c, clientX, clientY, cw, ch) == c
  {
  }

  /** Without the ratio lock, a checked drag that stays strictly above both
      minimum sizes commits exactly the dragged rectangle. */
  lemma DragHandleFollowsPointer(c: Config, h: Point, pos: Position)
    requires Settled(c) && !c.state.keepAspectRatio
    requires 0.0 <= pos.left <= 100.0 && 0.0 <= pos.top <= 100.0
    requires CheckPointConstraints(h, pos, c.state.areaPosition, c.state.minSizes)
    requires !Heals(Dragged(c.state.areaPosition, h, pos), c.state.minSizes)
    ensures DragHandle(c, h, pos).state.areaPosition == Dragged(c.state.areaPosition, h, pos)
    ensures DragHandle(c, h, pos).points == Layout(Dragged(c.state.areaPosition, h, pos))
  {
    var a := c.state.areaPosition;
    DraggedIgnoresRole(a, h, pos, c.points[h]);
    CheckedDragIsValid(a, c.state.minSizes, h, pos);
    HandleStepSettles(c, h, RoleCandidate(h, pos, c.points[h]));
  }

  /** Without the ratio lock, a checked drag commits the settled area of
      the resolved handles, and those handles derive the dragged rectangle. */
  lemma OrdinaryDragSettlesDragged(c: Config, h: Point, pos: Position)
    requires Settled(c) && !c.state.keepAspectRatio
    requires CheckPointConstraints(h, pos, c.state.areaPosition, c.state.minSizes)
    requires 0.0 <= pos.left <= 100.0 && 0.0 <= pos.top <= 100.0
    ensures var p := Resolve(c.points, h, RoleCandidate(h, pos, c.points[h]));
      && Derive(p) == Dragged(c.state.areaPosition, h, pos)
      && DragHandle(c, h, pos).state.areaPosition == SettledArea(c.state, p)
  {
    var a := c.state.areaPosition;
    var cand := RoleCandidate(h, pos, c.points[h]);
    DraggedIgnoresRole(a, h, pos, c.points[h]);
    CheckedDragIsValid(a, c.state.minSizes, h, pos);
    ResolveDerive(a, h, cand);
  }

  /** Without the ratio lock, an edge handle changes only its own axis: E
      and W keep top and height (E also left), N and S keep left and width
      (S also top), even when the step self-heals. */
  lemma EdgeDragKeepsCrossAxis(c: Config, h: Point, pos: Position)
    requires Settled(c) && !c.state.keepAspectRatio && !IsCorner(h)
    requires 0.0 <= pos.left <= 100.0 && 0.0 <= pos.top <= 100.0
    ensures var a, r := c.state.areaPosition, DragHandle(c, h, pos).state.areaPosition;
      && (h == E || h == W ==> r.top == a.top && r.height == a.height)
      && (h == E ==> r.left == a.left)
      && (h == N || h == S ==> r.left == a.left && r.width == a.width)
      && (h == S ==> r.top == a.top)
  {
    var a := c.state.areaPosition;
    if CheckPointConstraints(h, pos, a, c.state.minSizes) {
      var p := Resolve(c.points, h, RoleCandidate(h, pos, c.points[h]));
      OrdinaryDragSettlesDragged(c, h, pos);
      CheckedDragIsValid(a, c.state.minSizes, h, pos);
      SettledKeepsFittingAxes(c.state, p);
    }
  }

  /** With the ratio lock, a checked drag whose ratio target lies below 100
      and at least at the minimum commits an area with the previous area's
      width-to-height ratio. */
  lemma DragHandleKeepsRatio(c: Config, h: Point, pos: Position)
    requires Settled(c) && c.state.keepAspectRatio && RatioDefined(h, c.state.areaPosition)
    requires CheckPointConstraints(h, pos, c.state.areaPosition, c.state.minSizes)
    requires var c1 := HandleStep(c, h, RoleCandidate(h, pos, c.points[h]));
      var t := AspectTarget(h, c1.state.areaPosition, c.state.areaPosition, c.points[SE]);
      t.width < 100.0 && t.height < 100.0 && c.state.minSizes.width <= t.width && c.state.minSizes.height <= t.height
    ensures SameRatio(DragHandle(c, h, pos).state.areaPosition, c.state.areaPosition)
  {
    var a := c.state.areaPosition;
    var cand := RoleCandidate(h, pos, c.points[h]);
    var c1 := HandleStep(c, h, cand);
    assert c1.state.prevAreaPosition == a;
    assert DragHandle(c, h, pos) == RatioStep(c, h, cand);
    assert RatioStep(c, h, cand).state.areaPosition
        == RatioCommit(h, c1.state.areaPosition, a, c.points[SE], c.state.minSizes, c.state.isMoving);
    var rc := RatioCommit(h, c1.state.areaPosition, a, c.points[SE], c.state.minSizes, c.state.isMoving);
    RatioCommitKeepsRatio(h, c1.state.areaPosition, a, c.points[SE], c.state.minSizes, c.state.isMoving);
    var r := DragHandle(c, h, pos).state.areaPosition;
    assert r == rc;
  }

  /** With the ratio lock and a target that reaches 100 on either side, the
      drag aborts: the area from before the drag is committed again, so its
      ratio is kept and the handles are back at its layout. */
  lemma DragHandleAbortKeepsArea(c: Config, h: Point, pos: Position)
    requires Settled(c) && c.state.keepAspectRatio && RatioDefined(h, c.state.areaPosition)
    requires CheckPointConstraints(h, pos, c.state.areaPosition, c.state.minSizes)
    requires var c1 := HandleStep(c, h, RoleCandidate(h, pos, c.points[h]));
      var t := AspectTarget(h, c1.state.areaPosition, c.state.areaPosition, c.points[SE]);
      t.width >= 100.0 || t.height >= 100.0
    ensures DragHandle(c, h, pos).state.areaPosition == c.state.areaPosition
    ensures DragHandle(c, h, pos).points == c.points
  {
    var a := c.state.areaPosition;
    var cand := RoleCandidate(h, pos, c.points[h]);
    var c1 := HandleStep(c, h, cand);
    assert c1.state.prevAreaPosition == a;
    assert DragHandle(c, h, pos) == RatioStep(c, h, cand);
    assert RatioStep(c, h, cand).state.areaPosition
        == RatioCommit(h, c1.state.areaPosition, a, c.points[SE], c.state.minSizes, c.state.isMoving);
    RatioAbortRestoresPrevious(h, c1.state.areaPosition, a, c.points[SE], c.state.minSizes, c.state.isMoving);
  }

  /** A move keeps the size, lands on the clamped moved position and keeps
      the snapshot settled. */
  lemma MoveStepKeepsSize(c: Config, clientX: real, clientY: real, cw: real, ch: real)
    requires Settled(c) && c.state.activePoint.None? && c.state.isMoving
    requires cw > 0.0 && ch > 0.0
    ensures var a, r := c.state.areaPosition, MoveStep(c, clientX, clientY, cw, ch).state.areaPosition;
      && r.width == a.width && r.height == a.height
      && r.left == Max(0.0, Min(c.startLeft + (clientX - c.startX) / cw * 100.0, 100.0 - a.width))
      && r.top == Max(0.0, Min(c.startTop + (clientY - c.startY) / ch * 100.0, 100.0 - a.height))
    ensures Settled(MoveStep(c, clientX, clientY, cw, ch))
  {
    var a := c.state.areaPosition;
    var m := c.state.minSizes;
    MovingKeepsSize(a, m, c.state.prevAreaPosition, c.startX, c.startY, c.startLeft, c.startTop, clientX, clientY, cw, ch);
    var t := MoveTarget(a, c.startX, c.startY, c.startLeft, c.startTop, clientX, clientY, cw, ch);
    BoxAreaInBounds(t, m, c.state.prevAreaPosition, true);
  }

  /** A pointer move keeps the snapshot settled, unless the ratio strategy
      runs while a move session is also open. */
  lemma PointerMoveSettles(c: Config, clientX: real, clientY: real, cw: real, ch: real)
    requires Settled(c) && ResizeDefined(c) && cw > 0.0 && ch > 0.0
    requires c.state.keepAspectRatio && c.state.isResizing ==> !c.state.isMoving
    ensures Settled(PointerMoveStep(c, clientX, clientY, cw, ch))
  {
    if !c.state.preventEventCondition {
      if c.state.isResizing {
        var h := c.state.activePoint.value;
        var pos := PointerPercent(c, clientX, clientY, cw, ch);
        DragHandleSettles(c, h, pos);
      }
      var c1 := if c.state.isResizing then ResizeStep(c, clientX, clientY, cw, ch) else c;
      if c1.state.isMoving && c1.state.activePoint.None? {
        MoveStepKeepsSize(c1, clientX, clientY, cw, ch);
      }
    }
  }

  /** A handle drag changes neither the sessions nor the active handle. */
  lemma DragHandleKeepsSessions(c: Config, h: Point, pos: Position)
    requires Complete(c.points)
    requires c.state.keepAspectRatio ==> RatioDefined(h, c.state.areaPosition)
    ensures var r := DragHandle(c, h, pos).state;
      r.activePoint == c.state.activePoint && r.isResizing == c.state.isResizing && r.isMoving == c.state.isMoving
  {
    if CheckPointConstraints(h, pos, c.state.areaPosition, c.state.minSizes) {
      var cand := RoleCandidate(h, pos, c.points[h]);
      if c.state.keepAspectRatio {
        RatioStepKeepsSessions(c, h, cand);
      } else {
        HandleStepKeepsSessions(c, h, cand);
      }
    }
  }

  lemma HandleStepKeepsSessions(c: Config, h: Point, cand: Position)
    requires Complete(c.points)
    ensures var r := HandleStep(c, h, cand).state;
      r.activePoint == c.state.activePoint && r.isResizing == c.state.isResizing && r.isMoving == c.state.isMoving
  {
  }

  lemma RatioStepKeepsSessions(c: Config, h: Point, cand: Position)
    requires Complete(c.points) && RatioDefined(h, c.state.areaPosition)
    ensures var r := RatioStep(c, h, cand).state;
      r.activePoint == c.state.activePoint && r.isResizing == c.state.isResizing && r.isMoving == c.state.isMoving
  {
    HandleStepKeepsSessions(c, h, cand);
    var c1 := HandleStep(c, h, cand);
    var prev := c1.state.prevAreaPosition;
    var t := AspectTarget(h, c1.state.areaPosition, prev, c.points[SE]);
    var x := if t.height >= 100.0 || t.width >= 100.0 then prev
             else Area(OrElse(t.top, c1.state.areaPosition.top), OrElse(t.left, c1.state.areaPosition.left), t.width, t.height);
    assert RatioStep(c, h, cand) == BoxStep(c1, x);
  }

  /** With both sessions open, a pointer move only resizes: a handle is
      active, so the move handler returns at once. */
  lemma BothSessionsResizeOnly(c: Config, clientX: real, clientY: real, cw: real, ch: real)
    requires WellFormed(c) && ResizeDefined(c) && cw > 0.0 && ch > 0.0
    requires c.state.isResizing && c.state.isMoving && !c.state.preventEventCondition
    ensures PointerMoveStep(c, clientX, clientY, cw, ch) == ResizeStep(c, clientX, clientY, cw, ch)
  {
    DragHandleKeepsSessions(c, c.state.activePoint.value, PointerPercent(c, clientX, clientY, cw, ch));
  }

  /** Pointer-down and pointer-up keep the snapshot well formed and
      settled; pointer-up leaves no session open. */
  lemma PointerSessionsSettle(c: Config, target: PointerTarget, clientX: real, clientY: real)
    requires Settled(c)
    ensures Settled(PointerDownStep(c, target, clientX, clientY))
    ensures Settled(EndMovingStep(c))
    ensures var r := EndMovingStep(c).state;
      !r.isMoving && !r.isResizing && r.activePoint.None?
  {
  }

  /** Resetting with the default area gives back the initial state and
      handles, provided the current minimum sizes are below 100, and
      announces the full container. */
  lemma ResetToDefault(c: Config)
    requires c.state.minSizes.width < 100.0 && c.state.minSizes.height < 100.0
    ensures ResetStep(c, InitialArea) == c.(state := Initial, points := InitialPoints, events := c.events + [InitialArea])
  {
    InitialAreaIsFixedPoint(c.state.minSizes, c.state.prevAreaPosition, c.state.isMoving);
    InitialPointsAreLayoutOfInitialArea();
  }

  /** Each toggle undoes itself and keeps the snapshot settled. */
  lemma TogglesAreInvolutions(c: Config)
    ensures TogglePointsOffStep(TogglePointsOffStep(c)) == c
    ensures ToggleDisableStep(ToggleDisableStep(c)) == c
    ensures Settled(c) ==> Settled(TogglePointsOffStep(c)) && Settled(ToggleDisableStep(c))
  {
  }

  /** While disabled, the pointer-down listener changes nothing, so no
      session can start. */
  lemma DisabledIgnoresPointerDown(c: Config, target: PointerTarget, clientX: real, clientY: real)
    requires c.state.isDisabled
    ensures PointerDownStep(c, target, clientX, clientY) == c
  {
  }

  /** Hiding the handles does not affect the pointer-down listener: the area
      can still be grabbed and moved. */
  lemma HiddenPointsStillGrab(c: Config, target: PointerTarget, clientX: real, clientY: real)
    ensures PointerDownStep(TogglePointsOffStep(c), target, clientX, clientY)
         == TogglePointsOffStep(PointerDownStep(c, target, clientX, clientY))
  {
  }
}

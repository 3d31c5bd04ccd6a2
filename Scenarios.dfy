/** Worked sessions on concrete input, each derived from the general
    properties of the Engine module. */
module Scenarios {
  import opened Types
  import opened Geometry
  import opened Resolver
  import opened Constraints
  import opened InitialAreaPosition
  import opened InitialPointPositions
  import opened InitialState
  import opened Engine

  /** The object constructed with minimum sizes `m` after pressing the SE
      handle, drawn at the container's bottom-right corner of a 500 x 400
      pixel container, with the pointer on it. */
  function PressedSouthEast(m: Sizes): Config {
    PointerDownStep(StartConfig(m), OnHandle(SE, 500.0, 400.0), 500.0, 400.0)
  }

  /** That press opens a resize session on SE with the pointer origin at
      zero, over the untouched full container. */
  lemma PressedSouthEastShape(m: Sizes)
    requires 0.0 <= m.width < 100.0 && 0.0 <= m.height < 100.0
    ensures var c := PressedSouthEast(m);
      c.state == Initial.(minSizes := m, isResizing := true, activePoint := Some(SE)) &&
      c.startX == 0.0 && c.startY == 0.0
    ensures Settled(PressedSouthEast(m)) && ResizeDefined(PressedSouthEast(m))
  {
    StartConfigIsInitial(m);
    StartConfigSettled(m);
    PointerSessionsSettle(StartConfig(m), OnHandle(SE, 500.0, 400.0), 500.0, 400.0);
  }

  lemma QuarterOfInitialArea()
    ensures Dragged(InitialArea, SE, Position(50.0, 50.0)) == Area(0.0, 0.0, 50.0, 50.0)
  {
  }

  lemma TooSmallForDefaultMinimum()
    ensures !CheckPointConstraints(SE, Position(2.0, 2.5), InitialArea, DefaultMinSizes)
  {
  }

  /** With minimum sizes 10 x 10, moving the pointer from the SE press to
      the container's centre commits the top-left quarter. */
  lemma DragSouthEastToCentre()
    ensures var c := PressedSouthEast(Sizes(10.0, 10.0));
      WellFormed(c) && ResizeDefined(c) &&
      PointerMoveStep(c, 250.0, 200.0, 500.0, 400.0).state.areaPosition == Area(0.0, 0.0, 50.0, 50.0)
  {
    var m := Sizes(10.0, 10.0);
    PressedSouthEastShape(m);
    var c := PressedSouthEast(m);
    var pos := Position(50.0, 50.0);
    assert PointerPercent(c, 250.0, 200.0, 500.0, 400.0) == pos;
    assert PointerMoveStep(c, 250.0, 200.0, 500.0, 400.0) == DragHandle(c, SE, pos);
    QuarterOfInitialArea();
    DragHandleFollowsPointer(c, SE, pos);
  }

  /** With the default 5 x 5 minimum, moving the pointer from the SE press
      to 10 x 10 pixels (2% x 2.5%) is refused by the constraint check:
      nothing changes. */
  lemma DragSouthEastBelowMinimumIsRefused()
    ensures var c := PressedSouthEast(DefaultMinSizes);
      WellFormed(c) && ResizeDefined(c) &&
      PointerMoveStep(c, 10.0, 10.0, 500.0, 400.0) == c
  {
    PressedSouthEastShape(DefaultMinSizes);
    var c := PressedSouthEast(DefaultMinSizes);
    assert PointerPercent(c, 10.0, 10.0, 500.0, 400.0) == Position(2.0, 2.5);
    TooSmallForDefaultMinimum();
    RejectedResizeChangesNothing(c, 10.0, 10.0, 500.0, 400.0);
  }

  lemma EastHalfOfInitialArea(anchor: Position)
    ensures CheckPointConstraints(E, Position(50.0, 30.0), InitialArea, DefaultMinSizes)
    ensures Dragged(InitialArea, E, Position(50.0, 30.0)) == Area(0.0, 0.0, 50.0, 100.0)
    ensures AreaValid(Area(0.0, 0.0, 50.0, 100.0), DefaultMinSizes)
    ensures !Heals(Area(0.0, 0.0, 50.0, 100.0), DefaultMinSizes)
    ensures AspectTarget(E, Area(0.0, 0.0, 50.0, 100.0), InitialArea, anchor) == RatioTarget(50.0, 50.0, None, None)
    ensures BoxArea(Area(0.0, 0.0, 50.0, 50.0), DefaultMinSizes, InitialArea, false) == Area(0.0, 0.0, 50.0, 50.0)
  {
  }

  /** With the ratio lock on the freshly constructed object, dragging E to
      half the container's width commits the 50 x 50 square at the origin:
      the ordinary step gives 50 x 100, and the strategy derives the height
      from the width and the square ratio of the area before the step. */
  lemma RatioLockedEastDrag()
    ensures var c := StartConfig(DefaultMinSizes);
      var locked := c.(state := c.state.(keepAspectRatio := true));
      Complete(locked.points) && RatioDefined(E, locked.state.areaPosition) &&
      DragHandle(locked, E, Position(50.0, 30.0)).state.areaPosition == Area(0.0, 0.0, 50.0, 50.0)
  {
    StartConfigSettled(DefaultMinSizes);
    StartConfigIsInitial(DefaultMinSizes);
    var c := StartConfig(DefaultMinSizes);
    var locked := c.(state := c.state.(keepAspectRatio := true));
    assert Settled(locked);
    assert locked.state.areaPosition == InitialArea;
    var pos := Position(50.0, 30.0);
    EastHalfOfInitialArea(locked.points[SE]);
    var cand := RoleCandidate(E, pos, locked.points[E]);
    DraggedIgnoresRole(InitialArea, E, pos, locked.points[E]);
    assert DragHandle(locked, E, pos) == RatioStep(locked, E, cand);
    HandleStepSettles(locked, E, cand);
    var c1 := HandleStep(locked, E, cand);
    assert c1.state.areaPosition == Area(0.0, 0.0, 50.0, 100.0);
    assert RatioStep(locked, E, cand) == BoxStep(c1, Area(0.0, 0.0, 50.0, 50.0));
  }

  /** The narrow area at the container's right edge used below, and the
      arithmetic of one NW drag on it. */
  lemma NarrowRightEdgeFacts(anchor: Position)
    requires anchor == Position(100.0, 100.0)
    ensures AreaValid(Area(0.0, 95.0, 5.0, 100.0), DefaultMinSizes)
    ensures RatioDefined(NW, Area(0.0, 95.0, 5.0, 100.0))
    ensures CheckPointConstraints(NW, Position(95.0, 60.0), Area(0.0, 95.0, 5.0, 100.0), DefaultMinSizes)
    ensures Dragged(Area(0.0, 95.0, 5.0, 100.0), NW, Position(95.0, 60.0)) == Area(60.0, 95.0, 5.0, 40.0)
    ensures BoxArea(Area(60.0, 95.0, 5.0, 40.0), DefaultMinSizes, Area(0.0, 95.0, 5.0, 100.0), true)
            == Area(60.0, 95.0, 5.0, 40.0)
    ensures AspectTarget(NW, Area(60.0, 95.0, 5.0, 40.0), Area(0.0, 95.0, 5.0, 100.0), anchor)
            == RatioTarget(2.0, 40.0, Some(98.0), Some(60.0))
    ensures BoxArea(Area(60.0, 98.0, 2.0, 40.0), DefaultMinSizes, Area(0.0, 95.0, 5.0, 100.0), true)
            == Area(60.0, 98.0, 5.0, 40.0)
  {
    assert 5.0 / 100.0 == 0.05;
  }

  /** With the ratio lock and a move session open beside the resize session
      on NW, dragging NW on a 5 x 100 area at the right edge commits an area
      whose right edge is at 103: outside the container. During a move
      `setBoxArea` skips its rollback, and its left clamp uses the target's
      width 2 before the width is raised to the minimum 5. */
  lemma RatioDuringMoveLeavesContainer()
    ensures var a := Area(0.0, 95.0, 5.0, 100.0);
      var c := Config(Initial.(areaPosition := a, prevAreaPosition := a, keepAspectRatio := true,
                               isMoving := true, isResizing := true, activePoint := Some(NW)),
                      Layout(a), 0.0, 0.0, 0.0, 0.0, [a]);
      Settled(c) && RatioDefined(NW, a) &&
      var r := DragHandle(c, NW, Position(95.0, 60.0)).state.areaPosition;
      r == Area(60.0, 98.0, 5.0, 40.0) && r.left + r.width > 100.0
  {
    var a := Area(0.0, 95.0, 5.0, 100.0);
    var c := Config(Initial.(areaPosition := a, prevAreaPosition := a, keepAspectRatio := true,
                             isMoving := true, isResizing := true, activePoint := Some(NW)),
                    Layout(a), 0.0, 0.0, 0.0, 0.0, [a]);
    var pos := Position(95.0, 60.0);
    assert c.points[SE] == Position(100.0, 100.0);
    NarrowRightEdgeFacts(c.points[SE]);
    assert Settled(c);
    var d := Area(60.0, 95.0, 5.0, 40.0);
    var p := Resolve(c.points, NW, pos);
    ResolveDerive(a, NW, pos);
    assert Derive(p) == d;
    assert SettledArea(c.state, p) == d;
    var c1 := HandleStep(c, NW, pos);
    assert c1.state.areaPosition == d && c1.state.prevAreaPosition == a;
    assert c1.state.minSizes == DefaultMinSizes && c1.state.isMoving;
    assert DragHandle(c, NW, pos) == RatioStep(c, NW, pos);
    assert RatioStep(c, NW, pos) == BoxStep(c1, Area(60.0, 98.0, 2.0, 40.0));
  }
}

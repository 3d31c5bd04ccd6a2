/** The `SimpleSelectionFrame` object: its state record, handle positions
    and press origin as fields, its operations as methods that update them
    in place the way the component does, each proved to perform the
    corresponding step of the Engine module. The `areaChanged` dispatches
    are recorded in `events`. */
module SelectionFrame {
  import opened Types
  import opened Geometry
  import opened PointDependencies
  import opened Resolver
  import opened Constraints
  import opened InitialPointPositions
  import opened InitialState
  import opened Engine

  class SimpleSelectionFrame {
    var state: SelectionState
    var points: Points
    var startX: real
    var startY: real
    var startLeft: real
    var startTop: real
    var events: seq<Area>

    /** Everything the object holds, as one value. */
    function Snapshot(): Config
      reads this
    {
      Config(state, points, startX, startY, startLeft, startTop, events)
    }

    ghost predicate Valid()
      reads this
    {
      WellFormed(Snapshot())
    }

    /** `new SimpleSelectionFrame(container, { minSizes })`: the initial
        state with the given minimum sizes, the initial handles, then one
        `setAreaPosition`. */
    constructor(minSizes: Sizes)
      ensures Valid()
      ensures Snapshot() == StartConfig(minSizes)
    {
      state := Initial.(minSizes := minSizes);
      InitialPointsDeriveInitialArea();
      points := InitialPoints;
      startX, startY, startLeft, startTop := 0.0, 0.0, 0.0, 0.0;
      events := [];
      new;
      assert Snapshot() == Config(Initial.(minSizes := minSizes), InitialPoints, 0.0, 0.0, 0.0, 0.0, []);
      SetAreaPosition();
    }

    /** `setBoxArea(a)`. */
    method SetBoxArea(a: Area)
      requires Valid()
      modifies this
      ensures Valid()
      ensures state == old(state).(areaPosition := BoxArea(a, old(state).minSizes, old(state).prevAreaPosition, old(state).isMoving))
      ensures points == Layout(state.areaPosition) && events == old(events) + [state.areaPosition]
      ensures Snapshot() == BoxStep(old(Snapshot()), a)
    {
      var m := state.minSizes;
      var constrainLeft := Max(0.0, Min(a.left, 100.0 - a.width));
      var constrainTop := Max(0.0, Min(a.top, 100.0 - a.height));
      var constrainWidth := Max(m.width, Min(a.width, 100.0 - constrainLeft));
      var constrainHeight := Max(m.height, Min(a.height, 100.0 - constrainTop));
      constrainLeft := if constrainWidth == m.width && !state.isMoving then state.prevAreaPosition.left else constrainLeft;
      constrainTop := if constrainHeight == m.height && !state.isMoving then state.prevAreaPosition.top else constrainTop;
      var area := Area(constrainTop, constrainLeft, constrainWidth, constrainHeight);
      assert area == BoxArea(a, m, state.prevAreaPosition, state.isMoving);
      state := state.(areaPosition := area);
      WritePoints(area);
      events := events + [state.areaPosition];
    }

    /** The eight handle writes of `setBoxArea`. */
    method WritePoints(area: Area)
      requires Complete(points)
      modifies this`points
      ensures points == Layout(area)
    {
      LayoutByWrites(points, area);
      points := points[NW := Position(area.left, area.top)]
                      [N := Position(area.left + area.width / 2.0, area.top)]
                      [NE := Position(area.left + area.width, area.top)]
                      [E := Position(area.left + area.width, area.top + area.height / 2.0)]
                      [SE := Position(area.left + area.width, area.top + area.height)]
                      [S := Position(area.left + area.width / 2.0, area.top + area.height)]
                      [SW := Position(area.left, area.top + area.height)]
                      [W := Position(area.left, area.top + area.height / 2.0)];
    }

    /** `setAreaPosition()`. */
    method SetAreaPosition()
      requires Valid()
      modifies this
      ensures Valid()
      ensures Snapshot() == SettleStep(old(Snapshot()))
    {
      SettleStepCases(Snapshot());
      var width := points[E].left - points[W].left;
      var height := points[S].top - points[N].top;
      var left := MinOf(Lefts(points));
      var top := MinOf(Tops(points));
      var derived := Area(top, left, width, height);
      assert derived == Derive(points);
      state := state.(prevAreaPosition := state.areaPosition, areaPosition := derived);
      assert Snapshot() == Derived(old(Snapshot()));
      if derived.width <= state.minSizes.width {
        SetBoxArea(derived.(width := state.minSizes.width));
        return;
      }
      if derived.height <= state.minSizes.height {
        SetBoxArea(derived.(height := state.minSizes.height));
        return;
      }
      events := events + [state.areaPosition];
    }

    /** `centerPoints(names)`: for each name, the mean top of its oX list
        and the mean left of its oY list, summed in loops. */
    method CenterPoints(names: seq<Point>)
      requires Complete(points)
      modifies this`points
      ensures Complete(points)
      ensures points == CenterAll(old(points), names)
    {
      for i := 0 to |names|
        invariant Complete(points)
        invariant points == CenterAll(old(points), names[..i])
      {
        CenterOnePoint(names[i]);
        assert names[..i + 1][..i] == names[..i];
      }
      assert names[..|names|] == names;
    }

    /** One round of the `centerPoints` loop: a non-empty oX list sets the
        handle's top to its mean top, then a non-empty oY list sets its left
        to its mean left. */
    method CenterOnePoint(name: Point)
      requires Complete(points)
      modifies this`points
      ensures Complete(points)
      ensures points == CenterOne(old(points), name)
    {
      var deps := Deps(name);
      if |deps.oX| > 0 {
        var sumY := SumTopsOf(deps.oX);
        points := points[name := points[name].(top := sumY / (|deps.oX| as real))];
      }
      if |deps.oY| > 0 {
        var sumX := SumLeftsOf(deps.oY);
        points := points[name := points[name].(left := sumX / (|deps.oY| as real))];
      }
    }

    /** The summing loop of `centerPoints` over the tops of `ts`. */
    method SumTopsOf(ts: seq<Point>) returns (sum: real)
      requires Complete(points)
      ensures sum == SumTops(points, ts)
    {
      sum := 0.0;
      for j := 0 to |ts|
        invariant sum == SumTops(points, ts[..j])
      {
        assert ts[..j + 1][..j] == ts[..j];
        sum := sum + points[ts[j]].top;
      }
      assert ts[..|ts|] == ts;
    }

    /** The summing loop of `centerPoints` over the lefts of `ts`. */
    method SumLeftsOf(ts: seq<Point>) returns (sum: real)
      requires Complete(points)
      ensures sum == SumLefts(points, ts)
    {
      sum := 0.0;
      for j := 0 to |ts|
        invariant sum == SumLefts(points, ts[..j])
      {
        assert ts[..j + 1][..j] == ts[..j];
        sum := sum + points[ts[j]].left;
      }
      assert ts[..|ts|] == ts;
    }

    /** The oX loop of `updateDependentPoints`: every listed handle takes
        the left `x`. */
    method CopyLeft(targets: seq<Point>, x: real)
      requires Complete(points)
      modifies this`points
      ensures Complete(points)
      ensures points == SetLefts(old(points), targets, x)
    {
      SetLeftsStep(points, [], N, x);
      for i := 0 to |targets|
        invariant Complete(points)
        invariant points == SetLefts(old(points), targets[..i], x)
      {
        SetLeftsStep(old(points), targets[..i], targets[i], x);
        assert targets[..i + 1] == targets[..i] + [targets[i]];
        points := points[targets[i] := points[targets[i]].(left := x)];
      }
      assert targets[..|targets|] == targets;
    }

    /** The oY loop of `updateDependentPoints`: every listed handle takes
        the top `y`. */
    method CopyTop(targets: seq<Point>, y: real)
      requires Complete(points)
      modifies this`points
      ensures Complete(points)
      ensures points == SetTops(old(points), targets, y)
    {
      SetTopsStep(points, [], N, y);
      for i := 0 to |targets|
        invariant Complete(points)
        invariant points == SetTops(old(points), targets[..i], y)
      {
        SetTopsStep(old(points), targets[..i], targets[i], y);
        assert targets[..i + 1] == targets[..i] + [targets[i]];
        points := points[targets[i] := points[targets[i]].(top := y)];
      }
      assert targets[..|targets|] == targets;
    }

    /** `updateDependentPoints(h, c)`: copy the left to the oX list and the
        top to the oY list, then re-centre the edge handles. */
    method UpdateDependentPoints(h: Point, c: Position)
      requires Complete(points)
      modifies this`points
      ensures Complete(points)
      ensures points == Propagate(old(points), h, c)
    {
      var deps := Deps(h);
      SetLeftsStep(points, [], h, c.left);
      if |deps.oX| > 0 {
        CopyLeft(deps.oX, c.left);
      }
      SetTopsStep(points, [], h, c.top);
      if |deps.oY| > 0 {
        CopyTop(deps.oY, c.top);
      }
      assert points == Copy(old(points), h, c);
      CenterPoints(EdgeOrder);
    }

    /** `handlePointPosition(h, c)`. */
    method HandlePointPosition(h: Point, c: Position)
      requires Valid()
      modifies this
      ensures Valid()
      ensures Snapshot() == HandleStep(old(Snapshot()), h, c)
    {
      points := points[h := c];
      UpdateDependentPoints(h, c);
      SetAreaPosition();
    }

    /** `resizeAreaWithKeepAspectRatio(h, c)`. */
    method ResizeAreaWithKeepAspectRatio(h: Point, c: Position)
      requires Valid() && RatioDefined(h, state.areaPosition)
      modifies this
      ensures Valid()
      ensures Snapshot() == RatioStep(old(Snapshot()), h, c)
    {
      var rightBottom := points[SE];
      HandlePointPosition(h, c);
      ghost var resolved := Snapshot();
      var prev := state.prevAreaPosition;
      var area := state.areaPosition;
      var width, height, left, top := RatioSize(h, area, prev, rightBottom);
      if height >= 100.0 || width >= 100.0 {
        SetBoxArea(prev);
        assert Snapshot() == BoxStep(resolved, prev);
        return;
      }
      var target := Area(OrElse(top, area.top), OrElse(left, area.left), width, height);
      SetBoxArea(target);
      assert Snapshot() == BoxStep(resolved, target);
    }

    /** The role switch of `resizeAreaWithKeepAspectRatio`: the size that
        keeps the ratio of `prev`, and for NW the position that keeps the
        south-east corner at `rightBottom` (`None` where the component
        leaves NaN). */
    static method RatioSize(h: Point, area: Area, prev: Area, rightBottom: Position)
      returns (width: real, height: real, left: Option<real>, top: Option<real>)
      requires RatioDefined(h, prev)
      ensures RatioTarget(width, height, left, top) == AspectTarget(h, area, prev, rightBottom)
    {
      width := prev.width;
      height := prev.height;
      left := None;
      top := None;
      match h {
        case SE | SW | E | W =>
          width := area.width;
          height := area.width / (prev.width / prev.height);
          assert RatioTarget(width, height, left, top) == AspectTarget(h, area, prev, rightBottom);
        case NE | N | S =>
          width := area.height * (prev.width / prev.height);
          height := area.height;
          assert RatioTarget(width, height, left, top) == AspectTarget(h, area, prev, rightBottom);
        case NW =>
          width := area.height * (prev.width / prev.height);
          height := area.height;
          left := Some(Abs(rightBottom.left - width));
          top := Some(rightBottom.top - height);
          ghost var t := AspectTarget(NW, area, prev, rightBottom);
          assert t.width == width && t.height == height;
          assert t.left == left && t.top == top;
      }
    }

    /** `onResizing`, with the pointer position and the container's size in
        pixels as parameters. */
    method OnResizing(clientX: real, clientY: real, containerWidth: real, containerHeight: real)
      requires Valid() && ResizeDefined(Snapshot())
      requires containerWidth > 0.0 && containerHeight > 0.0
      modifies this
      ensures Valid()
      ensures Snapshot() == ResizeStep(old(Snapshot()), clientX, clientY, containerWidth, containerHeight)
    {
      if !state.isResizing && state.activePoint.None? {
        return;
      }
      ghost var c0 := Snapshot();
      var h := state.activePoint.value;
      var newLeft := clientX - startX;
      var newTop := clientY - startY;
      var oldLeft := points[h].left;
      var oldTop := points[h].top;
      newLeft := Max(0.0, Min(newLeft, containerWidth));
      newTop := Max(0.0, Min(newTop, containerHeight));
      newLeft := newLeft / containerWidth * 100.0;
      newTop := newTop / containerHeight * 100.0;
      ghost var pos := Position(newLeft, newTop);
      assert pos == PointerPercent(c0, clientX, clientY, containerWidth, containerHeight);
      assert ResizeStep(c0, clientX, clientY, containerWidth, containerHeight) == DragHandle(c0, h, pos);
      if !CheckPointConstraints(h, Position(newLeft, newTop), state.areaPosition, state.minSizes) {
        return;
      }
      var resultLeft: real;
      var resultTop: real;
      match h {
        case E | W =>
          resultLeft, resultTop := newLeft, oldTop;
        case N | S =>
          resultLeft, resultTop := oldLeft, newTop;
        case NE | SE | SW | NW =>
          resultLeft, resultTop := newLeft, newTop;
      }
      assert Position(resultLeft, resultTop) == RoleCandidate(h, pos, c0.points[h]);
      if state.keepAspectRatio {
        ResizeAreaWithKeepAspectRatio(h, Position(resultLeft, resultTop));
        return;
      }
      HandlePointPosition(h, Position(resultLeft, resultTop));
    }

    /** `onMoving`, with the pointer position and the container's size in
        pixels as parameters. */
    method OnMoving(clientX: real, clientY: real, containerWidth: real, containerHeight: real)
      requires Valid()
      requires containerWidth > 0.0 && containerHeight > 0.0
      modifies this
      ensures Valid()
      ensures Snapshot() == MoveStep(old(Snapshot()), clientX, clientY, containerWidth, containerHeight)
    {
      if state.activePoint.Some? {
        return;
      }
      var width := state.areaPosition.width;
      var height := state.areaPosition.height;
      var dx := clientX - startX;
      var dy := clientY - startY;
      var dLeft := dx / containerWidth * 100.0;
      var dTop := dy / containerHeight * 100.0;
      var newLeft := startLeft + dLeft;
      var newTop := startTop + dTop;
      newLeft := Max(0.0, Min(newLeft, 100.0 - width));
      newTop := Max(0.0, Min(newTop, 100.0 - height));
      SetBoxArea(Area(newTop, newLeft, width, height));
    }

    /** `onEndMoving`, the pointer-up listener. */
    method OnEndMoving()
      requires Valid()
      modifies this
      ensures Valid()
      ensures Snapshot() == EndMovingStep(old(Snapshot()))
    {
      state := state.(isMoving := false, isResizing := false);
      state := state.(activePoint := None);
      startX := 0.0;
      startY := 0.0;
    }

    /** The pointer-down listener, with what the pointer went down on and
        its position in pixels as parameters. */
    method PointerDown(target: PointerTarget, clientX: real, clientY: real)
      requires Valid()
      modifies this
      ensures Valid()
      ensures Snapshot() == PointerDownStep(old(Snapshot()), target, clientX, clientY)
    {
      if target.NoTarget? || state.isDisabled {
        return;
      }
      if state.preventEventCondition {
        return;
      }
      match target {
        case OnHandle(h, offsetLeft, offsetTop) =>
          state := state.(isResizing := true);
          state := state.(activePoint := Some(h));
          startY := clientY - offsetTop;
          startX := clientX - offsetLeft;
        case InsideArea =>
          state := state.(isMoving := true);
          startY := clientY;
          startX := clientX;
          startLeft := state.areaPosition.left;
          startTop := state.areaPosition.top;
        case _ =>
      }
    }

    /** The pointer-move listener. */
    method PointerMove(clientX: real, clientY: real, containerWidth: real, containerHeight: real)
      requires Valid() && ResizeDefined(Snapshot())
      requires containerWidth > 0.0 && containerHeight > 0.0
      modifies this
      ensures Valid()
      ensures Snapshot() == PointerMoveStep(old(Snapshot()), clientX, clientY, containerWidth, containerHeight)
    {
      if state.preventEventCondition {
        return;
      }
      if state.isResizing {
        OnResizing(clientX, clientY, containerWidth, containerHeight);
      }
      if state.isMoving {
        OnMoving(clientX, clientY, containerWidth, containerHeight);
      }
    }

    /** `reset(a)`; the component's default argument is `InitialArea`. */
    method Reset(a: Area)
      requires Valid()
      modifies this
      ensures Valid()
      ensures Snapshot() == ResetStep(old(Snapshot()), a)
    {
      SetBoxArea(a);
      state := Initial.(areaPosition := state.areaPosition);
    }

    /** `togglePointsOff()`: flip the hidden flag. */
    method TogglePointsOff()
      requires Valid()
      modifies this
      ensures Valid()
      ensures Snapshot() == TogglePointsOffStep(old(Snapshot()))
    {
      state := state.(isHidden := !state.isHidden);
    }

    /** `toggleDisable()`: flip the disabled flag. */
    method ToggleDisable()
      requires Valid()
      modifies this
      ensures Valid()
      ensures Snapshot() == ToggleDisableStep(old(Snapshot()))
    {
      state := state.(isDisabled := !state.isDisabled);
    }

    /** The `state` setter: replace the state record. */
    method SetState(newState: SelectionState)
      requires Valid()
      requires newState.isResizing <==> newState.activePoint.Some?
      modifies this
      ensures Valid()
      ensures Snapshot() == old(Snapshot()).(state := newState)
    {
      state := newState;
    }
  }
}

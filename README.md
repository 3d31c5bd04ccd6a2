# simple-selection-frame: the selection engine in Dafny

`SimpleSelectionFrame` is a crop-frame widget. It holds a rectangle (the
*area*) inside a container. Coordinates are percent of the container, so
the container spans 0..100 on both axes. Eight handles sit on the area's
outline: four corners (NW, NE, SE, SW) and four edge midpoints (N, E, S, W).
Dragging a handle resizes the area; dragging inside the selection moves it.
Every commit announces the area in an `areaChanged` event.

This project models the widget's geometry and state engine and proves what
the code promises about them:

- `setBoxArea` clamps into the container and holds the minimum size;
  outside a move it also rolls back the position when a size lands exactly
  on its minimum. During a move the rollback is skipped, so a candidate
  below the minimum, enlarged to it, can leave the container (see below).
- The handle resolver copies the dragged handle's coordinates to its
  dependents (the `pointDependencies` table), then re-centres the edge
  handles.
- `setAreaPosition` derives the area back from the handles and self-heals
  an area at or below the minimum.
- `checkPointConstraints` and the role rule decide where `onResizing` puts
  a handle.
- The aspect-ratio strategy keeps the ratio or aborts on overflow.
- `onMoving` moves the area without resizing it.
- The pointer listeners, `reset`, the toggles and the state setter.

## Structure

| file | module | contents |
|---|---|---|
| Types.dfy | `Types` | handles, positions, areas, sizes and the state record |
| PointDependencies.dfy | `PointDependencies` | the dependency table and its shape |
| InitialAreaPosition.dfy | `InitialAreaPosition` | the default area |
| InitialPointPositions.dfy | `InitialPointPositions` | the initial handles |
| InitialState.dfy | `InitialState` | the initial state record |
| Geometry.dfy | `Geometry` | handle layout of a rectangle; the rectangle derived from handles |
| Resolver.dfy | `Resolver` | copy and centring steps of `updateDependentPoints`, as functions |
| Constraints.dfy | `Constraints` | arithmetic of each step as functions: clamp, self-heal, check, pixel conversion, ratio rule, move |
| Engine.dfy | `Engine` | the whole object as a value `Config`, one step function per operation, and the properties that link the steps |
| SelectionFrame.dfy | `SelectionFrame` | class `SimpleSelectionFrame`, which changes its fields in place as the source does |
| Scenarios.dfy | `Scenarios` | whole sessions on concrete input |

Each listener and public method of the class except the `state` setter is
proved against a step function of `Engine`; the setter's postcondition
replaces the state record directly. The helper methods (handle writes, copies, centring,
the ratio switch) are proved against the `Geometry`, `Resolver` and
`Constraints` functions they compute.
Each such method's postcondition is `Snapshot() == Step(old(Snapshot()), …)`, where
`Snapshot()` packs the fields into a `Config`. The lemmas about the step
functions then carry over to the class.

`Settled(c)` is the invariant the lemmas keep:

- the handles are exactly the layout of the committed area;
- the area and its snapshot lie in the container and are at least the
  minimum size;
- the last event announced is the current area.

Behaviour of the code worth knowing (the model follows the code):

- A drag that would make the area smaller than the minimum is refused by
  `checkPointConstraints`, and nothing changes. The area is not clamped to
  the minimum (`Scenarios.DragSouthEastBelowMinimumIsRefused`).
- `reset` resets every state field, including the minimum sizes and the
  aspect-ratio flag.
- A resize session and a move session can be open at once: two
  pointer-downs set both flags. A pointer move then runs the resize only:
  `onMoving` returns because a handle is active
  (`Engine.BothSessionsResizeOnly`). With the ratio lock, that resize runs
  `setBoxArea` with the move flag set, so the minimum-size rollback is
  skipped and the area can leave the container
  (`Scenarios.RatioDuringMoveLeavesContainer` commits left 98 and width 5).
- Disabling only makes the pointer-down listener ignore presses. It does
  not end a session already open, although the doc comment of
  `toggleDisable` (`SimpleSelectionFrame.ts:108-112`) says it forbids
  moving the area.
- In the NW ratio rule, `left || area.left` reads a re-anchored left of
  exactly 0 as "unset". The resolved left is used instead, so the
  south-east corner moves (`Constraints.NorthWestZeroLeftFallsBack`).

## Model

| member | source | states |
|---|---|---|
| Geometry.MinOf | src/SimpleSelectionFrame/SimpleSelectionFrame.ts:688-696 | `Math.min` over a non-empty list: the result occurs in the list and is at most every element |
| Geometry.LayoutByWrites | src/SimpleSelectionFrame/SimpleSelectionFrame.ts:162-187 | the eight handle writes of `setBoxArea`, over any complete handle set, give exactly the handle layout of the committed rectangle |
| Geometry.LayoutConsistent | src/SimpleSelectionFrame/SimpleSelectionFrame.ts:162-177 | a laid-out handle set is consistent: the corners share lines with the edge handles, and each edge handle is at the midpoint of its corners |
| Geometry.DeriveLayout | src/SimpleSelectionFrame/SimpleSelectionFrame.ts:683-699 | round trip: deriving the area from the layout of a rectangle of non-negative size gives back that rectangle |
| Geometry.LayoutDerive | src/SimpleSelectionFrame/SimpleSelectionFrame.ts:683-699 | the other direction: a consistent handle set of non-negative size is the layout of the rectangle derived from it |
| Geometry.DeriveConsistent | src/SimpleSelectionFrame/SimpleSelectionFrame.ts:683-699 | for a consistent handle set of non-negative size, the minima over all handles are W's left and N's top, so the derived rectangle is spanned by W, E, N and S |
| Geometry.ConsistentIffLayout | src/SimpleSelectionFrame/SimpleSelectionFrame.ts:683-699 | both directions, for handle sets of non-negative size: a handle set is consistent exactly when it equals the layout of its derived rectangle |
| PointDependencies.DepsShape | src/SimpleSelectionFrame/utils/PointDependencies.ts:11-21 | E and W have two oX entries and no oY entries; N and S the reverse; corners have two of each |
| PointDependencies.DepsIrreflexiveAndDistinct | src/SimpleSelectionFrame/utils/PointDependencies.ts:11-21 | no handle lists itself, and no list repeats an entry |
| PointDependencies.CornerDepsAreItsLines | src/SimpleSelectionFrame/utils/PointDependencies.ts:11-21 | a corner's oX list is exactly the other handles on its vertical line; its oY list, those on its horizontal line |
| PointDependencies.CornerLinksSymmetric | src/SimpleSelectionFrame/utils/PointDependencies.ts:11-21 | corner-to-corner dependencies hold in both directions |
| PointDependencies.EdgeListsAreBorderingCorners | src/SimpleSelectionFrame/utils/PointDependencies.ts:11-21 | an edge handle's lists hold only corners: its two bordering corners |
| InitialAreaPosition.InitialAreaFillsContainer | src/SimpleSelectionFrame/utils/InitialAreaPosition.ts:3-8 | the default area is at the origin, 100 by 100, reaching both far edges |
| InitialPointPositions.InitialPointsShape | src/SimpleSelectionFrame/utils/InitialPointPositions.ts:4-13 | every handle has a position in [0, 100]; the corners are at {0, 100}²; the edge handles are at the midpoints |
| InitialPointPositions.InitialPointsAreLayoutOfInitialArea | src/SimpleSelectionFrame/utils/InitialPointPositions.ts:4-13 | the initial handles are the layout of the default area, and they derive the default area |
| InitialPointPositions.InitialPointsDeriveInitialArea | src/SimpleSelectionFrame/utils/InitialPointPositions.ts:4-13 | deriving the area from the initial handles gives the full container |
| InitialState.InitialStateIsIdleAndValid | src/SimpleSelectionFrame/utils/_initialState.ts:4-15 | the initial state: no session, every flag off, minimum 5 × 5, area and snapshot the default area, both valid |
| Resolver.SetLeftsStep | src/SimpleSelectionFrame/SimpleSelectionFrame.ts:666-670 | copying a left to no handle changes nothing; copying it to one more handle is one more in-place write |
| Resolver.SetTopsStep | src/SimpleSelectionFrame/SimpleSelectionFrame.ts:673-677 | the same for tops |
| Resolver.CopyWritesDependents | src/SimpleSelectionFrame/SimpleSelectionFrame.ts:657-677 | the copy step gives the new left to exactly the oX dependents and the new top to exactly the oY dependents; every other coordinate is unchanged |
| Resolver.CenterOneEdge | src/SimpleSelectionFrame/SimpleSelectionFrame.ts:618-649 | one centring round on an edge handle puts it at the midpoint of its two bordering corners and changes nothing else |
| Resolver.CenterAllIsMidpoints | src/SimpleSelectionFrame/SimpleSelectionFrame.ts:679 | centring N, S, E, W in that order equals the reference definition: every edge handle at the midpoint of its corners |
| Resolver.ResolveLayout | src/SimpleSelectionFrame/SimpleSelectionFrame.ts:509-511 | resolver consistency: starting from the layout of any rectangle, moving any handle to any position and propagating gives exactly the layout of the dragged rectangle |
| Resolver.ResolveDerive | src/SimpleSelectionFrame/SimpleSelectionFrame.ts:509-512 | the resolved handles are consistent, and for non-negative sizes they derive the dragged rectangle |
| Constraints.BoxArea | src/SimpleSelectionFrame/SimpleSelectionFrame.ts:143-153 | the committed area of `setBoxArea` is always at least the minimum size |
| Constraints.BoxAreaKeepsFittingSize | src/SimpleSelectionFrame/SimpleSelectionFrame.ts:143-153 | a size between the minimum and 100 is kept; unless the rollback applies, the position is the candidate clamped into [0, 100 − size] |
| Constraints.BoxAreaRollback | src/SimpleSelectionFrame/SimpleSelectionFrame.ts:150-153 | outside a move, an axis whose committed size equals its minimum takes the previous area's position; otherwise the clamped candidate |
| Constraints.BoxAreaInBounds | src/SimpleSelectionFrame/SimpleSelectionFrame.ts:143-153 | with a valid previous area (and, during a move, a candidate of at least the minimum), the committed area lies in the container at no less than the minimum |
| Constraints.BoxAreaKeepsFittingAxes | src/SimpleSelectionFrame/SimpleSelectionFrame.ts:143-153 | an axis that already fits and sits at the previous position comes out unchanged, whichever rollback branch applies |
| Constraints.BoxAreaFixedPoint | src/SimpleSelectionFrame/SimpleSelectionFrame.ts:143-153 | committing a valid area over itself changes nothing |
| Constraints.InitialAreaIsFixedPoint | src/SimpleSelectionFrame/SimpleSelectionFrame.ts:82-83 | the default area is committed unchanged whenever both minimum sizes are below 100 |
| Constraints.SettledArea | src/SimpleSelectionFrame/SimpleSelectionFrame.ts:702-722 | the area `setAreaPosition` commits is at least the minimum size |
| Constraints.SettleHoldsPosition | src/SimpleSelectionFrame/SimpleSelectionFrame.ts:702-722 | outside a move, a collapsed width (or else height) is healed to exactly the minimum at the position from before the step; without a heal the derived area is committed as is |
| Constraints.SettledKeepsFittingAxes | src/SimpleSelectionFrame/SimpleSelectionFrame.ts:702-722 | an axis of the derived area that fits and has not moved keeps its position and length through the self-heal |
| Constraints.ConstraintsMeanMinimumSize | src/SimpleSelectionFrame/SimpleSelectionFrame.ts:458-497 | the check holds exactly when the dragged rectangle keeps at least the minimum on every axis the handle controls |
| Constraints.PixelToPercent | src/SimpleSelectionFrame/SimpleSelectionFrame.ts:390-395 | the converted coordinate lies in [0, 100]; for a pointer inside the container it is the pixel offset in percent of the container |
| Constraints.RoleCandidate | src/SimpleSelectionFrame/SimpleSelectionFrame.ts:408-439 | per axis: the handed-on coordinate is the pointer's on an axis the handle controls and the handle's current one otherwise |
| Constraints.AspectTarget | src/SimpleSelectionFrame/SimpleSelectionFrame.ts:537-567 | the target keeps the resolved width (SE, SW, E, W) or height (the others), has the previous area's width-to-height ratio (cross-multiplied), and only for NW carries a position: the south-east anchor minus the target's size (the left as an absolute value) |
| Constraints.CommitTargetKeepsSize | src/SimpleSelectionFrame/SimpleSelectionFrame.ts:585 | a target below 100 and at least the minimum is committed at exactly its size |
| Constraints.CommitTargetKeepsRatio | src/SimpleSelectionFrame/SimpleSelectionFrame.ts:585 | a committed target of the previous area's ratio keeps that ratio, as a cross product and as a quotient |
| Constraints.RatioAbortRestoresPrevious | src/SimpleSelectionFrame/SimpleSelectionFrame.ts:578-583 | when the target reaches 100 on either side, the area before the step is committed again unchanged |
| Constraints.RatioCommitKeepsRatio | src/SimpleSelectionFrame/SimpleSelectionFrame.ts:520-586 | on the commit path, the area committed has the target's size and the previous area's ratio |
| Constraints.NorthWestKeepsSouthEastAnchored | src/SimpleSelectionFrame/SimpleSelectionFrame.ts:558-565 | for NW with positive re-anchored coordinates, the committed bottom-right corner is where SE was before the step |
| Constraints.NorthWestZeroLeftFallsBack | src/SimpleSelectionFrame/SimpleSelectionFrame.ts:585 | concrete case: a re-anchored left of 0 is replaced by the resolved left, and the right edge moves from 40 to 50 |
| Constraints.MoveTarget | src/SimpleSelectionFrame/SimpleSelectionFrame.ts:327-358 | the move candidate has the area's own size |
| Constraints.MovingKeepsSize | src/SimpleSelectionFrame/SimpleSelectionFrame.ts:337-358 | during a move, an area between the minimum and 100 is committed at its size, at the clamped moved position, inside the container |
| Engine.SettleStepCases | src/SimpleSelectionFrame/SimpleSelectionFrame.ts:683-725 | `setAreaPosition` has three outcomes: a width heal through `setBoxArea`, a height heal through `setBoxArea`, or the derived area plus one event |
| Engine.SettleStepWithoutHeal | src/SimpleSelectionFrame/SimpleSelectionFrame.ts:683-724 | over handles that already describe the area and its snapshot, without a heal, `setAreaPosition` only announces the area |
| Engine.StartConfigIsInitial | src/SimpleSelectionFrame/SimpleSelectionFrame.ts:57-65 | the new object holds the initial state with the given minimum, the initial handles, and one announcement of the full container |
| Engine.StartConfigSettled | src/SimpleSelectionFrame/SimpleSelectionFrame.ts:57-65 | the new object is settled |
| Engine.DraggedIgnoresRole | src/SimpleSelectionFrame/SimpleSelectionFrame.ts:408-439 | the role rule drops only coordinates the handle does not control, so the dragged rectangle is the same |
| Engine.CheckedDragIsValid | src/SimpleSelectionFrame/SimpleSelectionFrame.ts:398-402 | a drag inside the container that passes the check gives a valid rectangle |
| Engine.SettledAreaValid | src/SimpleSelectionFrame/SimpleSelectionFrame.ts:702-722 | the self-heal of a valid derived area from a valid area is valid, and without a heal it is the derived area |
| Engine.HandleStepSettles | src/SimpleSelectionFrame/SimpleSelectionFrame.ts:509-513 | `handlePointPosition` with a valid dragged rectangle keeps the object settled and, without a heal, commits that rectangle |
| Engine.BoxStepSettles | src/SimpleSelectionFrame/SimpleSelectionFrame.ts:140-192 | outside a move, `setBoxArea` of any candidate keeps a settled object settled |
| Engine.RatioStepSettles | src/SimpleSelectionFrame/SimpleSelectionFrame.ts:520-586 | outside a move, the ratio strategy keeps the object settled |
| Engine.DragHandleSettles | src/SimpleSelectionFrame/SimpleSelectionFrame.ts:398-447 | a handle drag to any position in the container keeps the object settled, refused or not, except the ratio strategy during a move (see Left out) |
| Engine.HandleStepKeepsSessions | src/SimpleSelectionFrame/SimpleSelectionFrame.ts:509-513 | the ordinary handle step leaves the active handle and both session flags alone |
| Engine.RatioStepKeepsSessions | src/SimpleSelectionFrame/SimpleSelectionFrame.ts:520-586 | the ratio strategy leaves the active handle and both session flags alone |
| Engine.DragHandleKeepsSessions | src/SimpleSelectionFrame/SimpleSelectionFrame.ts:398-447 | a handle drag, refused or not, leaves the active handle and both session flags alone |
| Engine.RejectedResizeChangesNothing | src/SimpleSelectionFrame/SimpleSelectionFrame.ts:398-402 | a pointer position the check refuses leaves the whole object unchanged, with no event |
| Engine.DragHandleFollowsPointer | src/SimpleSelectionFrame/SimpleSelectionFrame.ts:441-447 | without the ratio lock, a checked drag that needs no heal commits exactly the dragged rectangle, with handles at its layout |
| Engine.OrdinaryDragSettlesDragged | src/SimpleSelectionFrame/SimpleSelectionFrame.ts:441-447 | without the ratio lock, a checked drag commits the settled area of the resolved handles, which derive the dragged rectangle |
| Engine.EdgeDragKeepsCrossAxis | src/SimpleSelectionFrame/SimpleSelectionFrame.ts:408-424 | without the ratio lock, E and W keep top and height (E also left), and N and S keep left and width (S also top), heal or not |
| Engine.DragHandleKeepsRatio | src/SimpleSelectionFrame/SimpleSelectionFrame.ts:441-444 | with the ratio lock and a target that fits, the committed area has the ratio of the area before the drag |
| Engine.DragHandleAbortKeepsArea | src/SimpleSelectionFrame/SimpleSelectionFrame.ts:578-583 | with the ratio lock and a target reaching 100 on either side, the drag leaves the area from before it, and its handle layout, unchanged |
| Engine.MoveStepKeepsSize | src/SimpleSelectionFrame/SimpleSelectionFrame.ts:319-359 | a move keeps the size, lands at the clamped moved position and keeps the object settled |
| Engine.PointerMoveSettles | src/SimpleSelectionFrame/SimpleSelectionFrame.ts:301-313 | the pointer-move listener keeps the object settled (see Left out for the excluded case) |
| Engine.BothSessionsResizeOnly | src/SimpleSelectionFrame/SimpleSelectionFrame.ts:301-325 | with a resize and a move session both open, a pointer move is exactly the resize step: the move handler returns because a handle is active |
| Engine.PointerSessionsSettle | src/SimpleSelectionFrame/SimpleSelectionFrame.ts:240-288 | pointer-down and pointer-up keep the object settled; after pointer-up no session is open |
| Engine.ResetToDefault | src/SimpleSelectionFrame/SimpleSelectionFrame.ts:82-85 | `reset()` with minimum sizes below 100 restores the initial state and handles and announces the full container |
| Engine.TogglesAreInvolutions | src/SimpleSelectionFrame/SimpleSelectionFrame.ts:93-114 | each toggle undone by a second toggle gives back the object; both keep it settled |
| Engine.DisabledIgnoresPointerDown | src/SimpleSelectionFrame/SimpleSelectionFrame.ts:240-242 | while disabled, pointer-down changes nothing |
| Engine.HiddenPointsStillGrab | src/SimpleSelectionFrame/SimpleSelectionFrame.ts:87-106 | hiding the handles does not change what pointer-down does, so the area can still be moved |
| SelectionFrame.SimpleSelectionFrame.constructor | src/SimpleSelectionFrame/SimpleSelectionFrame.ts:57-65 | the object starts as the initial state with the given minimum and the initial handles, then one `setAreaPosition` |
| SelectionFrame.SimpleSelectionFrame.SetBoxArea | src/SimpleSelectionFrame/SimpleSelectionFrame.ts:140-192 | commits the clamped area, writes the handle layout, appends one event, and changes no other state field |
| SelectionFrame.SimpleSelectionFrame.WritePoints | src/SimpleSelectionFrame/SimpleSelectionFrame.ts:180-187 | the handles become the layout of the area |
| SelectionFrame.SimpleSelectionFrame.SetAreaPosition | src/SimpleSelectionFrame/SimpleSelectionFrame.ts:683-725 | snapshot := area; area := derived area or its self-heal; one event per path |
| SelectionFrame.SimpleSelectionFrame.CenterPoints | src/SimpleSelectionFrame/SimpleSelectionFrame.ts:618-649 | the loop over names gives the functional centring `CenterAll` |
| SelectionFrame.SimpleSelectionFrame.CenterOnePoint | src/SimpleSelectionFrame/SimpleSelectionFrame.ts:619-648 | one round sets a mean top by oX and then a mean left by oY |
| SelectionFrame.SimpleSelectionFrame.SumTopsOf | src/SimpleSelectionFrame/SimpleSelectionFrame.ts:625-629 | the summing loop returns the sum of the listed tops |
| SelectionFrame.SimpleSelectionFrame.SumLeftsOf | src/SimpleSelectionFrame/SimpleSelectionFrame.ts:638-642 | the summing loop returns the sum of the listed lefts |
| SelectionFrame.SimpleSelectionFrame.CopyLeft | src/SimpleSelectionFrame/SimpleSelectionFrame.ts:666-670 | every listed handle takes the new left |
| SelectionFrame.SimpleSelectionFrame.CopyTop | src/SimpleSelectionFrame/SimpleSelectionFrame.ts:673-677 | every listed handle takes the new top |
| SelectionFrame.SimpleSelectionFrame.UpdateDependentPoints | src/SimpleSelectionFrame/SimpleSelectionFrame.ts:657-680 | copy, then centring, equal `Propagate` |
| SelectionFrame.SimpleSelectionFrame.HandlePointPosition | src/SimpleSelectionFrame/SimpleSelectionFrame.ts:509-513 | equals `HandleStep`: place, propagate, settle |
| SelectionFrame.SimpleSelectionFrame.ResizeAreaWithKeepAspectRatio | src/SimpleSelectionFrame/SimpleSelectionFrame.ts:520-586 | equals `RatioStep`: the ordinary step, then the abort or the ratio commit |
| SelectionFrame.SimpleSelectionFrame.RatioSize | src/SimpleSelectionFrame/SimpleSelectionFrame.ts:537-567 | the role switch computes `AspectTarget` |
| SelectionFrame.SimpleSelectionFrame.OnResizing | src/SimpleSelectionFrame/SimpleSelectionFrame.ts:369-448 | equals `ResizeStep`: conversion, check, role rule, ratio or ordinary step |
| SelectionFrame.SimpleSelectionFrame.OnMoving | src/SimpleSelectionFrame/SimpleSelectionFrame.ts:319-359 | equals `MoveStep` |
| SelectionFrame.SimpleSelectionFrame.OnEndMoving | src/SimpleSelectionFrame/SimpleSelectionFrame.ts:361-367 | ends both sessions and clears the pointer origin |
| SelectionFrame.SimpleSelectionFrame.PointerDown | src/SimpleSelectionFrame/SimpleSelectionFrame.ts:239-289 | equals `PointerDownStep`: guards, a resize session on a handle, a move session inside the container |
| SelectionFrame.SimpleSelectionFrame.PointerMove | src/SimpleSelectionFrame/SimpleSelectionFrame.ts:301-313 | equals `PointerMoveStep`: resize, then move |
| SelectionFrame.SimpleSelectionFrame.Reset | src/SimpleSelectionFrame/SimpleSelectionFrame.ts:82-85 | equals `ResetStep`: commit the argument, then every other state field from the initial state |
| SelectionFrame.SimpleSelectionFrame.TogglePointsOff | src/SimpleSelectionFrame/SimpleSelectionFrame.ts:92-106 | flips the hidden flag and nothing else |
| SelectionFrame.SimpleSelectionFrame.ToggleDisable | src/SimpleSelectionFrame/SimpleSelectionFrame.ts:113-130 | flips the disabled flag and nothing else |
| SelectionFrame.SimpleSelectionFrame.SetState | src/SimpleSelectionFrame/SimpleSelectionFrame.ts:74-76 | the state record is replaced, and nothing else changes |
| Scenarios.PressedSouthEastShape | src/SimpleSelectionFrame/SimpleSelectionFrame.ts:259-270 | pressing SE on its own position opens a resize session on SE with pointer origin 0 |
| Scenarios.DragSouthEastToCentre | src/SimpleSelectionFrame/SimpleSelectionFrame.ts:369-448 | from a fresh 500 × 400 px frame with minimum 10 × 10, dragging SE to the centre commits {0, 0, 50, 50} |
| Scenarios.DragSouthEastBelowMinimumIsRefused | src/SimpleSelectionFrame/SimpleSelectionFrame.ts:398-402 | dragging SE to 10 × 10 px (2% × 2.5%) under the 5 × 5 minimum changes nothing |
| Scenarios.RatioLockedEastDrag | src/SimpleSelectionFrame/SimpleSelectionFrame.ts:537-545 | with the ratio lock on the full area, dragging E to 50% commits the 50 × 50 square at the origin |
| Scenarios.RatioDuringMoveLeavesContainer | src/SimpleSelectionFrame/SimpleSelectionFrame.ts:143-153 | with both sessions open and the ratio lock, dragging NW on a 5 × 100 area at the right edge commits left 98, width 5: the right edge lies at 103, outside the container |

The `Engine` step functions (`BoxStep`, `SettleStep`, `HandleStep`,
`RatioStep`, `DragHandle`, `ResizeStep`, `MoveStep`, `EndMovingStep`,
`PointerDownStep`, `PointerMoveStep`, `ResetStep`, `StartConfig` and the
toggle steps) define the operations; the class methods above are proved
equal to them, and the `Engine` lemmas state their properties.

## Left out

- The DOM is not modelled: element creation, styles, `updatePoints`,
  `setClipPath`, cursors and listener registration. Only the state is.
- Pointer events are numbers: client coordinates, the handle's offsets, and
  the container's pixel size. The target of a press is the datatype
  `PointerTarget`. Mouse versus touch extraction is not modelled.
- `dispatchEvent(areaChangedEvent)` is modelled as appending the committed
  area to the sequence `events`. The event's `detail` is bound once, to the
  area record live at construction (`SimpleSelectionFrame.ts:61-63`). While
  that record is the live one, each entry is the area at dispatch time.
- Numbers are exact reals, not IEEE doubles. Rounding, NaN and infinity
  are not modelled, except that NaN's role as "unset" in the ratio rule is
  `None`.
- Division by zero is excluded by preconditions. The container size must
  be positive (`onResizing`, `onMoving`), and the previous area's ratio
  must be defined (`RatioDefined`, `ResizeDefined`).
- The constructor takes only `minSizes` out of `Partial<IState>`; other
  overrides are set afterwards through `SetState`. The demo in `main.ts`
  is not part of this model.
- SelectionFrame.SimpleSelectionFrame.SetState: requires that the new
  record has `isResizing` exactly when a handle is active. The source
  accepts any record. It excludes both directions: `isResizing` with no
  active handle (a resize would then fail in the source), and an active
  handle with no resize session (which the source tolerates: `onResizing`
  is not called and `onMoving` returns at `SimpleSelectionFrame.ts:322`).
  It also installs the new `areaPosition` as a value. In the source, a state
  with a new `areaPosition` record leaves the event's `detail` on the old
  record, so later events carry that frozen record, not the live area; and
  a later `reset` reinstalls the old record as the area
  (`SimpleSelectionFrame.ts:84`), whereas `Engine.ResetStep` commits the
  clamp of the argument.
- The model has value semantics. The source shares records: from
  construction, for every default-built frame, the area record is the
  initial-state constant's own (the field initialiser at
  `SimpleSelectionFrame.ts:26` is a shallow copy), and `minSizes` can be
  changed in place through the `state` getter. That mutation through
  aliases is not modelled; `reset` is the area from `setBoxArea(arg)` plus
  every other field of the initial state.
- Engine.PointerMoveSettles: does not cover the ratio strategy running
  while a move session is also open. During a move `setBoxArea` skips the
  rollback, so a ratio target below the minimum can leave the container:
  `Scenarios.RatioDuringMoveLeavesContainer` commits an area whose right
  edge is at 103. The object is then not settled, so no settling lemma
  can hold there.
- Engine.DragHandleSettles: requires that the ratio lock and an open move
  session do not hold together. In that state the drag can commit an area
  outside the container, as `Scenarios.RatioDuringMoveLeavesContainer`
  shows, so the object is not settled afterwards.
- Engine.DragHandleKeepsRatio: covers only targets below 100 and at least
  at the minimum. A target reaching 100 aborts the drag and keeps the area
  before it, ratio included (`Engine.DragHandleAbortKeepsArea`). Only a
  target below the minimum can lose the ratio, because the minimum clamp
  enlarges a side that is too small.
- `src/SimpleSelectionFrame/utils/InitialState.ts` and the type-only files
  are not part of this model.

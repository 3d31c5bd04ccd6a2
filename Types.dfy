/** The value types of the selection frame: handle roles, positions, areas,
    sizes and the engine state record. All geometry is in percent of the
    container (0 = top/left edge, 100 = the opposite edge). */
module Types {

  /** The eight drag handles: four corners and four edge midpoints. */
  datatype Point = E | N | NE | NW | S | SE | SW | W

  /** A handle position, in percent of the container. */
  datatype Position = Position(left: real, top: real)

  /** The selection rectangle, in percent of the container. */
  datatype Area = Area(top: real, left: real, width: real, height: real)

  /** Minimum width and height of the selection, in percent. */
  datatype Sizes = Sizes(width: real, height: real)

  datatype Option<T> = None | Some(value: T)

  /** The positions of the handles, keyed by role. */
  type Points = map<Point, Position>

  const AllPoints: set<Point> := {E, N, NE, NW, S, SE, SW, W}

  /** Every role has a position. */
  predicate Complete(p: Points) {
    forall h: Point :: h in p
  }

  lemma AllPointsListed(h: Point)
    ensures h in AllPoints
  {
    match h
    case E => case N => case NE => case NW =>
    case S => case SE => case SW => case W =>
  }

  /** The engine state record: the committed area, the snapshot taken before
      the last derivation, the interaction flags and the configuration. */
  datatype SelectionState = SelectionState(
    areaPosition: Area,
    prevAreaPosition: Area,
    activePoint: Option<Point>,
    isResizing: bool,
    isMoving: bool,
    keepAspectRatio: bool,
    isHidden: bool,
    isDisabled: bool,
    minSizes: Sizes,
    preventEventCondition: bool)
}

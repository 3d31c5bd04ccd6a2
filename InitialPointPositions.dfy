/** The handle positions the engine starts with. */
module InitialPointPositions {
  import opened Types
  import opened Geometry
  import opened InitialAreaPosition

  const InitialPoints: Points := map[
    E  := Position(100.0, 50.0),
    N  := Position(50.0, 0.0),
    NE := Position(100.0, 0.0),
    NW := Position(0.0, 0.0),
    S  := Position(50.0, 100.0),
    SE := Position(100.0, 100.0),
    SW := Position(0.0, 100.0),
    W  := Position(0.0, 50.0)]

  /** The corners sit at {0, 100} x {0, 100}, the edge handles at the
      midpoints, and every coordinate lies in [0, 100]. */
  lemma InitialPointsShape()
    ensures Complete(InitialPoints)
    ensures forall h :: h in InitialPoints ==>
      0.0 <= InitialPoints[h].left <= 100.0 && 0.0 <= InitialPoints[h].top <= 100.0
    ensures InitialPoints[NW] == Position(0.0, 0.0) && InitialPoints[NE] == Position(100.0, 0.0)
    ensures InitialPoints[SW] == Position(0.0, 100.0) && InitialPoints[SE] == Position(100.0, 100.0)
    ensures InitialPoints[N].left == InitialPoints[S].left == 50.0
    ensures InitialPoints[E].top == InitialPoints[W].top == 50.0
  {
    forall h: Point ensures h in InitialPoints { AllPointsListed(h); }
  }

  /** The initial handles are the layout of the full-container area, and
      deriving the area back from them gives that area, so no self-heal
      fires at start-up. */
  lemma InitialPointsAreLayoutOfInitialArea()
    ensures Complete(InitialPoints)
    ensures InitialPoints == Layout(InitialArea)
    ensures Derive(InitialPoints) == InitialArea
  {
    InitialPointsShape();
    var q := Layout(InitialArea);
    forall h | h in q ensures q[h] == InitialPoints[h] {
      match h
      case NW => case N => case NE => case E =>
      case SE => case S => case SW => case W =>
    }
    DeriveLayout(InitialArea);
  }

  /** Deriving the area from the initial handles gives the full container. */
  lemma InitialPointsDeriveInitialArea()
    ensures Complete(InitialPoints)
    ensures Derive(InitialPoints) == InitialArea
  {
    InitialPointsAreLayoutOfInitialArea();
  }
}

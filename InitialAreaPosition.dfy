/** The default rectangle: the whole container. */
module InitialAreaPosition {
  import opened Types

  const InitialArea: Area := Area(0.0, 0.0, 100.0, 100.0)

  /** The default area starts at the container's top-left corner, is 100 by
      100 and so reaches exactly to the opposite edges. */
  lemma InitialAreaFillsContainer()
    ensures InitialArea.top == 0.0 && InitialArea.left == 0.0
    ensures InitialArea.width == 100.0 && InitialArea.height == 100.0
    ensures InitialArea.left + InitialArea.width == 100.0
    ensures InitialArea.top + InitialArea.height == 100.0
  {
  }
}

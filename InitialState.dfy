/** The state the engine starts in and returns to on reset. */
module InitialState {
  import opened Types
  import opened Geometry
  import opened InitialAreaPosition

  const DefaultMinSizes: Sizes := Sizes(5.0, 5.0)

  const Initial: SelectionState := SelectionState(
    areaPosition := InitialArea,
    prevAreaPosition := InitialArea,
    activePoint := None,
    isResizing := false,
    isMoving := false,
    keepAspectRatio := false,
    isHidden := false,
    isDisabled := false,
    minSizes := DefaultMinSizes,
    preventEventCondition := false)

  /** The session starts idle with every option off, a 5 x 5 minimum, and
      both the area and its snapshot at the full container, which satisfies
      the committed-area invariant. */
  lemma InitialStateIsIdleAndValid()
    ensures !Initial.isResizing && !Initial.isMoving && Initial.activePoint == None
    ensures !Initial.keepAspectRatio && !Initial.isHidden && !Initial.isDisabled
    ensures !Initial.preventEventCondition
    ensures Initial.minSizes == Sizes(5.0, 5.0)
    ensures Initial.areaPosition == Initial.prevAreaPosition == InitialArea
    ensures AreaValid(Initial.areaPosition, Initial.minSizes)
    ensures AreaValid(Initial.prevAreaPosition, Initial.minSizes)
  {
  }
}

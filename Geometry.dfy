/** The pure geometry of the frame: where the eight handles sit for a given
    rectangle (the layout `setBoxArea` writes), the rectangle that
    `setAreaPosition` derives back from the handles, and what it means for a
    handle set to describe one rectangle. */
module Geometry {
  import opened Types

  function Min(a: real, b: real): real { if a <= b then a else b }
  function Max(a: real, b: real): real { if a >= b then a else b }

  /** `Math.min(...xs)` over a non-empty list. */
  function MinOf(xs: seq<real>): (r: real)
    requires |xs| > 0
    ensures r in xs
    ensures forall x :: x in xs ==> r <= x
  {
    if |xs| == 1 then xs[0]
    else
      var rest := MinOf(xs[1..]);
      assert forall x :: x in xs ==> x == xs[0] || x in xs[1..];
      Min(xs[0], rest)
  }

  /** The position of handle `h` for rectangle `a`: corners at
      {left, left + width} x {top, top + height}, N and S at the horizontal
      midpoint, E and W at the vertical midpoint. */
  function LayoutOf(a: Area, h: Point): Position {
    match h
    case NW => Position(a.left, a.top)
    case N  => Position(a.left + a.width / 2.0, a.top)
    case NE => Position(a.left + a.width, a.top)
    case E  => Position(a.left + a.width, a.top + a.height / 2.0)
    case SE => Position(a.left + a.width, a.top + a.height)
    case S  => Position(a.left + a.width / 2.0, a.top + a.height)
    case SW => Position(a.left, a.top + a.height)
    case W  => Position(a.left, a.top + a.height / 2.0)
  }

  /** The handle set laid out for rectangle `a`. */
  function Layout(a: Area): (p: Points)
    ensures Complete(p)
    ensures forall h :: h in p ==> p[h] == LayoutOf(a, h)
  {
    forall h: Point ensures h in AllPoints { AllPointsListed(h); }
    map h | h in AllPoints :: LayoutOf(a, h)
  }

  /** All handle lefts, in the record's key order. */
  function Lefts(p: Points): seq<real>
    requires Complete(p)
  {
    [p[E].left, p[N].left, p[NE].left, p[NW].left, p[S].left, p[SE].left, p[SW].left, p[W].left]
  }

  /** All handle tops, in the record's key order. */
  function Tops(p: Points): seq<real>
    requires Complete(p)
  {
    [p[E].top, p[N].top, p[NE].top, p[NW].top, p[S].top, p[SE].top, p[SW].top, p[W].top]
  }

  /** The rectangle `setAreaPosition` reads off the handles: width from the
      E and W handles, height from S and N, left and top as the smallest
      coordinate over all handles. */
  function Derive(p: Points): Area
    requires Complete(p)
  {
    Area(MinOf(Tops(p)), MinOf(Lefts(p)), p[E].left - p[W].left, p[S].top - p[N].top)
  }

  /** The eight handles describe one rectangle: the corners share their
      lines with the edge handles between them, and each edge handle sits at
      the midpoint of its two bordering corners. */
  predicate Consistent(p: Points)
    requires Complete(p)
  {
    && p[NW].left == p[W].left == p[SW].left
    && p[NE].left == p[E].left == p[SE].left
    && p[NW].top == p[N].top == p[NE].top
    && p[SW].top == p[S].top == p[SE].top
    && p[N].left == p[S].left == (p[NW].left + p[NE].left) / 2.0
    && p[E].top == p[W].top == (p[NW].top + p[SW].top) / 2.0
  }

  /** The committed-area invariant: inside the container and at least the
      minimum size. */
  predicate AreaValid(a: Area, m: Sizes) {
    && 0.0 <= a.left && a.left + a.width <= 100.0
    && 0.0 <= a.top && a.top + a.height <= 100.0
    && a.width >= m.width && a.height >= m.height
  }

  /** Writing all eight handles one by one, in the order and with the
      coordinates `setBoxArea` writes them, over any complete handle set
      gives the layout. */
  lemma LayoutByWrites(p: Points, a: Area)
    requires Complete(p)
    ensures p[NW := Position(a.left, a.top)]
             [N := Position(a.left + a.width / 2.0, a.top)]
             [NE := Position(a.left + a.width, a.top)]
             [E := Position(a.left + a.width, a.top + a.height / 2.0)]
             [SE := Position(a.left + a.width, a.top + a.height)]
             [S := Position(a.left + a.width / 2.0, a.top + a.height)]
             [SW := Position(a.left, a.top + a.height)]
             [W := Position(a.left, a.top + a.height / 2.0)]
            == Layout(a)
  {
    var q := p[NW := LayoutOf(a, NW)][N := LayoutOf(a, N)][NE := LayoutOf(a, NE)][E := LayoutOf(a, E)]
             [SE := LayoutOf(a, SE)][S := LayoutOf(a, S)][SW := LayoutOf(a, SW)][W := LayoutOf(a, W)];
    var l := Layout(a);
    forall h | h in q ensures q[h] == l[h] {
      AllPointsListed(h);
    }
    forall h: Point ensures h in q && h in l {
      AllPointsListed(h);
    }
    assert q.Keys == l.Keys;
  }

  /** Every laid-out handle set is consistent. */
  lemma LayoutConsistent(a: Area)
    ensures Consistent(Layout(a))
  {
  }

  /** Round trip: laying out a rectangle of non-negative size and deriving
      the rectangle back gives exactly that rectangle. */
  lemma DeriveLayout(a: Area)
    requires a.width >= 0.0 && a.height >= 0.0
    ensures Derive(Layout(a)) == a
  {
    var p := Layout(a);
    var ls := Lefts(p);
    var ts := Tops(p);
    assert forall x :: x in ls ==> a.left <= x;
    assert a.left in ls;
    assert forall x :: x in ts ==> a.top <= x;
    assert a.top in ts;
  }

  /** The other direction: a consistent handle set of non-negative size is
      the layout of the rectangle derived from it. */
  lemma LayoutDerive(p: Points)
    requires Complete(p) && Consistent(p)
    requires p[E].left >= p[W].left && p[S].top >= p[N].top
    ensures Layout(Derive(p)) == p
  {
    var d := Area(p[N].top, p[W].left, p[E].left - p[W].left, p[S].top - p[N].top);
    DeriveConsistent(p);
    var q := Layout(d);
    forall h | h in q ensures q[h] == p[h] {
      LayoutOfConsistent(p, d, h);
    }
    assert q.Keys == p.Keys;
  }

  /** The derived rectangle of a consistent set of non-negative size takes
      its left from W and its top from N. */
  lemma DeriveConsistent(p: Points)
    requires Complete(p) && Consistent(p)
    requires p[E].left >= p[W].left && p[S].top >= p[N].top
    ensures Derive(p) == Area(p[N].top, p[W].left, p[E].left - p[W].left, p[S].top - p[N].top)
  {
    var ls := Lefts(p);
    var ts := Tops(p);
    assert forall x :: x in ls ==> p[W].left <= x;
    assert p[W].left in ls;
    assert forall x :: x in ts ==> p[N].top <= x;
    assert p[N].top in ts;
  }

  lemma LayoutOfConsistent(p: Points, d: Area, h: Point)
    requires Complete(p) && Consistent(p)
    requires d == Area(p[N].top, p[W].left, p[E].left - p[W].left, p[S].top - p[N].top)
    ensures LayoutOf(d, h) == p[h]
  {
    match h
    case NW => case N => case NE => case E =>
    case SE => case S => case SW => case W =>
  }

  /** A handle set is consistent exactly when it is the layout of some
      rectangle; for non-negative sizes that rectangle is the derived one. */
  lemma ConsistentIffLayout(p: Points)
    requires Complete(p)
    requires p[E].left >= p[W].left && p[S].top >= p[N].top
    ensures Consistent(p) <==> p == Layout(Derive(p))
  {
    if Consistent(p) {
      LayoutDerive(p);
    } else if p == Layout(Derive(p)) {
      LayoutConsistent(Derive(p));
    }
  }
}

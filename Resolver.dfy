/** The handle resolver: a dragged handle's new position is copied to its
    dependents (the left to its oX list, the top to its oY list), then every
    edge handle is re-centred between its two bordering corners. Here as
    functions; the class in SelectionFrame.dfy runs the same steps in place
    and is proved to agree with them. */
module Resolver {
  import opened Types
  import opened Geometry
  import opened PointDependencies

  /** Every handle in `targets` takes the left `x`; nothing else changes. */
  function SetLefts(p: Points, targets: seq<Point>, x: real): (r: Points)
    requires Complete(p)
    ensures Complete(r)
  {
    map k | k in p :: if k in targets then Position(x, p[k].top) else p[k]
  }

  /** Every handle in `targets` takes the top `y`; nothing else changes. */
  function SetTops(p: Points, targets: seq<Point>, y: real): (r: Points)
    requires Complete(p)
    ensures Complete(r)
  {
    map k | k in p :: if k in targets then Position(p[k].left, y) else p[k]
  }

  /** Setting no handle changes nothing, and setting one more handle is one
      more in-place write of its left (resp. top). */
  lemma SetLeftsStep(p: Points, ts: seq<Point>, k: Point, x: real)
    requires Complete(p)
    ensures SetLefts(p, [], x) == p
    ensures SetLefts(p, ts + [k], x) == SetLefts(p, ts, x)[k := Position(x, SetLefts(p, ts, x)[k].top)]
  {
    var l := SetLefts(p, ts + [k], x);
    var r := SetLefts(p, ts, x)[k := Position(x, SetLefts(p, ts, x)[k].top)];
    forall j | j in l ensures l[j] == r[j] {
      assert j in ts + [k] <==> j in ts || j == k;
    }
    assert l.Keys == r.Keys;
  }

  lemma SetTopsStep(p: Points, ts: seq<Point>, k: Point, y: real)
    requires Complete(p)
    ensures SetTops(p, [], y) == p
    ensures SetTops(p, ts + [k], y) == SetTops(p, ts, y)[k := Position(SetTops(p, ts, y)[k].left, y)]
  {
    var l := SetTops(p, ts + [k], y);
    var r := SetTops(p, ts, y)[k := Position(SetTops(p, ts, y)[k].left, y)];
    forall j | j in l ensures l[j] == r[j] {
      assert j in ts + [k] <==> j in ts || j == k;
    }
    assert l.Keys == r.Keys;
  }

  /** The copy step of `updateDependentPoints` for handle `h` moved to `c`. */
  function Copy(p: Points, h: Point, c: Position): (r: Points)
    requires Complete(p)
    ensures Complete(r)
  {
    SetTops(SetLefts(p, Deps(h).oX, c.left), Deps(h).oY, c.top)
  }

  function SumTops(p: Points, ts: seq<Point>): real
    requires Complete(p)
  {
    if ts == [] then 0.0 else SumTops(p, ts[..|ts| - 1]) + p[ts[|ts| - 1]].top
  }

  function SumLefts(p: Points, ts: seq<Point>): real
    requires Complete(p)
  {
    if ts == [] then 0.0 else SumLefts(p, ts[..|ts| - 1]) + p[ts[|ts| - 1]].left
  }

  /** One round of `centerPoints`: a non-empty oX list sets the handle's top
      to the mean top of the listed handles, then a non-empty oY list sets
      its left to their mean left. */
  function CenterOne(p: Points, name: Point): (r: Points)
    requires Complete(p)
    ensures Complete(r)
  {
    var d := Deps(name);
    var p1 := if |d.oX| > 0 then p[name := p[name].(top := SumTops(p, d.oX) / (|d.oX| as real))] else p;
    if |d.oY| > 0 then p1[name := p1[name].(left := SumLefts(p1, d.oY) / (|d.oY| as real))] else p1
  }

  /** `centerPoints(names)`: one round per name, in order. */
  function CenterAll(p: Points, names: seq<Point>): (r: Points)
    requires Complete(p)
    ensures Complete(r)
  {
    if names == [] then p else CenterOne(CenterAll(p, names[..|names| - 1]), names[|names| - 1])
  }

  /** The order `updateDependentPoints` re-centres the edge handles in. */
  const EdgeOrder: seq<Point> := [N, S, E, W]

  /** `updateDependentPoints(h, c)`. */
  function Propagate(p: Points, h: Point, c: Position): (r: Points)
    requires Complete(p)
    ensures Complete(r)
  {
    CenterAll(Copy(p, h, c), EdgeOrder)
  }

  /** `handlePointPosition`'s effect on the handles: place `h` at `c`, then
      propagate. */
  function Resolve(p: Points, h: Point, c: Position): (r: Points)
    requires Complete(p)
    ensures Complete(r)
  {
    Propagate(p[h := c], h, c)
  }

  /** Reference definition of the centring: N and S at the mean left of
      their corners, E and W at the mean top of theirs. */
  function Centered(q: Points): (r: Points)
    requires Complete(q)
    ensures Complete(r)
  {
    q[N := Position((q[NW].left + q[NE].left) / 2.0, q[N].top)]
     [S := Position((q[SE].left + q[SW].left) / 2.0, q[S].top)]
     [E := Position(q[E].left, (q[NE].top + q[SE].top) / 2.0)]
     [W := Position(q[W].left, (q[SW].top + q[NW].top) / 2.0)]
  }

  predicate MovesWest(h: Point)  { h == W || h == NW || h == SW }
  predicate MovesEast(h: Point)  { h == E || h == NE || h == SE }
  predicate MovesNorth(h: Point) { h == N || h == NW || h == NE }
  predicate MovesSouth(h: Point) { h == S || h == SW || h == SE }

  /** Reference definition of a drag: the rectangle whose edges are those of
      `a`, except that the edges handle `h` sits on move to `c`. */
  function Dragged(a: Area, h: Point, c: Position): Area {
    var l := if MovesWest(h) then c.left else a.left;
    var r := if MovesEast(h) then c.left else a.left + a.width;
    var t := if MovesNorth(h) then c.top else a.top;
    var b := if MovesSouth(h) then c.top else a.top + a.height;
    Area(t, l, r - l, b - t)
  }

  /** The copy step writes `c.left` into exactly the oX dependents and
      `c.top` into exactly the oY dependents, and touches nothing else. */
  lemma CopyWritesDependents(p: Points, h: Point, c: Position, k: Point)
    requires Complete(p)
    ensures k in Deps(h).oX ==> Copy(p, h, c)[k].left == c.left
    ensures k !in Deps(h).oX ==> Copy(p, h, c)[k].left == p[k].left
    ensures k in Deps(h).oY ==> Copy(p, h, c)[k].top == c.top
    ensures k !in Deps(h).oY ==> Copy(p, h, c)[k].top == p[k].top
  {
  }

  lemma SumPair(p: Points, a: Point, b: Point)
    requires Complete(p)
    ensures SumTops(p, [a, b]) == p[a].top + p[b].top
    ensures SumLefts(p, [a, b]) == p[a].left + p[b].left
  {
    assert [a, b][..1] == [a];
    assert [a][..0] == [];
    assert SumTops(p, []) == 0.0 && SumLefts(p, []) == 0.0;
    assert SumTops(p, [a]) == p[a].top && SumLefts(p, [a]) == p[a].left;
  }

  /** The table-driven centring of the edge handles puts each of them at the
      midpoint of its two bordering corners. */
  lemma {:induction false} CenterAllIsMidpoints(q: Points)
    requires Complete(q)
    ensures CenterAll(q, EdgeOrder) == Centered(q)
  {
    assert EdgeOrder[..3] == [N, S, E];
    assert [N, S, E][..2] == [N, S];
    assert [N, S][..1] == [N];
    assert [N][..0] == [];
    assert CenterAll(q, []) == q;
    var q1 := CenterOne(q, N);
    assert CenterAll(q, [N]) == q1;
    var q2 := CenterOne(q1, S);
    assert CenterAll(q, [N, S]) == q2;
    var q3 := CenterOne(q2, E);
    assert CenterAll(q, [N, S, E]) == q3;
    var q4 := CenterOne(q3, W);
    assert CenterAll(q, EdgeOrder) == q4;
    CenterOneEdge(q, N);
    CenterOneEdge(q1, S);
    CenterOneEdge(q2, E);
    CenterOneEdge(q3, W);
  }

  /** One centring round on an edge handle moves it to the midpoint of its
      two bordering corners. */
  lemma CenterOneEdge(q: Points, name: Point)
    requires Complete(q) && !IsCorner(name)
    ensures name == N ==> CenterOne(q, name) == q[N := Position((q[NW].left + q[NE].left) / 2.0, q[N].top)]
    ensures name == S ==> CenterOne(q, name) == q[S := Position((q[SE].left + q[SW].left) / 2.0, q[S].top)]
    ensures name == E ==> CenterOne(q, name) == q[E := Position(q[E].left, (q[NE].top + q[SE].top) / 2.0)]
    ensures name == W ==> CenterOne(q, name) == q[W := Position(q[W].left, (q[SW].top + q[NW].top) / 2.0)]
  {
    var d := Deps(name);
    match name
    case N =>
      assert d.oX == [] && d.oY == [NW, NE];
      SumPair(q, NW, NE);
      var p1 := q[N := q[N].(left := SumLefts(q, d.oY) / (|d.oY| as real))];
      assert CenterOne(q, name) == p1;
      assert p1[N] == Position((q[NW].left + q[NE].left) / 2.0, q[N].top);
    case S =>
      assert d.oX == [] && d.oY == [SE, SW];
      SumPair(q, SE, SW);
      var p1 := q[S := q[S].(left := SumLefts(q, d.oY) / (|d.oY| as real))];
      assert CenterOne(q, name) == p1;
      assert p1[S] == Position((q[SE].left + q[SW].left) / 2.0, q[S].top);
    case E =>
      assert d.oX == [NE, SE] && d.oY == [];
      SumPair(q, NE, SE);
      var p1 := q[E := q[E].(top := SumTops(q, d.oX) / (|d.oX| as real))];
      assert CenterOne(q, name) == p1;
      assert p1[E] == Position(q[E].left, (q[NE].top + q[SE].top) / 2.0);
    case W =>
      assert d.oX == [SW, NW] && d.oY == [];
      SumPair(q, SW, NW);
      var p1 := q[W := q[W].(top := SumTops(q, d.oX) / (|d.oX| as real))];
      assert CenterOne(q, name) == p1;
      assert p1[W] == Position(q[W].left, (q[SW].top + q[NW].top) / 2.0);
  }

  /** Resolver consistency: starting from the handles of a rectangle,
      resolving any handle to any position yields exactly the handles of the
      dragged rectangle. */
  lemma ResolveLayout(a: Area, h: Point, c: Position)
    ensures Resolve(Layout(a), h, c) == Layout(Dragged(a, h, c))
  {
    var q := Copy(Layout(a)[h := c], h, c);
    CenterAllIsMidpoints(q);
    var r := Centered(q);
    var d := Layout(Dragged(a, h, c));
    forall k | k in d ensures r[k] == d[k] {
      ResolveLayoutAt(a, h, c, k);
    }
  }

  lemma ResolveLayoutAt(a: Area, h: Point, c: Position, k: Point)
    ensures Centered(Copy(Layout(a)[h := c], h, c))[k] == LayoutOf(Dragged(a, h, c), k)
  {
    match h
    case E => ResolveLayoutAtE(a, c, k);
    case W => ResolveLayoutAtW(a, c, k);
    case N => ResolveLayoutAtN(a, c, k);
    case S => ResolveLayoutAtS(a, c, k);
    case NE => ResolveLayoutAtNE(a, c, k);
    case NW => ResolveLayoutAtNW(a, c, k);
    case SE => ResolveLayoutAtSE(a, c, k);
    case SW => ResolveLayoutAtSW(a, c, k);
  }

  lemma ResolveLayoutAtE(a: Area, c: Position, k: Point)
    ensures Centered(Copy(Layout(a)[E := c], E, c))[k] == LayoutOf(Dragged(a, E, c), k)
  {
    var p := Layout(a)[E := c];
    CopyAsUpdates(p, E, c);
    CenteredAt(Copy(p, E, c), k);
  }

  lemma ResolveLayoutAtW(a: Area, c: Position, k: Point)
    ensures Centered(Copy(Layout(a)[W := c], W, c))[k] == LayoutOf(Dragged(a, W, c), k)
  {
    var p := Layout(a)[W := c];
    CopyAsUpdates(p, W, c);
    CenteredAt(Copy(p, W, c), k);
  }

  lemma ResolveLayoutAtN(a: Area, c: Position, k: Point)
    ensures Centered(Copy(Layout(a)[N := c], N, c))[k] == LayoutOf(Dragged(a, N, c), k)
  {
    var p := Layout(a)[N := c];
    CopyAsUpdates(p, N, c);
    CenteredAt(Copy(p, N, c), k);
  }

  lemma ResolveLayoutAtS(a: Area, c: Position, k: Point)
    ensures Centered(Copy(Layout(a)[S := c], S, c))[k] == LayoutOf(Dragged(a, S, c), k)
  {
    var p := Layout(a)[S := c];
    CopyAsUpdates(p, S, c);
    CenteredAt(Copy(p, S, c), k);
  }

  lemma ResolveLayoutAtNE(a: Area, c: Position, k: Point)
    ensures Centered(Copy(Layout(a)[NE := c], NE, c))[k] == LayoutOf(Dragged(a, NE, c), k)
  {
    var p := Layout(a)[NE := c];
    CopyAsUpdates(p, NE, c);
    CenteredAt(Copy(p, NE, c), k);
  }

  lemma ResolveLayoutAtNW(a: Area, c: Position, k: Point)
    ensures Centered(Copy(Layout(a)[NW := c], NW, c))[k] == LayoutOf(Dragged(a, NW, c), k)
  {
    var p := Layout(a)[NW := c];
    CopyAsUpdates(p, NW, c);
    CenteredAt(Copy(p, NW, c), k);
  }

  lemma ResolveLayoutAtSE(a: Area, c: Position, k: Point)
    ensures Centered(Copy(Layout(a)[SE := c], SE, c))[k] == LayoutOf(Dragged(a, SE, c), k)
  {
    var p := Layout(a)[SE := c];
    CopyAsUpdates(p, SE, c);
    CenteredAt(Copy(p, SE, c), k);
  }

  lemma ResolveLayoutAtSW(a: Area, c: Position, k: Point)
    ensures Centered(Copy(Layout(a)[SW := c], SW, c))[k] == LayoutOf(Dragged(a, SW, c), k)
  {
    var p := Layout(a)[SW := c];
    CopyAsUpdates(p, SW, c);
    CenteredAt(Copy(p, SW, c), k);
  }

  /** The copy step spelled out per handle as plain map updates. */
  lemma CopyAsUpdates(p: Points, h: Point, c: Position)
    requires Complete(p)
    ensures h == E ==> Copy(p, h, c) == p[NE := Position(c.left, p[NE].top)][SE := Position(c.left, p[SE].top)]
    ensures h == W ==> Copy(p, h, c) == p[SW := Position(c.left, p[SW].top)][NW := Position(c.left, p[NW].top)]
    ensures h == N ==> Copy(p, h, c) == p[NW := Position(p[NW].left, c.top)][NE := Position(p[NE].left, c.top)]
    ensures h == S ==> Copy(p, h, c) == p[SE := Position(p[SE].left, c.top)][SW := Position(p[SW].left, c.top)]
    ensures h == NE ==> Copy(p, h, c) == p[E := Position(c.left, p[E].top)][SE := Position(c.left, p[SE].top)]
                                          [N := Position(p[N].left, c.top)][NW := Position(p[NW].left, c.top)]
    ensures h == NW ==> Copy(p, h, c) == p[W := Position(c.left, p[W].top)][SW := Position(c.left, p[SW].top)]
                                          [N := Position(p[N].left, c.top)][NE := Position(p[NE].left, c.top)]
    ensures h == SE ==> Copy(p, h, c) == p[E := Position(c.left, p[E].top)][NE := Position(c.left, p[NE].top)]
                                          [S := Position(p[S].left, c.top)][SW := Position(p[SW].left, c.top)]
    ensures h == SW ==> Copy(p, h, c) == p[W := Position(c.left, p[W].top)][NW := Position(c.left, p[NW].top)]
                                          [S := Position(p[S].left, c.top)][SE := Position(p[SE].left, c.top)]
  {
  }

  lemma CenteredAt(q: Points, k: Point)
    requires Complete(q)
    ensures Centered(q)[k] == match k
      case N => Position((q[NW].left + q[NE].left) / 2.0, q[N].top)
      case S => Position((q[SE].left + q[SW].left) / 2.0, q[S].top)
      case E => Position(q[E].left, (q[NE].top + q[SE].top) / 2.0)
      case W => Position(q[W].left, (q[SW].top + q[NW].top) / 2.0)
      case _ => q[k]
  {
  }

  /** Hence the resolved handle set is consistent, and whenever the dragged
      rectangle has non-negative size, deriving the area from the resolved
      handles gives that rectangle. */
  lemma ResolveDerive(a: Area, h: Point, c: Position)
    ensures Consistent(Resolve(Layout(a), h, c))
    ensures Dragged(a, h, c).width >= 0.0 && Dragged(a, h, c).height >= 0.0 ==>
      Derive(Resolve(Layout(a), h, c)) == Dragged(a, h, c)
  {
    ResolveLayout(a, h, c);
    LayoutConsistent(Dragged(a, h, c));
    if Dragged(a, h, c).width >= 0.0 && Dragged(a, h, c).height >= 0.0 {
      DeriveLayout(Dragged(a, h, c));
    }
  }
}

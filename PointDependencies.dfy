/** The static dependency table: for each handle, the handles that copy its
    left coordinate (oX) and those that copy its top coordinate (oY) when it
    is dragged. The centring step reads the same lists of the edge handles
    as "the corners whose coordinate this edge handle averages". */
module PointDependencies {
  import opened Types

  datatype Dependencies = Dependencies(oX: seq<Point>, oY: seq<Point>)

  function Deps(h: Point): Dependencies {
    match h
    case E  => Dependencies([NE, SE], [])
    case N  => Dependencies([], [NW, NE])
    case NE => Dependencies([E, SE], [N, NW])
    case NW => Dependencies([W, SW], [N, NE])
    case S  => Dependencies([], [SE, SW])
    case SE => Dependencies([E, NE], [S, SW])
    case SW => Dependencies([W, NW], [S, SE])
    case W  => Dependencies([SW, NW], [])
  }

  predicate IsCorner(h: Point) {
    h == NE || h == NW || h == SE || h == SW
  }

  /** No repeated entry in a list. */
  predicate Distinct(s: seq<Point>) {
    forall i, j :: 0 <= i < j < |s| ==> s[i] != s[j]
  }

  /** Which handles share a left line (same x) or a top line (same y) in a
      rectangle: the geometric meaning of the oX/oY lists. */
  predicate SameLeftLine(a: Point, b: Point) {
    var west := {NW, W, SW};
    var east := {NE, E, SE};
    (a in west && b in west) || (a in east && b in east)
  }

  predicate SameTopLine(a: Point, b: Point) {
    var north := {NW, N, NE};
    var south := {SW, S, SE};
    (a in north && b in north) || (a in south && b in south)
  }

  /** Edge handles have a single non-empty list of two entries; corners have
      two entries in each list. */
  lemma DepsShape(h: Point)
    ensures h == E || h == W ==> |Deps(h).oX| == 2 && Deps(h).oY == []
    ensures h == N || h == S ==> Deps(h).oX == [] && |Deps(h).oY| == 2
    ensures IsCorner(h) ==> |Deps(h).oX| == 2 && |Deps(h).oY| == 2
  {
  }

  /** No handle depends on itself and no list repeats an entry. */
  lemma DepsIrreflexiveAndDistinct(h: Point)
    ensures h !in Deps(h).oX && h !in Deps(h).oY
    ensures Distinct(Deps(h).oX) && Distinct(Deps(h).oY)
  {
  }

  /** A corner's oX list is exactly the other handles on its vertical line,
      and its oY list the other handles on its horizontal line. */
  lemma CornerDepsAreItsLines(h: Point, k: Point)
    requires IsCorner(h) && k != h
    ensures k in Deps(h).oX <==> SameLeftLine(h, k)
    ensures k in Deps(h).oY <==> SameTopLine(h, k)
  {
  }

  /** Corner-to-corner links are symmetric. */
  lemma CornerLinksSymmetric(a: Point, b: Point)
    requires IsCorner(a) && IsCorner(b)
    ensures b in Deps(a).oX <==> a in Deps(b).oX
    ensures b in Deps(a).oY <==> a in Deps(b).oY
  {
  }

  /** Read as averaging lists, an edge handle's list holds exactly its two
      bordering corners. */
  lemma EdgeListsAreBorderingCorners()
    ensures Deps(E).oX == [NE, SE] && Deps(W).oX == [SW, NW]
    ensures Deps(N).oY == [NW, NE] && Deps(S).oY == [SE, SW]
    ensures forall h :: !IsCorner(h) ==> forall k :: k in Deps(h).oX + Deps(h).oY ==> IsCorner(k)
  {
  }
}

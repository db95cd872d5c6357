/**
 * The six faces of a block. The enumeration itself (BlockFace.cs) is not part
 * of this model; its members are the ones every switch in the engine names,
 * and `AllFaces` lists them in the order `Enum.GetValues` is taken to yield.
 */
module Faces {
  import opened Vectors

  datatype Face = TOP | BOTTOM | NORTH | SOUTH | EAST | WEST

  const AllFaces: seq<Face> := [TOP, BOTTOM, NORTH, SOUTH, EAST, WEST]

  /** The axis a face is perpendicular to: 0 = x, 1 = y, 2 = z. */
  function Axis(f: Face): nat {
    match f
    case EAST | WEST => 0
    case TOP | BOTTOM => 1
    case NORTH | SOUTH => 2
  }

  /** Whether the face looks along the positive direction of its axis. */
  predicate Positive(f: Face) {
    f == EAST || f == TOP || f == NORTH
  }

  function Sign(f: Face): int {
    if Positive(f) then 1 else -1
  }

  function Opposite(f: Face): (g: Face)
    ensures Axis(g) == Axis(f) && Sign(g) == -Sign(f)
  {
    match f
    case TOP => BOTTOM
    case BOTTOM => TOP
    case NORTH => SOUTH
    case SOUTH => NORTH
    case EAST => WEST
    case WEST => EAST
  }

  /** The outward unit normal of a face: `Sign(f)` on `Axis(f)`, zero elsewhere. */
  function Normal(f: Face): (n: Vec3)
    ensures forall k :: 0 <= k < 3 ==> Coord(n, k) == (if k == Axis(f) then Sign(f) else 0)
  {
    var s := Sign(f);
    match Axis(f)
    case 0 => Vec3(s, 0, 0)
    case 1 => Vec3(0, s, 0)
    case _ => Vec3(0, 0, s)
  }

  /** A vector with exactly one non-zero component, which is 1 or -1. */
  predicate IsAxisUnit(d: Vec3) {
    || (d.y == 0 && d.z == 0 && (d.x == 1 || d.x == -1))
    || (d.x == 0 && d.z == 0 && (d.y == 1 || d.y == -1))
    || (d.x == 0 && d.y == 0 && (d.z == 1 || d.z == -1))
  }

  /** The face whose normal is the axis unit vector `d`. */
  function FaceOf(d: Vec3): (f: Face)
    requires IsAxisUnit(d)
    ensures Normal(f) == d
  {
    if d.x == 1 then EAST
    else if d.x == -1 then WEST
    else if d.y == 1 then TOP
    else if d.y == -1 then BOTTOM
    else if d.z == 1 then NORTH
    else SOUTH
  }

  /**
   * `v` is one of the eight integer corners of the unit cube at `p` and lies in
   * the plane of face `f` of that cube.
   */
  predicate OnFace(v: Vec3, p: Vec3, f: Face) {
    && 0 <= v.x - p.x <= 1 && 0 <= v.y - p.y <= 1 && 0 <= v.z - p.z <= 1
    && Coord(v, Axis(f)) - Coord(p, Axis(f)) == (if Positive(f) then 1 else 0)
  }

  /** Moving the point and the cell by the same offset keeps the point on the same face. */
  lemma OnFaceTranslate(v: Vec3, p: Vec3, f: Face, pos: Vec3)
    ensures OnFace(Add3(pos, v), Add3(pos, p), f) <==> OnFace(v, p, f)
  {
  }

  lemma AllFacesListsEachFaceOnce()
    ensures |AllFaces| == 6
    ensures forall f: Face :: f in AllFaces
    ensures forall i, j :: 0 <= i < j < |AllFaces| ==> AllFaces[i] != AllFaces[j]
  {
    forall f: Face ensures f in AllFaces {
      match f
      case TOP => assert AllFaces[0] == f;
      case BOTTOM => assert AllFaces[1] == f;
      case NORTH => assert AllFaces[2] == f;
      case SOUTH => assert AllFaces[3] == f;
      case EAST => assert AllFaces[4] == f;
      case WEST => assert AllFaces[5] == f;
    }
  }

  lemma NormalsDistinct(f: Face, g: Face)
    ensures Normal(f) == Normal(g) <==> f == g
    ensures IsAxisUnit(Normal(f))
    ensures Normal(Opposite(f)) == Vec3(-Normal(f).x, -Normal(f).y, -Normal(f).z)
  {
  }
}

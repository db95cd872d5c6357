/**
 * Unity's integer vector types. `Vec3` stands for `Vector3Int` and for every
 * `Vector3` the engine only ever fills with whole numbers (mesh vertices);
 * `Vec2` stands for the `Vector2` texture coordinates, counted in whole units
 * of whichever scale the caller documents.
 */
module Vectors {

  datatype Vec3 = Vec3(x: int, y: int, z: int)

  datatype Vec2 = Vec2(u: int, v: int)

  const Zero3 := Vec3(0, 0, 0)

  function Add3(a: Vec3, b: Vec3): Vec3 {
    Vec3(a.x + b.x, a.y + b.y, a.z + b.z)
  }

  function Sub3(a: Vec3, b: Vec3): Vec3 {
    Vec3(a.x - b.x, a.y - b.y, a.z - b.z)
  }

  function Add2(a: Vec2, b: Vec2): Vec2 {
    Vec2(a.u + b.u, a.v + b.v)
  }

  /** Component `k` (0 = x, 1 = y, 2 = z); the total counterpart of an indexer. */
  function Coord(v: Vec3, k: nat): int
    requires k < 3
  {
    if k == 0 then v.x else if k == 1 then v.y else v.z
  }

  /** Unity's `Vector3Int.sqrMagnitude`. */
  function SqrMagnitude(v: Vec3): int {
    v.x * v.x + v.y * v.y + v.z * v.z
  }

  // ---------------------------------------------------------------------------
  // Winding of triangles whose corners are corners of one unit cube

  /** Every component is -1, 0 or 1: the difference of two corners of a unit cube. */
  predicate IsStep(v: Vec3) {
    -1 <= v.x <= 1 && -1 <= v.y <= 1 && -1 <= v.z <= 1
  }

  /** `a * b` for factors in {-1, 0, 1}, written by cases so that no solver needs nonlinear arithmetic. */
  function StepMul(a: int, b: int): int {
    if a == 0 || b == 0 then 0 else if a == b then 1 else -1
  }

  /** Component `k` of the cross product `u × v` of two steps, through `StepMul`. */
  function CrossAt(u: Vec3, v: Vec3, k: nat): int
    requires k < 3
  {
    var i, j := (k + 1) % 3, (k + 2) % 3;
    StepMul(Coord(u, i), Coord(v, j)) - StepMul(Coord(u, j), Coord(v, i))
  }

  /** The first `k` components of `u × v` are those of `n`. */
  predicate CrossAgrees(u: Vec3, v: Vec3, n: Vec3, k: nat)
    requires k <= 3
    decreases k
  {
    k == 0 || (CrossAt(u, v, k - 1) == Coord(n, k - 1) && CrossAgrees(u, v, n, k - 1))
  }

  /**
   * The triangle `(a, b, c)` of cube corners winds about `n`:
   * `Vector3.Cross(b - a, c - a) == n` (see `TurnsIsCross`).
   */
  predicate Turns(a: Vec3, b: Vec3, c: Vec3, n: Vec3) {
    CrossAgrees(Sub3(b, a), Sub3(c, a), n, 3)
  }

  lemma StepMulIsProduct(a: int, b: int)
    requires -1 <= a <= 1 && -1 <= b <= 1
    ensures StepMul(a, b) == a * b
  {
  }

  /** On cube corners `Turns` is the cross product of the two edges from `a`. */
  lemma TurnsIsCross(a: Vec3, b: Vec3, c: Vec3, n: Vec3)
    requires IsStep(Sub3(b, a)) && IsStep(Sub3(c, a))
    ensures var u, v := Sub3(b, a), Sub3(c, a);
      Turns(a, b, c, n) <==>
        && u.y * v.z - u.z * v.y == n.x
        && u.z * v.x - u.x * v.z == n.y
        && u.x * v.y - u.y * v.x == n.z
  {
    var u, v := Sub3(b, a), Sub3(c, a);
    StepMulIsProduct(u.y, v.z); StepMulIsProduct(u.z, v.y);
    StepMulIsProduct(u.z, v.x); StepMulIsProduct(u.x, v.z);
    StepMulIsProduct(u.x, v.y); StepMulIsProduct(u.y, v.x);
    assert CrossAgrees(u, v, n, 3) <==>
      CrossAt(u, v, 2) == n.z && CrossAt(u, v, 1) == n.y && CrossAt(u, v, 0) == n.x;
  }

  /** Moving all three corners by the same offset keeps the winding. */
  lemma TurnsTranslate(a: Vec3, b: Vec3, c: Vec3, n: Vec3, pos: Vec3)
    ensures Turns(Add3(pos, a), Add3(pos, b), Add3(pos, c), n) <==> Turns(a, b, c, n)
  {
    assert Sub3(Add3(pos, b), Add3(pos, a)) == Sub3(b, a);
    assert Sub3(Add3(pos, c), Add3(pos, a)) == Sub3(c, a);
  }
}

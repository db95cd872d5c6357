/**
 * The immutable integer block coordinate of the newer revision
 * (Assets/Scripts/Block/BlockPos.cs): an affine algebra over (x, y, z), face
 * offsets, a read-only indexer, value equality and the owning-chunk lookup.
 */
module BlockPositions {
  import opened Optional
  import opened Vectors
  import opened Faces
  import ChunkGrid

  datatype BlockPos = BlockPos(x: int, y: int, z: int)

  const zero := BlockPos(0, 0, 0)
  const one := BlockPos(1, 1, 1)
  const up := BlockPos(0, 1, 0)
  const down := BlockPos(0, -1, 0)
  const fwd := BlockPos(0, 0, 1)
  const back := BlockPos(0, 0, -1)
  const right := BlockPos(1, 0, 0)
  const left := BlockPos(-1, 0, 0)

  // Conversions to and from Vector3Int, both implicit in the engine.
  function ToVec3(p: BlockPos): Vec3 {
    Vec3(p.x, p.y, p.z)
  }

  function FromVec3(v: Vec3): BlockPos {
    BlockPos(v.x, v.y, v.z)
  }

  lemma Vec3RoundTrip(p: BlockPos, v: Vec3)
    ensures FromVec3(ToVec3(p)) == p && ToVec3(FromVec3(v)) == v
  {
  }

  // ---------------------------------------------------------------------------
  // Operators

  function Neg(a: BlockPos): (r: BlockPos)
    ensures Add(a, r) == zero
  {
    BlockPos(-a.x, -a.y, -a.z)
  }

  /** `operator +`: agrees with `Vector3Int` addition through the implicit conversion. */
  function Add(a: BlockPos, b: BlockPos): (r: BlockPos)
    ensures ToVec3(r) == Add3(ToVec3(a), ToVec3(b))
  {
    BlockPos(a.x + b.x, a.y + b.y, a.z + b.z)
  }

  /** `+` and unary `-` make block positions a commutative group with `zero` as identity. */
  lemma AddGroupLaws(a: BlockPos, b: BlockPos, c: BlockPos)
    ensures Add(a, zero) == a && Add(zero, a) == a
    ensures Add(a, b) == Add(b, a)
    ensures Add(Add(a, b), c) == Add(a, Add(b, c))
    ensures Add(a, Neg(a)) == zero
  {
  }

  function Sub(a: BlockPos, b: BlockPos): (r: BlockPos)
    ensures Add(r, b) == a
  {
    BlockPos(a.x - b.x, a.y - b.y, a.z - b.z)
  }

  function Mul(p: BlockPos, a: int): BlockPos {
    BlockPos(p.x * a, p.y * a, p.z * a)
  }

  /** C#'s `/` on `int`: the quotient truncated toward zero. */
  function TruncDiv(n: int, d: int): int
    requires d != 0
  {
    var q := Abs(n) / Abs(d);
    if (n < 0) == (d < 0) then q else -q
  }

  /** C#'s `%` on `int`: the remainder takes the sign of the dividend. */
  function TruncMod(n: int, d: int): int
    requires d != 0
  {
    var r := Abs(n) % Abs(d);
    if n < 0 then -r else r
  }

  function Abs(n: int): nat {
    if n < 0 then -n else n
  }

  /** `p / a`, component-wise; `None` is the `DivideByZeroException` for `a == 0`. */
  function Div(p: BlockPos, a: int): (r: Option<BlockPos>)
    ensures r.Some? <==> a != 0
  {
    if a == 0 then None else Some(BlockPos(TruncDiv(p.x, a), TruncDiv(p.y, a), TruncDiv(p.z, a)))
  }

  /** `p % a`, component-wise; `None` is the `DivideByZeroException` for `a == 0`. */
  function Mod(p: BlockPos, a: int): (r: Option<BlockPos>)
    ensures r.Some? <==> a != 0
  {
    if a == 0 then None else Some(BlockPos(TruncMod(p.x, a), TruncMod(p.y, a), TruncMod(p.z, a)))
  }

  /** The read-only indexer; `None` is the `IndexOutOfRangeException`. */
  function Index(p: BlockPos, key: int): (r: Option<int>)
    ensures r.Some? <==> 0 <= key < 3
    ensures r.Some? ==> r.value == Coord(ToVec3(p), key)
  {
    match key
    case 0 => Some(p.x)
    case 1 => Some(p.y)
    case 2 => Some(p.z)
    case _ => None
  }

  /** `operator ==`. */
  predicate Eq(a: BlockPos, b: BlockPos) {
    a.x == b.x && a.y == b.y && a.z == b.z
  }

  /** `operator !=`, written out independently in the engine. */
  predicate Neq(a: BlockPos, b: BlockPos) {
    a.x != b.x || a.y != b.y || a.z != b.z
  }

  // ---------------------------------------------------------------------------
  // Offsets

  /** `offset(x, y, z)`. */
  function Offset(p: BlockPos, dx: int, dy: int, dz: int): (r: BlockPos)
    ensures r == Add(p, BlockPos(dx, dy, dz))
  {
    BlockPos(p.x + dx, p.y + dy, p.z + dz)
  }

  /**
   * `offset(face, n)`: moves `n` steps through `face`. The result differs from
   * `p` on the face's axis only, by `n` in the direction the face looks.
   */
  function OffsetFace(p: BlockPos, face: Face, n: int): (r: BlockPos)
    ensures forall k :: 0 <= k < 3 ==>
      Coord(ToVec3(r), k) == Coord(ToVec3(p), k) + (if k == Axis(face) then Sign(face) * n else 0)
  {
    match face
    case BOTTOM => Offset(p, 0, -n, 0)
    case TOP => Offset(p, 0, n, 0)
    case NORTH => Offset(p, 0, 0, n)
    case SOUTH => Offset(p, 0, 0, -n)
    case EAST => Offset(p, n, 0, 0)
    case WEST => Offset(p, -n, 0, 0)
  }

  /** Owning chunk: floor division of every coordinate by `CHUNK_SIZE`. */
  function GetChunkPos(p: BlockPos): (c: Vec3)
    ensures ChunkGrid.CHUNK_SIZE * c.x <= p.x < ChunkGrid.CHUNK_SIZE * c.x + ChunkGrid.CHUNK_SIZE
    ensures ChunkGrid.CHUNK_SIZE * c.y <= p.y < ChunkGrid.CHUNK_SIZE * c.y + ChunkGrid.CHUNK_SIZE
    ensures ChunkGrid.CHUNK_SIZE * c.z <= p.z < ChunkGrid.CHUNK_SIZE * c.z + ChunkGrid.CHUNK_SIZE
  {
    // Dafny's `/` by a positive divisor rounds toward negative infinity. The
    // engine converts to single precision first, then divides and floors; the
    // two agree while every coordinate is at most 2^24 in magnitude.
    Vec3(p.x / ChunkGrid.CHUNK_SIZE, p.y / ChunkGrid.CHUNK_SIZE, p.z / ChunkGrid.CHUNK_SIZE)
  }

  /**
   * Every block of the box spanned by two corners, in the order of the loops
   * `for x { for y { for z } }`: the minimum corner is inclusive and the maximum exclusive.
   * The method is commented out in this revision; the older mesh generator
   * still iterates it.
   */
  function BlocksInVolume(c1: BlockPos, c2: BlockPos): (r: seq<BlockPos>)
    ensures forall q :: q in r <==>
      (Min(c1.x, c2.x) <= q.x < Max(c1.x, c2.x) &&
       Min(c1.y, c2.y) <= q.y < Max(c1.y, c2.y) &&
       Min(c1.z, c2.z) <= q.z < Max(c1.z, c2.z))
  {
    var lo := Vec3(Min(c1.x, c2.x), Min(c1.y, c2.y), Min(c1.z, c2.z));
    var hi := Vec3(Max(c1.x, c2.x), Max(c1.y, c2.y), Max(c1.z, c2.z));
    var cells := ChunkGrid.Volume(lo, hi);
    var r := seq(|cells|, i requires 0 <= i < |cells| => FromVec3(cells[i]));
    assert forall q :: q in r <==> ToVec3(q) in cells by {
      forall q ensures q in r <==> ToVec3(q) in cells {
        if ToVec3(q) in cells {
          var i :| 0 <= i < |cells| && cells[i] == ToVec3(q);
          assert r[i] == q;
        }
      }
    }
    forall q ensures ToVec3(q) in cells <==> lo.x <= q.x < hi.x && lo.y <= q.y < hi.y && lo.z <= q.z < hi.z {
      ChunkGrid.VolumeMembers(lo, hi, ToVec3(q));
    }
    r
  }

  function Min(a: int, b: int): int {
    if a < b then a else b
  }

  function Max(a: int, b: int): int {
    if a < b then b else a
  }

  // ---------------------------------------------------------------------------
  // Properties

  /** Moving back through the opposite face undoes a face offset. */
  lemma OffsetOppositeInverse(p: BlockPos, face: Face, n: int)
    ensures OffsetFace(OffsetFace(p, face, n), Opposite(face), n) == p
  {
    var q := OffsetFace(p, face, n);
    var r := OffsetFace(q, Opposite(face), n);
    assert Coord(ToVec3(r), 0) == Coord(ToVec3(p), 0);
    assert Coord(ToVec3(r), 1) == Coord(ToVec3(p), 1);
    assert Coord(ToVec3(r), 2) == Coord(ToVec3(p), 2);
  }

  /** A face offset is the addition of `n` times the face normal. */
  lemma OffsetFaceIsNormalStep(p: BlockPos, face: Face, n: int)
    ensures OffsetFace(p, face, n) == Add(p, Mul(FromVec3(Normal(face)), n))
  {
    var r := OffsetFace(p, face, n);
    var s := Add(p, Mul(FromVec3(Normal(face)), n));
    assert Coord(ToVec3(r), 0) == Coord(ToVec3(s), 0);
    assert Coord(ToVec3(r), 1) == Coord(ToVec3(s), 1);
    assert Coord(ToVec3(r), 2) == Coord(ToVec3(s), 2);
  }

  /** Multiplying by `n + 1` adds one more copy of the position; multiplying by 0 gives `zero`. */
  lemma MulIsRepeatedAdd(p: BlockPos, n: int)
    ensures Mul(p, 0) == BlockPos(0, 0, 0)
    ensures Mul(p, n + 1) == Add(Mul(p, n), p)
  {
  }

  lemma NegInvolution(a: BlockPos)
    ensures Neg(Neg(a)) == a
  {
  }

  lemma SubIsAddNeg(a: BlockPos, b: BlockPos)
    ensures Sub(a, b) == Add(a, Neg(b))
  {
  }

  /** `==` is value equality and `!=` its exact negation. */
  lemma EqualityOperators(a: BlockPos, b: BlockPos)
    ensures Eq(a, b) <==> a == b
    ensures Neq(a, b) <==> !Eq(a, b)
  {
  }

  /** C#'s truncating division and remainder recombine to the dividend. */
  lemma TruncDivMod(n: int, d: int)
    requires d != 0
    ensures TruncDiv(n, d) * d + TruncMod(n, d) == n
    ensures Abs(TruncMod(n, d)) < Abs(d)
    ensures TruncMod(n, d) == 0 || (TruncMod(n, d) < 0 <==> n < 0)
  {
    var q, r := Abs(n) / Abs(d), Abs(n) % Abs(d);
    assert Abs(n) == q * Abs(d) + r;
    if d < 0 {
      assert q * Abs(d) == -(q * d);
      assert (-q) * d == q * Abs(d);
    }
  }

  /** Component-wise, `(p / a) * a + p % a == p` for every non-zero `a`. */
  lemma DivModRecombine(p: BlockPos, a: int)
    requires a != 0
    ensures Add(Mul(Div(p, a).value, a), Mod(p, a).value) == p
  {
    TruncDivMod(p.x, a);
    TruncDivMod(p.y, a);
    TruncDivMod(p.z, a);
  }

  /** Truncation is not flooring: one block west of the origin divides to 0, not -1. */
  lemma TruncDivIsNotFloor()
    ensures TruncDiv(-1, ChunkGrid.CHUNK_SIZE) == 0
    ensures GetChunkPos(BlockPos(-1, 0, 0)).x == -1
  {
  }

  /** The bounds of `GetChunkPos` determine the chunk: it is the only such triple. */
  lemma GetChunkPosUnique(p: BlockPos, c: Vec3)
    requires ChunkGrid.CHUNK_SIZE * c.x <= p.x < ChunkGrid.CHUNK_SIZE * c.x + ChunkGrid.CHUNK_SIZE
    requires ChunkGrid.CHUNK_SIZE * c.y <= p.y < ChunkGrid.CHUNK_SIZE * c.y + ChunkGrid.CHUNK_SIZE
    requires ChunkGrid.CHUNK_SIZE * c.z <= p.z < ChunkGrid.CHUNK_SIZE * c.z + ChunkGrid.CHUNK_SIZE
    ensures GetChunkPos(p) == c
  {
    ChunkGrid.DivModUnique(p.x, ChunkGrid.CHUNK_SIZE, c.x, p.x - ChunkGrid.CHUNK_SIZE * c.x);
    ChunkGrid.DivModUnique(p.y, ChunkGrid.CHUNK_SIZE, c.y, p.y - ChunkGrid.CHUNK_SIZE * c.y);
    ChunkGrid.DivModUnique(p.z, ChunkGrid.CHUNK_SIZE, c.z, p.z - ChunkGrid.CHUNK_SIZE * c.z);
  }
}

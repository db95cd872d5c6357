/**
 * The older, mutable block coordinate (Assets/Scripts/BlockPos.cs). Its
 * indexer can also assign a component; as a value type, assignment is
 * modelled as returning the updated position.
 */
module LegacyBlockPositions {
  import opened Optional
  import opened Vectors
  import opened Faces
  import Current = BlockPositions

  datatype BlockPos = BlockPos(x: int, y: int, z: int)

  function Neg(a: BlockPos): BlockPos {
    BlockPos(-a.x, -a.y, -a.z)
  }

  function Add(a: BlockPos, b: BlockPos): BlockPos {
    BlockPos(a.x + b.x, a.y + b.y, a.z + b.z)
  }

  function Sub(a: BlockPos, b: BlockPos): (r: BlockPos)
    ensures Add(r, b) == a
  {
    BlockPos(a.x - b.x, a.y - b.y, a.z - b.z)
  }

  function Mul(p: BlockPos, a: int): BlockPos {
    BlockPos(p.x * a, p.y * a, p.z * a)
  }

  /** `offset(x, y, z)`. */
  function Offset(p: BlockPos, dx: int, dy: int, dz: int): (r: BlockPos)
    ensures r == Add(p, BlockPos(dx, dy, dz))
  {
    BlockPos(p.x + dx, p.y + dy, p.z + dz)
  }

  /** `offset(face, n)`, with the switch in this revision's own case order. */
  function OffsetFace(p: BlockPos, face: Face, n: int): BlockPos {
    match face
    case BOTTOM => Offset(p, 0, -n, 0)
    case TOP => Offset(p, 0, n, 0)
    case NORTH => Offset(p, 0, 0, n)
    case EAST => Offset(p, n, 0, 0)
    case WEST => Offset(p, -n, 0, 0)
    case SOUTH => Offset(p, 0, 0, -n)
  }

  /** Indexer `get`; `None` is the `IndexOutOfRangeException`. */
  function Get(p: BlockPos, key: int): (r: Option<int>)
    ensures r.Some? <==> 0 <= key < 3
    ensures r.Some? ==> r == Current.Index(ToCurrent(p), key)
  {
    match key
    case 0 => Some(p.x)
    case 1 => Some(p.y)
    case 2 => Some(p.z)
    case _ => None
  }

  /** Indexer `set`: the position after `p[key] = value`, or `None` for the exception. */
  function Set(p: BlockPos, key: int, value: int): (r: Option<BlockPos>)
    ensures r.Some? <==> 0 <= key < 3
    ensures r.Some? ==> forall j :: 0 <= j < 3 ==>
      Current.Index(ToCurrent(r.value), j) == if j == key then Some(value) else Current.Index(ToCurrent(p), j)
  {
    match key
    case 0 => Some(p.(x := value))
    case 1 => Some(p.(y := value))
    case 2 => Some(p.(z := value))
    case _ => None
  }

  predicate Eq(a: BlockPos, b: BlockPos) {
    a.x == b.x && a.y == b.y && a.z == b.z
  }

  predicate Neq(a: BlockPos, b: BlockPos) {
    a.x != b.x || a.y != b.y || a.z != b.z
  }

  function ToCurrent(p: BlockPos): Current.BlockPos {
    Current.BlockPos(p.x, p.y, p.z)
  }

  // ---------------------------------------------------------------------------
  // Properties

  /** Both revisions move through a face along the same axis, by the same amount. */
  lemma OffsetFaceAgreesWithCurrent(p: BlockPos, face: Face, n: int)
    ensures ToCurrent(OffsetFace(p, face, n)) == Current.OffsetFace(ToCurrent(p), face, n)
  {
  }

  /** Reading back a component just written yields the written value. */
  lemma SetThenGet(p: BlockPos, key: int, value: int)
    requires 0 <= key < 3
    ensures Get(Set(p, key, value).value, key) == Some(value)
  {
  }

  /** Writing one component leaves the other two as they were. */
  lemma SetLeavesOthers(p: BlockPos, key: int, other: int, value: int)
    requires 0 <= key < 3 && 0 <= other < 3 && other != key
    ensures Get(Set(p, key, value).value, other) == Get(p, other)
  {
  }

  /** The operators act component-wise, as in the newer revision. */
  lemma OperatorsAgreeWithCurrent(a: BlockPos, b: BlockPos, s: int)
    ensures ToCurrent(Add(a, b)) == Current.Add(ToCurrent(a), ToCurrent(b))
    ensures ToCurrent(Sub(a, b)) == Current.Sub(ToCurrent(a), ToCurrent(b))
    ensures ToCurrent(Mul(a, s)) == Current.Mul(ToCurrent(a), s)
    ensures ToCurrent(Neg(a)) == Current.Neg(ToCurrent(a))
  {
  }

  lemma EqualityOperators(a: BlockPos, b: BlockPos)
    ensures Eq(a, b) <==> a == b
    ensures Neq(a, b) <==> !Eq(a, b)
  {
  }
}

/**
 * Geometry shared by both chunk revisions: the edge length, the in-chunk test,
 * the flat storage layout `x + 16y + 256z`, and the order in which the
 * engine's triple loops `for x { for y { for z { … } } }` visit a box of cells.
 */
module ChunkGrid {
  import opened Vectors

  /** `Chunk.CHUNK_SIZE`, the same in both revisions. */
  const CHUNK_SIZE: int := 16

  /** Number of cells in a chunk, the length of its block array. */
  const VOLUME: int := CHUNK_SIZE * CHUNK_SIZE * CHUNK_SIZE

  /** `ValidatePos`: every coordinate lies in `[0, CHUNK_SIZE)`. */
  predicate InChunk(p: Vec3) {
    0 <= p.x < CHUNK_SIZE && 0 <= p.y < CHUNK_SIZE && 0 <= p.z < CHUNK_SIZE
  }

  /** Storage slot of a local position: `x + y*CHUNK_SIZE + z*CHUNK_SIZE*CHUNK_SIZE`. */
  function FlatIndex(p: Vec3): int {
    p.x + p.y * CHUNK_SIZE + p.z * CHUNK_SIZE * CHUNK_SIZE
  }

  /** The local position stored in slot `i`: the inverse of `FlatIndex`. */
  function CellOfIndex(i: int): (p: Vec3)
    requires 0 <= i < VOLUME
    ensures InChunk(p) && FlatIndex(p) == i
  {
    Vec3(i % 16, (i / 16) % 16, i / 256)
  }

  /** The layout is a bijection between `[0,16)³` and `[0, 4096)`. */
  lemma FlatIndexBijective(p: Vec3)
    requires InChunk(p)
    ensures 0 <= FlatIndex(p) < VOLUME
    ensures CellOfIndex(FlatIndex(p)) == p
  {
    var i := FlatIndex(p);
    assert i == p.x + 16 * (p.y + 16 * p.z);
    assert i % 16 == p.x && i / 16 == p.y + 16 * p.z;
    assert (i / 16) % 16 == p.y;
    assert i / 256 == p.z;
  }

  lemma FlatIndexInjective(p: Vec3, q: Vec3)
    requires InChunk(p) && InChunk(q)
    ensures FlatIndex(p) == FlatIndex(q) <==> p == q
  {
    FlatIndexBijective(p);
    FlatIndexBijective(q);
  }

  // ---------------------------------------------------------------------------
  // Loop order over a box

  lemma MulPositive(a: int, b: int)
    requires a > 0 && b > 0
    ensures a * b > 0
  {
  }

  lemma MulAtLeast(a: int, d: int)
    requires a >= 1 && d > 0
    ensures a * d >= d
  {
  }

  /** Euclidean division by a positive divisor is determined by quotient and remainder. */
  lemma DivModUnique(k: int, d: int, q: int, r: int)
    requires d > 0 && 0 <= r < d && k == q * d + r
    ensures k / d == q && k % d == r
  {
    var q', r' := k / d, k % d;
    assert k == q' * d + r';
    assert (q' - q) * d == q' * d - q * d;
    if q' > q {
      MulAtLeast(q' - q, d);
    } else if q' < q {
      MulAtLeast(q - q', d);
    }
  }

  /**
   * The `k`-th cell visited by `for x in [lo.x, hi.x) { for y … { for z … } }`:
   * x changes slowest and z fastest.
   */
  function VolumeCell(lo: Vec3, hi: Vec3, k: int): Vec3
    requires lo.y < hi.y && lo.z < hi.z
  {
    var dy, dz := hi.y - lo.y, hi.z - lo.z;
    MulPositive(dy, dz);
    Vec3(lo.x + k / (dy * dz), lo.y + (k / dz) % dy, lo.z + k % dz)
  }

  /** Number of cells in the box `[lo, hi)`, or 0 if it is empty. */
  function VolumeSize(lo: Vec3, hi: Vec3): nat {
    if lo.x < hi.x && lo.y < hi.y && lo.z < hi.z then
      MulPositive(hi.x - lo.x, hi.y - lo.y);
      MulPositive((hi.x - lo.x) * (hi.y - lo.y), hi.z - lo.z);
      (hi.x - lo.x) * (hi.y - lo.y) * (hi.z - lo.z)
    else 0
  }

  /**
   * The cells `for (x = lo.x; x < hi.x; x++) for (y …) for (z …)` visits, in
   * visiting order; the upper corner is exclusive on every axis.
   */
  function Volume(lo: Vec3, hi: Vec3): (cells: seq<Vec3>)
    ensures |cells| == VolumeSize(lo, hi)
  {
    if lo.x < hi.x && lo.y < hi.y && lo.z < hi.z then
      seq(VolumeSize(lo, hi), k requires 0 <= k < VolumeSize(lo, hi) => VolumeCell(lo, hi, k))
    else []
  }

  /** The step at which the loops over `[lo, hi)` reach cell `v`. */
  function VolumeStep(lo: Vec3, hi: Vec3, v: Vec3): int {
    ((v.x - lo.x) * (hi.y - lo.y) + (v.y - lo.y)) * (hi.z - lo.z) + (v.z - lo.z)
  }

  lemma VolumeCellInBox(lo: Vec3, hi: Vec3, k: int)
    requires lo.x < hi.x && lo.y < hi.y && lo.z < hi.z
    requires 0 <= k < VolumeSize(lo, hi)
    ensures var v := VolumeCell(lo, hi, k);
      lo.x <= v.x < hi.x && lo.y <= v.y < hi.y && lo.z <= v.z < hi.z
  {
    var dx, dy, dz := hi.x - lo.x, hi.y - lo.y, hi.z - lo.z;
    var slab := dy * dz;
    MulPositive(dy, dz);
    assert VolumeSize(lo, hi) == dx * slab;
    var q, r := k / slab, k % slab;
    assert k == q * slab + r && 0 <= r < slab;
    assert q * slab == -((-q) * slab);
    if q < 0 {
      MulAtLeast(-q, slab);
    }
    assert (q - dx + 1) * slab == q * slab - dx * slab + slab;
    if q >= dx {
      MulAtLeast(q - dx + 1, slab);
    }
  }

  lemma VolumeStepInverse(lo: Vec3, hi: Vec3, v: Vec3)
    requires lo.x <= v.x < hi.x && lo.y <= v.y < hi.y && lo.z <= v.z < hi.z
    ensures 0 <= VolumeStep(lo, hi, v) < VolumeSize(lo, hi)
    ensures VolumeCell(lo, hi, VolumeStep(lo, hi, v)) == v
  {
    var dx, dy, dz := hi.x - lo.x, hi.y - lo.y, hi.z - lo.z;
    var a, b, c := v.x - lo.x, v.y - lo.y, v.z - lo.z;
    var k := VolumeStep(lo, hi, v);
    MulPositive(dy, dz);
    // the step splits into whole y-z slabs plus a remainder inside the slab
    var r := b * dz + c;
    assert 0 <= b * dz;
    assert b * dz <= (dy - 1) * dz by { MulAtLeast(dy - b, dz); assert (dy - b) * dz == dy * dz - b * dz; }
    assert (dy - 1) * dz == dy * dz - dz;
    assert 0 <= r < dy * dz;
    assert k == a * (dy * dz) + r by {
      assert (a * dy + b) * dz == a * (dy * dz) + b * dz;
    }
    DivModUnique(k, dy * dz, a, r);
    // within the slab, whole z rows plus the z offset
    assert k == (a * dy + b) * dz + c;
    DivModUnique(k, dz, a * dy + b, c);
    DivModUnique(a * dy + b, dy, a, b);
    // and the step is below the size
    assert a * (dy * dz) <= (dx - 1) * (dy * dz) by {
      MulAtLeast(dx - a, dy * dz);
      assert (dx - a) * (dy * dz) == dx * (dy * dz) - a * (dy * dz);
    }
    assert dx * dy * dz == dx * (dy * dz);
    assert VolumeSize(lo, hi) == dx * dy * dz;
  }

  /** The loops visit exactly the cells of the half-open box `[lo, hi)`. */
  lemma VolumeMembers(lo: Vec3, hi: Vec3, v: Vec3)
    ensures v in Volume(lo, hi) <==>
      lo.x <= v.x < hi.x && lo.y <= v.y < hi.y && lo.z <= v.z < hi.z
  {
    var cells := Volume(lo, hi);
    if v in cells {
      var k :| 0 <= k < |cells| && cells[k] == v;
      VolumeCellInBox(lo, hi, k);
    }
    if lo.x <= v.x < hi.x && lo.y <= v.y < hi.y && lo.z <= v.z < hi.z {
      VolumeStepInverse(lo, hi, v);
      assert cells[VolumeStep(lo, hi, v)] == v;
    }
  }

  /** ... and each of them once: distinct steps visit distinct cells. */
  lemma VolumeDistinct(lo: Vec3, hi: Vec3, i: int, j: int)
    requires 0 <= i < j < |Volume(lo, hi)|
    ensures Volume(lo, hi)[i] != Volume(lo, hi)[j]
  {
    var cells := Volume(lo, hi);
    forall k | 0 <= k < |cells|
      ensures VolumeStep(lo, hi, cells[k]) == k
    {
      VolumeStepOfCell(lo, hi, k);
    }
  }

  lemma VolumeStepOfCell(lo: Vec3, hi: Vec3, k: int)
    requires lo.x < hi.x && lo.y < hi.y && lo.z < hi.z
    requires 0 <= k < VolumeSize(lo, hi)
    ensures VolumeStep(lo, hi, VolumeCell(lo, hi, k)) == k
  {
    var dy, dz := hi.y - lo.y, hi.z - lo.z;
    MulPositive(dy, dz);
    var v := VolumeCell(lo, hi, k);
    var q := k / (dy * dz);
    var m := k / dz;
    assert k == m * dz + k % dz;
    assert m == (m / dy) * dy + m % dy;
    // k / (dy*dz) == (k / dz) / dy
    assert k == (m / dy) * (dy * dz) + ((m % dy) * dz + k % dz) by {
      assert (m / dy) * (dy * dz) == ((m / dy) * dy) * dz;
      assert ((m / dy) * dy + m % dy) * dz == (m / dy) * dy * dz + (m % dy) * dz;
    }
    assert 0 <= (m % dy) * dz + k % dz < dy * dz by {
      MulAtLeast(dy - m % dy, dz);
      assert (dy - m % dy) * dz == dy * dz - (m % dy) * dz;
    }
    DivModUnique(k, dy * dz, m / dy, (m % dy) * dz + k % dz);
    assert v.x - lo.x == m / dy;
    assert v.y - lo.y == m % dy;
    assert v.z - lo.z == k % dz;
    assert ((m / dy) * dy + m % dy) * dz + k % dz == k;
  }

  /** The exclusive upper corner of a chunk, `BlockPos.one * CHUNK_SIZE`. */
  const ChunkEnd := Vec3(CHUNK_SIZE, CHUNK_SIZE, CHUNK_SIZE)

  /** Every cell of a chunk, in the order the engine's loops visit them. */
  function ChunkCells(): (cells: seq<Vec3>)
    ensures |cells| == VOLUME
  {
    seq(VOLUME, k requires 0 <= k < VOLUME => Vec3(k / 256, (k / 16) % 16, k % 16))
  }

  /** The chunk's cell list is the general box walk over `[0, 16)³`. */
  lemma ChunkCellsIsVolume()
    ensures ChunkCells() == Volume(Zero3, ChunkEnd)
  {
    assert VolumeSize(Zero3, ChunkEnd) == VOLUME;
    forall k | 0 <= k < VOLUME ensures ChunkCells()[k] == Volume(Zero3, ChunkEnd)[k] {
      assert Volume(Zero3, ChunkEnd)[k] == VolumeCell(Zero3, ChunkEnd, k);
    }
  }

  /** The chunk loops visit every cell of `[0,16)³` and nothing else. */
  lemma ChunkCellsMembers(v: Vec3)
    ensures v in ChunkCells() <==> InChunk(v)
  {
    ChunkCellsIsVolume();
    VolumeMembers(Zero3, ChunkEnd, v);
  }

  /** ... once each. */
  lemma ChunkCellsDistinct()
    ensures forall i, j :: 0 <= i < j < |ChunkCells()| ==> ChunkCells()[i] != ChunkCells()[j]
  {
    ChunkCellsIsVolume();
    forall i, j | 0 <= i < j < |ChunkCells()| ensures ChunkCells()[i] != ChunkCells()[j] {
      VolumeDistinct(Zero3, ChunkEnd, i, j);
    }
  }
}

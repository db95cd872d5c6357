/**
 * The first chunk (Assets/Scripts/Chunk.cs): raw block ids (0 is air), a
 * noise-driven fill, and a mesher that walks the six directions of
 * `DIRECTIONS` and builds each face by filling the zero components of the
 * direction from `CORNER_OFFSETS`.
 */
module LegacyChunks {
  import opened Optional
  import opened Vectors
  import opened Faces
  import opened ChunkGrid
  import opened Meshes
  import opened FaceLoops
  import opened BlockTypes
  import opened LegacyWinding

  datatype LegacyChunk = LegacyChunk(chunkPos: Vec3, blocks: seq<byte>)

  predicate WellSized(c: LegacyChunk) {
    |c.blocks| == VOLUME
  }

  /** Right, forward, left, back, up, down. */
  const DIRECTIONS: seq<Vec3> :=
    [Vec3(1, 0, 0), Vec3(0, 0, 1), Vec3(-1, 0, 0), Vec3(0, 0, -1), Vec3(0, 1, 0), Vec3(0, -1, 0)]

  /** The four corners of a face, as offsets along its two in-plane axes. */
  const CORNER_OFFSETS: seq<(int, int)> := [(-1, -1), (-1, 1), (1, 1), (1, -1)]

  // ---------------------------------------------------------------------------
  // Block handling

  /** `GetBlock`: the stored id, 0 (air) outside the chunk. */
  function GetBlock(c: LegacyChunk, p: Vec3): (b: byte)
    requires WellSized(c)
    ensures !InChunk(p) ==> b == 0
  {
    if InChunk(p) then
      FlatIndexBijective(p);
      c.blocks[FlatIndex(p)]
    else 0
  }

  /** `SetBlock`: stores an id; a position outside the chunk is ignored. */
  function SetBlock(c: LegacyChunk, p: Vec3, b: byte): (r: LegacyChunk)
    requires WellSized(c)
    ensures WellSized(r) && r.chunkPos == c.chunkPos
    ensures !InChunk(p) ==> r == c
  {
    if InChunk(p) then
      FlatIndexBijective(p);
      c.(blocks := c.blocks[FlatIndex(p) := b])
    else c
  }

  /**
   * `GenerateBlocks`: a cell is solid (1) when its world height is at most 0
   * or the noise surface reaches it. `floorHeight(x, z)` is the whole part of
   * `16 · PerlinNoise(x / 16, z / 16)`, so comparing it with the integer
   * height is the comparison the engine makes in floating point.
   */
  function GenerateBlocks(chunkPos: Vec3, floorHeight: (int, int) -> int): (c: LegacyChunk)
    ensures WellSized(c) && c.chunkPos == chunkPos
  {
    LegacyChunk(chunkPos, seq(VOLUME, (i: int) requires 0 <= i < VOLUME =>
      var p := Add3(Vec3(chunkPos.x * CHUNK_SIZE, chunkPos.y * CHUNK_SIZE, chunkPos.z * CHUNK_SIZE), CellOfIndex(i));
      if p.y <= 0 || floorHeight(p.x, p.z) >= p.y then 1 else 0))
  }

  // ---------------------------------------------------------------------------
  // Mesh generation

  /**
   * The inner loop of `GenerateFace`: walking the components in order, each
   * zero component takes the next corner value. A direction with more than
   * two zero components runs past the corner pair (`None`: the engine's
   * `IndexOutOfRangeException`).
   */
  function FillFrom(v: seq<int>, corner: seq<int>, j: nat, c: nat): (r: Option<seq<int>>)
    requires |v| == 3 && |corner| == 2 && j <= 3 && c <= 2
    ensures r.Some? ==> |r.value| == 3
    decreases 3 - j
  {
    if j == 3 then Some(v)
    else if v[j] == 0 then
      if c == 2 then None else FillFrom(v[j := corner[c]], corner, j + 1, c + 1)
    else FillFrom(v, corner, j + 1, c)
  }

  function FillZeros(d: Vec3, corner: (int, int)): Option<Vec3> {
    match FillFrom([d.x, d.y, d.z], [corner.0, corner.1], 0, 0)
    case Some(w) => Some(Vec3(w[0], w[1], w[2]))
    case None => None
  }

  /** The closed form of the fill for an axis direction: the two free axes, in order, take the corner. */
  function InPlane(d: Vec3, corner: (int, int)): Vec3 {
    if d.x != 0 then Vec3(d.x, corner.0, corner.1)
    else if d.y != 0 then Vec3(corner.0, d.y, corner.1)
    else Vec3(corner.0, corner.1, d.z)
  }

  /** Vertex `i` of the face towards `dir`, relative to the cell: `(vOffset + one) * 0.5`, exact for components ±1. */
  function CornerOffset(dir: Vec3, i: nat): Vec3
    requires i < 4
  {
    var w := InPlane(dir, CORNER_OFFSETS[i]);
    Vec3((w.x + 1) / 2, (w.y + 1) / 2, (w.z + 1) / 2)
  }

  /** The winding: faces looking up, left or back use the first order, the rest the reverse. */
  function FaceIndices(dir: Vec3): seq<int> {
    if dir.y == 1 || dir.x == -1 || dir.z == -1 then [0, 1, 3, 1, 2, 3] else [3, 1, 0, 3, 2, 1]
  }

  /** UVs right, one, up, zero: each face shows the whole texture. */
  const FACE_UVS: seq<Vec2> := [Vec2(1, 0), Vec2(1, 1), Vec2(0, 1), Vec2(0, 0)]

  /** The face towards `dir` of the cell at the origin. */
  function UnitFace(dir: Vec3): (q: Quad)
    ensures WellFormedQuad(q)
  {
    Quad([CornerOffset(dir, 0), CornerOffset(dir, 1), CornerOffset(dir, 2), CornerOffset(dir, 3)],
         FaceIndices(dir), FACE_UVS)
  }

  /** `GenerateFace(pos, dir)`: the vertices are `pos` plus the unit face's corners. */
  function FaceQuad(pos: Vec3, dir: Vec3): (q: Quad)
    ensures WellFormedQuad(q)
  {
    TranslateKeepsFacing(UnitFace(dir), pos, dir);
    Translate(UnitFace(dir), pos)
  }

  /** The test in the loop: a solid cell whose neighbour towards `d` is air (or outside the chunk). */
  predicate Visible(c: LegacyChunk, p: Vec3, d: Vec3)
    requires WellSized(c)
  {
    GetBlock(c, p) != 0 && GetBlock(c, Add3(p, d)) == 0
  }

  /** The faces `GenerateMesh` adds, in the order it adds them. */
  function MeshFaces(c: LegacyChunk): seq<(Vec3, Vec3)>
    requires WellSized(c)
  {
    Emitted(ChunkCells(), DIRECTIONS, (p: Vec3, d: Vec3) => Visible(c, p, d))
  }

  /** `GenerateMesh`: the buffers handed to the mesh. */
  function GenerateMesh(c: LegacyChunk): (m: MeshBuffers)
    requires WellSized(c)
    ensures QuadMesh(m)
    ensures |m.vertices| == 4 * |MeshFaces(c)|
  {
    var qs := QuadsOf(MeshFaces(c), (p: Vec3, d: Vec3) => FaceQuad(p, d));
    BuildIsQuadMesh(qs);
    Build(qs)
  }

  // ---------------------------------------------------------------------------
  // Properties

  lemma DirectionsAreAxisUnits()
    ensures forall i :: 0 <= i < |DIRECTIONS| ==> IsAxisUnit(DIRECTIONS[i])
  {
  }

  /** The six directions are the six face normals, each once. */
  lemma DirectionsAreFaceNormals()
    ensures NoDuplicates(DIRECTIONS)
    ensures forall f: Face :: Normal(f) in DIRECTIONS
    ensures forall i :: 0 <= i < |DIRECTIONS| ==> IsAxisUnit(DIRECTIONS[i])
  {
    forall f: Face ensures Normal(f) in DIRECTIONS {
      match f
      case EAST => assert DIRECTIONS[0] == Normal(f);
      case NORTH => assert DIRECTIONS[1] == Normal(f);
      case WEST => assert DIRECTIONS[2] == Normal(f);
      case SOUTH => assert DIRECTIONS[3] == Normal(f);
      case TOP => assert DIRECTIONS[4] == Normal(f);
      case BOTTOM => assert DIRECTIONS[5] == Normal(f);
    }
  }

  /** The loop fills the free axes as the closed form says; the zero vector overruns the corner pair. */
  lemma FillZerosClosedForm(d: Vec3, i: nat)
    requires i < 4
    ensures IsAxisUnit(d) ==> FillZeros(d, CORNER_OFFSETS[i]) == Some(InPlane(d, CORNER_OFFSETS[i]))
    ensures d == Zero3 ==> FillZeros(d, CORNER_OFFSETS[i]) == None
  {
  }

  /** Reading back an id just stored at a cell of the chunk gives that id; other cells are unchanged. */
  lemma GetAfterSet(c: LegacyChunk, p: Vec3, q: Vec3, b: byte)
    requires WellSized(c) && InChunk(p)
    ensures GetBlock(SetBlock(c, p, b), p) == b
    ensures q != p ==> GetBlock(SetBlock(c, p, b), q) == GetBlock(c, q)
  {
    if q != p && InChunk(q) {
      FlatIndexInjective(p, q);
    }
  }

  /** A generated cell is solid exactly at or below height 0 or under the noise surface. */
  lemma GenerateBlocksCell(chunkPos: Vec3, floorHeight: (int, int) -> int, p: Vec3)
    requires InChunk(p)
    ensures var w := Add3(Vec3(chunkPos.x * CHUNK_SIZE, chunkPos.y * CHUNK_SIZE, chunkPos.z * CHUNK_SIZE), p);
      GetBlock(GenerateBlocks(chunkPos, floorHeight), p) == (if w.y <= 0 || floorHeight(w.x, w.z) >= w.y then 1 else 0)
  {
    FlatIndexBijective(p);
  }

  /** Generated columns have no overhangs: below a solid cell every cell is solid. */
  lemma GenerateBlocksColumns(chunkPos: Vec3, floorHeight: (int, int) -> int, p: Vec3, below: int)
    requires InChunk(p) && 0 <= below < p.y
    ensures GetBlock(GenerateBlocks(chunkPos, floorHeight), p) == 1 ==>
      GetBlock(GenerateBlocks(chunkPos, floorHeight), Vec3(p.x, below, p.z)) == 1
  {
    GenerateBlocksCell(chunkPos, floorHeight, p);
    GenerateBlocksCell(chunkPos, floorHeight, Vec3(p.x, below, p.z));
  }

  /** Every vertex of a face lies on that side of the cell, and both triangles wind about the direction. */
  lemma FaceQuadGeometry(pos: Vec3, dir: Vec3)
    requires IsAxisUnit(dir)
    ensures forall i :: 0 <= i < 4 ==> OnFace(FaceQuad(pos, dir).corners[i], pos, FaceOf(dir))
    ensures TrianglesFace(FaceQuad(pos, dir), dir)
    ensures FaceQuad(pos, dir).uvs == FACE_UVS
  {
    var q := UnitFace(dir);
    TranslateKeepsFacing(q, pos, dir);
    UnitFaceFacing(dir);
    FaceQuadCorners(pos, dir);
  }

  lemma FaceQuadCorners(pos: Vec3, dir: Vec3)
    requires IsAxisUnit(dir)
    ensures forall i :: 0 <= i < 4 ==> OnFace(FaceQuad(pos, dir).corners[i], pos, FaceOf(dir))
  {
    var q := UnitFace(dir);
    UnitFaceCorners(dir);
    forall i | 0 <= i < 4 ensures OnFace(FaceQuad(pos, dir).corners[i], pos, FaceOf(dir)) {
      OnFaceTranslate(q.corners[i], Zero3, FaceOf(dir), pos);
      assert Add3(pos, Zero3) == pos;
    }
  }

  lemma UnitFaceCorners(dir: Vec3)
    requires IsAxisUnit(dir)
    ensures forall i :: 0 <= i < 4 ==> OnFace(UnitFace(dir).corners[i], Zero3, FaceOf(dir))
  {
  }

  lemma UnitFaceFacing(dir: Vec3)
    requires IsAxisUnit(dir)
    ensures TrianglesFace(UnitFace(dir), dir)
  {
    if dir == Vec3(1, 0, 0) {
      UnitFaceFacingEast(dir);
    } else if dir == Vec3(-1, 0, 0) {
      UnitFaceFacingWest(dir);
    } else if dir == Vec3(0, 1, 0) {
      UnitFaceFacingUp(dir);
    } else if dir == Vec3(0, -1, 0) {
      UnitFaceFacingDown(dir);
    } else if dir == Vec3(0, 0, 1) {
      UnitFaceFacingForward(dir);
    } else {
      UnitFaceFacingBack(dir);
    }
  }

  lemma UnitFaceFacingEast(dir: Vec3)
    requires dir == Vec3(1, 0, 0)
    ensures TrianglesFace(UnitFace(dir), dir)
  {
    var q := UnitFace(dir);
    assert q.corners == [Vec3(1, 0, 0), Vec3(1, 0, 1), Vec3(1, 1, 1), Vec3(1, 1, 0)];
    assert q.indices == [3, 1, 0, 3, 2, 1];
    assert q.corners[q.indices[0]] == Vec3(1, 1, 0);
    assert q.corners[q.indices[1]] == Vec3(1, 0, 1);
    assert q.corners[q.indices[2]] == Vec3(1, 0, 0);
    assert q.corners[q.indices[3]] == Vec3(1, 1, 0);
    assert q.corners[q.indices[4]] == Vec3(1, 1, 1);
    assert q.corners[q.indices[5]] == Vec3(1, 0, 1);
    TurnsEastFirst();
    TurnsEastSecond();
  }

  lemma UnitFaceFacingWest(dir: Vec3)
    requires dir == Vec3(-1, 0, 0)
    ensures TrianglesFace(UnitFace(dir), dir)
  {
    var q := UnitFace(dir);
    assert q.corners == [Vec3(0, 0, 0), Vec3(0, 0, 1), Vec3(0, 1, 1), Vec3(0, 1, 0)];
    assert q.indices == [0, 1, 3, 1, 2, 3];
    assert q.corners[q.indices[0]] == Vec3(0, 0, 0);
    assert q.corners[q.indices[1]] == Vec3(0, 0, 1);
    assert q.corners[q.indices[2]] == Vec3(0, 1, 0);
    assert q.corners[q.indices[3]] == Vec3(0, 0, 1);
    assert q.corners[q.indices[4]] == Vec3(0, 1, 1);
    assert q.corners[q.indices[5]] == Vec3(0, 1, 0);
    TurnsWestFirst();
    TurnsWestSecond();
  }

  lemma UnitFaceFacingUp(dir: Vec3)
    requires dir == Vec3(0, 1, 0)
    ensures TrianglesFace(UnitFace(dir), dir)
  {
    var q := UnitFace(dir);
    assert q.corners == [Vec3(0, 1, 0), Vec3(0, 1, 1), Vec3(1, 1, 1), Vec3(1, 1, 0)];
    assert q.indices == [0, 1, 3, 1, 2, 3];
    assert q.corners[q.indices[0]] == Vec3(0, 1, 0);
    assert q.corners[q.indices[1]] == Vec3(0, 1, 1);
    assert q.corners[q.indices[2]] == Vec3(1, 1, 0);
    assert q.corners[q.indices[3]] == Vec3(0, 1, 1);
    assert q.corners[q.indices[4]] == Vec3(1, 1, 1);
    assert q.corners[q.indices[5]] == Vec3(1, 1, 0);
    TurnsUpFirst();
    TurnsUpSecond();
  }

  lemma UnitFaceFacingDown(dir: Vec3)
    requires dir == Vec3(0, -1, 0)
    ensures TrianglesFace(UnitFace(dir), dir)
  {
    var q := UnitFace(dir);
    assert q.corners == [Vec3(0, 0, 0), Vec3(0, 0, 1), Vec3(1, 0, 1), Vec3(1, 0, 0)];
    assert q.indices == [3, 1, 0, 3, 2, 1];
    assert q.corners[q.indices[0]] == Vec3(1, 0, 0);
    assert q.corners[q.indices[1]] == Vec3(0, 0, 1);
    assert q.corners[q.indices[2]] == Vec3(0, 0, 0);
    assert q.corners[q.indices[3]] == Vec3(1, 0, 0);
    assert q.corners[q.indices[4]] == Vec3(1, 0, 1);
    assert q.corners[q.indices[5]] == Vec3(0, 0, 1);
    TurnsDownFirst();
    TurnsDownSecond();
  }

  lemma UnitFaceFacingForward(dir: Vec3)
    requires dir == Vec3(0, 0, 1)
    ensures TrianglesFace(UnitFace(dir), dir)
  {
    var q := UnitFace(dir);
    assert q.corners == [Vec3(0, 0, 1), Vec3(0, 1, 1), Vec3(1, 1, 1), Vec3(1, 0, 1)];
    assert q.indices == [3, 1, 0, 3, 2, 1];
    assert q.corners[q.indices[0]] == Vec3(1, 0, 1);
    assert q.corners[q.indices[1]] == Vec3(0, 1, 1);
    assert q.corners[q.indices[2]] == Vec3(0, 0, 1);
    assert q.corners[q.indices[3]] == Vec3(1, 0, 1);
    assert q.corners[q.indices[4]] == Vec3(1, 1, 1);
    assert q.corners[q.indices[5]] == Vec3(0, 1, 1);
    TurnsForwardFirst();
    TurnsForwardSecond();
  }

  lemma UnitFaceFacingBack(dir: Vec3)
    requires dir == Vec3(0, 0, -1)
    ensures TrianglesFace(UnitFace(dir), dir)
  {
    var q := UnitFace(dir);
    assert q.corners == [Vec3(0, 0, 0), Vec3(0, 1, 0), Vec3(1, 1, 0), Vec3(1, 0, 0)];
    assert q.indices == [0, 1, 3, 1, 2, 3];
    assert q.corners[q.indices[0]] == Vec3(0, 0, 0);
    assert q.corners[q.indices[1]] == Vec3(0, 1, 0);
    assert q.corners[q.indices[2]] == Vec3(1, 0, 0);
    assert q.corners[q.indices[3]] == Vec3(0, 1, 0);
    assert q.corners[q.indices[4]] == Vec3(1, 1, 0);
    assert q.corners[q.indices[5]] == Vec3(1, 0, 0);
    TurnsBackFirst();
    TurnsBackSecond();
  }

  /** The mesh holds a face exactly for each solid cell side whose neighbour is air or outside the chunk. */
  lemma MeshFacesMembers(c: LegacyChunk, p: Vec3, d: Vec3)
    requires WellSized(c)
    ensures (p, d) in MeshFaces(c) <==>
      InChunk(p) && d in DIRECTIONS && GetBlock(c, p) != 0 && GetBlock(c, Add3(p, d)) == 0
  {
    EmittedMembers(ChunkCells(), DIRECTIONS, (p: Vec3, d: Vec3) => Visible(c, p, d), (p, d));
    ChunkCellsMembers(p);
  }

  /** No face is generated twice. */
  lemma MeshFacesNoDuplicates(c: LegacyChunk)
    requires WellSized(c)
    ensures NoDuplicates(MeshFaces(c))
  {
    ChunkCellsDistinct();
    DirectionsAreFaceNormals();
    EmittedNoDuplicates(ChunkCells(), DIRECTIONS, (p: Vec3, d: Vec3) => Visible(c, p, d));
  }

  /** The `i`-th quad of the buffers is the face built for the `i`-th generated (cell, direction). */
  lemma GenerateMeshQuads(c: LegacyChunk, i: nat)
    requires WellSized(c) && i < |MeshFaces(c)|
    ensures IsAxisUnit(MeshFaces(c)[i].1)
    ensures QuadAt(GenerateMesh(c), i) == FaceQuad(MeshFaces(c)[i].0, MeshFaces(c)[i].1)
  {
    var faces := MeshFaces(c);
    DirectionsAreAxisUnits();
    forall k | 0 <= k < |faces| ensures IsAxisUnit(faces[k].1) {
      EmittedMembers(ChunkCells(), DIRECTIONS, (p: Vec3, d: Vec3) => Visible(c, p, d), faces[k]);
    }
    var qs := QuadsOf(faces, (p: Vec3, d: Vec3) => FaceQuad(p, d));
    BuildRoundTrip(qs);
  }
}

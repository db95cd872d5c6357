/**
 * The first static mesher (Assets/Scripts/ChunkMeshGenerator.cs), run over
 * the first chunk's raw ids. It walks `BlocksInVolume(zero, one * 16)` and
 * the six faces in enum order, culls against the chunk alone (a neighbour
 * outside it reads as air), fills each face's corners from `CORNER_OFFSETS`,
 * picks one of two windings by face, and gives every face the whole texture.
 */
module LegacyChunkMeshing {
  import opened Optional
  import opened Vectors
  import opened Faces
  import opened ChunkGrid
  import opened Meshes
  import opened FaceLoops
  import BP = BlockPositions
  import LC = LegacyChunks

  /** The positions `BlocksInVolume(BlockPos.zero, BlockPos.one * CHUNK_SIZE)` yields, in order. */
  function Cells(): seq<Vec3> {
    var r := BP.BlocksInVolume(BP.zero, BP.Mul(BP.one, CHUNK_SIZE));
    seq(|r|, i requires 0 <= i < |r| => BP.ToVec3(r[i]))
  }

  // ---------------------------------------------------------------------------
  // GenerateFace

  /** `vOffset` after the fill loop: the face's normal with its zero components taken, in order, from corner `i`. */
  function FilledOffset(face: Face, i: nat): Vec3
    requires i < 4
  {
    NormalsDistinct(face, face);
    LC.FillZerosClosedForm(Normal(face), i);
    LC.FillZeros(Normal(face), LC.CORNER_OFFSETS[i]).value
  }

  /** Vertex `i` of the face relative to the cell, `(vOffset + one) * 0.5`, exact since every component is ±1. */
  function Corner(face: Face, i: nat): Vec3
    requires i < 4
  {
    var v := FilledOffset(face, i);
    Vec3((v.x + 1) / 2, (v.y + 1) / 2, (v.z + 1) / 2)
  }

  /** TOP, SOUTH and WEST use `t, t+1, t+3, t+1, t+2, t+3`; the other faces the reversed triangles. */
  function Winding(face: Face): (r: seq<int>)
    ensures |r| == 6 && forall j :: 0 <= j < 6 ==> 0 <= r[j] < 4
  {
    if face == TOP || face == SOUTH || face == WEST then [0, 1, 3, 1, 2, 3] else [3, 1, 0, 3, 2, 1]
  }

  /** `GenerateFace(pos, face, …)`: four filled corners moved to `pos`, the face's winding, UVs right, one, up, zero. */
  function FaceQuad(pos: Vec3, face: Face): (q: Quad)
    ensures WellFormedQuad(q)
  {
    Translate(Quad([Corner(face, 0), Corner(face, 1), Corner(face, 2), Corner(face, 3)], Winding(face), LC.FACE_UVS), pos)
  }

  // ---------------------------------------------------------------------------
  // GenerateMesh

  /** The loop's test: a non-air cell whose neighbour through the face, read from the same chunk, is air. */
  predicate Visible(c: LC.LegacyChunk, p: Vec3, face: Face)
    requires LC.WellSized(c)
  {
    LC.GetBlock(c, p) != 0 && LC.GetBlock(c, BP.ToVec3(BP.OffsetFace(BP.FromVec3(p), face, 1))) == 0
  }

  /** The faces `GenerateMesh` adds, in the order it adds them. */
  function MeshFaces(c: LC.LegacyChunk): seq<(Vec3, Face)>
    requires LC.WellSized(c)
  {
    Emitted(Cells(), AllFaces, (p: Vec3, face: Face) => Visible(c, p, face))
  }

  /** `GenerateMesh(chunk)`: the buffers handed to `SetMeshData`. */
  function GenerateMesh(c: LC.LegacyChunk): (m: MeshBuffers)
    requires LC.WellSized(c)
    ensures QuadMesh(m)
    ensures |m.vertices| == 4 * |MeshFaces(c)|
  {
    var qs := QuadsOf(MeshFaces(c), (p: Vec3, face: Face) => FaceQuad(p, face));
    BuildIsQuadMesh(qs);
    Build(qs)
  }

  // ---------------------------------------------------------------------------
  // Properties

  /** The volume walk visits the chunk's cells in the order the chunk's own loops do: exactly `[0,16)³`. */
  lemma CellsAreChunkCells()
    ensures Cells() == ChunkCells()
  {
    var r := BP.BlocksInVolume(BP.zero, BP.Mul(BP.one, CHUNK_SIZE));
    ChunkCellsIsVolume();
    assert BP.Mul(BP.one, CHUNK_SIZE) == BP.FromVec3(ChunkEnd);
    assert |Cells()| == |ChunkCells()|;
    forall i | 0 <= i < |ChunkCells()| ensures Cells()[i] == ChunkCells()[i] {
      assert r[i] == BP.FromVec3(ChunkCells()[i]);
    }
  }

  /**
   * The faces this mesher builds are those of the chunk's own mesher for the
   * face's normal: same corners, same winding, same UVs.
   */
  lemma FaceQuadAgrees(pos: Vec3, face: Face)
    ensures FaceQuad(pos, face) == LC.FaceQuad(pos, Normal(face))
  {
    NormalsDistinct(face, face);
    forall i | 0 <= i < 4 ensures Corner(face, i) == LC.CornerOffset(Normal(face), i) {
      LC.FillZerosClosedForm(Normal(face), i);
    }
    assert Winding(face) == LC.FaceIndices(Normal(face));
  }

  /**
   * Every vertex lies on the face's side of the cell at `pos`, both triangles
   * wind about the face's outward normal, and the UVs are right, one, up, zero.
   */
  lemma FaceQuadGeometry(pos: Vec3, face: Face)
    ensures forall i :: 0 <= i < 4 ==> OnFace(FaceQuad(pos, face).corners[i], pos, face)
    ensures TrianglesFace(FaceQuad(pos, face), Normal(face))
    ensures FaceQuad(pos, face).indices == Winding(face)
    ensures FaceQuad(pos, face).uvs == LC.FACE_UVS
  {
    NormalsDistinct(face, face);
    NormalsDistinct(face, FaceOf(Normal(face)));
    FaceQuadAgrees(pos, face);
    LC.FaceQuadGeometry(pos, Normal(face));
  }

  /** The neighbour consulted is the cell one step along the face's normal. */
  lemma NeighbourIsNormalStep(p: Vec3, face: Face)
    ensures BP.ToVec3(BP.OffsetFace(BP.FromVec3(p), face, 1)) == Add3(p, Normal(face))
  {
    BP.OffsetFaceIsNormalStep(BP.FromVec3(p), face, 1);
  }

  /**
   * A face is added exactly for a non-air cell of the chunk whose neighbour
   * through it is air; a neighbour outside the chunk reads as air, so the
   * chunk's border faces are always added.
   */
  lemma MeshFacesMembers(c: LC.LegacyChunk, p: Vec3, face: Face)
    requires LC.WellSized(c)
    ensures (p, face) in MeshFaces(c) <==>
      InChunk(p) && LC.GetBlock(c, p) != 0 && LC.GetBlock(c, Add3(p, Normal(face))) == 0
  {
    CellsAreChunkCells();
    EmittedMembers(Cells(), AllFaces, (p: Vec3, face: Face) => Visible(c, p, face), (p, face));
    ChunkCellsMembers(p);
    AllFacesListsEachFaceOnce();
    NeighbourIsNormalStep(p, face);
  }

  /** Both first meshers add the same faces: `(p, face)` here exactly when `(p, Normal(face))` in the chunk's own mesher. */
  lemma SameFacesAsChunkMesher(c: LC.LegacyChunk, p: Vec3, face: Face)
    requires LC.WellSized(c)
    ensures (p, face) in MeshFaces(c) <==> (p, Normal(face)) in LC.MeshFaces(c)
  {
    MeshFacesMembers(c, p, face);
    LC.MeshFacesMembers(c, p, Normal(face));
    LC.DirectionsAreFaceNormals();
  }

  /** No face is added twice. */
  lemma MeshFacesNoDuplicates(c: LC.LegacyChunk)
    requires LC.WellSized(c)
    ensures NoDuplicates(MeshFaces(c))
  {
    CellsAreChunkCells();
    ChunkCellsDistinct();
    AllFacesListsEachFaceOnce();
    EmittedNoDuplicates(Cells(), AllFaces, (p: Vec3, face: Face) => Visible(c, p, face));
  }

  /** Quad `i` of the buffers is the face built for the `i`-th added (cell, face). */
  lemma GenerateMeshQuads(c: LC.LegacyChunk, i: nat)
    requires LC.WellSized(c) && i < |MeshFaces(c)|
    ensures QuadAt(GenerateMesh(c), i) == FaceQuad(MeshFaces(c)[i].0, MeshFaces(c)[i].1)
  {
    BuildRoundTrip(QuadsOf(MeshFaces(c), (p: Vec3, face: Face) => FaceQuad(p, face)));
  }
}

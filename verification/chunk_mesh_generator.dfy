/**
 * The current mesher (Assets/Scripts/Chunk/ChunkMeshGenerator.cs). For every
 * cell holding a block with a mesh it visits the six faces in enum order and
 * adds a face wherever the world's block beyond it is missing or transparent.
 * Faces come from a fixed vertex table, share one winding and are textured
 * from the block's atlas cell for that face. `World.instance.GetBlock` is
 * the `world` parameter.
 */
module ChunkMeshing {
  import opened Optional
  import opened Vectors
  import opened Faces
  import opened ChunkGrid
  import opened Meshes
  import opened FaceLoops
  import opened BlockTypes
  import opened MeshWinding
  import BP = BlockPositions
  import Reg = BlockRegistry
  import opened Chunks

  /** `World.instance.GetBlock`: the block at a world position, `None` (null) where no chunk is loaded. */
  type WorldLookup = BP.BlockPos -> Option<Block>

  // ---------------------------------------------------------------------------
  // GenerateFace

  /** The four corners `GenerateFace` adds for a face of the cell at the origin, in the order it adds them. */
  function FaceCorners(face: Face): (cs: seq<Vec3>)
    ensures |cs| == 4
  {
    match face
    case TOP => [Vec3(0, 1, 0), Vec3(0, 1, 1), Vec3(1, 1, 1), Vec3(1, 1, 0)]
    case BOTTOM => [Vec3(1, 0, 0), Vec3(1, 0, 1), Vec3(0, 0, 1), Vec3(0, 0, 0)]
    case NORTH => [Vec3(1, 0, 1), Vec3(1, 1, 1), Vec3(0, 1, 1), Vec3(0, 0, 1)]
    case SOUTH => [Vec3(0, 0, 0), Vec3(0, 1, 0), Vec3(1, 1, 0), Vec3(1, 0, 0)]
    case EAST => [Vec3(1, 0, 0), Vec3(1, 1, 0), Vec3(1, 1, 1), Vec3(1, 0, 1)]
    case WEST => [Vec3(0, 0, 1), Vec3(0, 1, 1), Vec3(0, 1, 0), Vec3(0, 0, 0)]
  }

  /** Triangles `t+1, t+3, t` and `t+3, t+1, t+2`, written relative to the face's first vertex `t`. */
  const FACE_INDICES: seq<int> := [1, 3, 0, 3, 1, 2]

  /** The face of the cell at the origin, textured with the atlas cell `uvCorner`. */
  function UnitFace(face: Face, uvCorner: Vec2): (q: Quad)
    ensures WellFormedQuad(q)
  {
    Quad(FaceCorners(face), FACE_INDICES, CellUvs(uvCorner))
  }

  /** `GenerateFace(pos, face, block)`: the unit face moved to `pos`, textured from the block's cell for `face`. */
  function FaceQuad(pos: Vec3, face: Face, b: Block): (q: Quad)
    ensures WellFormedQuad(q)
  {
    Translate(UnitFace(face, GetFaceTextureCoord(b, face)), pos)
  }

  // ---------------------------------------------------------------------------
  // GenerateMesh

  /** The cell holds a registered block that `HasMesh`. */
  predicate Meshed(reg: Reg.Registry, c: Chunk, p: Vec3)
    requires Reg.Valid(reg) && WellSized(c)
  {
    var b := GetBlock(reg, c, BP.FromVec3(p));
    b.Some? && Reg.HasMesh(b.value)
  }

  /** `Chunk2World(p).offset(face)`: the world position beyond the face. */
  function Neighbour(c: Chunk, p: Vec3, face: Face): BP.BlockPos {
    BP.OffsetFace(Chunk2World(c, BP.FromVec3(p)), face, 1)
  }

  /** The block beyond a face lets it show: no block (no chunk loaded there) or a transparent one. */
  predicate ShowsThrough(adjacent: Option<Block>) {
    adjacent.None? || IsTransparent(adjacent.value)
  }

  /** The test of the face loop. */
  predicate Visible(reg: Reg.Registry, c: Chunk, world: WorldLookup, p: Vec3, face: Face)
    requires Reg.Valid(reg) && WellSized(c)
  {
    Meshed(reg, c, p) && ShowsThrough(world(Neighbour(c, p, face)))
  }

  function Emit(reg: Reg.Registry, c: Chunk, world: WorldLookup): (Vec3, Face) -> bool
    requires Reg.Valid(reg) && WellSized(c)
  {
    (p: Vec3, face: Face) => Visible(reg, c, world, p, face)
  }

  /** The block `GenerateFace` is handed for the cell at `p`; `AIR` stands in where no face is ever built. */
  function BlockAt(reg: Reg.Registry, c: Chunk, p: Vec3): Block
    requires Reg.Valid(reg) && WellSized(c)
  {
    var b := GetBlock(reg, c, BP.FromVec3(p));
    if b.Some? then b.value else Reg.AIR
  }

  /** The face a cell contributes, built with the cell's own block. */
  function QuadFor(reg: Reg.Registry, c: Chunk): (Vec3, Face) -> Quad
    requires Reg.Valid(reg) && WellSized(c)
  {
    (p: Vec3, face: Face) => FaceQuad(p, face, BlockAt(reg, c, p))
  }

  /** The faces `GenerateMesh` adds, in the order it adds them. */
  function MeshFaces(reg: Reg.Registry, c: Chunk, world: WorldLookup): seq<(Vec3, Face)>
    requires Reg.Valid(reg) && WellSized(c)
  {
    Emitted(ChunkCells(), AllFaces, Emit(reg, c, world))
  }

  /** Buffers holding the quads of a list of faces. */
  function BuffersOf(reg: Reg.Registry, c: Chunk, es: seq<(Vec3, Face)>): (m: MeshBuffers)
    requires Reg.Valid(reg) && WellSized(c)
    ensures |m.vertices| == 4 * |es|
  {
    var qs := QuadsOf(es, QuadFor(reg, c));
    assert AllWellFormed(qs);
    Build(qs)
  }

  /** The buffers `GenerateMesh` hands to `SetMeshData`. */
  function MeshOf(reg: Reg.Registry, c: Chunk, world: WorldLookup): MeshBuffers
    requires Reg.Valid(reg) && WellSized(c)
  {
    BuffersOf(reg, c, MeshFaces(reg, c, world))
  }

  /** The faces added once the loops have visited `k` cells and `f` faces of the next one. */
  function Partial(reg: Reg.Registry, c: Chunk, world: WorldLookup, k: int, f: int): seq<(Vec3, Face)>
    requires Reg.Valid(reg) && WellSized(c) && 0 <= k < VOLUME && 0 <= f <= 6
  {
    Emitted(ChunkCells()[..k], AllFaces, Emit(reg, c, world)) + EmittedAt(ChunkCells()[k], AllFaces[..f], Emit(reg, c, world))
  }

  /** What the loops have built after visiting the first `k` cells. */
  predicate Visited(reg: Reg.Registry, c: Chunk, world: WorldLookup, k: int, m: MeshBuffers, isEmpty: bool)
    requires Reg.Valid(reg) && WellSized(c)
  {
    && 0 <= k <= VOLUME
    && m == BuffersOf(reg, c, Emitted(ChunkCells()[..k], AllFaces, Emit(reg, c, world)))
    && (isEmpty <==> forall i :: 0 <= i < k ==> !Meshed(reg, c, ChunkCells()[i]))
  }

  /** The buffers and `isEmpty` flag the loops hold after the first `k` cells, one cell at a time. */
  ghost function Progress(reg: Reg.Registry, c: Chunk, world: WorldLookup, k: int): (MeshBuffers, bool)
    requires Reg.Valid(reg) && WellSized(c) && 0 <= k <= VOLUME
    decreases k
  {
    if k == 0 then (Empty, true)
    else if Meshed(reg, c, ChunkCells()[k - 1]) then
      (BuffersOf(reg, c, Emitted(ChunkCells()[..k], AllFaces, Emit(reg, c, world))), false)
    else Progress(reg, c, world, k - 1)
  }

  /** The cell-by-cell state is the closed form: the faces of the first `k` cells, and whether none of them was meshed. */
  lemma {:induction false} ProgressIsVisited(reg: Reg.Registry, c: Chunk, world: WorldLookup, k: int)
    requires Reg.Valid(reg) && WellSized(c) && 0 <= k <= VOLUME
    ensures Visited(reg, c, world, k, Progress(reg, c, world, k).0, Progress(reg, c, world, k).1)
    decreases k
  {
    if k == 0 {
      ProgressStart(reg, c, world);
    } else if Meshed(reg, c, ChunkCells()[k - 1]) {
      ProgressMeshed(reg, c, world, k);
    } else {
      ProgressIsVisited(reg, c, world, k - 1);
      ProgressSkip(reg, c, world, k);
    }
  }

  lemma ProgressStart(reg: Reg.Registry, c: Chunk, world: WorldLookup)
    requires Reg.Valid(reg) && WellSized(c)
    ensures Visited(reg, c, world, 0, Progress(reg, c, world, 0).0, Progress(reg, c, world, 0).1)
  {
    assert ChunkCells()[..0] == [];
  }

  lemma ProgressMeshed(reg: Reg.Registry, c: Chunk, world: WorldLookup, k: int)
    requires Reg.Valid(reg) && WellSized(c) && 0 < k <= VOLUME && Meshed(reg, c, ChunkCells()[k - 1])
    ensures Visited(reg, c, world, k, Progress(reg, c, world, k).0, Progress(reg, c, world, k).1)
  {
    assert !Progress(reg, c, world, k).1;
  }

  lemma ProgressSkip(reg: Reg.Registry, c: Chunk, world: WorldLookup, k: int)
    requires Reg.Valid(reg) && WellSized(c) && 0 < k <= VOLUME && !Meshed(reg, c, ChunkCells()[k - 1])
    requires Visited(reg, c, world, k - 1, Progress(reg, c, world, k - 1).0, Progress(reg, c, world, k - 1).1)
    ensures Visited(reg, c, world, k, Progress(reg, c, world, k).0, Progress(reg, c, world, k).1)
  {
    var (m, isEmpty) := Progress(reg, c, world, k - 1);
    SkipUnmeshed(reg, c, world, k - 1, m, isEmpty);
  }

  /** The buffers after `k` cells hold the faces of exactly those cells. */
  lemma ProgressBuffers(reg: Reg.Registry, c: Chunk, world: WorldLookup, k: int)
    requires Reg.Valid(reg) && WellSized(c) && 0 <= k <= VOLUME
    ensures Progress(reg, c, world, k).0 == BuffersOf(reg, c, Emitted(ChunkCells()[..k], AllFaces, Emit(reg, c, world)))
  {
    ProgressIsVisited(reg, c, world, k);
  }

  /** A cell without a meshed block changes neither the buffers nor `isEmpty`. */
  lemma SkipUnmeshed(reg: Reg.Registry, c: Chunk, world: WorldLookup, k: int, m: MeshBuffers, isEmpty: bool)
    requires Reg.Valid(reg) && WellSized(c) && 0 <= k < VOLUME
    requires Visited(reg, c, world, k, m, isEmpty) && !Meshed(reg, c, ChunkCells()[k])
    ensures Visited(reg, c, world, k + 1, m, isEmpty)
  {
    NothingAdded(reg, c, world, k);
    if !isEmpty {
      var j :| 0 <= j < k && Meshed(reg, c, ChunkCells()[j]);
    }
  }

  /**
   * `GenerateMesh(chunk)`: the loops over x, y and z, the face loop, and
   * `SetMeshData`. The chunk's blocks are not changed; its mesh becomes
   * `MeshOf` and `isEmpty` ends true exactly when no cell holds a meshed block.
   */
  method GenerateMesh(reg: Reg.Registry, c: Chunk, world: WorldLookup) returns (r: Chunk)
    requires Reg.Valid(reg) && WellSized(c)
    ensures r.blocks == c.blocks && r.chunkPos == c.chunkPos
    ensures r.mesh == MeshOf(reg, c, world)
    ensures r.isEmpty <==> forall p :: InChunk(p) ==> !Meshed(reg, c, p)
  {
    var isEmpty := true;
    var m := Empty;
    ghost var k := 0;
    var x := 0;
    while x < CHUNK_SIZE
      invariant 0 <= x <= CHUNK_SIZE && k == x * 256
      invariant (m, isEmpty) == Progress(reg, c, world, k)
    {
      var y := 0;
      while y < CHUNK_SIZE
        invariant 0 <= y <= CHUNK_SIZE && k == x * 256 + y * 16
        invariant (m, isEmpty) == Progress(reg, c, world, k)
      {
        var z := 0;
        while z < CHUNK_SIZE
          invariant 0 <= z <= CHUNK_SIZE && k == x * 256 + y * 16 + z
          invariant (m, isEmpty) == Progress(reg, c, world, k)
        {
          m, isEmpty := VisitCell(reg, c, world, Vec3(x, y, z), k, m, isEmpty);
          k := k + 1;
          z := z + 1;
        }
        y := y + 1;
      }
      x := x + 1;
    }
    AllVisited(reg, c, world, m, isEmpty);
    r := SetMeshData(c.(isEmpty := isEmpty), m);
  }

  /** The body of the cell loops: a cell holding a meshed block clears `isEmpty` and gets its faces. */
  method VisitCell(reg: Reg.Registry, c: Chunk, world: WorldLookup, p: Vec3, ghost k: int, m0: MeshBuffers, isEmpty0: bool)
    returns (m: MeshBuffers, isEmpty: bool)
    requires Reg.Valid(reg) && WellSized(c) && InChunk(p) && k == p.x * 256 + p.y * 16 + p.z
    requires (m0, isEmpty0) == Progress(reg, c, world, k)
    ensures (m, isEmpty) == Progress(reg, c, world, k + 1)
  {
    CellAtStep(p);
    var block := GetBlock(reg, c, BP.FromVec3(p));
    if block.Some? && Reg.HasMesh(block.value) {
      isEmpty := false;
      ProgressBuffers(reg, c, world, k);
      m := AddFaces(reg, c, world, p, k, block.value, m0);
    } else {
      isEmpty := isEmpty0;
      m := m0;
    }
  }

  /** The face loop for the meshed `k`-th cell: it appends that cell's faces to the buffers built so far. */
  method AddFaces(reg: Reg.Registry, c: Chunk, world: WorldLookup, p: Vec3, ghost k: int, block: Block, m0: MeshBuffers)
    returns (m: MeshBuffers)
    requires Reg.Valid(reg) && WellSized(c) && 0 <= k < VOLUME && ChunkCells()[k] == p
    requires GetBlock(reg, c, BP.FromVec3(p)) == Some(block) && Reg.HasMesh(block)
    requires m0 == BuffersOf(reg, c, Emitted(ChunkCells()[..k], AllFaces, Emit(reg, c, world)))
    ensures m == BuffersOf(reg, c, Emitted(ChunkCells()[..k + 1], AllFaces, Emit(reg, c, world)))
  {
    PartialStart(reg, c, world, k);
    m := m0;
    var f := 0;
    while f < 6
      invariant 0 <= f <= 6
      invariant m == BuffersOf(reg, c, Partial(reg, c, world, k, f))
    {
      var face := AllFaces[f];
      var adjacent := world(BP.OffsetFace(Chunk2World(c, BP.FromVec3(p)), face, 1));
      FaceStep(reg, c, world, p, k, block, f, m);
      if adjacent.None? || IsTransparent(adjacent.value) {
        m := AppendQuad(m, FaceQuad(p, face, block));
      }
      f := f + 1;
    }
    PartialEnd(reg, c, world, k);
  }

  /** One turn of the face loop of cell `k` = `p`: the face is appended exactly when the block beyond it shows through. */
  lemma FaceStep(reg: Reg.Registry, c: Chunk, world: WorldLookup, p: Vec3, k: int, block: Block, f: int, m: MeshBuffers)
    requires Reg.Valid(reg) && WellSized(c) && 0 <= k < VOLUME && ChunkCells()[k] == p && 0 <= f < 6
    requires GetBlock(reg, c, BP.FromVec3(p)) == Some(block) && Reg.HasMesh(block)
    requires m == BuffersOf(reg, c, Partial(reg, c, world, k, f))
    ensures ShowsThrough(world(Neighbour(c, p, AllFaces[f]))) ==>
      AppendQuad(m, FaceQuad(p, AllFaces[f], block)) == BuffersOf(reg, c, Partial(reg, c, world, k, f + 1))
    ensures !ShowsThrough(world(Neighbour(c, p, AllFaces[f]))) ==>
      m == BuffersOf(reg, c, Partial(reg, c, world, k, f + 1))
  {
    PartialStep(reg, c, world, k, f);
    AppendIfVisible(reg, c, world, Partial(reg, c, world, k, f), Partial(reg, c, world, k, f + 1), p, AllFaces[f], block);
  }

  lemma AppendIfVisible(reg: Reg.Registry, c: Chunk, world: WorldLookup, es: seq<(Vec3, Face)>, es': seq<(Vec3, Face)>,
                        p: Vec3, face: Face, block: Block)
    requires Reg.Valid(reg) && WellSized(c)
    requires GetBlock(reg, c, BP.FromVec3(p)) == Some(block) && Reg.HasMesh(block)
    requires es' == es + (if Visible(reg, c, world, p, face) then [(p, face)] else [])
    ensures ShowsThrough(world(Neighbour(c, p, face))) ==>
      AppendQuad(BuffersOf(reg, c, es), FaceQuad(p, face, block)) == BuffersOf(reg, c, es')
    ensures !ShowsThrough(world(Neighbour(c, p, face))) ==> BuffersOf(reg, c, es) == BuffersOf(reg, c, es')
  {
    if ShowsThrough(world(Neighbour(c, p, face))) {
      BuffersSnoc(reg, c, es, (p, face));
    } else {
      assert es' == es;
    }
  }

  lemma PartialStart(reg: Reg.Registry, c: Chunk, world: WorldLookup, k: int)
    requires Reg.Valid(reg) && WellSized(c) && 0 <= k < VOLUME
    ensures Partial(reg, c, world, k, 0) == Emitted(ChunkCells()[..k], AllFaces, Emit(reg, c, world))
  {
    assert AllFaces[..0] == [];
  }

  lemma PartialEnd(reg: Reg.Registry, c: Chunk, world: WorldLookup, k: int)
    requires Reg.Valid(reg) && WellSized(c) && 0 <= k < VOLUME
    ensures Partial(reg, c, world, k, 6) == Emitted(ChunkCells()[..k + 1], AllFaces, Emit(reg, c, world))
  {
    assert AllFaces[..6] == AllFaces;
    assert ChunkCells()[..k + 1] == ChunkCells()[..k] + [ChunkCells()[k]];
    EmittedSnoc(ChunkCells()[..k], ChunkCells()[k], AllFaces, Emit(reg, c, world));
  }

  /** The `f`-th face of the `k`-th cell is added exactly when it is visible. */
  lemma PartialStep(reg: Reg.Registry, c: Chunk, world: WorldLookup, k: int, f: int)
    requires Reg.Valid(reg) && WellSized(c) && 0 <= k < VOLUME && 0 <= f < 6
    ensures Partial(reg, c, world, k, f + 1) == Partial(reg, c, world, k, f) +
      (if Visible(reg, c, world, ChunkCells()[k], AllFaces[f]) then [(ChunkCells()[k], AllFaces[f])] else [])
  {
    assert AllFaces[..f + 1] == AllFaces[..f] + [AllFaces[f]];
    EmittedAtSnoc(ChunkCells()[k], AllFaces[..f], AllFaces[f], Emit(reg, c, world));
  }

  lemma BuffersSnoc(reg: Reg.Registry, c: Chunk, es: seq<(Vec3, Face)>, e: (Vec3, Face))
    requires Reg.Valid(reg) && WellSized(c)
    ensures BuffersOf(reg, c, es + [e]) == AppendQuad(BuffersOf(reg, c, es), FaceQuad(e.0, e.1, BlockAt(reg, c, e.0)))
  {
    var quad := QuadFor(reg, c);
    QuadsOfSnoc(es, e, quad);
    var qs := QuadsOf(es, quad);
    assert AllWellFormed(qs);
    BuildSnoc(qs, quad(e.0, e.1));
  }

  /** A cell without a meshed block adds no face. */
  lemma NothingAdded(reg: Reg.Registry, c: Chunk, world: WorldLookup, k: int)
    requires Reg.Valid(reg) && WellSized(c) && 0 <= k < VOLUME
    requires !Meshed(reg, c, ChunkCells()[k])
    ensures Emitted(ChunkCells()[..k + 1], AllFaces, Emit(reg, c, world)) == Emitted(ChunkCells()[..k], AllFaces, Emit(reg, c, world))
  {
    var p := ChunkCells()[k];
    assert ChunkCells()[..k + 1] == ChunkCells()[..k] + [p];
    EmittedSnoc(ChunkCells()[..k], p, AllFaces, Emit(reg, c, world));
    EmittedAtNone(p, AllFaces, Emit(reg, c, world));
  }

  /** The loops reach cell `(x, y, z)` at step `256x + 16y + z`. */
  lemma CellAtStep(p: Vec3)
    requires InChunk(p)
    ensures 0 <= p.x * 256 + p.y * 16 + p.z < VOLUME
    ensures ChunkCells()[p.x * 256 + p.y * 16 + p.z] == p
  {
    var k := p.x * 256 + p.y * 16 + p.z;
    DivModUnique(k, 256, p.x, p.y * 16 + p.z);
    DivModUnique(k, 16, p.x * 16 + p.y, p.z);
    DivModUnique(p.x * 16 + p.y, 16, p.x, p.y);
  }

  /** After all `16³` cells the buffers are the whole mesh and `isEmpty` says that no cell was meshed. */
  lemma AllVisited(reg: Reg.Registry, c: Chunk, world: WorldLookup, m: MeshBuffers, isEmpty: bool)
    requires Reg.Valid(reg) && WellSized(c)
    requires (m, isEmpty) == Progress(reg, c, world, VOLUME)
    ensures m == MeshOf(reg, c, world)
    ensures isEmpty <==> forall p :: InChunk(p) ==> !Meshed(reg, c, p)
  {
    ProgressIsVisited(reg, c, world, VOLUME);
    assert ChunkCells()[..VOLUME] == ChunkCells();
    forall p | InChunk(p) ensures p in ChunkCells() {
      ChunkCellsMembers(p);
    }
  }

  // ---------------------------------------------------------------------------
  // Properties

  /**
   * A face is added exactly for a cell of the chunk holding a meshed block
   * whose world neighbour beyond that face is missing or transparent.
   */
  lemma MeshFacesMembers(reg: Reg.Registry, c: Chunk, world: WorldLookup, p: Vec3, face: Face)
    requires Reg.Valid(reg) && WellSized(c)
    ensures (p, face) in MeshFaces(reg, c, world) <==>
      && InChunk(p)
      && GetBlock(reg, c, BP.FromVec3(p)).Some? && Reg.HasMesh(GetBlock(reg, c, BP.FromVec3(p)).value)
      && ShowsThrough(world(Neighbour(c, p, face)))
  {
    EmittedMembers(ChunkCells(), AllFaces, Emit(reg, c, world), (p, face));
    ChunkCellsMembers(p);
    AllFacesListsEachFaceOnce();
  }

  /** The neighbour consulted is one step along the face's normal from the cell's world position. */
  lemma NeighbourIsNormalStep(c: Chunk, p: Vec3, face: Face)
    ensures BP.ToVec3(Neighbour(c, p, face)) ==
      Add3(Add3(p, Vec3(c.chunkPos.x * CHUNK_SIZE, c.chunkPos.y * CHUNK_SIZE, c.chunkPos.z * CHUNK_SIZE)), Normal(face))
  {
    BP.OffsetFaceIsNormalStep(Chunk2World(c, BP.FromVec3(p)), face, 1);
  }

  /** No face is added twice. */
  lemma MeshFacesNoDuplicates(reg: Reg.Registry, c: Chunk, world: WorldLookup)
    requires Reg.Valid(reg) && WellSized(c)
    ensures NoDuplicates(MeshFaces(reg, c, world))
  {
    ChunkCellsDistinct();
    AllFacesListsEachFaceOnce();
    EmittedNoDuplicates(ChunkCells(), AllFaces, Emit(reg, c, world));
  }

  /**
   * The mesh reads only the chunk's blocks and position and the values the
   * world lookup returns: chunks that differ only in mesh and flag, meshed
   * against lookups that agree everywhere, get the same faces and buffers.
   */
  lemma MeshReadsBlocksOnly(reg: Reg.Registry, c: Chunk, c': Chunk, world: WorldLookup, world': WorldLookup)
    requires Reg.Valid(reg) && WellSized(c) && WellSized(c')
    requires c'.blocks == c.blocks && c'.chunkPos == c.chunkPos
    requires forall q :: world'(q) == world(q)
    ensures forall p :: Meshed(reg, c', p) <==> Meshed(reg, c, p)
    ensures MeshFaces(reg, c', world') == MeshFaces(reg, c, world)
    ensures MeshOf(reg, c', world') == MeshOf(reg, c, world)
  {
    EmittedCongruent(ChunkCells(), AllFaces, Emit(reg, c, world), Emit(reg, c', world'));
    var es := MeshFaces(reg, c, world);
    assert QuadsOf(es, QuadFor(reg, c')) == QuadsOf(es, QuadFor(reg, c));
  }

  /**
   * The mesher consults the world only beyond the faces of meshed cells:
   * lookups that agree there give the same faces and the same buffers.
   */
  lemma MeshReadsNeighboursOnly(reg: Reg.Registry, c: Chunk, world: WorldLookup, world': WorldLookup)
    requires Reg.Valid(reg) && WellSized(c)
    requires forall p, face :: Meshed(reg, c, p) ==> world'(Neighbour(c, p, face)) == world(Neighbour(c, p, face))
    ensures MeshFaces(reg, c, world') == MeshFaces(reg, c, world)
    ensures MeshOf(reg, c, world') == MeshOf(reg, c, world)
  {
    EmittedCongruent(ChunkCells(), AllFaces, Emit(reg, c, world), Emit(reg, c, world'));
  }

  /**
   * The buffers have the quad shape (four vertices and UVs, six indices per
   * face, each face's indices naming its own vertices), one quad per added
   * face, and quad `i` is the face built for the `i`-th added (cell, face)
   * with the cell's block.
   */
  lemma MeshOfQuads(reg: Reg.Registry, c: Chunk, world: WorldLookup, i: nat)
    requires Reg.Valid(reg) && WellSized(c)
    ensures QuadMesh(MeshOf(reg, c, world))
    ensures |MeshOf(reg, c, world).vertices| == 4 * |MeshFaces(reg, c, world)|
    ensures i < |MeshFaces(reg, c, world)| ==>
      var e := MeshFaces(reg, c, world)[i];
      && Meshed(reg, c, e.0)
      && QuadAt(MeshOf(reg, c, world), i) == FaceQuad(e.0, e.1, GetBlock(reg, c, BP.FromVec3(e.0)).value)
  {
    var es := MeshFaces(reg, c, world);
    EmittedAccepted(ChunkCells(), AllFaces, Emit(reg, c, world));
    var qs := QuadsOf(es, QuadFor(reg, c));
    BuildIsQuadMesh(qs);
    BuildRoundTrip(qs);
  }

  /**
   * Every face vertex is a corner of the cell lying on that face, both
   * triangles wind about the face's outward normal, the indices are
   * `t+1, t+3, t, t+3, t+1, t+2`, and the UVs are the four corners of the
   * block's atlas cell for the face.
   */
  lemma FaceQuadGeometry(pos: Vec3, face: Face, b: Block)
    ensures forall i :: 0 <= i < 4 ==> OnFace(FaceQuad(pos, face, b).corners[i], pos, face)
    ensures TrianglesFace(FaceQuad(pos, face, b), Normal(face))
    ensures FaceQuad(pos, face, b).indices == FACE_INDICES
    ensures FaceQuad(pos, face, b).uvs == CellUvs(GetFaceTextureCoord(b, face))
  {
    FaceQuadFacing(pos, face, b);
    FaceQuadCorners(pos, face, b);
  }

  lemma FaceQuadFacing(pos: Vec3, face: Face, b: Block)
    ensures TrianglesFace(FaceQuad(pos, face, b), Normal(face))
  {
    var q := UnitFace(face, GetFaceTextureCoord(b, face));
    TranslateKeepsFacing(q, pos, Normal(face));
    UnitFaceFacing(face, GetFaceTextureCoord(b, face));
  }

  lemma FaceQuadCorners(pos: Vec3, face: Face, b: Block)
    ensures forall i :: 0 <= i < 4 ==> OnFace(FaceQuad(pos, face, b).corners[i], pos, face)
  {
    var q := UnitFace(face, GetFaceTextureCoord(b, face));
    UnitFaceCorners(face, GetFaceTextureCoord(b, face));
    forall i | 0 <= i < 4 ensures OnFace(FaceQuad(pos, face, b).corners[i], pos, face) {
      OnFaceTranslate(q.corners[i], Zero3, face, pos);
      assert Add3(pos, Zero3) == pos;
    }
  }

  lemma UnitFaceCorners(face: Face, uv: Vec2)
    ensures forall i :: 0 <= i < 4 ==> OnFace(UnitFace(face, uv).corners[i], Zero3, face)
  {
  }

  lemma UnitFaceFacing(face: Face, uv: Vec2)
    ensures TrianglesFace(UnitFace(face, uv), Normal(face))
  {
    match face
    case TOP => UnitFaceFacingTop(face, uv);
    case BOTTOM => UnitFaceFacingBottom(face, uv);
    case NORTH => UnitFaceFacingNorth(face, uv);
    case SOUTH => UnitFaceFacingSouth(face, uv);
    case EAST => UnitFaceFacingEast(face, uv);
    case WEST => UnitFaceFacingWest(face, uv);
  }


  lemma UnitFaceFacingTop(face: Face, uv: Vec2)
    requires face == TOP
    ensures TrianglesFace(UnitFace(face, uv), Normal(face))
  {
    var q := UnitFace(face, uv);
    assert q.corners == [Vec3(0, 1, 0), Vec3(0, 1, 1), Vec3(1, 1, 1), Vec3(1, 1, 0)];
    assert Normal(face) == Vec3(0, 1, 0);
    assert q.corners[q.indices[0]] == Vec3(0, 1, 1);
    assert q.corners[q.indices[1]] == Vec3(1, 1, 0);
    assert q.corners[q.indices[2]] == Vec3(0, 1, 0);
    assert q.corners[q.indices[3]] == Vec3(1, 1, 0);
    assert q.corners[q.indices[4]] == Vec3(0, 1, 1);
    assert q.corners[q.indices[5]] == Vec3(1, 1, 1);
    TurnsTopFirst();
    TurnsTopSecond();
  }

  lemma UnitFaceFacingBottom(face: Face, uv: Vec2)
    requires face == BOTTOM
    ensures TrianglesFace(UnitFace(face, uv), Normal(face))
  {
    var q := UnitFace(face, uv);
    assert q.corners == [Vec3(1, 0, 0), Vec3(1, 0, 1), Vec3(0, 0, 1), Vec3(0, 0, 0)];
    assert Normal(face) == Vec3(0, -1, 0);
    assert q.corners[q.indices[0]] == Vec3(1, 0, 1);
    assert q.corners[q.indices[1]] == Vec3(0, 0, 0);
    assert q.corners[q.indices[2]] == Vec3(1, 0, 0);
    assert q.corners[q.indices[3]] == Vec3(0, 0, 0);
    assert q.corners[q.indices[4]] == Vec3(1, 0, 1);
    assert q.corners[q.indices[5]] == Vec3(0, 0, 1);
    TurnsBottomFirst();
    TurnsBottomSecond();
  }

  lemma UnitFaceFacingNorth(face: Face, uv: Vec2)
    requires face == NORTH
    ensures TrianglesFace(UnitFace(face, uv), Normal(face))
  {
    var q := UnitFace(face, uv);
    assert q.corners == [Vec3(1, 0, 1), Vec3(1, 1, 1), Vec3(0, 1, 1), Vec3(0, 0, 1)];
    assert Normal(face) == Vec3(0, 0, 1);
    assert q.corners[q.indices[0]] == Vec3(1, 1, 1);
    assert q.corners[q.indices[1]] == Vec3(0, 0, 1);
    assert q.corners[q.indices[2]] == Vec3(1, 0, 1);
    assert q.corners[q.indices[3]] == Vec3(0, 0, 1);
    assert q.corners[q.indices[4]] == Vec3(1, 1, 1);
    assert q.corners[q.indices[5]] == Vec3(0, 1, 1);
    TurnsNorthFirst();
    TurnsNorthSecond();
  }

  lemma UnitFaceFacingSouth(face: Face, uv: Vec2)
    requires face == SOUTH
    ensures TrianglesFace(UnitFace(face, uv), Normal(face))
  {
    var q := UnitFace(face, uv);
    assert q.corners == [Vec3(0, 0, 0), Vec3(0, 1, 0), Vec3(1, 1, 0), Vec3(1, 0, 0)];
    assert Normal(face) == Vec3(0, 0, -1);
    assert q.corners[q.indices[0]] == Vec3(0, 1, 0);
    assert q.corners[q.indices[1]] == Vec3(1, 0, 0);
    assert q.corners[q.indices[2]] == Vec3(0, 0, 0);
    assert q.corners[q.indices[3]] == Vec3(1, 0, 0);
    assert q.corners[q.indices[4]] == Vec3(0, 1, 0);
    assert q.corners[q.indices[5]] == Vec3(1, 1, 0);
    TurnsSouthFirst();
    TurnsSouthSecond();
  }

  lemma UnitFaceFacingEast(face: Face, uv: Vec2)
    requires face == EAST
    ensures TrianglesFace(UnitFace(face, uv), Normal(face))
  {
    var q := UnitFace(face, uv);
    assert q.corners == [Vec3(1, 0, 0), Vec3(1, 1, 0), Vec3(1, 1, 1), Vec3(1, 0, 1)];
    assert Normal(face) == Vec3(1, 0, 0);
    assert q.corners[q.indices[0]] == Vec3(1, 1, 0);
    assert q.corners[q.indices[1]] == Vec3(1, 0, 1);
    assert q.corners[q.indices[2]] == Vec3(1, 0, 0);
    assert q.corners[q.indices[3]] == Vec3(1, 0, 1);
    assert q.corners[q.indices[4]] == Vec3(1, 1, 0);
    assert q.corners[q.indices[5]] == Vec3(1, 1, 1);
    TurnsEastFirst();
    TurnsEastSecond();
  }

  lemma UnitFaceFacingWest(face: Face, uv: Vec2)
    requires face == WEST
    ensures TrianglesFace(UnitFace(face, uv), Normal(face))
  {
    var q := UnitFace(face, uv);
    assert q.corners == [Vec3(0, 0, 1), Vec3(0, 1, 1), Vec3(0, 1, 0), Vec3(0, 0, 0)];
    assert Normal(face) == Vec3(-1, 0, 0);
    assert q.corners[q.indices[0]] == Vec3(0, 1, 1);
    assert q.corners[q.indices[1]] == Vec3(0, 0, 0);
    assert q.corners[q.indices[2]] == Vec3(0, 0, 1);
    assert q.corners[q.indices[3]] == Vec3(0, 0, 0);
    assert q.corners[q.indices[4]] == Vec3(0, 1, 1);
    assert q.corners[q.indices[5]] == Vec3(0, 1, 0);
    TurnsWestFirst();
    TurnsWestSecond();
  }
}

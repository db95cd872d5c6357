/**
 * The world (Assets/Scripts/World.cs): the loaded chunks by chunk position,
 * the positions queued for loading and unloading, the queue of chunks whose
 * mesh must be rebuilt, and the chunk the player last triggered a reload
 * from. Queued work is done once per frame in `LateUpdate`: unloads, then
 * loads, then mesh rebuilds. Blocks are read and written through the chunk
 * that contains them; writing a block on a chunk's border also queues the
 * neighbouring chunk across that border.
 */
module Worlds {
  import opened Optional
  import opened Vectors
  import opened Faces
  import opened ChunkGrid
  import opened BlockTypes
  import BP = BlockPositions
  import Reg = BlockRegistry
  import opened Chunks
  import Meshes
  import Terrain
  import ChunkMeshing

  /** `CHUNK_LOAD_RADIUS`: chunks within this many steps (summed over the axes) are kept loaded. */
  const CHUNK_LOAD_RADIUS: int := 5

  /** The squared distance, in chunks, the player must move before the world reloads around it. */
  const RELOAD_DISTANCE_SQR: int := 16

  /**
   * The queue of chunks to rebuild holds chunk objects in the engine; here it
   * holds their positions, and a rebuild applies to the chunk loaded there.
   */
  datatype World = World(
    chunks: map<Vec3, Chunk>,
    toLoad: set<Vec3>,
    toUnload: set<Vec3>,
    toRegenerate: seq<Vec3>,
    lastChunkLoadPoint: Vec3)

  /** A freshly started world: nothing loaded, nothing queued, the load point at the origin. */
  const Initial := World(map[], {}, {}, [], Zero3)

  /** Every loaded chunk has its full block array and is stored under its own position. */
  predicate Valid(w: World) {
    forall p :: p in w.chunks ==> WellSized(w.chunks[p]) && w.chunks[p].chunkPos == p
  }

  // ---------------------------------------------------------------------------
  // Block handling

  /** `GetBlock(pos)`: the block through the chunk containing `pos`, `None` (null) where no chunk is loaded. */
  function GetBlock(reg: Reg.Registry, w: World, pos: BP.BlockPos): (r: Option<Block>)
    requires Reg.Valid(reg) && Valid(w)
    ensures BP.GetChunkPos(pos) !in w.chunks ==> r == None
  {
    var chunkPos := BP.GetChunkPos(pos);
    if chunkPos in w.chunks then Chunks.GetBlock(reg, w.chunks[chunkPos], World2Chunk(pos)) else None
  }

  /**
   * `World.instance.GetBlock` as the mesher sees it. It reads the loaded
   * chunks only, so two worlds with the same chunks hand the mesher the same
   * function.
   */
  function Lookup(reg: Reg.Registry, chunks: map<Vec3, Chunk>): ChunkMeshing.WorldLookup {
    (pos: BP.BlockPos) =>
      var chunkPos := BP.GetChunkPos(pos);
      if Reg.Valid(reg) && chunkPos in chunks && WellSized(chunks[chunkPos])
      then Chunks.GetBlock(reg, chunks[chunkPos], World2Chunk(pos))
      else None
  }

  /** `TryReloadChunk(pos)`: queues the chunk at `pos` for a rebuild when one is loaded there. */
  function TryReloadChunk(w: World, pos: Vec3): (r: World)
    ensures r.chunks == w.chunks && r.toLoad == w.toLoad && r.toUnload == w.toUnload
    ensures r.lastChunkLoadPoint == w.lastChunkLoadPoint
    ensures |r.toRegenerate| == |w.toRegenerate| + (if pos in w.chunks then 1 else 0)
    ensures r.toRegenerate[..|w.toRegenerate|] == w.toRegenerate
    ensures pos in w.chunks ==> r.toRegenerate[|w.toRegenerate|] == pos
  {
    if pos in w.chunks then w.(toRegenerate := w.toRegenerate + [pos]) else w
  }

  /**
   * `SetBlock(pos, block)`: stores the block in the chunk containing `pos`
   * and queues that chunk, then queues the neighbour across each border the
   * position lies on. A position in no loaded chunk is ignored.
   */
  function SetBlock(w: World, pos: BP.BlockPos, block: Block): (r: World)
    requires Valid(w)
    ensures Valid(r)
    ensures r.chunks.Keys == w.chunks.Keys
    ensures r.toLoad == w.toLoad && r.toUnload == w.toUnload && r.lastChunkLoadPoint == w.lastChunkLoadPoint
    ensures forall p :: p in w.chunks && p != BP.GetChunkPos(pos) ==> r.chunks[p] == w.chunks[p]
  {
    var chunkPos := BP.GetChunkPos(pos);
    if chunkPos !in w.chunks then w
    else
      var chunk := w.chunks[chunkPos];
      var posInChunk := World2Chunk(pos);
      var w0 := w.(chunks := w.chunks[chunkPos := Chunks.SetBlock(chunk, posInChunk, block)],
                   toRegenerate := w.toRegenerate + [chunkPos]);
      var w1 := ReloadAcross(w0, chunkPos, posInChunk.x, BP.ToVec3(BP.left), BP.ToVec3(BP.right));
      var w2 := ReloadAcross(w1, chunkPos, posInChunk.y, BP.ToVec3(BP.down), BP.ToVec3(BP.up));
      ReloadAcross(w2, chunkPos, posInChunk.z, Vec3(0, 0, -1), Vec3(0, 0, 1))
  }

  /** The border check of one axis: a local coordinate of 0 queues the chunk before, 15 the chunk after. */
  function ReloadAcross(w: World, chunkPos: Vec3, coord: int, before: Vec3, after: Vec3): (r: World)
    ensures r.chunks == w.chunks && r.toLoad == w.toLoad && r.toUnload == w.toUnload
    ensures r.lastChunkLoadPoint == w.lastChunkLoadPoint
  {
    var cs := CHUNK_SIZE - 1;
    if coord == 0 then TryReloadChunk(w, Add3(chunkPos, before))
    else if coord == cs then TryReloadChunk(w, Add3(chunkPos, after))
    else w
  }

  /** A local position lies on the chunk's border that `face` looks through. */
  predicate AtEdge(local: BP.BlockPos, face: Face) {
    Coord(BP.ToVec3(local), Axis(face)) == (if Positive(face) then CHUNK_SIZE - 1 else 0)
  }

  // ---------------------------------------------------------------------------
  // Properties of block handling

  /** A block of a loaded chunk, addressed by its world position, is the chunk's block at the local position. */
  lemma GetBlockRouting(reg: Reg.Registry, w: World, chunkPos: Vec3, p: BP.BlockPos)
    requires Reg.Valid(reg) && Valid(w) && chunkPos in w.chunks && ValidatePos(p)
    ensures GetBlock(reg, w, Chunk2World(w.chunks[chunkPos], p)) == Chunks.GetBlock(reg, w.chunks[chunkPos], p)
  {
    Chunk2WorldRoundTrip(w.chunks[chunkPos], p);
  }

  /** Writing into an unloaded chunk changes nothing, not even the queue. */
  lemma SetBlockUnloaded(w: World, pos: BP.BlockPos, block: Block)
    requires Valid(w) && BP.GetChunkPos(pos) !in w.chunks
    ensures SetBlock(w, pos, block) == w
  {
  }

  /** In a loaded chunk, the position reads back as the block registered under the id written. */
  lemma SetBlockReadBack(reg: Reg.Registry, w: World, pos: BP.BlockPos, block: Block)
    requires Reg.Valid(reg) && Valid(w) && BP.GetChunkPos(pos) in w.chunks
    ensures GetBlock(reg, SetBlock(w, pos, block), pos) == Reg.FromId(reg, block.id)
  {
    var chunkPos := BP.GetChunkPos(pos);
    World2ChunkInRange(w.chunks[chunkPos], pos);
    FlatIndexBijective(BP.ToVec3(World2Chunk(pos)));
  }

  /** Every other position reads as before. */
  lemma SetBlockElsewhere(reg: Reg.Registry, w: World, pos: BP.BlockPos, q: BP.BlockPos, block: Block)
    requires Reg.Valid(reg) && Valid(w) && q != pos
    ensures GetBlock(reg, SetBlock(w, pos, block), q) == GetBlock(reg, w, q)
  {
    var chunkPos := BP.GetChunkPos(pos);
    if chunkPos in w.chunks && BP.GetChunkPos(q) == chunkPos {
      assert World2Chunk(q) != World2Chunk(pos);
      GetAfterSetElsewhere(reg, w.chunks[chunkPos], World2Chunk(pos), World2Chunk(q), block);
    }
  }

  /**
   * The chunk holding the position one step through `face` from `pos`: the
   * same chunk, unless `pos` lies on that border, and then the neighbour one
   * chunk along the face's normal.
   */
  lemma NeighbourChunk(pos: BP.BlockPos, face: Face)
    ensures BP.GetChunkPos(BP.OffsetFace(pos, face, 1)) ==
      (if AtEdge(World2Chunk(pos), face) then Add3(BP.GetChunkPos(pos), Normal(face)) else BP.GetChunkPos(pos))
  {
    var chunkPos := BP.GetChunkPos(pos);
    var c := if AtEdge(World2Chunk(pos), face) then Add3(chunkPos, Normal(face)) else chunkPos;
    BP.GetChunkPosUnique(BP.OffsetFace(pos, face, 1), c);
  }

  /** A loaded chunk other than `pos`'s own that holds a position one face-step away from `pos`. */
  predicate BorderNeighbour(w: World, pos: BP.BlockPos, n: Vec3) {
    && n in w.chunks && n != BP.GetChunkPos(pos)
    && exists face :: n == BP.GetChunkPos(BP.OffsetFace(pos, face, 1))
  }

  /** What the border checks of one axis queue: the neighbour through `neg` or through `pos`, if loaded. */
  function SideQueue(w: World, chunkPos: Vec3, local: BP.BlockPos, neg: Face, pos: Face): (q: seq<Vec3>)
    ensures |q| <= 1
  {
    if AtEdge(local, neg) && Add3(chunkPos, Normal(neg)) in w.chunks then [Add3(chunkPos, Normal(neg))]
    else if AtEdge(local, pos) && Add3(chunkPos, Normal(pos)) in w.chunks then [Add3(chunkPos, Normal(pos))]
    else []
  }

  /** One axis's border check appends that axis's `SideQueue`. */
  lemma ReloadAcrossIsSide(v: World, w: World, chunkPos: Vec3, local: BP.BlockPos, neg: Face, pos: Face)
    requires v.chunks.Keys == w.chunks.Keys && pos == Opposite(neg) && !Positive(neg)
    ensures ReloadAcross(v, chunkPos, Coord(BP.ToVec3(local), Axis(neg)), Normal(neg), Normal(pos)).toRegenerate
      == v.toRegenerate + SideQueue(w, chunkPos, local, neg, pos)
  {
  }

  /** The queue `SetBlock` leaves: the chunk written, then one entry per axis at most, x first, then y, then z. */
  lemma SetBlockQueueShape(w: World, pos: BP.BlockPos, block: Block)
    requires Valid(w) && BP.GetChunkPos(pos) in w.chunks
    ensures SetBlock(w, pos, block).toRegenerate ==
      w.toRegenerate + [BP.GetChunkPos(pos)]
        + SideQueue(w, BP.GetChunkPos(pos), World2Chunk(pos), WEST, EAST)
        + SideQueue(w, BP.GetChunkPos(pos), World2Chunk(pos), BOTTOM, TOP)
        + SideQueue(w, BP.GetChunkPos(pos), World2Chunk(pos), SOUTH, NORTH)
  {
    var cp := BP.GetChunkPos(pos);
    var local := World2Chunk(pos);
    var w0 := w.(chunks := w.chunks[cp := Chunks.SetBlock(w.chunks[cp], local, block)],
                 toRegenerate := w.toRegenerate + [cp]);
    assert w0.chunks.Keys == w.chunks.Keys;
    var w1 := ReloadAcross(w0, cp, local.x, BP.ToVec3(BP.left), BP.ToVec3(BP.right));
    var w2 := ReloadAcross(w1, cp, local.y, BP.ToVec3(BP.down), BP.ToVec3(BP.up));
    ReloadAcrossIsSide(w0, w, cp, local, WEST, EAST);
    ReloadAcrossIsSide(w1, w, cp, local, BOTTOM, TOP);
    ReloadAcrossIsSide(w2, w, cp, local, SOUTH, NORTH);
  }

  /** Of a local position inside the chunk, the queued neighbours are the loaded chunks across a border it lies on. */
  lemma SideQueueMembers(w: World, chunkPos: Vec3, local: BP.BlockPos, neg: Face, pos: Face, n: Vec3)
    requires ValidatePos(local) && pos == Opposite(neg) && !Positive(neg)
    ensures n in SideQueue(w, chunkPos, local, neg, pos) <==>
      n in w.chunks && ((AtEdge(local, neg) && n == Add3(chunkPos, Normal(neg))) || (AtEdge(local, pos) && n == Add3(chunkPos, Normal(pos))))
  {
    NormalsDistinct(neg, pos);
  }

  /**
   * Writing into a loaded chunk queues that chunk, then at most three more:
   * exactly the loaded neighbours holding a position next to the one written,
   * which are the chunks whose faces towards it may change.
   */
  lemma SetBlockQueue(w: World, pos: BP.BlockPos, block: Block)
    requires Valid(w) && BP.GetChunkPos(pos) in w.chunks
    ensures |w.toRegenerate| + 1 <= |SetBlock(w, pos, block).toRegenerate| <= |w.toRegenerate| + 4
    ensures SetBlock(w, pos, block).toRegenerate[..|w.toRegenerate| + 1] == w.toRegenerate + [BP.GetChunkPos(pos)]
    ensures forall n :: n in SetBlock(w, pos, block).toRegenerate[|w.toRegenerate| + 1..] <==> BorderNeighbour(w, pos, n)
  {
    SetBlockQueueShape(w, pos, block);
    QueueOfShape(w, pos, SetBlock(w, pos, block).toRegenerate);
  }

  /** A queue of the shape `SetBlock` leaves holds the chunk written and then its border neighbours. */
  lemma QueueOfShape(w: World, pos: BP.BlockPos, q: seq<Vec3>)
    requires q == w.toRegenerate + [BP.GetChunkPos(pos)]
      + SideQueue(w, BP.GetChunkPos(pos), World2Chunk(pos), WEST, EAST)
      + SideQueue(w, BP.GetChunkPos(pos), World2Chunk(pos), BOTTOM, TOP)
      + SideQueue(w, BP.GetChunkPos(pos), World2Chunk(pos), SOUTH, NORTH)
    ensures |w.toRegenerate| + 1 <= |q| <= |w.toRegenerate| + 4
    ensures q[..|w.toRegenerate| + 1] == w.toRegenerate + [BP.GetChunkPos(pos)]
    ensures forall n :: n in q[|w.toRegenerate| + 1..] <==> BorderNeighbour(w, pos, n)
  {
    var cp := BP.GetChunkPos(pos);
    var local := World2Chunk(pos);
    var sides := SideQueue(w, cp, local, WEST, EAST) + SideQueue(w, cp, local, BOTTOM, TOP) + SideQueue(w, cp, local, SOUTH, NORTH);
    AppendedAfter(w.toRegenerate, cp, sides);
    SidesAreBorderNeighbours(w, pos);
    assert q[|w.toRegenerate| + 1..] == sides;
  }

  /** What follows a queue and one more entry is what was appended after them. */
  lemma AppendedAfter<T>(q: seq<T>, x: T, more: seq<T>)
    ensures |q + [x] + more| == |q| + 1 + |more|
    ensures (q + [x] + more)[..|q| + 1] == q + [x]
    ensures (q + [x] + more)[|q| + 1..] == more
  {
  }

  lemma SidesAreBorderNeighbours(w: World, pos: BP.BlockPos)
    ensures forall n ::
      n in SideQueue(w, BP.GetChunkPos(pos), World2Chunk(pos), WEST, EAST)
         + SideQueue(w, BP.GetChunkPos(pos), World2Chunk(pos), BOTTOM, TOP)
         + SideQueue(w, BP.GetChunkPos(pos), World2Chunk(pos), SOUTH, NORTH)
      <==> BorderNeighbour(w, pos, n)
  {
    var cp := BP.GetChunkPos(pos);
    var local := World2Chunk(pos);
    World2ChunkInRange(Chunk(cp, [], true, Meshes.Empty), pos);
    SidesAtEdge(w, cp, local);
    forall n ensures BorderNeighbour(w, pos, n) <==>
      n in w.chunks && exists face :: AtEdge(local, face) && n == Add3(cp, Normal(face))
    {
      BorderNeighbourAtEdge(w, pos, n);
    }
  }

  /** The three axes' queues hold exactly the loaded chunks across a border the local position lies on. */
  lemma SidesAtEdge(w: World, chunkPos: Vec3, local: BP.BlockPos)
    requires ValidatePos(local)
    ensures forall n ::
      n in SideQueue(w, chunkPos, local, WEST, EAST) + SideQueue(w, chunkPos, local, BOTTOM, TOP) + SideQueue(w, chunkPos, local, SOUTH, NORTH)
      <==> n in w.chunks && exists face :: AtEdge(local, face) && n == Add3(chunkPos, Normal(face))
  {
    forall n ensures
      n in SideQueue(w, chunkPos, local, WEST, EAST) + SideQueue(w, chunkPos, local, BOTTOM, TOP) + SideQueue(w, chunkPos, local, SOUTH, NORTH)
      <==> n in w.chunks && exists face :: AtEdge(local, face) && n == Add3(chunkPos, Normal(face))
    {
      SideQueueMembers(w, chunkPos, local, WEST, EAST, n);
      SideQueueMembers(w, chunkPos, local, BOTTOM, TOP, n);
      SideQueueMembers(w, chunkPos, local, SOUTH, NORTH, n);
      if n in w.chunks && exists face :: AtEdge(local, face) && n == Add3(chunkPos, Normal(face)) {
        var face :| AtEdge(local, face) && n == Add3(chunkPos, Normal(face));
        assert face in {WEST, EAST, BOTTOM, TOP, SOUTH, NORTH};
      }
    }
  }

  /** A border neighbour is the loaded chunk one step along the normal of a face whose border `pos` lies on. */
  lemma BorderNeighbourAtEdge(w: World, pos: BP.BlockPos, n: Vec3)
    ensures BorderNeighbour(w, pos, n) <==>
      n in w.chunks && exists face :: AtEdge(World2Chunk(pos), face) && n == Add3(BP.GetChunkPos(pos), Normal(face))
  {
    var cp := BP.GetChunkPos(pos);
    if BorderNeighbour(w, pos, n) {
      var face :| n == BP.GetChunkPos(BP.OffsetFace(pos, face, 1));
      NeighbourChunk(pos, face);
    }
    if n in w.chunks && exists face :: AtEdge(World2Chunk(pos), face) && n == Add3(cp, Normal(face)) {
      var face :| AtEdge(World2Chunk(pos), face) && n == Add3(cp, Normal(face));
      NeighbourChunk(pos, face);
      assert n != cp by { NormalsDistinct(face, face); }
    }
  }

  // ---------------------------------------------------------------------------
  // Chunk handling

  /**
   * The chunk `LoadChunk` creates at `pos`: a new chunk placed there, every
   * block then written by `TerrainGenerator.GenerateChunkTerrain`, still
   * flagged empty and without a mesh.
   */
  function FreshChunk(pos: Vec3, height: Terrain.HeightFn): (c: Chunk)
    ensures WellSized(c) && c.chunkPos == pos && c.isEmpty && c.mesh == Meshes.Empty
  {
    Chunk(pos, Terrain.TerrainBlocks(pos, height), true, Meshes.Empty)
  }

  /** `LoadChunk(pos)`: a position already loaded is left alone; otherwise a fresh chunk is stored there and queued. */
  function LoadChunk(w: World, pos: Vec3, height: Terrain.HeightFn): (r: World)
    requires Valid(w)
    ensures Valid(r)
    ensures r.chunks.Keys == w.chunks.Keys + {pos}
    ensures forall p :: p in w.chunks ==> r.chunks[p] == w.chunks[p]
    ensures r.toLoad == w.toLoad && r.toUnload == w.toUnload && r.lastChunkLoadPoint == w.lastChunkLoadPoint
  {
    if pos in w.chunks then w
    else w.(chunks := w.chunks[pos := FreshChunk(pos, height)], toRegenerate := w.toRegenerate + [pos])
  }

  /** `UnloadChunk(pos)`: drops the chunk at `pos`; a position with no chunk is left alone. */
  function UnloadChunk(w: World, pos: Vec3): (r: World)
    requires Valid(w)
    ensures Valid(r)
    ensures r.chunks.Keys == w.chunks.Keys - {pos}
    ensures forall p :: p in r.chunks ==> r.chunks[p] == w.chunks[p]
    ensures r == w.(chunks := r.chunks)
  {
    if pos in w.chunks then w.(chunks := w.chunks - {pos}) else w
  }

  /** Loading twice is loading once: the second call finds the chunk and changes nothing. */
  lemma LoadChunkIdempotent(w: World, pos: Vec3, height: Terrain.HeightFn)
    requires Valid(w)
    ensures LoadChunk(LoadChunk(w, pos, height), pos, height) == LoadChunk(w, pos, height)
  {
  }

  /**
   * A chunk loaded where none was holds the generated terrain and is queued
   * for its first mesh; unloading it again restores the loaded chunks.
   */
  lemma LoadThenUnload(reg: Reg.Registry, w: World, pos: Vec3, height: Terrain.HeightFn, p: BP.BlockPos)
    requires Reg.Valid(reg) && Valid(w) && pos !in w.chunks
    ensures LoadChunk(w, pos, height).toRegenerate == w.toRegenerate + [pos]
    ensures ValidatePos(p) ==>
      (Chunks.GetBlock(reg, LoadChunk(w, pos, height).chunks[pos], p) == Reg.FromId(reg, Terrain.CellBlock(pos, height, BP.ToVec3(p)).id))
    ensures UnloadChunk(LoadChunk(w, pos, height), pos).chunks == w.chunks
  {
    if ValidatePos(p) {
      FlatIndexBijective(BP.ToVec3(p));
    }
  }

  /** Unloading twice is unloading once. */
  lemma UnloadChunkIdempotent(w: World, pos: Vec3)
    requires Valid(w)
    ensures UnloadChunk(UnloadChunk(w, pos), pos) == UnloadChunk(w, pos)
  {
  }

  // ---------------------------------------------------------------------------
  // Load radius

  /** `|x| + |y| + |z|`, the number of chunk steps along the axes. */
  function L1(v: Vec3): nat {
    BP.Abs(v.x) + BP.Abs(v.y) + BP.Abs(v.z)
  }

  /** The chunk at `p` is within `radius` steps of `center`. */
  predicate InRadius(center: Vec3, radius: int, p: Vec3) {
    L1(Sub3(p, center)) <= radius
  }

  /** The offset `p - center` was reached by the loops, which are at `(x, y, z)`, and passed the radius test. */
  predicate ScannedIn(center: Vec3, radius: int, p: Vec3, x: int, y: int, z: int) {
    InRadius(center, radius, p) && Terrain.LexBefore(Sub3(p, center), x, y, z)
  }

  /** The queues once the loops of `LoadChunksAround` have reached `(x, y, z)`. */
  ghost predicate Scanned(w: World, r: World, center: Vec3, radius: int, x: int, y: int, z: int) {
    && r.chunks == w.chunks && r.toRegenerate == w.toRegenerate && r.lastChunkLoadPoint == w.lastChunkLoadPoint
    && (forall p :: p in r.toLoad <==> p in w.toLoad || ScannedIn(center, radius, p, x, y, z))
    && (forall p :: p in r.toUnload <==> (p in w.toUnload || p in w.chunks) && !ScannedIn(center, radius, p, x, y, z))
  }

  /**
   * `LoadChunksAround(chunkPos, radius)`: every loaded chunk is queued for
   * unloading, then each position within `radius` steps of the centre is
   * queued for loading and taken off the unload queue. Afterwards the load
   * queue holds every position in range, and the unload queue every loaded
   * or already queued position out of range.
   */
  method LoadChunksAround(w: World, center: Vec3, radius: int) returns (r: World)
    ensures r.chunks == w.chunks && r.toRegenerate == w.toRegenerate && r.lastChunkLoadPoint == w.lastChunkLoadPoint
    ensures forall p :: p in r.toLoad <==> p in w.toLoad || InRadius(center, radius, p)
    ensures forall p :: p in r.toUnload <==> (p in w.toUnload || p in w.chunks) && !InRadius(center, radius, p)
  {
    r := w.(toUnload := w.toUnload + w.chunks.Keys);
    var x := -radius;
    while x <= radius
      invariant -radius <= x && (radius < -radius ==> x == -radius) && (-radius <= radius ==> x <= radius + 1)
      invariant Scanned(w, r, center, radius, x, -radius, -radius)
    {
      var y := -radius;
      while y <= radius
        invariant -radius <= y <= radius + 1
        invariant Scanned(w, r, center, radius, x, y, -radius)
      {
        var z := -radius;
        while z <= radius
          invariant -radius <= z <= radius + 1
          invariant Scanned(w, r, center, radius, x, y, z)
        {
          var offset := Vec3(x, y, z);
          ScanStep(w, r, center, radius, x, y, z);
          if BP.Abs(x) + BP.Abs(y) + BP.Abs(z) <= radius {
            r := r.(toLoad := r.toLoad + {Add3(center, offset)}, toUnload := r.toUnload - {Add3(center, offset)});
          }
          z := z + 1;
        }
        RowDone(w, r, center, radius, x, y);
        y := y + 1;
      }
      PlaneDone(w, r, center, radius, x);
      x := x + 1;
    }
    AllScanned(w, r, center, radius, x);
  }

  /** Visiting the offset `(x, y, z)` extends the scanned part by that offset. */
  lemma ScanStep(w: World, r: World, center: Vec3, radius: int, x: int, y: int, z: int)
    requires Scanned(w, r, center, radius, x, y, z)
    ensures var q := Add3(center, Vec3(x, y, z));
      Scanned(w, if BP.Abs(x) + BP.Abs(y) + BP.Abs(z) <= radius
                 then r.(toLoad := r.toLoad + {q}, toUnload := r.toUnload - {q}) else r,
              center, radius, x, y, z + 1)
  {
    var q := Add3(center, Vec3(x, y, z));
    forall p ensures ScannedIn(center, radius, p, x, y, z + 1) <==>
      ScannedIn(center, radius, p, x, y, z) || (p == q && BP.Abs(x) + BP.Abs(y) + BP.Abs(z) <= radius)
    {
      if p == q {
        assert Sub3(p, center) == Vec3(x, y, z);
      }
    }
  }

  /** Past the last `z` of a row, the scanned part is the same as at the start of the next row. */
  lemma RowDone(w: World, r: World, center: Vec3, radius: int, x: int, y: int)
    requires Scanned(w, r, center, radius, x, y, radius + 1)
    ensures Scanned(w, r, center, radius, x, y + 1, -radius)
  {
    var end, next, start := radius + 1, y + 1, -radius;
    forall p ensures ScannedIn(center, radius, p, x, y, end) <==> ScannedIn(center, radius, p, x, next, start) {
    }
  }

  /** Past the last `y` of a plane, the scanned part is the same as at the start of the next plane. */
  lemma PlaneDone(w: World, r: World, center: Vec3, radius: int, x: int)
    requires Scanned(w, r, center, radius, x, radius + 1, -radius)
    ensures Scanned(w, r, center, radius, x + 1, -radius, -radius)
  {
    var end, next, start := radius + 1, x + 1, -radius;
    forall p ensures ScannedIn(center, radius, p, x, end, start) <==> ScannedIn(center, radius, p, next, start, start) {
    }
  }

  /** Once `x` is past the radius every position in range has been scanned. */
  lemma AllScanned(w: World, r: World, center: Vec3, radius: int, x: int)
    requires x > radius && Scanned(w, r, center, radius, x, -radius, -radius)
    ensures forall p :: p in r.toLoad <==> p in w.toLoad || InRadius(center, radius, p)
    ensures forall p :: p in r.toUnload <==> (p in w.toUnload || p in w.chunks) && !InRadius(center, radius, p)
  {
    forall p ensures ScannedIn(center, radius, p, x, -radius, -radius) <==> InRadius(center, radius, p) {
    }
  }

  // ---------------------------------------------------------------------------
  // Player movement and start-up

  /** The listener's test: the player's chunk is at squared distance 16 or more from the last load point. */
  predicate ReloadNeeded(last: Vec3, pos: Vec3) {
    SqrMagnitude(Sub3(last, pos)) >= RELOAD_DISTANCE_SQR
  }

  /**
   * The `onPlayerChunkChanged` listener registered in `Start`: far enough
   * from the last load point, the world reloads around the player's chunk and
   * that chunk becomes the load point; otherwise nothing happens.
   */
  method OnPlayerChunkChanged(w: World, pos: Vec3) returns (r: World)
    ensures !ReloadNeeded(w.lastChunkLoadPoint, pos) ==> r == w
    ensures ReloadNeeded(w.lastChunkLoadPoint, pos) ==>
      && r.lastChunkLoadPoint == pos && r.chunks == w.chunks && r.toRegenerate == w.toRegenerate
      && (forall p :: p in r.toLoad <==> p in w.toLoad || InRadius(pos, CHUNK_LOAD_RADIUS, p))
      && (forall p :: p in r.toUnload <==> (p in w.toUnload || p in w.chunks) && !InRadius(pos, CHUNK_LOAD_RADIUS, p))
    ensures SqrMagnitude(Sub3(r.lastChunkLoadPoint, pos)) < RELOAD_DISTANCE_SQR
  {
    if SqrMagnitude(Sub3(w.lastChunkLoadPoint, pos)) >= RELOAD_DISTANCE_SQR {
      r := LoadChunksAround(w, pos, CHUNK_LOAD_RADIUS);
      r := r.(lastChunkLoadPoint := pos);
    } else {
      r := w;
    }
  }

  /** `Start`: queues every chunk within the load radius of the origin. */
  method Start(w: World) returns (r: World)
    ensures r.chunks == w.chunks && r.toRegenerate == w.toRegenerate && r.lastChunkLoadPoint == w.lastChunkLoadPoint
    ensures forall p :: p in r.toLoad <==> p in w.toLoad || InRadius(Zero3, CHUNK_LOAD_RADIUS, p)
    ensures forall p :: p in r.toUnload <==> (p in w.toUnload || p in w.chunks) && !InRadius(Zero3, CHUNK_LOAD_RADIUS, p)
  {
    r := LoadChunksAround(w, Zero3, CHUNK_LOAD_RADIUS);
  }

  /**
   * The reload test and the load shape disagree: the test measures
   * Euclidean distance, the load radius counts steps. The player can walk
   * diagonally, one chunk at a time, to the chunk two steps along every
   * axis without triggering a reload, and that chunk is six steps away, out
   * of the radius, so it is not loaded.
   */
  lemma PlayerCanLeaveLoadedRange()
    ensures !ReloadNeeded(Zero3, Vec3(1, 0, 0)) && !ReloadNeeded(Zero3, Vec3(1, 1, 0))
    ensures !ReloadNeeded(Zero3, Vec3(1, 1, 1)) && !ReloadNeeded(Zero3, Vec3(2, 1, 1))
    ensures !ReloadNeeded(Zero3, Vec3(2, 2, 1)) && !ReloadNeeded(Zero3, Vec3(2, 2, 2))
    ensures !InRadius(Zero3, CHUNK_LOAD_RADIUS, Vec3(2, 2, 2))
  {
  }

  /** A reload test in the load shape's own measure: four or more steps from the last load point. */
  predicate ReloadNeededFixed(last: Vec3, pos: Vec3) {
    L1(Sub3(last, pos)) >= CHUNK_LOAD_RADIUS - 1
  }

  /**
   * With that test, while no reload is needed the player's chunk and every
   * chunk next to it lie within the load radius of the last load point.
   */
  lemma FixedKeepsPlayerLoaded(last: Vec3, pos: Vec3, face: Face)
    requires !ReloadNeededFixed(last, pos)
    ensures InRadius(last, CHUNK_LOAD_RADIUS, pos)
    ensures InRadius(last, CHUNK_LOAD_RADIUS, Add3(pos, Normal(face)))
  {
    var d := Sub3(pos, last);
    L1Symmetric(pos, last);
    var n := Normal(face);
    assert Sub3(Add3(pos, n), last) == Add3(d, n);
    L1Triangle(d, n);
    NormalIsOneStep(face);
  }

  /** A face's normal is one step long. */
  lemma NormalIsOneStep(face: Face)
    ensures L1(Normal(face)) == 1
  {
    var n := Normal(face);
    assert Coord(n, 0) == n.x && Coord(n, 1) == n.y && Coord(n, 2) == n.z;
  }

  /**
   * The listener with the corrected test. After every call the player's
   * chunk and each chunk next to it lie within the load radius of the load
   * point, so they are queued or loaded.
   */
  method OnPlayerChunkChangedFixed(w: World, pos: Vec3) returns (r: World)
    ensures !ReloadNeededFixed(w.lastChunkLoadPoint, pos) ==> r == w
    ensures ReloadNeededFixed(w.lastChunkLoadPoint, pos) ==>
      && r.lastChunkLoadPoint == pos && r.chunks == w.chunks && r.toRegenerate == w.toRegenerate
      && (forall p :: p in r.toLoad <==> p in w.toLoad || InRadius(pos, CHUNK_LOAD_RADIUS, p))
      && (forall p :: p in r.toUnload <==> (p in w.toUnload || p in w.chunks) && !InRadius(pos, CHUNK_LOAD_RADIUS, p))
    ensures InRadius(r.lastChunkLoadPoint, CHUNK_LOAD_RADIUS, pos)
    ensures forall face: Face :: InRadius(r.lastChunkLoadPoint, CHUNK_LOAD_RADIUS, Add3(pos, Normal(face)))
  {
    if ReloadNeededFixed(w.lastChunkLoadPoint, pos) {
      r := LoadChunksAround(w, pos, CHUNK_LOAD_RADIUS);
      r := r.(lastChunkLoadPoint := pos);
    } else {
      r := w;
    }
    assert !ReloadNeededFixed(r.lastChunkLoadPoint, pos);
    NeighboursKeptLoaded(r.lastChunkLoadPoint, pos);
  }

  lemma NeighboursKeptLoaded(last: Vec3, pos: Vec3)
    requires !ReloadNeededFixed(last, pos)
    ensures InRadius(last, CHUNK_LOAD_RADIUS, pos)
    ensures forall face: Face :: InRadius(last, CHUNK_LOAD_RADIUS, Add3(pos, Normal(face)))
  {
    FixedKeepsPlayerLoaded(last, pos, TOP);
    forall face: Face ensures InRadius(last, CHUNK_LOAD_RADIUS, Add3(pos, Normal(face))) {
      FixedKeepsPlayerLoaded(last, pos, face);
    }
  }

  /** The distance from `a` to `b` is the distance from `b` to `a`. */
  lemma L1Symmetric(a: Vec3, b: Vec3)
    ensures L1(Sub3(a, b)) == L1(Sub3(b, a))
  {
  }

  /** A step of `v` changes the distance by at most the step's length. */
  lemma L1Triangle(u: Vec3, v: Vec3)
    ensures L1(Add3(u, v)) <= L1(u) + L1(v)
  {
  }

  // ---------------------------------------------------------------------------
  // LateUpdate

  /** The chunk at `p` is loaded and not about to be unloaded. */
  predicate Kept(w: World, p: Vec3) {
    p in w.chunks && p !in w.toUnload
  }

  /**
   * The chunk's mesh and flag are what the mesher would produce from the
   * world as it now is.
   */
  ghost predicate UpToDate(reg: Reg.Registry, w: World, p: Vec3)
    requires Reg.Valid(reg) && Valid(w) && p in w.chunks
  {
    var c := w.chunks[p];
    && c.mesh == ChunkMeshing.MeshOf(reg, c, Lookup(reg, w.chunks))
    && (c.isEmpty <==> forall q :: InChunk(q) ==> !ChunkMeshing.Meshed(reg, c, q))
  }

  /** Nothing is queued: no load, no unload, no rebuild. */
  predicate Idle(w: World) {
    w.toLoad == {} && w.toUnload == {} && w.toRegenerate == []
  }

  /** Nothing is pending and every loaded chunk's mesh is current. */
  ghost predicate Settled(reg: Reg.Registry, w: World)
    requires Reg.Valid(reg)
  {
    && Valid(w) && Idle(w)
    && forall p {:trigger UpToDate(reg, w, p)} :: p in w.chunks ==> UpToDate(reg, w, p)
  }

  /** The same chunks are loaded, at the same places, with the same blocks; meshes may differ. */
  predicate SameBlocks(w: World, r: World) {
    && w.chunks.Keys == r.chunks.Keys
    && forall p :: p in w.chunks ==> r.chunks[p].blocks == w.chunks[p].blocks && r.chunks[p].chunkPos == w.chunks[p].chunkPos
  }

  /** The unload phase: every queued position is unloaded, then the queue is cleared. */
  method UnloadQueued(w: World) returns (r: World)
    requires Valid(w)
    ensures Valid(r)
    ensures r.chunks.Keys == w.chunks.Keys - w.toUnload
    ensures forall p :: p in r.chunks ==> r.chunks[p] == w.chunks[p]
    ensures r == w.(chunks := r.chunks, toUnload := {})
  {
    r := w;
    if w.toUnload != {} {
      var pending := w.toUnload;
      while pending != {}
        invariant pending <= w.toUnload
        invariant Valid(r) && r == w.(chunks := r.chunks)
        invariant r.chunks.Keys == w.chunks.Keys - (w.toUnload - pending)
        invariant forall p :: p in r.chunks ==> r.chunks[p] == w.chunks[p]
        decreases pending
      {
        var p :| p in pending;
        r := UnloadChunk(r, p);
        pending := pending - {p};
      }
      r := r.(toUnload := {});
    }
  }

  /** The load phase: every queued position is loaded, then the queue is cleared. */
  method LoadQueued(w: World, height: Terrain.HeightFn) returns (r: World)
    requires Valid(w)
    ensures Valid(r)
    ensures r.chunks.Keys == w.chunks.Keys + w.toLoad
    ensures forall p :: p in r.chunks ==> r.chunks[p] == (if p in w.chunks then w.chunks[p] else FreshChunk(p, height))
    ensures |w.toRegenerate| <= |r.toRegenerate| && r.toRegenerate[..|w.toRegenerate|] == w.toRegenerate
    ensures forall p :: p in r.toRegenerate[|w.toRegenerate|..] <==> p in w.toLoad && p !in w.chunks
    ensures r.toLoad == {} && r.toUnload == w.toUnload && r.lastChunkLoadPoint == w.lastChunkLoadPoint
  {
    r := w;
    if w.toLoad != {} {
      var pending := w.toLoad;
      while pending != {}
        invariant pending <= w.toLoad
        invariant LoadedSoFar(w, r, w.toLoad - pending, height)
        decreases pending
      {
        var p :| p in pending;
        LoadStep(w, r, w.toLoad - pending, p, height);
        r := LoadChunk(r, p, height);
        assert (w.toLoad - pending) + {p} == w.toLoad - (pending - {p});
        pending := pending - {p};
      }
      r := r.(toLoad := {});
    }
  }

  /** The world after the load phase has loaded the positions in `done`. */
  ghost predicate LoadedSoFar(w: World, r: World, done: set<Vec3>, height: Terrain.HeightFn) {
    && Valid(r) && r.toLoad == w.toLoad && r.toUnload == w.toUnload && r.lastChunkLoadPoint == w.lastChunkLoadPoint
    && r.chunks.Keys == w.chunks.Keys + done
    && (forall p :: p in r.chunks ==> r.chunks[p] == (if p in w.chunks then w.chunks[p] else FreshChunk(p, height)))
    && |w.toRegenerate| <= |r.toRegenerate| && r.toRegenerate[..|w.toRegenerate|] == w.toRegenerate
    && (forall p :: p in r.toRegenerate[|w.toRegenerate|..] <==> p in done && p !in w.chunks)
  }

  /** Loading one more position: it joins the loaded chunks, and the queue exactly when it was not loaded. */
  lemma LoadStep(w: World, r: World, done: set<Vec3>, pos: Vec3, height: Terrain.HeightFn)
    requires LoadedSoFar(w, r, done, height) && pos !in done
    ensures LoadedSoFar(w, LoadChunk(r, pos, height), done + {pos}, height)
  {
    var r' := LoadChunk(r, pos, height);
    var k := |w.toRegenerate|;
    assert r'.toRegenerate[k..] == r.toRegenerate[k..] + (if pos in r.chunks then [] else [pos]);
  }

  /** The rebuild phase: every queued chunk still loaded gets a new mesh, then the queue is cleared. */
  method RegenerateQueued(reg: Reg.Registry, w: World) returns (r: World)
    requires Reg.Valid(reg) && Valid(w)
    ensures Valid(r) && SameBlocks(w, r)
    ensures r == w.(chunks := r.chunks, toRegenerate := [])
    ensures forall p {:trigger UpToDate(reg, r, p)} :: p in r.chunks && p in w.toRegenerate ==> UpToDate(reg, r, p)
    ensures forall p :: p in r.chunks && p !in w.toRegenerate ==> r.chunks[p] == w.chunks[p]
  {
    r := w;
    if w.toRegenerate != [] {
      var i := 0;
      while i < |w.toRegenerate|
        invariant 0 <= i <= |w.toRegenerate|
        invariant RebuiltSoFar(reg, w, r, i)
      {
        r := RegenerateEntry(reg, w, r, i);
        i := i + 1;
      }
      AllRebuilt(reg, w, r);
      r := r.(toRegenerate := []);
    }
  }

  /** The world after the rebuild phase has worked off the first `i` entries of the queue. */
  ghost predicate RebuiltSoFar(reg: Reg.Registry, w: World, r: World, i: int)
    requires Reg.Valid(reg)
  {
    && 0 <= i <= |w.toRegenerate|
    && Valid(w) && Valid(r) && SameBlocks(w, r) && r == w.(chunks := r.chunks)
    && (forall p {:trigger UpToDate(reg, r, p)} :: p in r.chunks && p in w.toRegenerate[..i] ==> UpToDate(reg, r, p))
    && (forall p :: p in r.chunks && p !in w.toRegenerate[..i] ==> r.chunks[p] == w.chunks[p])
  }

  /**
   * One iteration of the rebuild loop: the chunk loaded at the next queued
   * position, if any, gets `GenerateMesh` of itself against the world as it
   * now is.
   */
  method RegenerateEntry(reg: Reg.Registry, w: World, r: World, i: int) returns (r': World)
    requires Reg.Valid(reg) && RebuiltSoFar(reg, w, r, i) && i < |w.toRegenerate|
    ensures RebuiltSoFar(reg, w, r', i + 1)
    ensures r'.chunks.Keys == r.chunks.Keys
    ensures forall p :: p in r.chunks && p != w.toRegenerate[i] ==> r'.chunks[p] == r.chunks[p]
  {
    var p := w.toRegenerate[i];
    if p in r.chunks {
      var c := ChunkMeshing.GenerateMesh(reg, r.chunks[p], Lookup(reg, r.chunks));
      r' := r.(chunks := r.chunks[p := c]);
      RebuiltIsCurrent(reg, r, p, c);
      RegenerateStep(reg, w, r, i, c);
    } else {
      SkipStep(reg, w, r, i);
      r' := r;
    }
  }

  /** Once the whole queue is worked off and cleared, every queued chunk still loaded is current. */
  lemma AllRebuilt(reg: Reg.Registry, w: World, r: World)
    requires Reg.Valid(reg) && RebuiltSoFar(reg, w, r, |w.toRegenerate|)
    ensures Valid(r.(toRegenerate := []))
    ensures forall p {:trigger UpToDate(reg, r.(toRegenerate := []), p)} :: p in r.chunks && p in w.toRegenerate ==>
      UpToDate(reg, r.(toRegenerate := []), p)
    ensures forall p :: p in r.chunks && p !in w.toRegenerate ==> r.chunks[p] == w.chunks[p]
  {
    assert w.toRegenerate[..|w.toRegenerate|] == w.toRegenerate;
    var r' := r.(toRegenerate := []);
    forall p | p in r.chunks && p in w.toRegenerate ensures UpToDate(reg, r', p) {
      assert UpToDate(reg, r, p);
    }
  }

  /** An entry whose chunk is no longer loaded is passed over. */
  lemma SkipStep(reg: Reg.Registry, w: World, r: World, i: int)
    requires Reg.Valid(reg) && RebuiltSoFar(reg, w, r, i) && i < |w.toRegenerate| && w.toRegenerate[i] !in r.chunks
    ensures RebuiltSoFar(reg, w, r, i + 1)
  {
    assert w.toRegenerate[..i + 1] == w.toRegenerate[..i] + [w.toRegenerate[i]];
  }

  /** Loaded chunks with the same blocks give the mesher the same world. */
  lemma SameBlocksLookup(reg: Reg.Registry, w: World, r: World)
    requires Reg.Valid(reg) && Valid(w) && Valid(r) && SameBlocks(w, r)
    ensures forall q :: Lookup(reg, w.chunks)(q) == Lookup(reg, r.chunks)(q)
  {
  }

  /** Whether a chunk's mesh is current depends on the blocks of the world, not on other chunks' meshes. */
  lemma UpToDateTransfer(reg: Reg.Registry, w: World, r: World, p: Vec3)
    requires Reg.Valid(reg) && Valid(w) && Valid(r) && SameBlocks(w, r) && p in w.chunks
    requires r.chunks[p].mesh == w.chunks[p].mesh && r.chunks[p].isEmpty == w.chunks[p].isEmpty
    ensures UpToDate(reg, w, p) <==> UpToDate(reg, r, p)
  {
    SameBlocksLookup(reg, w, r);
    ChunkMeshing.MeshReadsBlocksOnly(reg, w.chunks[p], r.chunks[p], Lookup(reg, w.chunks), Lookup(reg, r.chunks));
  }

  /** A chunk given the mesher's output for the world it is in is current once it replaces its old self. */
  lemma RebuiltIsCurrent(reg: Reg.Registry, r: World, p: Vec3, c: Chunk)
    requires Reg.Valid(reg) && Valid(r) && p in r.chunks
    requires c.blocks == r.chunks[p].blocks && c.chunkPos == r.chunks[p].chunkPos
    requires c.mesh == ChunkMeshing.MeshOf(reg, r.chunks[p], Lookup(reg, r.chunks))
    requires c.isEmpty <==> forall q :: InChunk(q) ==> !ChunkMeshing.Meshed(reg, r.chunks[p], q)
    ensures Valid(r.(chunks := r.chunks[p := c]))
    ensures UpToDate(reg, r.(chunks := r.chunks[p := c]), p)
  {
    var r' := r.(chunks := r.chunks[p := c]);
    assert SameBlocks(r, r');
    SameBlocksLookup(reg, r, r');
    ChunkMeshing.MeshReadsBlocksOnly(reg, r.chunks[p], c, Lookup(reg, r.chunks), Lookup(reg, r'.chunks));
  }

  /** Rebuilding the next queued chunk makes it current and leaves the others as current as they were. */
  lemma RegenerateStep(reg: Reg.Registry, w: World, r: World, i: int, c: Chunk)
    requires Reg.Valid(reg) && RebuiltSoFar(reg, w, r, i) && i < |w.toRegenerate| && w.toRegenerate[i] in r.chunks
    requires c.blocks == r.chunks[w.toRegenerate[i]].blocks && c.chunkPos == r.chunks[w.toRegenerate[i]].chunkPos
    requires Valid(r.(chunks := r.chunks[w.toRegenerate[i] := c]))
    requires UpToDate(reg, r.(chunks := r.chunks[w.toRegenerate[i] := c]), w.toRegenerate[i])
    ensures RebuiltSoFar(reg, w, r.(chunks := r.chunks[w.toRegenerate[i] := c]), i + 1)
  {
    var p := w.toRegenerate[i];
    var r' := r.(chunks := r.chunks[p := c]);
    PrefixSnoc(w.toRegenerate, i);
    OthersStayCurrent(reg, r, p, c);
  }

  /** The prefix one longer holds what the shorter one holds and the next element. */
  lemma PrefixSnoc<T>(s: seq<T>, i: int)
    requires 0 <= i < |s|
    ensures forall x :: x in s[..i + 1] <==> x in s[..i] || x == s[i]
  {
    assert s[..i + 1] == s[..i] + [s[i]];
  }

  /** Replacing one chunk by one with the same blocks leaves every other chunk exactly as current as it was. */
  lemma OthersStayCurrent(reg: Reg.Registry, r: World, p: Vec3, c: Chunk)
    requires Reg.Valid(reg) && Valid(r) && p in r.chunks
    requires c.blocks == r.chunks[p].blocks && c.chunkPos == r.chunks[p].chunkPos
    ensures Valid(r.(chunks := r.chunks[p := c])) && SameBlocks(r, r.(chunks := r.chunks[p := c]))
    ensures forall p' {:trigger UpToDate(reg, r.(chunks := r.chunks[p := c]), p')} :: p' in r.chunks && p' != p ==>
      (UpToDate(reg, r, p') <==> UpToDate(reg, r.(chunks := r.chunks[p := c]), p'))
  {
    var r' := r.(chunks := r.chunks[p := c]);
    assert SameBlocks(r, r');
    forall p' | p' in r.chunks && p' != p ensures UpToDate(reg, r, p') <==> UpToDate(reg, r', p') {
      UpToDateTransfer(reg, r, r', p');
    }
  }

  /**
   * `LateUpdate`: unloads, then loads, then rebuilds, each queue cleared
   * after it is worked off. The loaded chunks become those kept plus those
   * queued for loading; a chunk kept keeps its blocks and a chunk loaded
   * holds generated terrain; every chunk loaded or queued for a rebuild
   * ends with a current mesh, and every other chunk is untouched.
   */
  method LateUpdate(reg: Reg.Registry, w: World, height: Terrain.HeightFn) returns (r: World)
    requires Reg.Valid(reg) && Valid(w)
    ensures Valid(r)
    ensures r.toLoad == {} && r.toUnload == {} && r.toRegenerate == [] && r.lastChunkLoadPoint == w.lastChunkLoadPoint
    ensures r.chunks.Keys == (w.chunks.Keys - w.toUnload) + w.toLoad
    ensures forall p :: p in r.chunks ==>
      r.chunks[p].blocks == (if Kept(w, p) then w.chunks[p].blocks else Terrain.TerrainBlocks(p, height))
    ensures forall p {:trigger UpToDate(reg, r, p)} :: p in r.chunks && (!Kept(w, p) || p in w.toRegenerate) ==> UpToDate(reg, r, p)
    ensures forall p :: p in r.chunks && Kept(w, p) && p !in w.toRegenerate ==> r.chunks[p] == w.chunks[p]
    ensures w.toLoad == {} && w.toUnload == {} ==> SameBlocks(w, r)
  {
    var w1 := UnloadQueued(w);
    var w2 := LoadQueued(w1, height);
    forall p | p in w2.toRegenerate[|w1.toRegenerate|..] ensures p in w2.toRegenerate {
    }
    assert forall p :: p in w2.toRegenerate <==> p in w.toRegenerate || p in w2.toRegenerate[|w1.toRegenerate|..] by {
      assert w2.toRegenerate == w.toRegenerate + w2.toRegenerate[|w1.toRegenerate|..];
    }
    r := RegenerateQueued(reg, w2);
  }

  // ---------------------------------------------------------------------------
  // Frames

  /** `Lookup` reads a world as `GetBlock` does. */
  lemma LookupIsGetBlock(reg: Reg.Registry, w: World, pos: BP.BlockPos)
    requires Reg.Valid(reg) && Valid(w)
    ensures Lookup(reg, w.chunks)(pos) == GetBlock(reg, w, pos)
  {
  }

  /** The position one step back from beyond a cell's face lies in the cell's own chunk. */
  lemma NeighbourOwner(c: Chunk, q: Vec3, face: Face)
    requires InChunk(q)
    ensures BP.GetChunkPos(BP.OffsetFace(ChunkMeshing.Neighbour(c, q, face), Opposite(face), 1)) == c.chunkPos
  {
    BP.OffsetOppositeInverse(Chunk2World(c, BP.FromVec3(q)), face, 1);
    BP.Vec3RoundTrip(BP.FromVec3(q), q);
    ValidatePosIsInChunk(BP.FromVec3(q));
    Chunk2WorldRoundTrip(c, BP.FromVec3(q));
  }

  /** A chunk one of whose cells looks through a face at the position written is queued by the write. */
  lemma WriteQueuesReaders(w: World, pos: BP.BlockPos, block: Block, p: Vec3, q: Vec3, face: Face)
    requires Valid(w) && BP.GetChunkPos(pos) in w.chunks && p in w.chunks && InChunk(q)
    ensures ChunkMeshing.Neighbour(w.chunks[p], q, face) == pos ==> p in SetBlock(w, pos, block).toRegenerate
  {
    if ChunkMeshing.Neighbour(w.chunks[p], q, face) == pos {
      NeighbourOwner(w.chunks[p], q, face);
      SetBlockQueue(w, pos, block);
      var queue, k := SetBlock(w, pos, block).toRegenerate, |w.toRegenerate|;
      if p == BP.GetChunkPos(pos) {
        assert queue[..k + 1][k] == p;
      } else {
        assert BorderNeighbour(w, pos, p);
        assert p in queue[k + 1..];
      }
    }
  }

  /**
   * A write leaves every chunk it does not queue as it was, and exactly as
   * current as it was: no meshed cell of such a chunk looks at the position
   * written.
   */
  lemma SetBlockKeepsUnqueuedCurrent(reg: Reg.Registry, w: World, pos: BP.BlockPos, block: Block, p: Vec3)
    requires Reg.Valid(reg) && Valid(w) && p in w.chunks && p !in SetBlock(w, pos, block).toRegenerate
    ensures SetBlock(w, pos, block).chunks[p] == w.chunks[p]
    ensures UpToDate(reg, SetBlock(w, pos, block), p) <==> UpToDate(reg, w, p)
  {
    var w1 := SetBlock(w, pos, block);
    if BP.GetChunkPos(pos) in w.chunks {
      SetBlockQueue(w, pos, block);
      assert w1.toRegenerate[..|w.toRegenerate| + 1][|w.toRegenerate|] == BP.GetChunkPos(pos);
      var c := w.chunks[p];
      forall q, face | ChunkMeshing.Meshed(reg, c, q)
        ensures Lookup(reg, w1.chunks)(ChunkMeshing.Neighbour(c, q, face)) == Lookup(reg, w.chunks)(ChunkMeshing.Neighbour(c, q, face))
      {
        var x := ChunkMeshing.Neighbour(c, q, face);
        BP.Vec3RoundTrip(BP.FromVec3(q), q);
        ValidatePosIsInChunk(BP.FromVec3(q));
        WriteQueuesReaders(w, pos, block, p, q, face);
        SetBlockElsewhere(reg, w, pos, x, block);
        LookupIsGetBlock(reg, w, x);
        LookupIsGetBlock(reg, w1, x);
      }
      ChunkMeshing.MeshReadsNeighboursOnly(reg, c, Lookup(reg, w.chunks), Lookup(reg, w1.chunks));
    }
  }

  /**
   * The first frame: `Start` queues the chunks around the origin, then
   * `LateUpdate` loads them. The world is settled, holds exactly the chunks
   * within the load radius of the origin, each filled with generated terrain.
   */
  method FirstFrame(reg: Reg.Registry, height: Terrain.HeightFn) returns (r: World)
    requires Reg.Valid(reg)
    ensures Settled(reg, r)
    ensures r.lastChunkLoadPoint == Zero3
    ensures forall p :: p in r.chunks <==> InRadius(Zero3, CHUNK_LOAD_RADIUS, p)
    ensures forall p :: p in r.chunks ==> r.chunks[p].blocks == Terrain.TerrainBlocks(p, height)
  {
    var w := Start(Initial);
    assert w.chunks == map[] && Valid(w);
    r := LateUpdate(reg, w, height);
    NothingKept(reg, w, r);
  }

  /** When nothing was loaded before the frame, every chunk after it has a current mesh. */
  lemma NothingKept(reg: Reg.Registry, w: World, r: World)
    requires Reg.Valid(reg) && Valid(r) && w.chunks == map[]
    requires forall p {:trigger UpToDate(reg, r, p)} :: p in r.chunks && (!Kept(w, p) || p in w.toRegenerate) ==> UpToDate(reg, r, p)
    ensures forall p {:trigger UpToDate(reg, r, p)} :: p in r.chunks ==> UpToDate(reg, r, p)
  {
    forall p | p in r.chunks ensures UpToDate(reg, r, p) {
      assert !Kept(w, p);
    }
  }

  /**
   * A frame in which a block is written: `SetBlock`, then `LateUpdate`. A
   * settled world stays settled and keeps its chunks; the position reads as
   * the block written when its chunk is loaded, and every other position
   * reads as before.
   */
  method EditFrame(reg: Reg.Registry, w: World, pos: BP.BlockPos, block: Block, height: Terrain.HeightFn) returns (r: World)
    requires Reg.Valid(reg) && Settled(reg, w)
    ensures Settled(reg, r)
    ensures r.chunks.Keys == w.chunks.Keys && r.lastChunkLoadPoint == w.lastChunkLoadPoint
    ensures BP.GetChunkPos(pos) in w.chunks ==> GetBlock(reg, r, pos) == Reg.FromId(reg, block.id)
    ensures forall q :: q != pos ==> GetBlock(reg, r, q) == GetBlock(reg, w, q)
  {
    var w1 := SetBlock(w, pos, block);
    r := LateUpdate(reg, w1, height);
    forall p | p in r.chunks ensures UpToDate(reg, r, p) {
      if p !in w1.toRegenerate {
        SetBlockKeepsUnqueuedCurrent(reg, w, pos, block, p);
        assert UpToDate(reg, w, p);
        UpToDateTransfer(reg, w1, r, p);
      }
    }
    SameBlocksReads(reg, w1, r);
    if BP.GetChunkPos(pos) in w.chunks {
      SetBlockReadBack(reg, w, pos, block);
    }
    forall q | q != pos ensures GetBlock(reg, w1, q) == GetBlock(reg, w, q) {
      SetBlockElsewhere(reg, w, pos, q, block);
    }
  }

  /** Worlds with the same blocks read the same everywhere. */
  lemma SameBlocksReads(reg: Reg.Registry, w: World, r: World)
    requires Reg.Valid(reg) && Valid(w) && Valid(r) && SameBlocks(w, r)
    ensures forall q :: GetBlock(reg, r, q) == GetBlock(reg, w, q)
  {
    forall q ensures GetBlock(reg, r, q) == GetBlock(reg, w, q) {
      SameBlocksLookup(reg, w, r);
      LookupIsGetBlock(reg, w, q);
      LookupIsGetBlock(reg, r, q);
    }
  }

  /**
   * A frame in which the player enters the chunk at `pos`:
   * `OnPlayerChunkChanged`, then `LateUpdate`. Unless the player moved far
   * enough from the last load point nothing changes. Otherwise the loaded
   * chunks become exactly those within the load radius of `pos`: the chunks
   * kept are untouched, and each chunk loaded holds generated terrain and a
   * current mesh.
   */
  method MoveFrame(reg: Reg.Registry, w: World, pos: Vec3, height: Terrain.HeightFn) returns (r: World)
    requires Reg.Valid(reg) && Valid(w) && Idle(w)
    ensures Valid(r) && Idle(r)
    ensures !ReloadNeeded(w.lastChunkLoadPoint, pos) ==> r == w
    ensures ReloadNeeded(w.lastChunkLoadPoint, pos) ==>
      r.lastChunkLoadPoint == pos && forall p :: p in r.chunks <==> InRadius(pos, CHUNK_LOAD_RADIUS, p)
    ensures forall p :: p in r.chunks && p in w.chunks ==> r.chunks[p] == w.chunks[p]
    ensures forall p :: p in r.chunks && p !in w.chunks ==>
      r.chunks[p].blocks == Terrain.TerrainBlocks(p, height) && UpToDate(reg, r, p)
  {
    var w1 := OnPlayerChunkChanged(w, pos);
    r := LateUpdate(reg, w1, height);
    if !ReloadNeeded(w.lastChunkLoadPoint, pos) {
      assert r.chunks == w.chunks;
    }
  }
}

/**
 * A chunk of the current revision (Assets/Scripts/Chunk/Chunk.cs): its
 * position in chunk coordinates, 4096 block ids stored at `x + 16y + 256z`,
 * the `isEmpty` flag and the last mesh handed to it. Blocks are read back
 * through the registry, which is passed in.
 */
module Chunks {
  import opened Optional
  import opened Vectors
  import opened ChunkGrid
  import opened BlockTypes
  import opened Meshes
  import BP = BlockPositions
  import Reg = BlockRegistry

  datatype Chunk = Chunk(chunkPos: Vec3, blocks: seq<byte>, isEmpty: bool, mesh: MeshBuffers)

  /** The block array always has one slot per cell. */
  predicate WellSized(c: Chunk) {
    |c.blocks| == VOLUME
  }

  /** A freshly instantiated chunk placed with `SetPosition`: all air, flagged empty, no mesh. */
  function NewChunk(pos: Vec3): (c: Chunk)
    ensures WellSized(c) && c.chunkPos == pos && c.isEmpty
    ensures forall i :: 0 <= i < VOLUME ==> c.blocks[i] == 0
  {
    Chunk(pos, seq(VOLUME, (i: int) => 0), true, Empty)
  }

  /** `ValidatePos`: the position is a cell of the chunk, and so addresses one of its 4096 slots. */
  predicate ValidatePos(p: BP.BlockPos)
    ensures ValidatePos(p) ==> 0 <= FlatIndex(BP.ToVec3(p)) < VOLUME
  {
    p.x >= 0 && p.y >= 0 && p.z >= 0 && p.x < CHUNK_SIZE && p.y < CHUNK_SIZE && p.z < CHUNK_SIZE
  }

  /** `GetBlock`: the registered block whose id is stored at `p`, `None` (null) outside the chunk. */
  function GetBlock(reg: Reg.Registry, c: Chunk, p: BP.BlockPos): (r: Option<Block>)
    requires Reg.Valid(reg) && WellSized(c)
    ensures !ValidatePos(p) ==> r == None
    ensures ValidatePos(p) ==> 0 <= FlatIndex(BP.ToVec3(p)) < VOLUME
    ensures ValidatePos(p) ==> r == Reg.FromId(reg, c.blocks[FlatIndex(BP.ToVec3(p))])
  {
    if ValidatePos(p) then
      FlatIndexBijective(BP.ToVec3(p));
      Reg.FromId(reg, c.blocks[FlatIndex(BP.ToVec3(p))])
    else None
  }

  /** `SetBlock`: stores the block's id at `p`; a position outside the chunk is ignored. */
  function SetBlock(c: Chunk, p: BP.BlockPos, b: Block): (r: Chunk)
    requires WellSized(c)
    ensures WellSized(r)
    ensures r.chunkPos == c.chunkPos && r.isEmpty == c.isEmpty && r.mesh == c.mesh
    ensures !ValidatePos(p) ==> r == c
  {
    if ValidatePos(p) then
      FlatIndexBijective(BP.ToVec3(p));
      c.(blocks := c.blocks[FlatIndex(BP.ToVec3(p)) := b.id])
    else c
  }

  /** `SetMeshData`: the chunk's mesh is replaced by the generated buffers. */
  function SetMeshData(c: Chunk, m: MeshBuffers): (r: Chunk)
    ensures r.mesh == m && r.blocks == c.blocks && r.chunkPos == c.chunkPos && r.isEmpty == c.isEmpty
  {
    c.(mesh := m)
  }

  /** `Chunk2World`: a local position shifted by the chunk's origin `chunkPos * 16`. */
  function Chunk2World(c: Chunk, p: BP.BlockPos): BP.BlockPos {
    BP.Add(p, BP.Mul(BP.FromVec3(c.chunkPos), CHUNK_SIZE))
  }

  /**
   * `World2Chunk`: a world position relative to the origin of the chunk that
   * contains it. It ignores the chunk it is called on.
   */
  function World2Chunk(p: BP.BlockPos): (r: BP.BlockPos)
    ensures ValidatePos(r)
  {
    BP.Sub(p, BP.Mul(BP.FromVec3(BP.GetChunkPos(p)), CHUNK_SIZE))
  }

  // ---------------------------------------------------------------------------
  // Properties

  /** The cell check is the grid's. */
  lemma ValidatePosIsInChunk(p: BP.BlockPos)
    ensures ValidatePos(p) <==> InChunk(BP.ToVec3(p))
  {
  }

  /**
   * Reading back a valid position just written gives the registry's block
   * for the stored id: the block itself when it is registered under its id.
   */
  lemma GetAfterSet(reg: Reg.Registry, c: Chunk, p: BP.BlockPos, b: Block)
    requires Reg.Valid(reg) && WellSized(c)
    requires ValidatePos(p)
    ensures GetBlock(reg, SetBlock(c, p, b), p) == Reg.FromId(reg, b.id)
    ensures Reg.FromId(reg, b.id) == Some(b) ==> GetBlock(reg, SetBlock(c, p, b), p) == Some(b)
  {
  }

  /** Storing at `p` leaves every other position as it was. */
  lemma GetAfterSetElsewhere(reg: Reg.Registry, c: Chunk, p: BP.BlockPos, q: BP.BlockPos, b: Block)
    requires Reg.Valid(reg) && WellSized(c)
    requires p != q
    ensures GetBlock(reg, SetBlock(c, p, b), q) == GetBlock(reg, c, q)
  {
    if ValidatePos(p) && ValidatePos(q) {
      FlatIndexInjective(BP.ToVec3(p), BP.ToVec3(q));
    }
  }

  /** A fresh chunk reads as air everywhere inside it. */
  lemma NewChunkIsAir(reg: Reg.Registry, pos: Vec3, p: BP.BlockPos)
    requires Reg.Valid(reg) && ValidatePos(p)
    ensures GetBlock(reg, NewChunk(pos), p) == Reg.FromId(reg, 0)
  {
  }

  /** `World2Chunk` always lands inside a chunk, and going back from the containing chunk restores the world position. */
  lemma {:induction false} World2ChunkInRange(c: Chunk, p: BP.BlockPos)
    ensures ValidatePos(World2Chunk(p))
    ensures c.chunkPos == BP.GetChunkPos(p) ==> Chunk2World(c, World2Chunk(p)) == p
  {
  }

  /** A local position moved into world space belongs to this chunk, and `World2Chunk` recovers it. */
  lemma {:induction false} Chunk2WorldRoundTrip(c: Chunk, p: BP.BlockPos)
    requires ValidatePos(p)
    ensures BP.GetChunkPos(Chunk2World(c, p)) == c.chunkPos
    ensures World2Chunk(Chunk2World(c, p)) == p
  {
    BP.GetChunkPosUnique(Chunk2World(c, p), c.chunkPos);
  }
}

/**
 * `TerrainGenerator.GenerateChunkTerrain` (Assets/Scripts/TerrainGenerator.cs):
 * every cell of a chunk becomes GRASS at the surface height of its column,
 * DIRT below it and AIR above it. The height is sampled from Perlin noise at
 * the cell's world x and z; here it is the parameter `height`.
 */
module Terrain {
  import opened Vectors
  import opened ChunkGrid
  import opened BlockTypes
  import opened Optional
  import BP = BlockPositions
  import Reg = BlockRegistry
  import opened Chunks

  /** `(int)(Mathf.PerlinNoise(x * .05f, z * .05f) * 20)` at world column `(x, z)`. */
  type HeightFn = (int, int) -> int

  /** The block a cell at world height `y` gets in a column whose surface is at `h`: solid up to the surface, air above. */
  function Classify(h: int, y: int): (r: Block)
    ensures r == Reg.AIR || r == Reg.DIRT || r == Reg.GRASS
    ensures Reg.HasMesh(r) <==> y <= h
  {
    if h == y then Reg.GRASS else if y < h then Reg.DIRT else Reg.AIR
  }

  /** The world position of local cell `p` of the chunk at `chunkPos`, as `Chunk2World` computes it. */
  function WorldOf(chunkPos: Vec3, p: Vec3): BP.BlockPos {
    BP.Add(BP.FromVec3(p), BP.Mul(BP.FromVec3(chunkPos), CHUNK_SIZE))
  }

  /** The block generated for local cell `p` of the chunk at `chunkPos`. */
  function CellBlock(chunkPos: Vec3, height: HeightFn, p: Vec3): Block {
    var w := WorldOf(chunkPos, p);
    Classify(height(w.x, w.z), w.y)
  }

  /** The block ids of a generated chunk, in storage order. */
  function TerrainBlocks(chunkPos: Vec3, height: HeightFn): (blocks: seq<byte>)
    ensures |blocks| == VOLUME
  {
    seq(VOLUME, i requires 0 <= i < VOLUME => CellBlock(chunkPos, height, CellOfIndex(i)).id)
  }

  /** `p` comes before `(x, y, z)` in the loops' order: x slowest, z fastest. */
  predicate LexBefore(p: Vec3, x: int, y: int, z: int) {
    p.x < x || (p.x == x && (p.y < y || (p.y == y && p.z < z)))
  }

  /** The chunk after the loops reached `(x, y, z)`: cells before it generated, the rest as they were. */
  ghost predicate Written(c0: Chunk, r: Chunk, height: HeightFn, x: int, y: int, z: int)
    requires WellSized(c0)
  {
    && WellSized(r) && r == c0.(blocks := r.blocks)
    && forall p :: InChunk(p) ==>
         r.blocks[FlatIndex(p)] == (if LexBefore(p, x, y, z) then CellBlock(c0.chunkPos, height, p).id else c0.blocks[FlatIndex(p)])
  }

  /**
   * `GenerateChunkTerrain(chunk)`: the x, y, z loops writing each cell's
   * block with `SetBlock`. The result keeps the chunk's position, flag and
   * mesh, and its blocks are `TerrainBlocks` of its position, whatever they
   * were before.
   */
  method GenerateChunkTerrain(c: Chunk, height: HeightFn) returns (r: Chunk)
    requires WellSized(c)
    ensures WellSized(r)
    ensures r == c.(blocks := TerrainBlocks(c.chunkPos, height))
  {
    r := c;
    var x := 0;
    while x < CHUNK_SIZE
      invariant 0 <= x <= CHUNK_SIZE
      invariant Written(c, r, height, x, 0, 0)
    {
      var y := 0;
      while y < CHUNK_SIZE
        invariant 0 <= y <= CHUNK_SIZE
        invariant Written(c, r, height, x, y, 0)
      {
        var z := 0;
        while z < CHUNK_SIZE
          invariant 0 <= z <= CHUNK_SIZE
          invariant Written(c, r, height, x, y, z)
        {
          var inChunk := BP.BlockPos(x, y, z);
          var pos := Chunk2World(r, inChunk);
          var h := height(pos.x, pos.z);
          var block;
          if h == pos.y {
            block := Reg.GRASS;
          } else if pos.y < h {
            block := Reg.DIRT;
          } else {
            block := Reg.AIR;
          }
          WriteStep(c, r, height, x, y, z);
          r := SetBlock(r, inChunk, block);
          z := z + 1;
        }
        y := y + 1;
      }
      x := x + 1;
    }
    AllWritten(c, r, height);
  }

  /** Writing the cell the loops are at extends the generated prefix by that cell. */
  lemma WriteStep(c0: Chunk, r: Chunk, height: HeightFn, x: int, y: int, z: int)
    requires WellSized(c0) && InChunk(Vec3(x, y, z))
    requires Written(c0, r, height, x, y, z)
    ensures Written(c0, SetBlock(r, BP.BlockPos(x, y, z), CellBlock(c0.chunkPos, height, Vec3(x, y, z))), height, x, y, z + 1)
  {
    var q := Vec3(x, y, z);
    var r' := SetBlock(r, BP.BlockPos(x, y, z), CellBlock(c0.chunkPos, height, q));
    FlatIndexBijective(q);
    forall p | InChunk(p)
      ensures r'.blocks[FlatIndex(p)] ==
        (if LexBefore(p, x, y, z + 1) then CellBlock(c0.chunkPos, height, p).id else c0.blocks[FlatIndex(p)])
    {
      FlatIndexInjective(p, q);
    }
  }

  /** After the last cell every slot holds its generated block. */
  lemma AllWritten(c0: Chunk, r: Chunk, height: HeightFn)
    requires WellSized(c0) && Written(c0, r, height, CHUNK_SIZE, 0, 0)
    ensures r == c0.(blocks := TerrainBlocks(c0.chunkPos, height))
  {
    forall i | 0 <= i < VOLUME ensures r.blocks[i] == TerrainBlocks(c0.chunkPos, height)[i] {
      var p := CellOfIndex(i);
      assert r.blocks[FlatIndex(p)] == CellBlock(c0.chunkPos, height, p).id;
    }
  }

  // ---------------------------------------------------------------------------
  // Properties

  /** GRASS exactly at the surface height, DIRT exactly below it, AIR exactly above it. */
  lemma ClassifyByHeight(h: int, y: int)
    ensures Classify(h, y) == Reg.GRASS <==> y == h
    ensures Classify(h, y) == Reg.DIRT <==> y < h
    ensures Classify(h, y) == Reg.AIR <==> y > h
  {
  }

  /**
   * Two cells of one column share the surface height, so a column holds at
   * most one GRASS cell, DIRT only below it and AIR only above it.
   */
  lemma ColumnShape(chunkPos: Vec3, height: HeightFn, p: Vec3, q: Vec3)
    requires p.x == q.x && p.z == q.z
    requires CellBlock(chunkPos, height, p) == Reg.GRASS
    ensures CellBlock(chunkPos, height, q) == Reg.GRASS <==> q.y == p.y
    ensures CellBlock(chunkPos, height, q) == Reg.DIRT <==> q.y < p.y
    ensures CellBlock(chunkPos, height, q) == Reg.AIR <==> q.y > p.y
  {
    var wp, wq := WorldOf(chunkPos, p), WorldOf(chunkPos, q);
    assert wp.x == wq.x && wp.z == wq.z;
    ClassifyByHeight(height(wp.x, wp.z), wp.y);
    ClassifyByHeight(height(wq.x, wq.z), wq.y);
  }

  /** Only AIR (0), DIRT (1) and GRASS (3) are written. */
  lemma OnlyThreeBlocks(chunkPos: Vec3, height: HeightFn, i: int)
    requires 0 <= i < VOLUME
    ensures TerrainBlocks(chunkPos, height)[i] in {Reg.AIR.id, Reg.DIRT.id, Reg.GRASS.id}
    ensures TerrainBlocks(chunkPos, height)[i] in {0, 1, 3}
  {
  }

  /** Through the start-up registry each generated cell reads back as its block. */
  lemma TerrainReadBack(plantUv: Vec2, c: Chunk, height: HeightFn, p: BP.BlockPos)
    requires WellSized(c) && ValidatePos(p)
    ensures GetBlock(Reg.Initial(plantUv), c.(blocks := TerrainBlocks(c.chunkPos, height)), p)
      == Some(CellBlock(c.chunkPos, height, BP.ToVec3(p)))
  {
    FlatIndexBijective(BP.ToVec3(p));
    Reg.InitialIds(plantUv);
  }
}

# Voxel-Fun block data, chunk meshing and world streaming in Dafny

A model of the block-data core of the Unity voxel engine Voxel-Fun. Its parts:

- **Block positions:** integer block positions (`BlockPos`) and the six block faces.
- **Blocks:** block types and the static registry that gives each type a one-byte id.
- **Chunks:** the 16×16×16 chunk, its block array and its local/world coordinate conversion.
- **Terrain:** the height-map terrain generator.
- **Meshers:** the chunk meshers that turn blocks into vertex, triangle and UV buffers.
- **World:** the dictionary of loaded chunks, with its load, unload and rebuild queues. `LateUpdate` drains them once per frame.

Two generations of the code sit side by side in the repository, and both are modelled:

- **The first chunk and mesher:** `Assets/Scripts/Chunk.cs` and `Assets/Scripts/ChunkMeshGenerator.cs`. Blocks are raw ids, faces are culled inside one chunk, and corners are built by filling offset vectors. The first `BlockPos` (`Assets/Scripts/BlockPos.cs`) belongs to this generation too.
- **The current code:** everything under `Assets/Scripts/Block/` and `Assets/Scripts/Chunk/`, plus `World.cs` and `TerrainGenerator.cs`. Blocks here are registered types. Faces are culled against the whole world and come from a vertex table with one shared winding.

Everything is pure functions over immutable datatypes. Methods are used where the engine runs loops: the three terrain loops, the mesher's loops, the world's load scan and the three `LateUpdate` phases. Each method's contract states the closed form of its result.

The engine's static state becomes ordinary parameters:
- the block registry;
- `World.instance.GetBlock`, which the mesher reads;
- the Perlin-noise height.

Unity vectors become integer `Vec3`/`Vec2`. Texture coordinates are counted in atlas cells, 1/16 of the texture each.

Some behaviour of the code worth knowing up front:
- **Registry overflow:** the registry's counter is one byte, so registering a 257th block type wraps it to 0 instead of failing (Findings, row 1).
- **Load shape:** `LoadChunksAround` loops `-radius..radius` on all three axes and keeps the full L1 ball.
- **Scheduling loads:** every position of the ball is queued, and `LoadChunk` skips the ones already loaded. `Worlds.LoadChunksAround` and `Worlds.LoadChunkIdempotent` state that behaviour.
- **No chunk pool:** chunks are instantiated and destroyed.

## Model

| member | source | states |
|---|---|---|
| BlockPositions.Vec3RoundTrip | Assets/Scripts/Block/BlockPos.cs:120-123 | converting a position to a `Vector3Int` and back, or the other way round, gives the value it started from |
| BlockPositions.Neg | Assets/Scripts/Block/BlockPos.cs:94 | unary minus gives the additive inverse: the position plus its negation is `zero` |
| BlockPositions.AddGroupLaws | Assets/Scripts/Block/BlockPos.cs:95 | `+` is commutative and associative with `zero` as identity, and `-a` is the inverse of `a` |
| BlockPositions.MulIsRepeatedAdd | Assets/Scripts/Block/BlockPos.cs:97 | `p * 0` is `zero`, and `p * (n + 1)` is `p * n + p`: scaling is repeated addition |
| BlockPositions.Sub | Assets/Scripts/Block/BlockPos.cs:96 | subtraction undoes addition: `(a - b) + b == a` |
| BlockPositions.Div | Assets/Scripts/Block/BlockPos.cs:98 | division is defined exactly when the divisor is non-zero; a zero divisor is C#'s divide-by-zero exception |
| BlockPositions.Mod | Assets/Scripts/Block/BlockPos.cs:99 | the remainder is defined exactly when the divisor is non-zero |
| BlockPositions.Index | Assets/Scripts/Block/BlockPos.cs:101-113 | the indexer answers exactly for keys 0, 1 and 2, with x, y and z; every other key is the out-of-range exception |
| BlockPositions.Offset | Assets/Scripts/Block/BlockPos.cs:44 | offsetting by three amounts is adding that vector |
| BlockPositions.OffsetFace | Assets/Scripts/Block/BlockPos.cs:46-64 | offsetting by a face moves `n` steps along that face's axis, in its direction, and leaves the other two coordinates alone |
| BlockPositions.GetChunkPos | Assets/Scripts/Block/BlockPos.cs:68-73 | the chunk position is the one whose 16-block cube contains the block on every axis, negative coordinates included (floor, not truncation) |
| BlockPositions.GetChunkPosUnique | Assets/Scripts/Block/BlockPos.cs:68-73 | any chunk whose cube contains the block is the one `GetChunkPos` returns |
| BlockPositions.TruncDivIsNotFloor | Assets/Scripts/Block/BlockPos.cs:68-73 | the `/` operator truncates (`-1 / 16 == 0`), while the chunk of block x = -1 is chunk -1 |
| BlockPositions.BlocksInVolume | Assets/Scripts/Block/BlockPos.cs:127-149 | the volume walk yields exactly the positions of the half-open box between the two corners, whichever order the corners come in |
| BlockPositions.OffsetOppositeInverse | Assets/Scripts/Block/BlockPos.cs:46-64 | `n` steps through a face followed by `n` steps through the opposite face return to the start |
| BlockPositions.OffsetFaceIsNormalStep | Assets/Scripts/Block/BlockPos.cs:46-64 | offsetting through a face is adding `n` times the face's unit normal |
| BlockPositions.NegInvolution | Assets/Scripts/Block/BlockPos.cs:94 | negating twice gives the position back |
| BlockPositions.SubIsAddNeg | Assets/Scripts/Block/BlockPos.cs:94-96 | `a - b` equals `a + (-b)` |
| BlockPositions.EqualityOperators | Assets/Scripts/Block/BlockPos.cs:116-117 | `==` holds exactly for equal positions and `!=` is its negation |
| BlockPositions.TruncDivMod | Assets/Scripts/Block/BlockPos.cs:98-99 | C# `/` and `%` recombine to the dividend; the remainder is smaller than the divisor and takes the dividend's sign |
| BlockPositions.DivModRecombine | Assets/Scripts/Block/BlockPos.cs:97-99 | `(p / a) * a + p % a == p` for every non-zero `a` |
| LegacyBlockPositions.Sub | Assets/Scripts/BlockPos.cs:84 | subtraction undoes addition |
| LegacyBlockPositions.Offset | Assets/Scripts/BlockPos.cs:42 | offsetting by three amounts is adding that vector |
| LegacyBlockPositions.Get | Assets/Scripts/BlockPos.cs:87-98 | the getter answers exactly for keys 0 to 2, and then agrees with the current struct's indexer, which gives x, y and z for keys 0, 1 and 2; other keys throw |
| LegacyBlockPositions.Set | Assets/Scripts/BlockPos.cs:99-108 | the setter succeeds exactly for keys 0 to 2; then the coordinate with that index (x, y or z) holds the value and the other two are unchanged; other keys throw |
| LegacyBlockPositions.SetThenGet | Assets/Scripts/BlockPos.cs:87-109 | reading a coordinate after setting it gives the value set |
| LegacyBlockPositions.SetLeavesOthers | Assets/Scripts/BlockPos.cs:99-108 | setting one coordinate leaves the other two unchanged |
| LegacyBlockPositions.OffsetFaceAgreesWithCurrent | Assets/Scripts/BlockPos.cs:44-62 | the first `offset(face)` moves every face exactly as the current one does, although its switch lists the faces in another order |
| LegacyBlockPositions.OperatorsAgreeWithCurrent | Assets/Scripts/BlockPos.cs:82-85 | `+`, binary `-`, `*` and unary `-` compute what the current struct's operators compute |
| LegacyBlockPositions.EqualityOperators | Assets/Scripts/BlockPos.cs:112-113 | `==` is equality of positions and `!=` its negation |
| Faces.Opposite | Assets/Scripts/Block/BlockPos.cs:46-64 | the opposite face lies on the same axis, with the other sign |
| Faces.Normal | Assets/Scripts/Block/BlockPos.cs:46-64 | a face's normal is a unit step along the face's axis, in the face's direction |
| Faces.FaceOf | Assets/Scripts/Chunk.cs:8-16 | every axis-unit direction is the normal of a face |
| Faces.NormalsDistinct | Assets/Scripts/Block/BlockPos.cs:46-64 | different faces have different normals; every normal is an axis unit; the opposite face's normal is the negated normal |
| Faces.AllFacesListsEachFaceOnce | Assets/Scripts/Chunk/ChunkMeshGenerator.cs:12 | the enum's value list has six entries and names every face exactly once |
| ChunkGrid.CellOfIndex | Assets/Scripts/Chunk/Chunk.cs:96 | every slot of the 4096-byte array is the flat index `x + 16y + 256z` of a cell of the chunk |
| ChunkGrid.FlatIndexBijective | Assets/Scripts/Chunk/Chunk.cs:92-116 | the flat index of an in-chunk cell is a valid slot, and decoding the slot gives the cell back |
| ChunkGrid.FlatIndexInjective | Assets/Scripts/Chunk/Chunk.cs:92-116 | two in-chunk cells share a slot only if they are the same cell |
| ChunkGrid.VolumeMembers | Assets/Scripts/Block/BlockPos.cs:139-148 | the three nested loops visit exactly the cells of the box |
| ChunkGrid.VolumeDistinct | Assets/Scripts/Block/BlockPos.cs:139-148 | the three nested loops never visit a cell twice |
| ChunkGrid.VolumeStepInverse | Assets/Scripts/Block/BlockPos.cs:139-148 | every cell of the box has a loop step, and that step visits it |
| ChunkGrid.VolumeStepOfCell | Assets/Scripts/Block/BlockPos.cs:139-148 | the cell visited at step `k` has loop step `k` |
| ChunkGrid.VolumeCellInBox | Assets/Scripts/Block/BlockPos.cs:139-148 | every step of the loops visits a cell inside the box |
| ChunkGrid.ChunkCells | Assets/Scripts/Chunk/ChunkMeshGenerator.cs:32-40 | the chunk loops visit 4096 cells |
| ChunkGrid.ChunkCellsMembers | Assets/Scripts/Chunk/ChunkMeshGenerator.cs:32-40 | the chunk loops visit exactly the cells with all coordinates in `[0, 16)` |
| ChunkGrid.ChunkCellsDistinct | Assets/Scripts/Chunk/ChunkMeshGenerator.cs:32-40 | the chunk loops visit no cell twice |
| ChunkGrid.ChunkCellsIsVolume | Assets/Scripts/Chunk/ChunkMeshGenerator.cs:32-40 | the chunk's x-y-z loops walk the same cells, in the same order, as the general box walk over `[0, 16)³` |
| Chunks.NewChunk | Assets/Scripts/Chunk/Chunk.cs:23-26 | a new chunk has a 4096-byte block array of zeroes and is marked empty |
| Chunks.NewChunkIsAir | Assets/Scripts/Chunk/Chunk.cs:23-26 | every cell of a new chunk reads as the block registered under id 0 |
| Chunks.ValidatePos | Assets/Scripts/Chunk/Chunk.cs:85-89 | a valid position addresses one of the chunk's 4096 slots |
| Chunks.World2Chunk | Assets/Scripts/Chunk/Chunk.cs:77-80 | every world position maps to a valid position inside a chunk |
| Chunks.GetBlock | Assets/Scripts/Chunk/Chunk.cs:92-102 | a position outside the chunk reads `null`; a position inside reads the registry's block for the id stored in the slot at its flat index, a valid slot of the 4096 |
| Chunks.SetBlock | Assets/Scripts/Chunk/Chunk.cs:110-116 | a write outside the chunk changes nothing; a write never changes the chunk's position, empty flag or mesh |
| Chunks.SetMeshData | Assets/Scripts/Chunk/Chunk.cs:44-61 | new mesh data replaces the mesh and keeps the blocks, position and flag |
| Chunks.ValidatePosIsInChunk | Assets/Scripts/Chunk/Chunk.cs:85-89 | `ValidatePos` holds exactly for the cells of the chunk |
| Chunks.GetAfterSet | Assets/Scripts/Chunk/Chunk.cs:92-116 | reading an in-chunk position after writing a block there gives the registry's block for that block's id, so the block itself when it is registered under its id |
| Chunks.GetAfterSetElsewhere | Assets/Scripts/Chunk/Chunk.cs:92-116 | writing one position does not change what any other position reads |
| Chunks.World2ChunkInRange | Assets/Scripts/Chunk/Chunk.cs:77-80 | every world position's local position is inside the chunk; `Chunk2World` of it gives the world position back in the chunk that owns it |
| Chunks.Chunk2WorldRoundTrip | Assets/Scripts/Chunk/Chunk.cs:72-80 | a local cell mapped to world coordinates lies in this chunk, and `World2Chunk` gives the cell back |
| LegacyChunks.GetBlock | Assets/Scripts/Chunk.cs:85-95 | positions outside the chunk read 0 (air) |
| LegacyChunks.SetBlock | Assets/Scripts/Chunk.cs:103-109 | writes outside the chunk are ignored; the chunk keeps its position |
| LegacyChunks.GetAfterSet | Assets/Scripts/Chunk.cs:85-109 | a written in-chunk id reads back, and every other position keeps its id |
| LegacyChunks.GenerateBlocksCell | Assets/Scripts/Chunk.cs:59-71 | a generated cell is solid (1) exactly when its world height is at most 0 or the noise surface reaches it, and air (0) otherwise |
| LegacyChunks.GenerateBlocksColumns | Assets/Scripts/Chunk.cs:59-71 | generated columns have no overhangs: every cell below a solid cell is solid |
| LegacyChunks.DirectionsAreAxisUnits | Assets/Scripts/Chunk.cs:8-16 | each entry of `DIRECTIONS` is a unit step along one axis |
| LegacyChunks.DirectionsAreFaceNormals | Assets/Scripts/Chunk.cs:8-16 | `DIRECTIONS` lists the six face normals, each once |
| LegacyChunks.FillZerosClosedForm | Assets/Scripts/Chunk.cs:157-168 | for an axis direction, the fill loop puts the corner offsets into the two free axes in order; for the zero vector it runs past the corner pair |
| LegacyChunks.FaceQuadGeometry | Assets/Scripts/Chunk.cs:154-201 | the four vertices of a face lie on that side of the cell, both triangles wind about the direction, and the UVs cover the whole texture |
| LegacyChunks.FaceQuadCorners | Assets/Scripts/Chunk.cs:157-171 | every vertex of a generated face lies on the cell's side towards the direction |
| LegacyChunks.UnitFaceCorners | Assets/Scripts/Chunk.cs:157-171 | the corners filled from `CORNER_OFFSETS` lie on the unit cell's side towards the direction |
| LegacyChunks.UnitFaceFacing | Assets/Scripts/Chunk.cs:180-200 | for every direction, the chosen winding turns both triangles about that direction |
| LegacyChunks.UnitFaceFacingEast | Assets/Scripts/Chunk.cs:180-200 | the +x face's two triangles wind about +x |
| LegacyChunks.UnitFaceFacingWest | Assets/Scripts/Chunk.cs:180-200 | the -x face's two triangles wind about -x |
| LegacyChunks.UnitFaceFacingUp | Assets/Scripts/Chunk.cs:180-200 | the +y face's two triangles wind about +y |
| LegacyChunks.UnitFaceFacingDown | Assets/Scripts/Chunk.cs:180-200 | the -y face's two triangles wind about -y |
| LegacyChunks.UnitFaceFacingForward | Assets/Scripts/Chunk.cs:180-200 | the +z face's two triangles wind about +z |
| LegacyChunks.UnitFaceFacingBack | Assets/Scripts/Chunk.cs:180-200 | the -z face's two triangles wind about -z |
| LegacyChunks.GenerateMesh | Assets/Scripts/Chunk.cs:114-151 | the mesh is a well-formed quad mesh with four vertices per generated face |
| LegacyChunks.MeshFacesMembers | Assets/Scripts/Chunk.cs:122-143 | a face is generated exactly for a solid cell's side whose neighbour in that direction is air or outside the chunk |
| LegacyChunks.MeshFacesNoDuplicates | Assets/Scripts/Chunk.cs:122-143 | no face is generated twice |
| LegacyChunks.GenerateMeshQuads | Assets/Scripts/Chunk.cs:122-151 | the `i`-th quad in the buffers is the face built for the `i`-th generated (cell, direction) |
| LegacyChunkMeshing.Winding | Assets/Scripts/ChunkMeshGenerator.cs:70-89 | each face's six triangle indices address its own four vertices |
| LegacyChunkMeshing.CellsAreChunkCells | Assets/Scripts/ChunkMeshGenerator.cs:22 | `BlocksInVolume(zero, one * 16)` walks the same cells in the same order as the chunk's own loops |
| LegacyChunkMeshing.FaceQuadAgrees | Assets/Scripts/ChunkMeshGenerator.cs:42-90 | the static mesher builds, for every face, the quad the first chunk builds for that face's normal |
| LegacyChunkMeshing.FaceQuadGeometry | Assets/Scripts/ChunkMeshGenerator.cs:42-90 | a face's vertices lie on that side of the cell; its triangles wind about the normal; its UVs cover the whole texture |
| LegacyChunkMeshing.NeighbourIsNormalStep | Assets/Scripts/ChunkMeshGenerator.cs:30 | `pos.offset(face)` is one step along the face's normal |
| LegacyChunkMeshing.MeshFacesMembers | Assets/Scripts/ChunkMeshGenerator.cs:21-36 | a face is added exactly for a solid cell's side whose neighbour inside the same chunk is air; positions beyond the chunk read as air |
| LegacyChunkMeshing.SameFacesAsChunkMesher | Assets/Scripts/ChunkMeshGenerator.cs:21-36 | the static mesher adds `(p, face)` exactly when the chunk's own mesher adds `(p, normal of face)` |
| LegacyChunkMeshing.MeshFacesNoDuplicates | Assets/Scripts/ChunkMeshGenerator.cs:21-36 | no face is added twice |
| LegacyChunkMeshing.GenerateMesh | Assets/Scripts/ChunkMeshGenerator.cs:14-39 | the buffers form a well-formed quad mesh with four vertices per added face |
| LegacyChunkMeshing.GenerateMeshQuads | Assets/Scripts/ChunkMeshGenerator.cs:14-39 | the `i`-th quad in the buffers is the face built for the `i`-th added (cell, face) |
| ChunkMeshing.GenerateMesh | Assets/Scripts/Chunk/ChunkMeshGenerator.cs:19-63 | the chunk keeps its blocks and position; its mesh is the buffers of exactly the visible faces, in loop order; `isEmpty` ends true exactly when no cell holds a block that has a mesh |
| ChunkMeshing.VisitCell | Assets/Scripts/Chunk/ChunkMeshGenerator.cs:42-57 | one turn of the cell loops moves the buffers and `isEmpty` from the state after `k` cells to the state after `k + 1`: a cell with a meshed block clears `isEmpty` and adds its faces, any other cell changes nothing |
| ChunkMeshing.AddFaces | Assets/Scripts/Chunk/ChunkMeshGenerator.cs:47-56 | the face loop appends to the buffers exactly the quads of the cell's visible faces, in enum order |
| ChunkMeshing.ProgressIsVisited | Assets/Scripts/Chunk/ChunkMeshGenerator.cs:21-57 | after `k` cells the buffers hold the quads of the visible faces of exactly those cells, and `isEmpty` holds exactly when none of them had a meshed block |
| ChunkMeshing.MeshFacesMembers | Assets/Scripts/Chunk/ChunkMeshGenerator.cs:32-57 | a face is added exactly for an in-chunk cell whose registered block has a mesh, when the world's block beyond the face is missing or transparent |
| ChunkMeshing.NeighbourIsNormalStep | Assets/Scripts/Chunk/ChunkMeshGenerator.cs:50 | the position examined beyond a face is the cell's world position plus the face's normal |
| ChunkMeshing.MeshFacesNoDuplicates | Assets/Scripts/Chunk/ChunkMeshGenerator.cs:32-57 | no face is added twice |
| ChunkMeshing.MeshReadsBlocksOnly | Assets/Scripts/Chunk/ChunkMeshGenerator.cs:42-55 | the mesh depends only on the chunk's blocks and position and on the world's answers: chunks that agree on those get the same faces and buffers |
| ChunkMeshing.MeshReadsNeighboursOnly | Assets/Scripts/Chunk/ChunkMeshGenerator.cs:50-55 | the world is read only at the positions just beyond faces of meshed cells: worlds that agree there give the same mesh |
| ChunkMeshing.MeshOfQuads | Assets/Scripts/Chunk/ChunkMeshGenerator.cs:65-130 | the buffers form a quad mesh with four vertices per added face, and quad `i` is the face built for the `i`-th (cell, face) with that cell's block |
| ChunkMeshing.FaceQuadGeometry | Assets/Scripts/Chunk/ChunkMeshGenerator.cs:67-130 | each vertex lies on the face's side of the cell; both triangles wind about the face's normal; the indices are the shared winding; the UVs span the block's atlas cell for that face |
| ChunkMeshing.FaceQuadFacing | Assets/Scripts/Chunk/ChunkMeshGenerator.cs:116-123 | the shared winding turns both triangles of every face outward, about the face's normal |
| ChunkMeshing.FaceQuadCorners | Assets/Scripts/Chunk/ChunkMeshGenerator.cs:72-115 | every vertex of the vertex table lies on the face's side of the cell |
| ChunkMeshing.UnitFaceCorners | Assets/Scripts/Chunk/ChunkMeshGenerator.cs:72-115 | every vertex of the vertex table lies on the face's side of the cell at the origin |
| ChunkMeshing.UnitFaceFacing | Assets/Scripts/Chunk/ChunkMeshGenerator.cs:116-123 | for each face, the two triangles of the shared winding wind about the face's normal |
| ChunkMeshing.UnitFaceFacingTop | Assets/Scripts/Chunk/ChunkMeshGenerator.cs:74-79 | the TOP vertices under the shared winding face +y |
| ChunkMeshing.UnitFaceFacingBottom | Assets/Scripts/Chunk/ChunkMeshGenerator.cs:81-86 | the BOTTOM vertices under the shared winding face -y |
| ChunkMeshing.UnitFaceFacingNorth | Assets/Scripts/Chunk/ChunkMeshGenerator.cs:88-93 | the NORTH vertices under the shared winding face +z |
| ChunkMeshing.UnitFaceFacingSouth | Assets/Scripts/Chunk/ChunkMeshGenerator.cs:95-100 | the SOUTH vertices under the shared winding face -z |
| ChunkMeshing.UnitFaceFacingEast | Assets/Scripts/Chunk/ChunkMeshGenerator.cs:102-107 | the EAST vertices under the shared winding face +x |
| ChunkMeshing.UnitFaceFacingWest | Assets/Scripts/Chunk/ChunkMeshGenerator.cs:109-114 | the WEST vertices under the shared winding face -x |
| Meshes.Translate | Assets/Scripts/Chunk/ChunkMeshGenerator.cs:75-114 | moving a face to a cell adds the cell position to every corner and keeps indices and UVs |
| Meshes.TranslateKeepsFacing | Assets/Scripts/Chunk/ChunkMeshGenerator.cs:75-114 | moving a face keeps it well formed and keeps the direction its triangles face |
| Meshes.CellUvs | Assets/Scripts/Chunk/ChunkMeshGenerator.cs:126-129 | a face's four UVs lie within one atlas cell from its corner |
| Meshes.AppendQuad | Assets/Scripts/Chunk/ChunkMeshGenerator.cs:70-129 | adding a face appends four vertices, four UVs and six indices shifted by the old vertex count, and leaves what was there before |
| Meshes.Build | Assets/Scripts/Chunk/ChunkMeshGenerator.cs:70-129 | buffers built from `n` faces hold `4n` vertices, `4n` UVs and `6n` indices |
| Meshes.BuildRoundTrip | Assets/Scripts/Chunk/ChunkMeshGenerator.cs:70-129 | reading quad `i` back out of the built buffers gives the `i`-th face added |
| Meshes.BuildIsQuadMesh | Assets/Scripts/Chunk/ChunkMeshGenerator.cs:70-129 | buffers built face by face form a well-formed quad mesh |
| Meshes.QuadMeshIndicesInRange | Assets/Scripts/Chunk/ChunkMeshGenerator.cs:117-123 | every triangle index addresses an existing vertex |
| BlockTypes.SetId | Assets/Scripts/Block/Block.cs:34-40 | the id is set only while it is still 0; nothing else about the block changes |
| BlockTypes.SetIdWriteOnce | Assets/Scripts/Block/Block.cs:34-40 | once a non-zero id is set, a later `SetId` has no effect |
| BlockTypes.IsTransparent | Assets/Scripts/Block/Block.cs:43-46 | grass and logs are never see-through, whatever flag they were built with; only plain blocks and tall grass can be |
| BlockTypes.IsFullCube | Assets/Scripts/Block/Block.cs:49-52 | a block that does not fill its cube is always see-through |
| BlockTypes.GetFaceTextureCoord | Assets/Scripts/Block/Block.cs:61-64 | plain blocks and tall grass draw their own atlas cell on every face; grass and logs pick a cell in the atlas's first row, ignoring their own |
| BlockTypes.ConstructorTransparency | Assets/Scripts/Block/Block.cs:15-52 | only the three-argument constructor can make a block transparent; every plain block is a full cube |
| BlockTypes.DefaultTextureIgnoresFace | Assets/Scripts/Block/Block.cs:61-64 | a plain block shows its own atlas cell on every face |
| BlockTypes.GrassTextures | Assets/Scripts/Block/BlockGrass.cs:11-29 | grass shows dirt on the bottom, grass on top and grass-side on the four sides, and is opaque |
| BlockTypes.LogTextures | Assets/Scripts/Block/BlockLog.cs:11-27 | every log shows one cell on both ends and another on the sides, whatever its own `uvCoord`, and is opaque |
| BlockTypes.GrassPlantShape | Assets/Scripts/Block/BlockGrassPlant.cs:64-72 | tall grass is transparent and not a full cube, and it is the only kind that is not a full cube |
| BlockTypes.GenerateCustomMesh | Assets/Scripts/Block/BlockGrassPlant.cs:11-62 | other kinds leave the buffers unchanged; tall grass appends 8 vertices, 8 UVs and 24 indices and keeps what was there |
| BlockTypes.PlantMeshShape | Assets/Scripts/Block/BlockGrassPlant.cs:11-62 | the tall grass mesh is two double-sided quads whose vertices lie on the cell's two vertical diagonals, with indices into the new vertices and the plant's atlas cell as UVs |
| BlockTypes.AppendDoubleSided | Assets/Scripts/Block/BlockGrassPlant.cs:13-36 | one plant quad appends its four corners, its cell's UVs and twelve indices, six per side, into the new corners |
| BlockRegistry.EmptyRegistry | Assets/Scripts/Block/Blocks.cs:5-6 | before registration the counter is 0 and every one of the 256 slots is `null` |
| BlockRegistry.FromIdAfterAddBlock | Assets/Scripts/Block/Blocks.cs:27-44 | after a registration, `FromId` finds the new block under the counter's old value, and every other id finds what it found before |
| BlockRegistry.AddBlock | Assets/Scripts/Block/Blocks.cs:33-45 | as written: the block gets the counter as its id and fills that slot; the one-byte counter wraps from 255 to 0 because the `<= 255` guard never fails |
| BlockRegistry.RegisterAll | Assets/Scripts/Block/Blocks.cs:17-25 | registering in sequence keeps the table at 256 slots and the counter a byte |
| BlockRegistry.RegisterAllInOrder | Assets/Scripts/Block/Blocks.cs:17-45 | up to 256 fresh blocks land in slots `0..n-1` in order, with ids equal to their slots; the counter is `n mod 256` |
| BlockRegistry.CounterWrapsAfterFullTable | Assets/Scripts/Block/Blocks.cs:35-38 | after 256 registrations the counter is back at 0 while slot 0 still holds the first block |
| BlockRegistry.WrapOverwritesSlotZero | Assets/Scripts/Block/Blocks.cs:35-40 | a 257th registration silently overwrites slot 0 instead of failing |
| BlockRegistry.AddBlockChecked | Assets/Scripts/Block/Blocks.cs:33-45 | corrected: registration fails exactly when all 256 slots are used; otherwise it fills the next slot, sets the id and increments the counter |
| BlockRegistry.RegisterAllChecked | Assets/Scripts/Block/Blocks.cs:17-25 | corrected registration in sequence keeps the registry well formed |
| BlockRegistry.RegisterAllCheckedInOrder | Assets/Scripts/Block/Blocks.cs:17-45 | corrected: registering fresh blocks succeeds exactly when there are at most 256; they then sit in slots `0..n-1` in order and the counter is `n` |
| BlockRegistry.AddBlockAgreesBelowCapacity | Assets/Scripts/Block/Blocks.cs:33-45 | below the last slot the corrected and the as-written registration do the same thing |
| BlockRegistry.Initial | Assets/Scripts/Block/Blocks.cs:17-25 | registering the six declared blocks through `AddBlock`, in order, leaves ids 0 to 5 as AIR, DIRT, STONE, GRASS, LOG and tall grass, and every other id `null` |
| BlockRegistry.InitialIdsRoundTrip | Assets/Scripts/Block/Blocks.cs:17-30 | every start-up block is found again by `FromId` of its own id |
| BlockRegistry.InitialIds | Assets/Scripts/Block/Blocks.cs:19-24 | the start-up blocks get ids 0 to 5 in registration order |
| BlockRegistry.InitialCapabilities | Assets/Scripts/Block/Blocks.cs:19-24 | among registered blocks only AIR lacks a mesh, only AIR and tall grass are transparent, and only tall grass is not a full cube |
| BlockRegistry.HasMesh | Assets/Scripts/Block/Block.cs:55-58 | a block without a mesh (only AIR) is see-through, so faces next to it are drawn |
| Terrain.GenerateChunkTerrain | Assets/Scripts/TerrainGenerator.cs:6-40 | the three loops leave the chunk's position, flag and mesh alone and give every cell its terrain block, whatever it held before |
| Terrain.Classify | Assets/Scripts/TerrainGenerator.cs:25-35 | a cell becomes AIR, DIRT or GRASS, and is solid (has a mesh) exactly when it is at or below the column's surface |
| Terrain.ClassifyByHeight | Assets/Scripts/TerrainGenerator.cs:25-35 | a cell is GRASS exactly at the surface height, DIRT exactly below it and AIR exactly above it |
| Terrain.ColumnShape | Assets/Scripts/TerrainGenerator.cs:23-35 | a column has at most one GRASS cell, DIRT only below it and AIR only above it |
| Terrain.OnlyThreeBlocks | Assets/Scripts/TerrainGenerator.cs:25-35 | terrain writes only the ids of AIR, DIRT and GRASS (0, 1 and 3) |
| Terrain.TerrainReadBack | Assets/Scripts/TerrainGenerator.cs:18-35 | through the start-up registry, each generated cell reads back as the block its height gave it |
| Worlds.GetBlock | Assets/Scripts/World.cs:171-185 | a position whose chunk is not loaded reads `null`; otherwise the read goes to the owning chunk |
| Worlds.GetBlockRouting | Assets/Scripts/World.cs:171-185 | reading the world position of a loaded chunk's cell gives what that chunk holds in the cell |
| Worlds.LookupIsGetBlock | Assets/Scripts/World.cs:171-185 | the lookup the mesher is given is `World.GetBlock` over the loaded chunks |
| Worlds.TryReloadChunk | Assets/Scripts/World.cs:160-166 | a loaded position is appended to the rebuild queue; an unloaded one changes nothing; nothing else changes |
| Worlds.SetBlock | Assets/Scripts/World.cs:187-216 | a write changes only the chunk containing the position; the set of loaded chunks, the load queues and the load point stay the same |
| Worlds.SetBlockUnloaded | Assets/Scripts/World.cs:187-216 | a write into an unloaded chunk is dropped: the world is unchanged |
| Worlds.SetBlockReadBack | Assets/Scripts/World.cs:187-197 | after a write into a loaded chunk the position reads the block registered under the written id |
| Worlds.SetBlockElsewhere | Assets/Scripts/World.cs:187-197 | a write does not change what any other position reads |
| Worlds.NeighbourChunk | Assets/Scripts/World.cs:199-209 | the block beyond a face is in the neighbouring chunk exactly when the position is on that face's edge of its chunk, and in the same chunk otherwise |
| Worlds.SetBlockQueueShape | Assets/Scripts/World.cs:197-209 | a write queues the chunk, then at most one x neighbour, one y neighbour and one z neighbour, in that order |
| Worlds.SideQueueMembers | Assets/Scripts/World.cs:202-209 | along one axis, a loaded neighbour is queued exactly when the position is on the edge facing it |
| Worlds.BorderNeighbourAtEdge | Assets/Scripts/World.cs:199-209 | a neighbour chunk gets queued exactly when it is loaded and shares the edge the written position is on |
| Worlds.SetBlockQueue | Assets/Scripts/World.cs:197-209 | a write into a loaded chunk appends that chunk, then between 0 and 3 more entries, which are exactly the loaded chunks across the borders the position touches |
| Worlds.WriteQueuesReaders | Assets/Scripts/World.cs:187-209 | every loaded chunk whose mesher reads the written position, looking through one of its faces, is queued for a rebuild |
| Worlds.SetBlockKeepsUnqueuedCurrent | Assets/Scripts/World.cs:187-209 | a chunk the write does not queue keeps its data, and its mesh stays current or stale exactly as before |
| Worlds.FreshChunk | Assets/Scripts/World.cs:129-137 | a newly loaded chunk sits at its position, is marked empty and has no mesh yet |
| Worlds.LoadChunk | Assets/Scripts/World.cs:119-142 | loading adds the position to the loaded set; chunks already loaded, including one at that position, are unchanged |
| Worlds.LoadChunkIdempotent | Assets/Scripts/World.cs:121-126 | loading a position twice is loading it once |
| Worlds.LoadThenUnload | Assets/Scripts/World.cs:119-157 | loading a new position queues it for a rebuild, fills it with terrain, and unloading it again restores the previous chunks |
| Worlds.UnloadChunk | Assets/Scripts/World.cs:144-157 | unloading removes the position, if loaded, and changes nothing else |
| Worlds.UnloadChunkIdempotent | Assets/Scripts/World.cs:144-157 | unloading a position twice is unloading it once |
| Worlds.LoadChunksAround | Assets/Scripts/World.cs:90-116 | afterwards the load queue holds the old entries plus every position in the L1 ball, and the unload queue holds the old entries plus the loaded chunks, minus the ball |
| Worlds.Start | Assets/Scripts/World.cs:29-47 | start-up queues the L1 ball of radius 5 around the origin for loading and every loaded chunk outside it for unloading |
| Worlds.OnPlayerChunkChanged | Assets/Scripts/World.cs:38-46 | a move less than 4 chunks from the last load point changes nothing; a farther move rescans around the new chunk and records it as the load point; afterwards the player is always within the threshold |
| Worlds.OnPlayerChunkChangedFixed | Assets/Scripts/World.cs:38-46 | the listener with the reload test measured in steps: it reloads around the player's chunk at four or more steps from the load point, and afterwards the player's chunk and its six neighbours are always within the load radius of the load point |
| Worlds.PlayerCanLeaveLoadedRange | Assets/Scripts/World.cs:38-46 | as written: the player can step one chunk at a time to (2, 2, 2), outside the loaded ball of radius 5, without ever triggering a reload |
| Worlds.FixedKeepsPlayerLoaded | Assets/Scripts/World.cs:38-46 | corrected: with the reload test measured in steps, while no reload is due the player's chunk and all six of its neighbours stay loaded |
| Worlds.UnloadQueued | Assets/Scripts/World.cs:52-58 | the unload phase removes every queued position from the loaded set, keeps the other chunks unchanged and clears the unload queue |
| Worlds.LoadQueued | Assets/Scripts/World.cs:60-66 | the load phase loads every queued position not yet loaded with fresh terrain, appends exactly those to the rebuild queue and clears the load queue |
| Worlds.RegenerateQueued | Assets/Scripts/World.cs:68-76 | the rebuild phase leaves all blocks alone, makes every queued chunk that is still loaded current, leaves the others untouched and clears the queue |
| Worlds.RegenerateEntry | Assets/Scripts/World.cs:71-74 | rebuilding one queue entry makes that chunk current and keeps every chunk rebuilt so far current |
| Worlds.LateUpdate | Assets/Scripts/World.cs:50-77 | after a frame, all queues are empty; the loaded set is the old one minus the unloads plus the loads; new chunks hold terrain; every new or queued chunk is current; every other kept chunk is unchanged |
| Worlds.FirstFrame | Assets/Scripts/World.cs:29-77 | after start-up and the first frame, exactly the ball of radius 5 around the origin is loaded, all with terrain, and every chunk's mesh is current |
| Worlds.EditFrame | Assets/Scripts/World.cs:187-216 | writing a block and running a frame keeps a settled world settled (every mesh current, nothing queued); the block reads back if its chunk is loaded and every other position reads as before |
| Worlds.MoveFrame | Assets/Scripts/World.cs:38-77 | a player move plus a frame does nothing below the threshold; otherwise exactly the ball around the new chunk is loaded; kept chunks are unchanged and new chunks hold terrain with current meshes |

## Left out

- The Perlin noise surface. The height functions of `TerrainGenerator` and of the first `Chunk.GenerateBlocks` are parameters (`(int)(PerlinNoise(..) * 20)` and the floor of `16 · PerlinNoise(x/16, z/16)`). Floating point is not modelled.
- Unity's object lifecycle is not modelled: `Awake`, `Instantiate`, `Destroy`, components, `SetPosition`, and the GPU side of `SetMeshData` (bounds, normals, collider). A mesh is the three buffers handed over.
- BlockPositions.GetChunkPos: the engine converts the position to a single-precision `Vector3` before dividing by 16 and flooring; that equals the exact floor division modelled here only while every coordinate is at most 2^24 in magnitude (x = 16777231 rounds to 16777232.0 and lands in chunk 1048577 instead of 1048576). `Chunks.World2Chunk`, `Worlds.GetBlock` and `Worlds.SetBlock` inherit the same bound.
- Floating-point inputs are not modelled: `World.GetChunkPos(Vector3)`, `BlockPos(Vector3)`, `Chunk.GetBlock(Vector3)` and the float-to-byte casts.
- 32-bit overflow of `int` coordinates is not modelled; coordinates are unbounded integers.
- `GetHashCode`, `ToString` and the `Debug.Log` messages are left out: they do not affect the data.
- Worlds.RegenerateQueued: the rebuild queue holds chunk positions, not chunk objects. A queued entry whose chunk was unloaded before the rebuild is skipped, where the engine would rebuild the destroyed object. Nothing visible depends on it.
- Worlds.LoadQueued, Worlds.UnloadQueued: `HashSet` iteration order is not modelled. Each phase takes the queued positions in an arbitrary order, and its contract holds for every order.
- Worlds.MoveFrame: it does not promise that every mesh is current after a reload. Chunks kept across a reload keep meshes built against their old neighbours, and the engine does not rebuild them when a neighbour loads or unloads, so border faces can be stale.
- `Block.GenerateCustomMesh` is modelled, but the current mesher never calls it: it emits cube faces for tall grass too.
- The declaration of `BlockFace` (BlockFace.cs) is not part of this model. The six faces are assumed to be declared TOP, BOTTOM, NORTH, SOUTH, EAST, WEST. The order only affects the order of faces in the buffers.
- Tall grass registration: `Blocks.cs` constructs `BlockGrassPlant` with one argument, but the class only has a two-argument constructor. The plant's texture cell is therefore a parameter of the start-up registry.
- `BlocksInVolume` is commented out in the current `BlockPos`, although the first static mesher calls it. It is modelled from that commented-out body.
- BlockTypes.GenerateCustomMesh, ChunkMeshing.FaceCorners, Terrain.TerrainBlocks, LegacyChunks.GenerateBlocks: these functions only compute, and their own contracts state only sizes. Their meaning is stated by the lemmas in the table (PlantMeshShape, FaceQuadCorners, GenerateChunkTerrain, GenerateBlocksCell).
- BlockRegistry.HasMesh: blocks are compared by value. The engine compares object references, so a second block object with the same fields as AIR would have a mesh there; no code builds one.
- Chunks.Chunk2World: its own contract is empty. Where the result lands (in this chunk) and that `World2Chunk` inverts it are stated by Chunk2WorldRoundTrip, kept as a lemma so that the mesher's neighbour lookups do not carry chunk-ownership facts.
- The player, its chunk-change reporter, `TDebug` and `ChunkMesh` are not modelled. They are input and debugging code around the core; a player move is the `pos` argument.

## Findings

| source | as written | input that shows it | evidently intended | confidence | as-written member | corrected member |
|---|---|---|---|---|---|---|
| Assets/Scripts/Block/Blocks.cs:35-44 | `numBlocks` is a `byte`, so `numBlocks <= 255` always holds; the 256th registration wraps the counter to 0 | 257 registrations: the 257th takes id 0 and overwrites slot 0 (AIR) instead of throwing "Cannot register any more blocks!" | registration fails once all 256 ids are used | not executed | BlockRegistry.WrapOverwritesSlotZero | BlockRegistry.RegisterAllCheckedInOrder |
| Assets/Scripts/World.cs:38-46 | a reload is triggered by `sqrMagnitude >= 16` (Euclidean distance 4), while chunks are loaded in an L1 ball of radius 5 | moving one chunk at a time from the origin through (1,0,0), (1,1,0), (1,1,1), (2,1,1), (2,2,1) to (2,2,2): each is less than 16 squared from the origin, and (2,2,2) is 6 steps away, outside the loaded ball | the player's chunk and its neighbours stay loaded until a reload is triggered | not executed | Worlds.PlayerCanLeaveLoadedRange | Worlds.OnPlayerChunkChangedFixed |

`Worlds.OnPlayerChunkChanged` and `Worlds.MoveFrame` keep the reload test as written, so they describe the engine as it behaves; `Worlds.OnPlayerChunkChangedFixed` is the listener with the corrected test.

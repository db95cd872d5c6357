/**
 * Block types (Assets/Scripts/Block/Block.cs and its subclasses BlockGrass,
 * BlockLog and BlockGrassPlant). The class hierarchy becomes a `Kind` tag;
 * each virtual method dispatches on it. Texture coordinates are counted in
 * atlas cells, the engine's unit of 1/16 of the texture.
 */
module BlockTypes {
  import opened Vectors
  import opened Faces
  import opened Meshes

  /** C#'s `byte`. */
  type byte = b: int | 0 <= b < 256

  datatype Kind = Plain | Grass | Log | GrassPlant

  datatype Block = Block(id: byte, name: string, uvCoord: Vec2, isTransparent: bool, kind: Kind)

  // Constructors: a fresh block has id 0; unset fields keep C#'s defaults.

  /** `new Block(name, uvCoord, isTransparent)`. */
  function NewBlock(name: string, uvCoord: Vec2, isTransparent: bool): Block {
    Block(0, name, uvCoord, isTransparent, Plain)
  }

  /** `new Block(name, uvCoord)`. */
  function NewBlockWithUv(name: string, uvCoord: Vec2): Block {
    Block(0, name, uvCoord, false, Plain)
  }

  /** `new Block(name)`. */
  function NewNamedBlock(name: string): Block {
    Block(0, name, Vec2(0, 0), false, Plain)
  }

  /** `new BlockGrass(name)`, built on `Block(name)`. */
  function NewGrass(name: string): Block {
    NewNamedBlock(name).(kind := Grass)
  }

  /** `new BlockLog(name)`, built on `Block(name)`. */
  function NewLog(name: string): Block {
    NewNamedBlock(name).(kind := Log)
  }

  /** `new BlockGrassPlant(name, uvCoord)`, built on `Block(name, uvCoord)`. */
  function NewGrassPlant(name: string, uvCoord: Vec2): Block {
    NewBlockWithUv(name, uvCoord).(kind := GrassPlant)
  }

  /** `SetId`: takes effect only while the block's id is still 0. */
  function SetId(b: Block, id: byte): (r: Block)
    ensures r.id == (if b.id == 0 then id else b.id)
    ensures r.(id := b.id) == b
  {
    if b.id == 0 then b.(id := id) else b
  }

  /** Should adjacent blocks render their faces against this one? Grass and logs never let faces show. */
  predicate IsTransparent(b: Block)
    ensures IsTransparent(b) ==> b.kind == Plain || b.kind == GrassPlant
  {
    match b.kind
    case Plain => b.isTransparent
    case Grass | Log => false
    case GrassPlant => true
  }

  /** Does the block fill its unit cube? One that does not is always see-through. */
  predicate IsFullCube(b: Block)
    ensures !IsFullCube(b) ==> IsTransparent(b)
  {
    b.kind != GrassPlant
  }

  /**
   * Atlas cell of the texture drawn on `face`. Only grass and logs pick a
   * cell per face, from the atlas's first row; every other block draws its
   * own cell on all six faces.
   */
  function GetFaceTextureCoord(b: Block, face: Face): (r: Vec2)
    ensures b.kind == Plain || b.kind == GrassPlant ==> r == b.uvCoord
    ensures b.kind == Grass || b.kind == Log ==> 0 <= r.u < 6 && r.v == 0
  {
    match b.kind
    case Plain | GrassPlant => b.uvCoord
    case Grass =>
      (match face
       case BOTTOM => Vec2(0, 0)
       case TOP => Vec2(3, 0)
       case _ => Vec2(2, 0))
    case Log =>
      (match face
       case BOTTOM | TOP => Vec2(5, 0)
       case _ => Vec2(4, 0))
  }

  /**
   * `GenerateCustomMesh`: appends a non-cube mesh at `posInChunk`. Only tall
   * grass overrides the empty default, with two crossed quads, each drawn
   * from both sides.
   */
  function GenerateCustomMesh(b: Block, posInChunk: Vec3, m: MeshBuffers): (r: MeshBuffers)
    ensures b.kind != GrassPlant ==> r == m
    ensures b.kind == GrassPlant ==>
      && |r.vertices| == |m.vertices| + 8 && |r.uvs| == |m.uvs| + 8 && |r.triangles| == |m.triangles| + 24
      && r.vertices[..|m.vertices|] == m.vertices && r.uvs[..|m.uvs|] == m.uvs
      && r.triangles[..|m.triangles|] == m.triangles
  {
    if b.kind != GrassPlant then m
    else
      var p := posInChunk;
      var first := AppendDoubleSided(m, [p, Add3(p, Vec3(0, 1, 0)), Add3(p, Vec3(1, 1, 1)), Add3(p, Vec3(1, 0, 1))], b.uvCoord);
      AppendDoubleSided(first, [Add3(p, Vec3(0, 0, 1)), Add3(p, Vec3(0, 1, 1)), Add3(p, Vec3(1, 1, 0)), Add3(p, Vec3(1, 0, 0))], b.uvCoord)
  }

  /** Two double-sided quads whose corners lie on the diagonals of the cell at `p` make a tall-grass mesh. */
  lemma TwoDiagonalQuads(m: MeshBuffers, c1: seq<Vec3>, c2: seq<Vec3>, p: Vec3, uv: Vec2)
    requires |c1| == 4 && |c2| == 4
    requires forall i :: 0 <= i < 4 ==> OnDiagonal(c1[i], p) && OnDiagonal(c2[i], p)
    ensures PlantAppended(m, AppendDoubleSided(AppendDoubleSided(m, c1, uv), c2, uv), p, uv)
  {
    TwoQuadsIndices(m, c1, c2, uv);
    TwoQuadsGeometry(m, c1, c2, p, uv);
  }

  lemma TwoQuadsIndices(m: MeshBuffers, c1: seq<Vec3>, c2: seq<Vec3>, uv: Vec2)
    requires |c1| == 4 && |c2| == 4
    ensures PlantIndices(m, AppendDoubleSided(AppendDoubleSided(m, c1, uv), c2, uv))
  {
    var first := AppendDoubleSided(m, c1, uv);
    var r := AppendDoubleSided(first, c2, uv);
    var n := |m.triangles|;
    assert r.triangles[n .. n + 12] == first.triangles[n ..];
    assert r.triangles[n + 12 .. n + 24] == r.triangles[|first.triangles| ..];
    assert r.triangles[..n] == m.triangles;
  }

  lemma TwoQuadsGeometry(m: MeshBuffers, c1: seq<Vec3>, c2: seq<Vec3>, p: Vec3, uv: Vec2)
    requires |c1| == 4 && |c2| == 4
    requires forall i :: 0 <= i < 4 ==> OnDiagonal(c1[i], p) && OnDiagonal(c2[i], p)
    ensures PlantGeometry(m, AppendDoubleSided(AppendDoubleSided(m, c1, uv), c2, uv), p, uv)
  {
    var r := AppendDoubleSided(AppendDoubleSided(m, c1, uv), c2, uv);
    var t := |m.vertices|;
    assert r.vertices == m.vertices + (c1 + c2);
    assert r.uvs == m.uvs + (CellUvs(uv) + CellUvs(uv));
    forall i | t <= i < t + 8
      ensures OnDiagonal(r.vertices[i], p)
    {
      assert r.vertices[i] == (c1 + c2)[i - t];
    }
    forall i | |m.uvs| <= i < |m.uvs| + 8
      ensures 0 <= r.uvs[i].u - uv.u <= 1 && 0 <= r.uvs[i].v - uv.v <= 1
    {
      assert r.uvs[i] == (CellUvs(uv) + CellUvs(uv))[i - |m.uvs|];
    }
  }

  /** Tall grass adds two crossed, double-sided quads on the cell's diagonals; other blocks add nothing. */
  lemma PlantMeshShape(b: Block, p: Vec3, m: MeshBuffers)
    requires b.kind == GrassPlant
    ensures PlantAppended(m, GenerateCustomMesh(b, p, m), p, b.uvCoord)
  {
    TwoDiagonalQuads(m, [p, Add3(p, Vec3(0, 1, 0)), Add3(p, Vec3(1, 1, 1)), Add3(p, Vec3(1, 0, 1))],
      [Add3(p, Vec3(0, 0, 1)), Add3(p, Vec3(0, 1, 1)), Add3(p, Vec3(1, 1, 0)), Add3(p, Vec3(1, 0, 0))], p, b.uvCoord);
  }

  /** Appends one tall-grass quad: four corners, its two triangles, then the same two reversed. */
  function AppendDoubleSided(m: MeshBuffers, corners: seq<Vec3>, uv: Vec2): (r: MeshBuffers)
    requires |corners| == 4
    ensures |r.vertices| == |m.vertices| + 4 && |r.uvs| == |m.uvs| + 4 && |r.triangles| == |m.triangles| + 12
    ensures r.vertices == m.vertices + corners && r.uvs == m.uvs + CellUvs(uv)
    ensures r.triangles[..|m.triangles|] == m.triangles
    ensures forall j :: |m.triangles| <= j < |r.triangles| ==>
      |m.vertices| <= r.triangles[j] < |m.vertices| + 4
    ensures DoubleSided(r.triangles[|m.triangles| ..])
  {
    var t := |m.vertices|;
    var tris := [t, t + 1, t + 3, t + 3, t + 1, t + 2, t + 3, t + 1, t, t + 2, t + 1, t + 3];
    var r := MeshBuffers(m.vertices + corners, m.triangles + tris, m.uvs + CellUvs(uv));
    assert r.triangles[|m.triangles| ..] == tris;
    r
  }

  /**
   * Twelve indices describing one quad seen from both sides: the last two
   * triangles are the first two with their winding reversed.
   */
  predicate DoubleSided(s: seq<int>) {
    && |s| == 12
    && s[6] == s[2] && s[7] == s[1] && s[8] == s[0]
    && s[9] == s[5] && s[10] == s[4] && s[11] == s[3]
  }

  /** `v` is a corner of the unit cube at `p` on one of its two vertical diagonal planes. */
  predicate OnDiagonal(v: Vec3, p: Vec3) {
    && 0 <= v.x - p.x <= 1 && 0 <= v.y - p.y <= 1 && 0 <= v.z - p.z <= 1
    && (v.x - p.x == v.z - p.z || (v.x - p.x) + (v.z - p.z) == 1)
  }

  /** What the tall-grass mesh adds to buffers `m`, giving `r`. */
  predicate PlantAppended(m: MeshBuffers, r: MeshBuffers, p: Vec3, uv: Vec2) {
    PlantIndices(m, r) && PlantGeometry(m, r, p, uv)
  }

  /** The index half: 24 new indices forming two double-sided quads over the eight new vertices. */
  predicate PlantIndices(m: MeshBuffers, r: MeshBuffers) {
    var t, n := |m.vertices|, |m.triangles|;
    && |r.vertices| == t + 8 && |r.triangles| == n + 24
    && r.triangles[..n] == m.triangles
    // indices only name the eight new vertices
    && (forall j :: n <= j < n + 24 ==> t <= r.triangles[j] < t + 8)
    // each quad's second triangle pair is its first pair reversed
    && DoubleSided(r.triangles[n .. n + 12])
    && DoubleSided(r.triangles[n + 12 .. n + 24])
    // the first quad uses vertices t..t+3, the second t+4..t+7
    && (forall j :: n <= j < n + 12 ==> r.triangles[j] < t + 4)
    && (forall j :: n + 12 <= j < n + 24 ==> t + 4 <= r.triangles[j])
  }

  /** The vertex half: eight new corners on the cell's diagonals, eight UVs inside the atlas cell. */
  predicate PlantGeometry(m: MeshBuffers, r: MeshBuffers, p: Vec3, uv: Vec2) {
    var t := |m.vertices|;
    && |r.vertices| == t + 8 && |r.uvs| == |m.uvs| + 8
    && r.vertices[..t] == m.vertices && r.uvs[..|m.uvs|] == m.uvs
    && (forall i :: t <= i < t + 8 ==> OnDiagonal(r.vertices[i], p))
    && (forall i :: |m.uvs| <= i < |m.uvs| + 8 ==>
          0 <= r.uvs[i].u - uv.u <= 1 && 0 <= r.uvs[i].v - uv.v <= 1)
  }

  // ---------------------------------------------------------------------------
  // Properties

  /** A non-zero id is never changed again. */
  lemma SetIdWriteOnce(b: Block, first: byte, second: byte)
    requires first != 0
    ensures SetId(SetId(b, first), second) == SetId(b, first)
  {
  }

  /** Only the three-argument constructor can make a transparent plain block. */
  lemma ConstructorTransparency(name: string, uv: Vec2, flag: bool)
    ensures IsTransparent(NewBlock(name, uv, flag)) == flag
    ensures !IsTransparent(NewBlockWithUv(name, uv)) && !IsTransparent(NewNamedBlock(name))
    ensures IsFullCube(NewBlock(name, uv, flag)) && IsFullCube(NewBlockWithUv(name, uv))
    ensures IsFullCube(NewNamedBlock(name))
  {
  }

  /** The default texture lookup ignores the face. */
  lemma DefaultTextureIgnoresFace(b: Block, f: Face, g: Face)
    requires b.kind == Plain
    ensures GetFaceTextureCoord(b, f) == GetFaceTextureCoord(b, g) == b.uvCoord
  {
  }

  /** Grass: dirt below, grass on top, grass-side on the four sides; never see-through. */
  lemma GrassTextures(b: Block, f: Face)
    requires b.kind == Grass
    ensures GetFaceTextureCoord(b, f) ==
      (if f == BOTTOM then Vec2(0, 0) else if f == TOP then Vec2(3, 0) else Vec2(2, 0))
    ensures !IsTransparent(b) && IsFullCube(b)
  {
  }

  /** Log: one cell for both ends, one for the sides, whatever the block's own `uvCoord`. */
  lemma LogTextures(b: Block, c: Block, f: Face)
    requires b.kind == Log && c.kind == Log
    ensures GetFaceTextureCoord(b, f) == GetFaceTextureCoord(c, f)
    ensures GetFaceTextureCoord(b, f) == (if Axis(f) == 1 then Vec2(5, 0) else Vec2(4, 0))
    ensures !IsTransparent(b) && IsFullCube(b)
  {
  }

  /** Tall grass is the one block that is see-through and not a full cube. */
  lemma GrassPlantShape(b: Block)
    ensures b.kind == GrassPlant ==> IsTransparent(b) && !IsFullCube(b)
    ensures !IsFullCube(b) ==> b.kind == GrassPlant
  {
  }
}

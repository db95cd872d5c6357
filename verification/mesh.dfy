/**
 * The three parallel mesh buffers every generator fills (vertices, triangle
 * indices, UVs) and the one way generators fill them: a quad at a time, with
 * its six indices written relative to the first of its four vertices.
 */
module Meshes {
  import opened Vectors

  datatype MeshBuffers = MeshBuffers(vertices: seq<Vec3>, triangles: seq<int>, uvs: seq<Vec2>)

  const Empty := MeshBuffers([], [], [])

  /** Four corners, two triangles given as offsets into the corners, four UVs. */
  datatype Quad = Quad(corners: seq<Vec3>, indices: seq<int>, uvs: seq<Vec2>)

  predicate WellFormedQuad(q: Quad) {
    && |q.corners| == 4 && |q.uvs| == 4 && |q.indices| == 6
    && forall j :: 0 <= j < 6 ==> 0 <= q.indices[j] < 4
  }

  /**
   * Both triangles of the quad wind the same way about `n`: for each
   * triangle `(a, b, c)`, `(b - a) × (c - a)` is `n`, the normal a renderer
   * derives from the winding.
   */
  predicate TrianglesFace(q: Quad, n: Vec3)
    requires WellFormedQuad(q)
  {
    && Turns(q.corners[q.indices[0]], q.corners[q.indices[1]], q.corners[q.indices[2]], n)
    && Turns(q.corners[q.indices[3]], q.corners[q.indices[4]], q.corners[q.indices[5]], n)
  }

  /** The quad moved by `pos`: every corner shifted, indices and UVs kept. */
  function Translate(q: Quad, pos: Vec3): (r: Quad)
    ensures |r.corners| == |q.corners| && r.indices == q.indices && r.uvs == q.uvs
    ensures forall i :: 0 <= i < |q.corners| ==> r.corners[i] == Add3(pos, q.corners[i])
  {
    Quad(seq(|q.corners|, i requires 0 <= i < |q.corners| => Add3(pos, q.corners[i])), q.indices, q.uvs)
  }

  /** Moving a quad does not change which way its triangles face. */
  lemma TranslateKeepsFacing(q: Quad, pos: Vec3, n: Vec3)
    requires WellFormedQuad(q)
    ensures WellFormedQuad(Translate(q, pos))
    ensures TrianglesFace(Translate(q, pos), n) <==> TrianglesFace(q, n)
  {
    var c, i := q.corners, q.indices;
    TurnsTranslate(c[i[0]], c[i[1]], c[i[2]], n, pos);
    TurnsTranslate(c[i[3]], c[i[4]], c[i[5]], n, pos);
  }

  /** The four corners of the texture atlas cell at `uv`: `uv`, `uv + up`, `uv + up + right`, `uv + right`. */
  function CellUvs(uv: Vec2): (r: seq<Vec2>)
    ensures |r| == 4
    ensures forall i :: 0 <= i < 4 ==> 0 <= r[i].u - uv.u <= 1 && 0 <= r[i].v - uv.v <= 1
  {
    [uv, Add2(uv, Vec2(0, 1)), Add2(uv, Vec2(1, 1)), Add2(uv, Vec2(1, 0))]
  }

  predicate AllWellFormed(qs: seq<Quad>) {
    forall i :: 0 <= i < |qs| ==> WellFormedQuad(qs[i])
  }

  /** The triangle indices a quad contributes when its first vertex lands at slot `t`. */
  function Shifted(indices: seq<int>, t: int): (r: seq<int>)
    ensures |r| == |indices|
    ensures forall j :: 0 <= j < |r| ==> r[j] - t == indices[j]
  {
    seq(|indices|, j requires 0 <= j < |indices| => t + indices[j])
  }

  /** Appends one quad: `t = vertices.Count`, then four vertices, six indices, four UVs. */
  function AppendQuad(m: MeshBuffers, q: Quad): (r: MeshBuffers)
    requires WellFormedQuad(q)
    ensures |r.vertices| == |m.vertices| + 4 && |r.uvs| == |m.uvs| + 4 && |r.triangles| == |m.triangles| + 6
    ensures r.vertices[..|m.vertices|] == m.vertices && r.triangles[..|m.triangles|] == m.triangles
    ensures r.uvs[..|m.uvs|] == m.uvs
    ensures forall j :: |m.triangles| <= j < |r.triangles| ==>
      |m.vertices| <= r.triangles[j] < |m.vertices| + 4
  {
    var t := |m.vertices|;
    MeshBuffers(m.vertices + q.corners, m.triangles + Shifted(q.indices, t), m.uvs + q.uvs)
  }

  /** The `i`-th quad read back out of the buffers, its indices made relative again. */
  function QuadAt(m: MeshBuffers, i: nat): Quad
    requires 4 * i + 4 <= |m.vertices| && 4 * i + 4 <= |m.uvs| && 6 * i + 6 <= |m.triangles|
  {
    Quad(m.vertices[4 * i .. 4 * i + 4],
         Shifted(m.triangles[6 * i .. 6 * i + 6], -4 * i),
         m.uvs[4 * i .. 4 * i + 4])
  }

  /**
   * The shape every generator's output has: four vertices and four UVs per
   * quad, six indices per quad, and each quad's indices pointing at its own
   * four vertices only.
   */
  predicate QuadMesh(m: MeshBuffers) {
    && |m.vertices| == |m.uvs|
    && |m.vertices| % 4 == 0
    && 2 * |m.triangles| == 3 * |m.vertices|
    && forall j :: 0 <= j < |m.triangles| ==>
         4 * (j / 6) <= m.triangles[j] < 4 * (j / 6) + 4
  }

  /** The buffers after appending the quads in order to empty buffers. */
  function Build(qs: seq<Quad>): (m: MeshBuffers)
    requires AllWellFormed(qs)
    ensures |m.vertices| == 4 * |qs| && |m.uvs| == 4 * |qs| && |m.triangles| == 6 * |qs|
  {
    if qs == [] then Empty else AppendQuad(Build(qs[..|qs| - 1]), qs[|qs| - 1])
  }

  /** Quad `i` of the buffers is the `i`-th quad appended: the list is recovered from the buffers. */
  lemma {:induction false} BuildRoundTrip(qs: seq<Quad>)
    requires AllWellFormed(qs)
    ensures forall i :: 0 <= i < |qs| ==> QuadAt(Build(qs), i) == qs[i]
    decreases |qs|
  {
    if qs != [] {
      var n := |qs| - 1;
      var prev := Build(qs[..n]);
      var m := Build(qs);
      BuildRoundTrip(qs[..n]);
      forall i | 0 <= i < n ensures QuadAt(m, i) == qs[i] {
        assert m.vertices[4 * i .. 4 * i + 4] == prev.vertices[4 * i .. 4 * i + 4];
        assert m.uvs[4 * i .. 4 * i + 4] == prev.uvs[4 * i .. 4 * i + 4];
        assert m.triangles[6 * i .. 6 * i + 6] == prev.triangles[6 * i .. 6 * i + 6];
        assert QuadAt(prev, i) == qs[..n][i];
      }
      assert m.vertices[4 * n .. 4 * n + 4] == qs[n].corners;
      assert m.uvs[4 * n .. 4 * n + 4] == qs[n].uvs;
      assert m.triangles[6 * n .. 6 * n + 6] == Shifted(qs[n].indices, 4 * n);
      assert QuadAt(m, n).indices == qs[n].indices;
    }
  }

  /** Built buffers have the quad shape: parallel lengths and each quad's indices kept to its own vertices. */
  lemma BuildIsQuadMesh(qs: seq<Quad>)
    requires AllWellFormed(qs)
    ensures QuadMesh(Build(qs))
  {
    var m := Build(qs);
    BuildRoundTrip(qs);
    forall j | 0 <= j < |m.triangles|
      ensures 4 * (j / 6) <= m.triangles[j] < 4 * (j / 6) + 4
    {
      var i := j / 6;
      assert WellFormedQuad(qs[i]) && QuadAt(m, i) == qs[i];
      assert m.triangles[j] == m.triangles[6 * i .. 6 * i + 6][j - 6 * i];
      assert QuadAt(m, i).indices[j - 6 * i] == m.triangles[j] - 4 * i;
    }
  }

  /** In particular every index names an existing vertex. */
  lemma QuadMeshIndicesInRange(m: MeshBuffers)
    requires QuadMesh(m)
    ensures forall j :: 0 <= j < |m.triangles| ==> 0 <= m.triangles[j] < |m.vertices|
  {
    forall j | 0 <= j < |m.triangles| ensures 0 <= m.triangles[j] < |m.vertices| {
      assert 6 * (j / 6) <= j < 6 * (j / 6) + 6;
      assert 4 * (j / 6) + 4 <= |m.vertices|;
    }
  }
}

/**
 * The loop shape every chunk mesher shares:
 * `for cell in cells { for d in dirs { if emit(cell, d) { add the face } } }`.
 * `Emitted` lists the (cell, direction) pairs in the order the faces are
 * added; a mesher's buffers are `Meshes.Build` of the quads of that list.
 */
module FaceLoops {
  import opened Vectors
  import opened Meshes

  /** The faces the inner loop adds for one cell, in direction order. */
  function EmittedAt<D>(p: Vec3, dirs: seq<D>, emit: (Vec3, D) -> bool): (r: seq<(Vec3, D)>)
    ensures |r| <= |dirs|
    ensures forall i :: 0 <= i < |r| ==> r[i].0 == p
    decreases |dirs|
  {
    if dirs == [] then []
    else
      var d := dirs[|dirs| - 1];
      EmittedAt(p, dirs[..|dirs| - 1], emit) + (if emit(p, d) then [(p, d)] else [])
  }

  /** The faces the nested loops add, in the order they are added. */
  function Emitted<D>(cells: seq<Vec3>, dirs: seq<D>, emit: (Vec3, D) -> bool): seq<(Vec3, D)>
    decreases |cells|
  {
    if cells == [] then []
    else Emitted(cells[..|cells| - 1], dirs, emit) + EmittedAt(cells[|cells| - 1], dirs, emit)
  }

  /** The quads of a list of faces, one per face, in the same order. */
  function QuadsOf<D>(es: seq<(Vec3, D)>, quad: (Vec3, D) --> Quad): (qs: seq<Quad>)
    requires forall i :: 0 <= i < |es| ==> quad.requires(es[i].0, es[i].1)
    ensures |qs| == |es|
    ensures forall i :: 0 <= i < |es| ==> qs[i] == quad(es[i].0, es[i].1)
  {
    seq(|es|, i requires 0 <= i < |es| => quad(es[i].0, es[i].1))
  }

  predicate NoDuplicates<T(==)>(s: seq<T>) {
    forall i, j :: 0 <= i < j < |s| ==> s[i] != s[j]
  }

  // ---------------------------------------------------------------------------
  // Properties

  /** A cell's inner loop adds the face towards `d` exactly when `d` is a direction and `emit` holds. */
  lemma {:induction false} EmittedAtMembers<D>(p: Vec3, dirs: seq<D>, emit: (Vec3, D) -> bool, e: (Vec3, D))
    ensures e in EmittedAt(p, dirs, emit) <==> e.0 == p && e.1 in dirs && emit(p, e.1)
    decreases |dirs|
  {
    if dirs != [] {
      var n := |dirs| - 1;
      EmittedAtMembers(p, dirs[..n], emit, e);
      assert dirs == dirs[..n] + [dirs[n]];
    }
  }

  /** The nested loops add a face exactly for the visited cells and listed directions `emit` accepts. */
  lemma {:induction false} EmittedMembers<D>(cells: seq<Vec3>, dirs: seq<D>, emit: (Vec3, D) -> bool, e: (Vec3, D))
    ensures e in Emitted(cells, dirs, emit) <==> e.0 in cells && e.1 in dirs && emit(e.0, e.1)
    decreases |cells|
  {
    if cells != [] {
      var n := |cells| - 1;
      EmittedMembers(cells[..n], dirs, emit, e);
      EmittedAtMembers(cells[n], dirs, emit, e);
      assert cells == cells[..n] + [cells[n]];
    }
  }

  /** With no cell and no direction repeated, no face is added twice. */
  lemma {:induction false} EmittedAtNoDuplicates<D>(p: Vec3, dirs: seq<D>, emit: (Vec3, D) -> bool)
    requires NoDuplicates(dirs)
    ensures NoDuplicates(EmittedAt(p, dirs, emit))
    decreases |dirs|
  {
    if dirs != [] {
      var n := |dirs| - 1;
      EmittedAtNoDuplicates(p, dirs[..n], emit);
      var prefix := EmittedAt(p, dirs[..n], emit);
      if emit(p, dirs[n]) {
        EmittedAtMembers(p, dirs[..n], emit, (p, dirs[n]));
        assert dirs[n] !in dirs[..n];
      }
    }
  }

  lemma {:induction false} EmittedNoDuplicates<D>(cells: seq<Vec3>, dirs: seq<D>, emit: (Vec3, D) -> bool)
    requires NoDuplicates(cells) && NoDuplicates(dirs)
    ensures NoDuplicates(Emitted(cells, dirs, emit))
    decreases |cells|
  {
    if cells != [] {
      var n := |cells| - 1;
      EmittedNoDuplicates(cells[..n], dirs, emit);
      EmittedAtNoDuplicates(cells[n], dirs, emit);
      var prefix, last := Emitted(cells[..n], dirs, emit), EmittedAt(cells[n], dirs, emit);
      forall i, j | 0 <= i < |prefix| && 0 <= j < |last|
        ensures prefix[i] != last[j]
      {
        EmittedMembers(cells[..n], dirs, emit, prefix[i]);
        assert cells[n] !in cells[..n];
      }
    }
  }

  /** Adding one more cell appends that cell's faces. */
  lemma EmittedSnoc<D>(cells: seq<Vec3>, p: Vec3, dirs: seq<D>, emit: (Vec3, D) -> bool)
    ensures Emitted(cells + [p], dirs, emit) == Emitted(cells, dirs, emit) + EmittedAt(p, dirs, emit)
  {
    assert (cells + [p])[..|cells|] == cells;
  }

  /** Adding one more direction appends at most that direction's face. */
  lemma EmittedAtSnoc<D>(p: Vec3, dirs: seq<D>, d: D, emit: (Vec3, D) -> bool)
    ensures EmittedAt(p, dirs + [d], emit) == EmittedAt(p, dirs, emit) + (if emit(p, d) then [(p, d)] else [])
  {
    assert (dirs + [d])[..|dirs|] == dirs;
  }

  /** Appending one quad to the built buffers is building the longer list. */
  lemma BuildSnoc(qs: seq<Quad>, q: Quad)
    requires AllWellFormed(qs) && WellFormedQuad(q)
    ensures AllWellFormed(qs + [q])
    ensures Build(qs + [q]) == AppendQuad(Build(qs), q)
  {
    assert (qs + [q])[..|qs|] == qs;
  }

  /** Every listed face passed the test. */
  lemma EmittedAccepted<D>(cells: seq<Vec3>, dirs: seq<D>, emit: (Vec3, D) -> bool)
    ensures forall i :: 0 <= i < |Emitted(cells, dirs, emit)| ==>
      emit(Emitted(cells, dirs, emit)[i].0, Emitted(cells, dirs, emit)[i].1)
  {
    var es := Emitted(cells, dirs, emit);
    forall i | 0 <= i < |es| ensures emit(es[i].0, es[i].1) {
      EmittedMembers(cells, dirs, emit, es[i]);
    }
  }

  /** A cell none of whose directions passes the test adds no face. */
  lemma EmittedAtNone<D>(p: Vec3, dirs: seq<D>, emit: (Vec3, D) -> bool)
    requires forall i :: 0 <= i < |dirs| ==> !emit(p, dirs[i])
    ensures EmittedAt(p, dirs, emit) == []
  {
    var r := EmittedAt(p, dirs, emit);
    if r != [] {
      EmittedAtMembers(p, dirs, emit, r[0]);
    }
  }

  /** One more face adds one more quad at the end. */
  lemma QuadsOfSnoc<D>(es: seq<(Vec3, D)>, e: (Vec3, D), quad: (Vec3, D) --> Quad)
    requires forall i :: 0 <= i < |es| ==> quad.requires(es[i].0, es[i].1)
    requires quad.requires(e.0, e.1)
    ensures QuadsOf(es + [e], quad) == QuadsOf(es, quad) + [quad(e.0, e.1)]
  {
  }

  /** Two tests that agree everywhere select the same faces. */
  lemma {:induction false} EmittedAtCongruent<D>(p: Vec3, dirs: seq<D>, e1: (Vec3, D) -> bool, e2: (Vec3, D) -> bool)
    requires forall q, d :: e1(q, d) == e2(q, d)
    ensures EmittedAt(p, dirs, e1) == EmittedAt(p, dirs, e2)
    decreases |dirs|
  {
    if dirs != [] {
      EmittedAtCongruent(p, dirs[..|dirs| - 1], e1, e2);
    }
  }

  lemma {:induction false} EmittedCongruent<D>(cells: seq<Vec3>, dirs: seq<D>, e1: (Vec3, D) -> bool, e2: (Vec3, D) -> bool)
    requires forall q, d :: e1(q, d) == e2(q, d)
    ensures Emitted(cells, dirs, e1) == Emitted(cells, dirs, e2)
    decreases |cells|
  {
    if cells != [] {
      EmittedCongruent(cells[..|cells| - 1], dirs, e1, e2);
      EmittedAtCongruent(cells[|cells| - 1], dirs, e1, e2);
    }
  }
}

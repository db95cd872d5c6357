/**
 * The winding of each triangle the current chunk mesher emits for the cell at
 * the origin, one triangle per lemma: `(b - a) × (c - a)` is the outward
 * normal of the face the triangle belongs to. The mesher's facing lemmas
 * combine them.
 */
module MeshWinding {
  import opened Vectors

  lemma TurnsTopFirst()
    ensures Turns(Vec3(0, 1, 1), Vec3(1, 1, 0), Vec3(0, 1, 0), Vec3(0, 1, 0))
  {
    assert Turns(Vec3(0, 1, 1), Vec3(1, 1, 0), Vec3(0, 1, 0), Vec3(0, 1, 0));
  }

  lemma TurnsTopSecond()
    ensures Turns(Vec3(1, 1, 0), Vec3(0, 1, 1), Vec3(1, 1, 1), Vec3(0, 1, 0))
  {
    assert Turns(Vec3(1, 1, 0), Vec3(0, 1, 1), Vec3(1, 1, 1), Vec3(0, 1, 0));
  }

  lemma TurnsBottomFirst()
    ensures Turns(Vec3(1, 0, 1), Vec3(0, 0, 0), Vec3(1, 0, 0), Vec3(0, -1, 0))
  {
    assert Turns(Vec3(1, 0, 1), Vec3(0, 0, 0), Vec3(1, 0, 0), Vec3(0, -1, 0));
  }

  lemma TurnsBottomSecond()
    ensures Turns(Vec3(0, 0, 0), Vec3(1, 0, 1), Vec3(0, 0, 1), Vec3(0, -1, 0))
  {
    assert Turns(Vec3(0, 0, 0), Vec3(1, 0, 1), Vec3(0, 0, 1), Vec3(0, -1, 0));
  }

  lemma TurnsNorthFirst()
    ensures Turns(Vec3(1, 1, 1), Vec3(0, 0, 1), Vec3(1, 0, 1), Vec3(0, 0, 1))
  {
    assert Turns(Vec3(1, 1, 1), Vec3(0, 0, 1), Vec3(1, 0, 1), Vec3(0, 0, 1));
  }

  lemma TurnsNorthSecond()
    ensures Turns(Vec3(0, 0, 1), Vec3(1, 1, 1), Vec3(0, 1, 1), Vec3(0, 0, 1))
  {
    assert Turns(Vec3(0, 0, 1), Vec3(1, 1, 1), Vec3(0, 1, 1), Vec3(0, 0, 1));
  }

  lemma TurnsSouthFirst()
    ensures Turns(Vec3(0, 1, 0), Vec3(1, 0, 0), Vec3(0, 0, 0), Vec3(0, 0, -1))
  {
    assert Turns(Vec3(0, 1, 0), Vec3(1, 0, 0), Vec3(0, 0, 0), Vec3(0, 0, -1));
  }

  lemma TurnsSouthSecond()
    ensures Turns(Vec3(1, 0, 0), Vec3(0, 1, 0), Vec3(1, 1, 0), Vec3(0, 0, -1))
  {
    assert Turns(Vec3(1, 0, 0), Vec3(0, 1, 0), Vec3(1, 1, 0), Vec3(0, 0, -1));
  }

  lemma TurnsEastFirst()
    ensures Turns(Vec3(1, 1, 0), Vec3(1, 0, 1), Vec3(1, 0, 0), Vec3(1, 0, 0))
  {
    assert Turns(Vec3(1, 1, 0), Vec3(1, 0, 1), Vec3(1, 0, 0), Vec3(1, 0, 0));
  }

  lemma TurnsEastSecond()
    ensures Turns(Vec3(1, 0, 1), Vec3(1, 1, 0), Vec3(1, 1, 1), Vec3(1, 0, 0))
  {
    assert Turns(Vec3(1, 0, 1), Vec3(1, 1, 0), Vec3(1, 1, 1), Vec3(1, 0, 0));
  }

  lemma TurnsWestFirst()
    ensures Turns(Vec3(0, 1, 1), Vec3(0, 0, 0), Vec3(0, 0, 1), Vec3(-1, 0, 0))
  {
    assert Turns(Vec3(0, 1, 1), Vec3(0, 0, 0), Vec3(0, 0, 1), Vec3(-1, 0, 0));
  }

  lemma TurnsWestSecond()
    ensures Turns(Vec3(0, 0, 0), Vec3(0, 1, 1), Vec3(0, 1, 0), Vec3(-1, 0, 0))
  {
    assert Turns(Vec3(0, 0, 0), Vec3(0, 1, 1), Vec3(0, 1, 0), Vec3(-1, 0, 0));
  }
}

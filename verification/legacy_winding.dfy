/**
 * The winding of each triangle the first chunk's mesher emits for the cell at
 * the origin, one triangle per lemma: `(b - a) × (c - a)` is the outward
 * normal of the face the triangle belongs to. The lemmas are evaluated on
 * literal corners and combined by the mesher's facing lemmas.
 */
module LegacyWinding {
  import opened Vectors

  lemma TurnsEastFirst()
    ensures Turns(Vec3(1, 1, 0), Vec3(1, 0, 1), Vec3(1, 0, 0), Vec3(1, 0, 0))
  {
    assert Turns(Vec3(1, 1, 0), Vec3(1, 0, 1), Vec3(1, 0, 0), Vec3(1, 0, 0));
  }

  lemma TurnsEastSecond()
    ensures Turns(Vec3(1, 1, 0), Vec3(1, 1, 1), Vec3(1, 0, 1), Vec3(1, 0, 0))
  {
    assert Turns(Vec3(1, 1, 0), Vec3(1, 1, 1), Vec3(1, 0, 1), Vec3(1, 0, 0));
  }

  lemma TurnsWestFirst()
    ensures Turns(Vec3(0, 0, 0), Vec3(0, 0, 1), Vec3(0, 1, 0), Vec3(-1, 0, 0))
  {
    assert Turns(Vec3(0, 0, 0), Vec3(0, 0, 1), Vec3(0, 1, 0), Vec3(-1, 0, 0));
  }

  lemma TurnsWestSecond()
    ensures Turns(Vec3(0, 0, 1), Vec3(0, 1, 1), Vec3(0, 1, 0), Vec3(-1, 0, 0))
  {
    assert Turns(Vec3(0, 0, 1), Vec3(0, 1, 1), Vec3(0, 1, 0), Vec3(-1, 0, 0));
  }

  lemma TurnsUpFirst()
    ensures Turns(Vec3(0, 1, 0), Vec3(0, 1, 1), Vec3(1, 1, 0), Vec3(0, 1, 0))
  {
    assert Turns(Vec3(0, 1, 0), Vec3(0, 1, 1), Vec3(1, 1, 0), Vec3(0, 1, 0));
  }

  lemma TurnsUpSecond()
    ensures Turns(Vec3(0, 1, 1), Vec3(1, 1, 1), Vec3(1, 1, 0), Vec3(0, 1, 0))
  {
    assert Turns(Vec3(0, 1, 1), Vec3(1, 1, 1), Vec3(1, 1, 0), Vec3(0, 1, 0));
  }

  lemma TurnsDownFirst()
    ensures Turns(Vec3(1, 0, 0), Vec3(0, 0, 1), Vec3(0, 0, 0), Vec3(0, -1, 0))
  {
    assert Turns(Vec3(1, 0, 0), Vec3(0, 0, 1), Vec3(0, 0, 0), Vec3(0, -1, 0));
  }

  lemma TurnsDownSecond()
    ensures Turns(Vec3(1, 0, 0), Vec3(1, 0, 1), Vec3(0, 0, 1), Vec3(0, -1, 0))
  {
    assert Turns(Vec3(1, 0, 0), Vec3(1, 0, 1), Vec3(0, 0, 1), Vec3(0, -1, 0));
  }

  lemma TurnsForwardFirst()
    ensures Turns(Vec3(1, 0, 1), Vec3(0, 1, 1), Vec3(0, 0, 1), Vec3(0, 0, 1))
  {
    assert Turns(Vec3(1, 0, 1), Vec3(0, 1, 1), Vec3(0, 0, 1), Vec3(0, 0, 1));
  }

  lemma TurnsForwardSecond()
    ensures Turns(Vec3(1, 0, 1), Vec3(1, 1, 1), Vec3(0, 1, 1), Vec3(0, 0, 1))
  {
    assert Turns(Vec3(1, 0, 1), Vec3(1, 1, 1), Vec3(0, 1, 1), Vec3(0, 0, 1));
  }

  lemma TurnsBackFirst()
    ensures Turns(Vec3(0, 0, 0), Vec3(0, 1, 0), Vec3(1, 0, 0), Vec3(0, 0, -1))
  {
    assert Turns(Vec3(0, 0, 0), Vec3(0, 1, 0), Vec3(1, 0, 0), Vec3(0, 0, -1));
  }

  lemma TurnsBackSecond()
    ensures Turns(Vec3(0, 1, 0), Vec3(1, 1, 0), Vec3(1, 0, 0), Vec3(0, 0, -1))
  {
    assert Turns(Vec3(0, 1, 0), Vec3(1, 1, 0), Vec3(1, 0, 0), Vec3(0, 0, -1));
  }
}

/**
 * The static block registry (Assets/Scripts/Block/Blocks.cs): a 256-slot
 * table indexed by id, a one-byte registration counter, and the six blocks
 * registered at start-up. The registry is a value here; the engine keeps it
 * in static fields.
 */
module BlockRegistry {
  import opened Optional
  import opened Vectors
  import opened BlockTypes

  const CAPACITY := 256

  datatype Registry = Registry(blockTypes: seq<Option<Block>>, numBlocks: nat)

  predicate Valid(r: Registry) {
    |r.blockTypes| == CAPACITY && r.numBlocks <= CAPACITY
  }

  /** The registry before any registration: every slot holds `null`. */
  function EmptyRegistry(): (r: Registry)
    ensures Valid(r) && r.numBlocks == 0
    ensures forall i :: 0 <= i < CAPACITY ==> r.blockTypes[i] == None
  {
    Registry(seq(CAPACITY, (i: int) => None), 0)
  }

  /** `FromId`: the block in slot `id`, `None` for a slot never filled. */
  function FromId(r: Registry, id: byte): Option<Block>
    requires Valid(r)
  {
    r.blockTypes[id]
  }

  /** Slots `[0, n)` hold the blocks `bs` with their ids set to their slot; the rest are empty. */
  predicate HoldsInOrder(r: Registry, bs: seq<Block>, n: nat) {
    && Valid(r) && n <= |bs| && n <= CAPACITY
    && (forall i :: 0 <= i < CAPACITY ==>
          r.blockTypes[i] == (if i < n then Some(SetId(bs[i], i)) else None))
  }

  /** Every block of `bs` is fresh from a constructor: its id is still 0. */
  predicate AllFresh(bs: seq<Block>) {
    forall i :: 0 <= i < |bs| ==> bs[i].id == 0
  }

  // ---------------------------------------------------------------------------
  // Registration as written: the counter is a byte, so the guard
  // `numBlocks <= 255` always holds and the counter wraps from 255 to 0.

  /** `AddBlock`: set the block's id to the counter, store it in that slot, bump the counter. */
  function AddBlock(r: Registry, b: Block): (res: (Registry, Block))
    requires Valid(r) && r.numBlocks < CAPACITY
    ensures Valid(res.0) && res.0.numBlocks < CAPACITY
    ensures res.1 == SetId(b, r.numBlocks)
    ensures b.id == 0 ==> res.1.id == r.numBlocks
    ensures res.0.blockTypes[r.numBlocks] == Some(res.1)
    ensures forall i :: 0 <= i < CAPACITY && i != r.numBlocks ==> res.0.blockTypes[i] == r.blockTypes[i]
    ensures res.0.numBlocks == if r.numBlocks == CAPACITY - 1 then 0 else r.numBlocks + 1
  {
    var b' := SetId(b, r.numBlocks);
    (Registry(r.blockTypes[r.numBlocks := Some(b')], (r.numBlocks + 1) % 256), b')
  }

  /** After `AddBlock`, `FromId` finds the new block under the counter's old value and every other id as before. */
  lemma FromIdAfterAddBlock(r: Registry, b: Block, id: byte)
    requires Valid(r) && r.numBlocks < CAPACITY
    ensures FromId(AddBlock(r, b).0, id) == if id == r.numBlocks then Some(AddBlock(r, b).1) else FromId(r, id)
  {
  }

  /** Registers `bs` in order with `AddBlock`. */
  function RegisterAll(r: Registry, bs: seq<Block>): (res: Registry)
    requires Valid(r) && r.numBlocks < CAPACITY
    ensures Valid(res) && res.numBlocks < CAPACITY
  {
    if bs == [] then r else AddBlock(RegisterAll(r, bs[..|bs| - 1]), bs[|bs| - 1]).0
  }

  /** Up to 256 fresh blocks land in slots 0, 1, 2, … with ids equal to their slots. */
  lemma {:induction false} RegisterAllInOrder(bs: seq<Block>)
    requires AllFresh(bs) && |bs| <= CAPACITY
    ensures HoldsInOrder(RegisterAll(EmptyRegistry(), bs), bs, |bs|)
    ensures RegisterAll(EmptyRegistry(), bs).numBlocks == |bs| % CAPACITY
  {
    if bs != [] {
      var n := |bs| - 1;
      RegisterAllInOrder(bs[..n]);
      var prev := RegisterAll(EmptyRegistry(), bs[..n]);
      assert forall i :: 0 <= i < n ==> bs[..n][i] == bs[i];
      assert prev.numBlocks == n;
    }
  }

  /** After 256 registrations the counter is back at 0 while slot 0 still holds the first block. */
  lemma {:induction false} CounterWrapsAfterFullTable(bs: seq<Block>)
    requires AllFresh(bs) && |bs| == CAPACITY
    ensures RegisterAll(EmptyRegistry(), bs).numBlocks == 0
    ensures FromId(RegisterAll(EmptyRegistry(), bs), 0) == Some(bs[0])
  {
    RegisterAllInOrder(bs);
  }

  /**
   * The 257th registration does not fail: it overwrites slot 0, so the first
   * block registered (AIR) is no longer found by `FromId(0)`.
   */
  lemma {:induction false} WrapOverwritesSlotZero(bs: seq<Block>, extra: Block)
    requires AllFresh(bs) && |bs| == CAPACITY && extra.id == 0
    ensures FromId(RegisterAll(EmptyRegistry(), bs + [extra]), 0) == Some(extra)
  {
    RegisterAllInOrder(bs);
    assert (bs + [extra])[..|bs|] == bs;
  }

  // ---------------------------------------------------------------------------
  // Registration as intended: a registration beyond 256 is a configuration error.

  /** `AddBlock` with a counter wide enough to notice the table is full. */
  function AddBlockChecked(r: Registry, b: Block): (res: Result<(Registry, Block), string>)
    requires Valid(r)
    ensures res.Failure? <==> r.numBlocks == CAPACITY
    ensures res.Success? ==>
      && Valid(res.value.0) && res.value.0.numBlocks == r.numBlocks + 1
      && res.value.1 == SetId(b, r.numBlocks)
      && res.value.0.blockTypes == r.blockTypes[r.numBlocks := Some(res.value.1)]
  {
    if r.numBlocks == CAPACITY then Failure("Cannot register any more blocks!")
    else
      var b' := SetId(b, r.numBlocks);
      Success((Registry(r.blockTypes[r.numBlocks := Some(b')], r.numBlocks + 1), b'))
  }

  function RegisterAllChecked(r: Registry, bs: seq<Block>): (res: Result<Registry, string>)
    requires Valid(r)
    ensures res.Success? ==> Valid(res.value)
  {
    if bs == [] then Success(r)
    else
      match RegisterAllChecked(r, bs[..|bs| - 1])
      case Failure(e) => Failure(e)
      case Success(prev) =>
        match AddBlockChecked(prev, bs[|bs| - 1])
        case Failure(e) => Failure(e)
        case Success(added) => Success(added.0)
  }

  /** Fresh blocks register in order, and registration fails exactly when more than 256 are registered. */
  lemma {:induction false} RegisterAllCheckedInOrder(bs: seq<Block>)
    requires AllFresh(bs)
    ensures RegisterAllChecked(EmptyRegistry(), bs).Success? <==> |bs| <= CAPACITY
    ensures |bs| <= CAPACITY ==>
      && HoldsInOrder(RegisterAllChecked(EmptyRegistry(), bs).value, bs, |bs|)
      && RegisterAllChecked(EmptyRegistry(), bs).value.numBlocks == |bs|
  {
    if bs != [] {
      var n := |bs| - 1;
      RegisterAllCheckedInOrder(bs[..n]);
      assert forall i :: 0 <= i < n ==> bs[..n][i] == bs[i];
    }
  }

  /** Below capacity the two registrations agree. */
  lemma AddBlockAgreesBelowCapacity(r: Registry, b: Block)
    requires Valid(r) && r.numBlocks < CAPACITY - 1
    ensures AddBlockChecked(r, b) == Success(AddBlock(r, b))
  {
  }

  // ---------------------------------------------------------------------------
  // The blocks registered at start-up, in registration order.

  /** The constructor calls of the static initialiser. `BlockGrassPlant` only has a
      two-argument constructor, so the tall grass texture cell is a parameter. */
  function Declared(plantUv: Vec2): seq<Block> {
    [ NewBlock("Air", Vec2(0, 0), true),
      NewNamedBlock("Dirt"),
      NewBlockWithUv("Stone", Vec2(1, 0)),
      NewGrass("Grass"),
      NewLog("Log"),
      NewGrassPlant("Tall Grass", plantUv) ]
  }

  const AIR: Block := SetId(NewBlock("Air", Vec2(0, 0), true), 0)
  const DIRT: Block := SetId(NewNamedBlock("Dirt"), 1)
  const STONE: Block := SetId(NewBlockWithUv("Stone", Vec2(1, 0)), 2)
  const GRASS: Block := SetId(NewGrass("Grass"), 3)
  const LOG: Block := SetId(NewLog("Log"), 4)

  function GRASS_PLANT(plantUv: Vec2): Block {
    SetId(NewGrassPlant("Tall Grass", plantUv), 5)
  }

  /** The registry once the static initialiser has run. */
  function Initial(plantUv: Vec2): (r: Registry)
    ensures Valid(r) && r.numBlocks == 6
    ensures FromId(r, 0) == Some(AIR) && FromId(r, 1) == Some(DIRT) && FromId(r, 2) == Some(STONE)
    ensures FromId(r, 3) == Some(GRASS) && FromId(r, 4) == Some(LOG) && FromId(r, 5) == Some(GRASS_PLANT(plantUv))
    ensures forall id: byte :: id >= 6 ==> FromId(r, id) == None
  {
    var bs := Declared(plantUv);
    RegisterAllInOrder(bs);
    RegisterAll(EmptyRegistry(), bs)
  }

  /** `HasMesh`: every block except AIR produces geometry; a block without it is see-through. */
  predicate HasMesh(b: Block)
    ensures HasMesh(b) || IsTransparent(b)
  {
    b != AIR
  }

  /** Each start-up block has the id of its registration position and is found again by that id. */
  lemma InitialIdsRoundTrip(plantUv: Vec2, b: Block)
    requires b in [AIR, DIRT, STONE, GRASS, LOG, GRASS_PLANT(plantUv)]
    ensures FromId(Initial(plantUv), b.id) == Some(b)
  {
  }

  lemma InitialIds(plantUv: Vec2)
    ensures AIR.id == 0 && DIRT.id == 1 && STONE.id == 2 && GRASS.id == 3 && LOG.id == 4
    ensures GRASS_PLANT(plantUv).id == 5
  {
  }

  /** Among registered blocks, only AIR lacks a mesh; AIR and tall grass are the see-through ones. */
  lemma InitialCapabilities(plantUv: Vec2, id: byte)
    requires FromId(Initial(plantUv), id).Some?
    ensures var b := FromId(Initial(plantUv), id).value;
      && (HasMesh(b) <==> id != 0)
      && (IsTransparent(b) <==> id == 0 || id == 5)
      && (IsFullCube(b) <==> id != 5)
  {
  }
}

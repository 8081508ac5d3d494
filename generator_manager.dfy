/** GeneratorManager: keeps the chunks within a Manhattan radius of the
    generation centre loaded. Each frame `Update` first unloads every chunk
    that is too far away (its noise is unloaded and its instance returns to
    the pool), then walks the square of offsets around the centre and
    generates each chunk inside the radius that is not loaded yet. A new
    chunk takes an instance from the pool, a fresh `ChunkID`, its position
    and its bounds.

    `Griderable.ForInclusive(min, max)` is an external enumerator; it is
    assumed to visit [min, max] x [min, max] as `For` does the half-open
    square. Generation's height noise, vertex colours, mesh upload and prop
    placers are not modelled (see the README). */
module GeneratorManagers {
  import opened Common
  import opened Grids
  import opened ChunkIds
  import I = InstancePools
  import P = SpecialItemPlacers

  /** A `ChunkInstance`, as far as the manager writes it. */
  class ChunkInstance {
    var id: ChunkID
    var position: Int2
    var bounds: P.Rect

    /** What `create` (instantiating the prefab) yields. */
    constructor ()
    {
      id := ChunkID(0);
      position := Int2(0, 0);
      bounds := P.Rect(Vec2(0.0, 0.0), Vec2(0.0, 0.0));
    }

    /** The three assignments `Generate` makes to a fresh or reused
        instance. */
    method Tag(id: ChunkID, position: Int2, bounds: P.Rect)
      modifies this
      ensures this.id == id && this.position == position && this.bounds == bounds
    {
      this.id := id;
      this.position := position;
      this.bounds := bounds;
    }
  }

  function Manhattan(a: Int2, b: Int2): nat {
    Abs(a.x - b.x) + Abs(a.y - b.y)
  }

  /** `ChunkShouldCull`: strictly beyond the radius. */
  predicate ChunkShouldCull(chunk: Int2, center: Int2, radius: int) {
    Manhattan(chunk, center) > radius
  }

  /** `Mathf.CeilToInt`. */
  function Ceil(x: real): (r: int)
    ensures x <= r as real < x + 1.0
  {
    -((-x).Floor)
  }

  /** `GenerationRadiusInChunks`. */
  function RadiusInChunks(generationRadius: real, gridSideLength: real): int
    requires gridSideLength != 0.0
  {
    Ceil(generationRadius / gridSideLength)
  }

  /** The chunk under a world position: `floor(position / gridSideLength)`. */
  function CenterChunk(position: Vec2, gridSideLength: real): Int2
    requires gridSideLength != 0.0
  {
    Int2((position.x / gridSideLength).Floor, (position.y / gridSideLength).Floor)
  }

  /** `Griderable.ForInclusive(min, max)`, as assumed: [min, max]^2. */
  function ForInclusiveRange(min: int, max: int): Griderable {
    For(Int2(min, min), Int2(max + 1, max + 1))
  }

  /** The bounds `Generate` gives the chunk at `location`. */
  function ChunkBounds(location: Int2, gridSideLength: real): P.Rect {
    var x, z := location.x as real * gridSideLength, location.y as real * gridSideLength;
    P.Rect(Vec2(x, z), Vec2(x + gridSideLength, z + gridSideLength))
  }

  /** The square walked by `Update` holds every chunk offset inside the
      radius: a Manhattan distance of at most R bounds each coordinate. */
  lemma {:induction false} RadiusInsideSquare(offset: Int2, radius: int)
    requires Manhattan(offset, Int2(0, 0)) <= radius
    ensures radius >= 0 && Width(ForInclusiveRange(-radius, radius)) > 0
    ensures InRect(ForInclusiveRange(-radius, radius), offset)
  {
  }

  class GeneratorManager {
    const gridSideLength: real
    /** `GenerationRadiusInChunks`. */
    const radius: int
    const registry: I.Registry<ChunkInstance>
    const chunkPool: I.InstancePool<ChunkInstance>
    /** `ChunkID`'s static counter. */
    const ids: IdCounter
    var loadedChunks: map<Int2, ChunkInstance>
    /** The ids handed to `GenerationUtils.Noise.UnloadChunk`, oldest first. */
    var noiseUnloads: seq<ChunkID>
    /** Which call of `ChunkID.Unique` gave each loaded chunk its id. */
    ghost var issuedAt: map<Int2, nat>
    /** The coordinate each issue number was handed to. */
    ghost var issuedTo: map<nat, Int2>

    /** The pool owns every loaded instance, none of them is free, no two
        coordinates share one, each carries its coordinate, and each id came
        from its own call of `ChunkID.Unique`. */
    ghost predicate Valid()
      reads this, registry, chunkPool, ids, loadedChunks.Values
    {
      PoolsValid() && Owned() && Keyed() && Tagged() && Issued() && Injective()
    }

    /** The grid side is not zero, the pool and the counter are consistent,
        and no instance is free twice. */
    ghost predicate PoolsValid()
      reads this, registry, chunkPool, ids
    {
      && gridSideLength != 0.0
      && chunkPool.registry == registry && registry.Valid() && chunkPool.Valid() && ids.Valid()
      && forall x | x in chunkPool.freeInstances :: chunkPool.freeInstances[x] == 1
    }

    /** Every loaded instance belongs to the pool and is not free. */
    ghost predicate Owned()
      reads this, registry, chunkPool
    {
      forall c | c in loadedChunks ::
        && registry.GetAssociatedPool(loadedChunks[c]) == Some(chunkPool)
        && loadedChunks[c] !in chunkPool.freeInstances
    }

    ghost predicate Keyed()
      reads this
    {
      issuedAt.Keys == loadedChunks.Keys
    }

    /** Every loaded instance carries its coordinate and the id of its own
        call of `ChunkID.Unique`. */
    ghost predicate Tagged()
      reads this, loadedChunks.Values
      requires Keyed()
    {
      forall c | c in loadedChunks ::
        loadedChunks[c].position == c && loadedChunks[c].id.id == NthId(issuedAt[c])
    }

    /** Every issue number in use was handed out already. */
    ghost predicate Issued()
      reads this, ids
    {
      forall c | c in issuedAt :: issuedAt[c] < ids.issued
    }

    /** No two coordinates share an issue number: `issuedTo` maps each
        one in use back to its coordinate. (No two share an instance
        either, since each instance carries its own coordinate.) */
    ghost predicate Injective()
      reads this
    {
      forall c | c in issuedAt :: issuedAt[c] in issuedTo && issuedTo[issuedAt[c]] == c
    }

    /** `Awake`: an empty map and a fresh pool. */
    constructor (gridSideLength: real, generationRadius: real, registry: I.Registry<ChunkInstance>, ids: IdCounter)
      requires gridSideLength != 0.0 && registry.Valid() && ids.Valid()
      ensures Valid()
      ensures this.gridSideLength == gridSideLength && radius == RadiusInChunks(generationRadius, gridSideLength)
      ensures loadedChunks == map[] && noiseUnloads == []
      ensures this.registry == registry && this.ids == ids && fresh(chunkPool)
    {
      this.gridSideLength := gridSideLength;
      radius := RadiusInChunks(generationRadius, gridSideLength);
      this.registry := registry;
      this.ids := ids;
      chunkPool := new I.InstancePool(registry);
      loadedChunks := map[];
      noiseUnloads := [];
      issuedAt := map[];
      issuedTo := map[];
    }

    /** Distinct issue numbers give distinct ids while fewer than 2^32 ids
        have been issued, so then every loaded chunk has its own id. */
    lemma {:induction false} LoadedIdsDistinct(a: Int2, b: Int2)
      requires Keyed() && Tagged() && Issued() && Injective() && ids.issued <= UINT32_MODULUS
      requires a in loadedChunks && b in loadedChunks && a != b
      ensures loadedChunks[a].id != loadedChunks[b].id
    {
      var i, j := issuedAt[a], issuedAt[b];
      if i < j {
        IssuedIdsDistinctUntilWrap(i, j);
      } else {
        IssuedIdsDistinctUntilWrap(j, i);
      }
    }

    /** `Generate(location)`: an instance from the pool, a fresh id, the
        position and the bounds; then `loadedChunks.Add`, which the caller
        only reaches for a coordinate not loaded. */
    method Generate(location: Int2)
      requires Valid() && location !in loadedChunks
      modifies this, registry, chunkPool, ids, chunkPool.freeInstances
      ensures Valid()
      ensures location in loadedChunks && loadedChunks == old(loadedChunks)[location := loadedChunks[location]]
      ensures var chunk := loadedChunks[location];
        && chunk.id == ChunkID(old(ids.nextId)) && chunk.position == location
        && chunk.bounds == ChunkBounds(location, gridSideLength)
        && chunkPool.events == old(chunkPool.events) + [I.OnGet(chunk)]
      ensures forall c | c in old(loadedChunks) :: loadedChunks[c].id == old(loadedChunks[c].id)
      ensures chunkPool.freeInstances <= old(chunkPool.freeInstances)
      ensures noiseUnloads == old(noiseUnloads) && ids.issued == old(ids.issued) + 1
      ensures issuedAt == old(issuedAt)[location := old(ids.issued)]
    {
      var chunk := Obtain();
      Register(location, chunk);
    }

    /** `chunk.ID = ChunkID.Unique()`, then the rest of `Generate`. */
    method Register(location: Int2, chunk: ChunkInstance)
      requires Valid() && location !in loadedChunks
      requires chunk !in loadedChunks.Values && chunk !in chunkPool.freeInstances
      requires chunk in registry.pooledInstanceMap && registry.pooledInstanceMap[chunk] == chunkPool
      modifies this, chunk, ids
      ensures Valid()
      ensures loadedChunks == old(loadedChunks)[location := chunk]
      ensures chunk.id == ChunkID(old(ids.nextId)) && chunk.position == location
      ensures chunk.bounds == ChunkBounds(location, gridSideLength)
      ensures forall c | c in old(loadedChunks) :: loadedChunks[c].id == old(loadedChunks[c].id)
      ensures noiseUnloads == old(noiseUnloads) && ids.issued == old(ids.issued) + 1
      ensures issuedAt == old(issuedAt)[location := old(ids.issued)]
    {
      var id := ids.Unique();
      Place(location, chunk, id);
    }

    /** `chunkPool.Get()`: a free instance, or a new one that the pool
        registers; either way one that no loaded coordinate holds. */
    method Obtain() returns (chunk: ChunkInstance)
      requires Valid()
      modifies registry, chunkPool
      ensures Valid()
      ensures chunk !in loadedChunks.Values && chunk !in chunkPool.freeInstances
      ensures chunk in registry.pooledInstanceMap && registry.pooledInstanceMap[chunk] == chunkPool
      ensures chunk in old(chunkPool.freeInstances) || fresh(chunk)
      ensures chunkPool.freeInstances <= old(chunkPool.freeInstances)
      ensures chunkPool.events == old(chunkPool.events) + [I.OnGet(chunk)]
    {
      ghost var free0, map0 := chunkPool.freeInstances, registry.pooledInstanceMap;
      var created := new ChunkInstance();
      chunk := chunkPool.Get(created);
      forall c | c in loadedChunks
        ensures registry.GetAssociatedPool(loadedChunks[c]) == Some(chunkPool)
        ensures loadedChunks[c] !in chunkPool.freeInstances && loadedChunks[c] != chunk
      {
        assert loadedChunks[c] in map0 && loadedChunks[c] != created;
      }
      assert Owned();
      forall x | x in chunkPool.freeInstances
        ensures chunkPool.freeInstances[x] == 1
      {
        assert x in free0 && free0[x] == 1;
      }
    }

    /** The end of `Generate`: the instance's id, position and bounds, and
        the `loadedChunks.Add`. */
    method Place(location: Int2, chunk: ChunkInstance, id: ChunkID)
      requires PoolsValid() && Owned() && Keyed() && Tagged() && Injective() && location !in loadedChunks
      requires chunk !in loadedChunks.Values && chunk !in chunkPool.freeInstances
      requires chunk in registry.pooledInstanceMap && registry.pooledInstanceMap[chunk] == chunkPool
      requires ids.issued >= 1 && id.id == NthId(ids.issued - 1)
      requires forall c | c in issuedAt :: issuedAt[c] < ids.issued - 1
      modifies this, chunk
      ensures Valid()
      ensures loadedChunks == old(loadedChunks)[location := chunk]
      ensures chunk.id == id && chunk.position == location && chunk.bounds == ChunkBounds(location, gridSideLength)
      ensures forall c | c in old(loadedChunks) :: loadedChunks[c].id == old(loadedChunks[c].id)
      ensures noiseUnloads == old(noiseUnloads) && issuedAt == old(issuedAt)[location := ids.issued - 1]
    {
      chunk.Tag(id, location, ChunkBounds(location, gridSideLength));
      forall c | c in loadedChunks
        ensures loadedChunks[c].position == c
        ensures loadedChunks[c].id.id == NthId(issuedAt[c]) && loadedChunks[c].id == old(loadedChunks[c].id)
      {
        assert loadedChunks[c] != chunk;
      }
      Add(location, chunk);
    }

    /** `loadedChunks.Add(location, chunk)` for an instance already tagged
        with the id of the latest `ChunkID.Unique`. */
    method Add(location: Int2, chunk: ChunkInstance)
      requires PoolsValid() && Owned() && Keyed() && Tagged() && Injective() && location !in loadedChunks
      requires chunk !in loadedChunks.Values && chunk !in chunkPool.freeInstances
      requires chunk in registry.pooledInstanceMap && registry.pooledInstanceMap[chunk] == chunkPool
      requires ids.issued >= 1 && chunk.id.id == NthId(ids.issued - 1) && chunk.position == location
      requires forall c | c in issuedAt :: issuedAt[c] < ids.issued - 1
      modifies this
      ensures Valid()
      ensures loadedChunks == old(loadedChunks)[location := chunk]
      ensures noiseUnloads == old(noiseUnloads) && issuedAt == old(issuedAt)[location := ids.issued - 1]
    {
      ghost var before := loadedChunks;
      loadedChunks := loadedChunks[location := chunk];
      issuedAt := issuedAt[location := ids.issued - 1];
      issuedTo := issuedTo[ids.issued - 1 := location];
      assert Keyed() by {
        assert issuedAt.Keys == old(issuedAt.Keys) + {location};
        assert loadedChunks.Keys == before.Keys + {location};
      }
      forall c | c in loadedChunks
        ensures loadedChunks[c].position == c
        ensures issuedAt[c] < ids.issued && loadedChunks[c].id.id == NthId(issuedAt[c])
      {
        if c != location {
          assert loadedChunks[c] == before[c] && issuedAt[c] == old(issuedAt[c]);
        }
      }
      forall c | c in loadedChunks
        ensures registry.GetAssociatedPool(loadedChunks[c]) == Some(chunkPool)
        ensures loadedChunks[c] !in chunkPool.freeInstances
      {
      }
    }

    /** The first loop of `Update`: the loaded coordinates to cull, each
        once, in the dictionary's order. */
    method CollectCulled(center: Int2) returns (toUnload: seq<Int2>)
      ensures forall c :: c in toUnload <==> c in loadedChunks && ChunkShouldCull(c, center, radius)
      ensures forall i, j | 0 <= i < j < |toUnload| :: toUnload[i] != toUnload[j]
    {
      toUnload := [];
      var keys := loadedChunks.Keys;
      while keys != {}
        invariant keys <= loadedChunks.Keys
        invariant forall c :: c in toUnload <==> c in loadedChunks && c !in keys && ChunkShouldCull(c, center, radius)
        invariant forall i, j | 0 <= i < j < |toUnload| :: toUnload[i] != toUnload[j]
        decreases keys
      {
        var chunk :| chunk in keys;
        if ChunkShouldCull(chunk, center, radius) {
          toUnload := toUnload + [chunk];
        }
        keys := keys - {chunk};
      }
    }

    /** One iteration of the second loop of `Update`: remove the chunk,
        unload its noise, release its instance to the pool. */
    method UnloadOne(chunk: Int2)
      requires Valid() && chunk in loadedChunks
      modifies this, chunkPool
      ensures Valid()
      ensures loadedChunks == old(loadedChunks) - {chunk}
      ensures noiseUnloads == old(noiseUnloads) + [ChunkID(NthId(old(issuedAt[chunk])))]
      ensures issuedAt == old(issuedAt) - {chunk}
      ensures chunkPool.events == old(chunkPool.events) + [I.OnRelease(old(loadedChunks[chunk]))]
      ensures chunkPool.freeInstances == old(chunkPool.freeInstances) + multiset{old(loadedChunks[chunk])}
    {
      var instance := loadedChunks[chunk];
      loadedChunks := loadedChunks - {chunk};
      issuedAt := issuedAt - {chunk};
      noiseUnloads := noiseUnloads + [instance.id];
      var released := chunkPool.Release(Some(instance));
      assert released == Ok(());
    }

    /** The second loop of `Update`: unload each listed chunk in turn. The
        ids unloaded are those of the listed chunks, in order, and so are
        the instances released. */
    method UnloadChunks(toUnload: seq<Int2>)
      requires Valid()
      requires forall i | 0 <= i < |toUnload| :: toUnload[i] in loadedChunks
      requires forall i, j | 0 <= i < j < |toUnload| :: toUnload[i] != toUnload[j]
      modifies this, chunkPool
      ensures Valid()
      ensures loadedChunks == old(loadedChunks) - set c | c in toUnload
      ensures noiseUnloads == old(noiseUnloads) + UnloadedIds(toUnload, old(issuedAt), |toUnload|)
      ensures chunkPool.events == old(chunkPool.events) + ReleasedOf(toUnload, old(loadedChunks), |toUnload|)
      ensures forall x | x in chunkPool.freeInstances :: x in old(chunkPool.freeInstances) || x in old(loadedChunks).Values
    {
      ghost var s := Snapshot(loadedChunks, issuedAt, noiseUnloads, chunkPool.events, chunkPool.freeInstances);
      NoneListedBefore(toUnload);
      var k := 0;
      while k < |toUnload|
        invariant 0 <= k <= |toUnload|
        invariant Valid()
        invariant Unloading(toUnload, k, s, loadedChunks, issuedAt, noiseUnloads, chunkPool.events, chunkPool.freeInstances)
      {
        UnloadAt(toUnload, k, s);
        k := k + 1;
      }
      PrefixIsElements(toUnload, |toUnload|);
      assert toUnload[..|toUnload|] == toUnload;
    }

    /** The ids `UnloadChunks` logs are those the listed chunks carry. */
    lemma UnloadedIdsAreCarried(toUnload: seq<Int2>)
      requires Valid()
      requires forall i | 0 <= i < |toUnload| :: toUnload[i] in loadedChunks
      ensures forall i | 0 <= i < |toUnload| ::
        UnloadedIds(toUnload, issuedAt, |toUnload|)[i] == loadedChunks[toUnload[i]].id
    {
      forall i | 0 <= i < |toUnload|
        ensures UnloadedIds(toUnload, issuedAt, |toUnload|)[i] == loadedChunks[toUnload[i]].id
      {
        UnloadedIdsAt(toUnload, issuedAt, |toUnload|, i);
      }
    }

    /** One iteration of the second loop. */
    method UnloadAt(toUnload: seq<Int2>, k: nat, ghost s: Snapshot)
      requires Valid() && k < |toUnload|
      requires Unloading(toUnload, k, s, loadedChunks, issuedAt, noiseUnloads, chunkPool.events, chunkPool.freeInstances)
      modifies this, chunkPool
      ensures Valid()
      ensures Unloading(toUnload, k + 1, s, loadedChunks, issuedAt, noiseUnloads, chunkPool.events, chunkPool.freeInstances)
    {
      var chunk := toUnload[k];
      UnloadingStep(toUnload, k, s, loadedChunks, issuedAt, noiseUnloads, chunkPool.events, chunkPool.freeInstances);
      UnloadOne(chunk);
    }

    /** The third loop of `Update`: every offset of the square
        [-radius, radius]^2 around `center` that lands inside the radius
        and is not loaded yet is generated. Afterwards the loaded
        coordinates are the old ones plus every one inside the radius; the
        old ones keep their instances and ids, nothing is unloaded, and the
        pool only handed out instances. */
    method GenerateMissing(center: Int2)
      requires Valid()
      modifies this, registry, chunkPool, ids, chunkPool.freeInstances
      ensures Valid()
      ensures forall c :: c in loadedChunks <==> c in old(loadedChunks) || !ChunkShouldCull(c, center, radius)
      ensures forall c | c in old(loadedChunks) ::
        loadedChunks[c] == old(loadedChunks[c]) && loadedChunks[c].id == old(loadedChunks[c].id)
      ensures noiseUnloads == old(noiseUnloads)
      ensures OnlyGetsAfter(old(chunkPool.events), chunkPool.events)
    {
      var g := ForInclusiveRange(-radius, radius);
      ghost var s := Snapshot(loadedChunks, issuedAt, noiseUnloads, chunkPool.events, chunkPool.freeInstances);
      var k := 0;
      var offset, more := Step(g, Start(g)).0, Step(g, Start(g)).1;
      StepFromStart(g);
      while more
        invariant offset == YieldAt(g, k)
        invariant k <= Count(g) && (more <==> k < Count(g))
        invariant chunkPool.freeInstances <= old(chunkPool.freeInstances)
        invariant Valid()
        invariant Generating(g, center, radius, k, s, loadedChunks, issuedAt, noiseUnloads, chunkPool.events)
        decreases Count(g) - k
      {
        GenerateAt(g, center, k, offset.Plus(center), s);
        StepFromYield(g, k);
        k := k + 1;
        offset, more := Step(g, offset).0, Step(g, offset).1;
      }
      ReachedIsInRadius(center, radius);
      forall c | c in old(loadedChunks)
        ensures loadedChunks[c].id == old(loadedChunks[c].id)
      {
        assert issuedAt[c] == s.issued[c];
      }
    }

    /** One iteration of the third loop, at the `k`-th offset: skip a
        coordinate outside the radius or already loaded, else generate it. */
    method GenerateAt(g: Griderable, center: Int2, k: nat, chunk: Int2, ghost s: Snapshot)
      requires Valid() && chunk == YieldAt(g, k).Plus(center)
      requires Generating(g, center, radius, k, s, loadedChunks, issuedAt, noiseUnloads, chunkPool.events)
      modifies this, registry, chunkPool, ids, chunkPool.freeInstances
      ensures Valid() && chunkPool.freeInstances <= old(chunkPool.freeInstances)
      ensures Generating(g, center, radius, k + 1, s, loadedChunks, issuedAt, noiseUnloads, chunkPool.events)
    {
      if ChunkShouldCull(chunk, center, radius) || chunk in loadedChunks {
        GeneratingSkip(g, center, radius, k, s, loadedChunks, issuedAt, noiseUnloads, chunkPool.events);
      } else {
        ghost var loaded, issued, events, n := loadedChunks, issuedAt, chunkPool.events, ids.issued;
        Generate(chunk);
        GeneratingAdd(g, center, radius, k, s, loaded, issued, noiseUnloads, events,
                      loadedChunks[chunk], n, loadedChunks[chunk]);
      }
    }

    /** The first two loops of `Update`: every loaded chunk beyond the
        radius is unloaded (`culled`, in the order of the unloads). The rest
        stay loaded with their instances; the noise is unloaded for the ids
        of the culled chunks, in order; and the pool released their
        instances, in order. */
    method Cull(center: Int2) returns (ghost culled: seq<Int2>)
      requires Valid()
      modifies this, chunkPool
      ensures Valid()
      ensures forall c :: c in culled <==> c in old(loadedChunks) && ChunkShouldCull(c, center, radius)
      ensures forall i | 0 <= i < |culled| :: culled[i] in old(loadedChunks)
      ensures forall c :: c in loadedChunks <==> c in old(loadedChunks) && !ChunkShouldCull(c, center, radius)
      ensures forall c | c in loadedChunks :: loadedChunks[c] == old(loadedChunks[c])
      ensures |noiseUnloads| == |old(noiseUnloads)| + |culled| && noiseUnloads[..|old(noiseUnloads)|] == old(noiseUnloads)
      ensures forall i | 0 <= i < |culled| :: noiseUnloads[|old(noiseUnloads)| + i] == old(loadedChunks[culled[i]].id)
      ensures chunkPool.events == old(chunkPool.events) + ReleasedOf(culled, old(loadedChunks), |culled|)
      ensures forall x | x in chunkPool.freeInstances :: x in old(chunkPool.freeInstances) || x in old(loadedChunks).Values
    {
      var toUnload := CollectCulled(center);
      culled := toUnload;
      UnloadedIdsAreCarried(toUnload);
      UnloadChunks(toUnload);
    }

    /** `Update`: the chunk under `position` is the centre; every loaded
        chunk beyond the radius is unloaded (`culled`, in the order of the
        unloads), then every missing chunk inside it is generated. The
        loaded coordinates are then exactly those inside the radius; the
        ones kept keep their instances and ids; the noise is unloaded for
        the ids of the culled chunks, in order; and the pool released their
        instances, in order, before it handed out any. */
    method Update(position: Vec2) returns (ghost culled: seq<Int2>)
      requires Valid()
      modifies this, registry, chunkPool, ids, chunkPool.freeInstances, loadedChunks.Values
      ensures Valid()
      ensures var center := CenterChunk(position, gridSideLength);
        && (forall c :: c in culled <==> c in old(loadedChunks) && ChunkShouldCull(c, center, radius))
        && (forall c :: c in loadedChunks <==> !ChunkShouldCull(c, center, radius))
      ensures forall c | c in old(loadedChunks) && c in loadedChunks ::
        loadedChunks[c] == old(loadedChunks[c]) && loadedChunks[c].id == old(loadedChunks[c].id)
      ensures forall i | 0 <= i < |culled| :: culled[i] in old(loadedChunks)
      ensures |noiseUnloads| == |old(noiseUnloads)| + |culled| && noiseUnloads[..|old(noiseUnloads)|] == old(noiseUnloads)
      ensures forall i | 0 <= i < |culled| :: noiseUnloads[|old(noiseUnloads)| + i] == old(loadedChunks[culled[i]].id)
      ensures OnlyGetsAfter(old(chunkPool.events) + ReleasedOf(culled, old(loadedChunks), |culled|), chunkPool.events)
    {
      var center := CenterChunk(position, gridSideLength);
      culled := Cull(center);
      GenerateMissing(center);
    }
  }

  /** The coordinates the generation loop has reached after its first `k`
      offsets: those of the first `k` points of `g`, moved by `center`,
      that are inside the radius. */
  ghost function Reached(g: Griderable, center: Int2, radius: int, k: nat): set<Int2> {
    if k == 0 then {}
    else
      var c := YieldAt(g, k - 1).Plus(center);
      Reached(g, center, radius, k - 1) + (if ChunkShouldCull(c, center, radius) then {} else {c})
  }

  /** Whatever the loop reached is inside the radius. */
  lemma {:induction false} ReachedInside(g: Griderable, center: Int2, radius: int, k: nat, c: Int2)
    requires c in Reached(g, center, radius, k)
    ensures !ChunkShouldCull(c, center, radius)
  {
    var last := YieldAt(g, k - 1).Plus(center);
    if c != last || ChunkShouldCull(last, center, radius) {
      ReachedInside(g, center, radius, k - 1, c);
    }
  }

  /** The loop reaches the `i`-th offset's coordinate once past it, when
      that coordinate is inside the radius. */
  lemma {:induction false} ReachedHas(g: Griderable, center: Int2, radius: int, k: nat, i: nat)
    requires i < k && !ChunkShouldCull(YieldAt(g, i).Plus(center), center, radius)
    ensures YieldAt(g, i).Plus(center) in Reached(g, center, radius, k)
  {
    if i < k - 1 {
      ReachedHas(g, center, radius, k - 1, i);
    }
  }

  /** Walking the whole square [-radius, radius]^2 reaches exactly the
      coordinates inside the radius. */
  lemma ReachedIsInRadius(center: Int2, radius: int)
    ensures var g := ForInclusiveRange(-radius, radius);
      forall c :: c in Reached(g, center, radius, Count(g)) <==> !ChunkShouldCull(c, center, radius)
  {
    var g := ForInclusiveRange(-radius, radius);
    forall c
      ensures c in Reached(g, center, radius, Count(g)) <==> !ChunkShouldCull(c, center, radius)
    {
      if c in Reached(g, center, radius, Count(g)) {
        ReachedInside(g, center, radius, Count(g), c);
      } else if !ChunkShouldCull(c, center, radius) {
        var offset := Int2(c.x - center.x, c.y - center.y);
        RadiusInsideSquare(offset, radius);
        YieldCoversRect(g, offset);
        ReachedHas(g, center, radius, Count(g), IndexOf(g, offset));
      }
    }
  }

  /** Pool events from `start` on: the old run, then only `OnGet`s. */
  ghost predicate OnlyGetsAfter(start: seq<I.PoolEvent<ChunkInstance>>, events: seq<I.PoolEvent<ChunkInstance>>) {
    && |start| <= |events| && events[..|start|] == start
    && forall i | |start| <= i < |events| :: events[i].OnGet?
  }

  /** After the first `k` offsets of `g`: the loaded coordinates are those
      of the start plus those reached, the ones of the start keep their
      instances and issue numbers, no noise was unloaded and the pool only
      handed out instances. */
  ghost predicate Generating(g: Griderable, center: Int2, radius: int, k: nat, s: Snapshot,
                             loaded: map<Int2, ChunkInstance>, issued: map<Int2, nat>,
                             unloads: seq<ChunkID>, events: seq<I.PoolEvent<ChunkInstance>>)
  {
    && s.issued.Keys == s.loaded.Keys
    && loaded.Keys == s.loaded.Keys + Reached(g, center, radius, k)
    && (forall c | c in s.loaded :: c in loaded && loaded[c] == s.loaded[c])
    && (forall c | c in s.issued :: c in issued && issued[c] == s.issued[c])
    && unloads == s.unloads
    && OnlyGetsAfter(s.events, events)
  }

  /** Skipping an offset outside the radius or already loaded. */
  lemma GeneratingSkip(g: Griderable, center: Int2, radius: int, k: nat, s: Snapshot,
                       loaded: map<Int2, ChunkInstance>, issued: map<Int2, nat>,
                       unloads: seq<ChunkID>, events: seq<I.PoolEvent<ChunkInstance>>)
    requires Generating(g, center, radius, k, s, loaded, issued, unloads, events)
    requires var c := YieldAt(g, k).Plus(center); ChunkShouldCull(c, center, radius) || c in loaded
    ensures Generating(g, center, radius, k + 1, s, loaded, issued, unloads, events)
  {
  }

  /** Generating the chunk of an offset inside the radius and not loaded. */
  lemma GeneratingAdd(g: Griderable, center: Int2, radius: int, k: nat, s: Snapshot,
                      loaded: map<Int2, ChunkInstance>, issued: map<Int2, nat>,
                      unloads: seq<ChunkID>, events: seq<I.PoolEvent<ChunkInstance>>,
                      instance: ChunkInstance, n: nat, got: ChunkInstance)
    requires Generating(g, center, radius, k, s, loaded, issued, unloads, events)
    requires var c := YieldAt(g, k).Plus(center); !ChunkShouldCull(c, center, radius) && c !in loaded
    ensures var c := YieldAt(g, k).Plus(center);
      Generating(g, center, radius, k + 1, s, loaded[c := instance], issued[c := n], unloads, events + [I.OnGet(got)])
  {
    var e := events + [I.OnGet(got)];
    assert e[..|s.events|] == events[..|s.events|];
  }

  /** After the first `k` of `toUnload`: they are gone from the loaded map
      and from the issue numbers, their ids and release events are logged
      after what the logs held at the start, and every free instance was
      free or loaded at the start. */
  ghost predicate Unloading(toUnload: seq<Int2>, k: nat, s: Snapshot,
                            loaded: map<Int2, ChunkInstance>, issued: map<Int2, nat>,
                            unloads: seq<ChunkID>, events: seq<I.PoolEvent<ChunkInstance>>,
                            free: multiset<ChunkInstance>)
  {
    && k <= |toUnload|
    && (forall i | 0 <= i < |toUnload| :: toUnload[i] in s.loaded && toUnload[i] in s.issued)
    && (forall i | 0 <= i < |toUnload| :: toUnload[i] !in Prefix(toUnload, i))
    && loaded == s.loaded - Prefix(toUnload, k)
    && issued == s.issued - Prefix(toUnload, k)
    && unloads == s.unloads + UnloadedIds(toUnload, s.issued, k)
    && events == s.events + ReleasedOf(toUnload, s.loaded, k)
    && forall x | x in free :: x in s.free || x in s.loaded.Values
  }

  /** Unloading the next listed chunk keeps `Unloading`, one further on. */
  lemma UnloadingStep(toUnload: seq<Int2>, k: nat, s: Snapshot,
                      loaded: map<Int2, ChunkInstance>, issued: map<Int2, nat>,
                      unloads: seq<ChunkID>, events: seq<I.PoolEvent<ChunkInstance>>,
                      free: multiset<ChunkInstance>)
    requires k < |toUnload| && Unloading(toUnload, k, s, loaded, issued, unloads, events, free)
    ensures toUnload[k] in loaded && toUnload[k] in issued
    ensures var c := toUnload[k];
      Unloading(toUnload, k + 1, s, loaded - {c}, issued - {c},
                unloads + [ChunkID(NthId(issued[c]))], events + [I.OnRelease(loaded[c])],
                free + multiset{loaded[c]})
  {
    var c := toUnload[k];
    RemovedNext(s.loaded, toUnload, k);
    RemovedNext(s.issued, toUnload, k);
  }

  /** What the loops of `Update` remember of their start: the loaded map,
      the issue numbers, the two logs and the free instances. */
  datatype Snapshot = Snapshot(
    loaded: map<Int2, ChunkInstance>, issued: map<Int2, nat>,
    unloads: seq<ChunkID>, events: seq<I.PoolEvent<ChunkInstance>>,
    free: multiset<ChunkInstance>)

  /** The ids of the first `n` of `cs`, by their issue numbers. */
  function UnloadedIds(cs: seq<Int2>, issued: map<Int2, nat>, n: nat): (r: seq<ChunkID>)
    requires n <= |cs| && forall i | 0 <= i < n :: cs[i] in issued
    ensures |r| == n
  {
    if n == 0 then [] else UnloadedIds(cs, issued, n - 1) + [ChunkID(NthId(issued[cs[n - 1]]))]
  }

  /** The `OnRelease` events of the instances of the first `n` of `cs`. */
  function ReleasedOf(cs: seq<Int2>, loaded: map<Int2, ChunkInstance>, n: nat): (r: seq<I.PoolEvent<ChunkInstance>>)
    requires n <= |cs| && forall i | 0 <= i < n :: cs[i] in loaded
    ensures |r| == n
  {
    if n == 0 then [] else ReleasedOf(cs, loaded, n - 1) + [I.OnRelease(loaded[cs[n - 1]])]
  }

  /** Position `i` of `UnloadedIds` is the id of `cs[i]`'s issue number. */
  lemma {:induction false} UnloadedIdsAt(cs: seq<Int2>, issued: map<Int2, nat>, n: nat, i: int)
    requires n <= |cs| && forall j | 0 <= j < n :: cs[j] in issued
    requires 0 <= i < n
    ensures UnloadedIds(cs, issued, n)[i] == ChunkID(NthId(issued[cs[i]]))
  {
    if i < n - 1 {
      UnloadedIdsAt(cs, issued, n - 1, i);
    }
  }

  /** Position `i` of `ReleasedOf` releases `cs[i]`'s instance. */
  lemma {:induction false} ReleasedOfAt(cs: seq<Int2>, loaded: map<Int2, ChunkInstance>, n: nat, i: int)
    requires n <= |cs| && forall j | 0 <= j < n :: cs[j] in loaded
    requires 0 <= i < n
    ensures ReleasedOf(cs, loaded, n)[i] == I.OnRelease(loaded[cs[i]])
  {
    if i < n - 1 {
      ReleasedOfAt(cs, loaded, n - 1, i);
    }
  }

  /** The first `n` of `cs`, as a set. */
  function Prefix(cs: seq<Int2>, n: nat): set<Int2>
    requires n <= |cs|
  {
    if n == 0 then {} else Prefix(cs, n - 1) + {cs[n - 1]}
  }

  lemma {:induction false} PrefixIsElements(cs: seq<Int2>, n: nat)
    requires n <= |cs|
    ensures Prefix(cs, n) == set c | c in cs[..n]
  {
    if n > 0 {
      PrefixIsElements(cs, n - 1);
      assert cs[..n] == cs[..n - 1] + [cs[n - 1]];
    }
  }

  /** In a list without repeats, no entry is among those before it. */
  lemma NoneListedBefore(cs: seq<Int2>)
    requires forall i, j | 0 <= i < j < |cs| :: cs[i] != cs[j]
    ensures forall k | 0 <= k < |cs| :: cs[k] !in Prefix(cs, k)
  {
    forall k | 0 <= k < |cs|
      ensures cs[k] !in Prefix(cs, k)
    {
      PrefixIsElements(cs, k);
    }
  }

  /** Removing the next listed key removes the next prefix. */
  lemma RemovedNext<V>(start: map<Int2, V>, cs: seq<Int2>, k: nat)
    requires k < |cs|
    ensures start - Prefix(cs, k) - {cs[k]} == start - Prefix(cs, k + 1)
  {
    assert Prefix(cs, k + 1) == Prefix(cs, k) + {cs[k]};
  }
}

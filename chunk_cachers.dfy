/** ChunkCachers: the process-wide set of chunk cachers, so that a chunk can be
    unloaded from every cache through one call. The static set is an explicit
    `ChunkCachers` object here. The two implementations of IChunkCacher both
    forward `UnloadChunk(id)` to `UnloadID(id)` on a store of their own, so a
    registered cacher is identified by that store. */
module ChunkCaching {
  import opened Common
  import opened ChunkIds
  import opened ValueStore

  /** A registered IChunkCacher: a CachedPerlinNoise (its gradient store) or a
      CachedWeightMap (its weight store). */
  datatype Cacher =
    | PerlinCacher(gradients: CachedValueStore<ChunkID, Int2, Vec2>)
    | WeightCacher(weights: CachedValueStore<ChunkID, Int2, real>)
  {
    function Store(): object {
      if PerlinCacher? then gradients else weights
    }

    /** Whether this cacher's `UnloadChunk(id)` completes without a missing key. */
    predicate CanUnload(id: ChunkID)
      reads Store()
    {
      match this
      case PerlinCacher(s) => Unloadable(s.Model(), id)
      case WeightCacher(s) => Unloadable(s.Model(), id)
    }

    /** The cacher's store follows the refcount invariant. */
    ghost predicate Refcounted()
      reads Store()
    {
      match this
      case PerlinCacher(s) => s.Valid()
      case WeightCacher(s) => s.Valid()
    }
  }

  class ChunkCachers {
    var instances: set<Cacher>

    /** Distinct cachers own distinct stores. */
    ghost predicate Valid()
      reads this
    {
      forall c1, c2 | c1 in instances && c2 in instances && c1.Store() == c2.Store() :: c1 == c2
    }

    function Stores(): set<object>
      reads this
    {
      set c | c in instances :: c.Store()
    }

    constructor ()
      ensures instances == {} && Valid()
    {
      instances := {};
    }

    /** `Register`: a set add, so registering twice has no further effect. */
    method Register(c: Cacher)
      requires Valid()
      requires forall d | d in instances :: d.Store() == c.Store() ==> d == c
      modifies this
      ensures Valid()
      ensures instances == old(instances) + {c}
    {
      instances := instances + {c};
    }

    /** `Unregister`: a set remove. */
    method Unregister(c: Cacher)
      requires Valid()
      modifies this
      ensures Valid()
      ensures instances == old(instances) - {c}
    {
      instances := instances - {c};
    }

    /** `UnloadChunk(id)`: every registered cacher unloads `id` exactly once (in
        no particular order). Returns false where a cacher throws
        KeyNotFoundException, which ends the broadcast. Only registered stores
        are modified. */
    method UnloadChunk(id: ChunkID) returns (ok: bool)
      requires Valid()
      modifies Stores()
      ensures ok <==> forall c | c in instances :: old(c.CanUnload(id))
      ensures ok ==> forall c | c in instances :: UnloadedFrom(c, id)
      ensures (forall c | c in instances :: old(c.Refcounted())) ==> ok && forall c | c in instances :: c.Refcounted()
    {
      var remaining := instances;
      ghost var allRefcounted := forall c | c in instances :: old(c.Refcounted());
      while remaining != {}
        invariant remaining <= instances
        invariant forall c | c in instances - remaining :: old(c.CanUnload(id)) && UnloadedFrom(c, id)
        invariant forall c | c in remaining :: Untouched(c)
        invariant allRefcounted ==> forall c | c in instances - remaining :: c.Refcounted()
        decreases remaining
      {
        var c :| c in remaining;
        assert Untouched(c);
        assert c.CanUnload(id) == old(c.CanUnload(id)) && c.Refcounted() == old(c.Refcounted()) by {
          match c {
            case PerlinCacher(st) =>
            case WeightCacher(st) =>
          }
        }
        var done := UnloadOne(c, id);
        if !done {
          return false;
        }
        forall d | d in instances && d != c
          ensures d.Store() != c.Store()
        {
        }
        remaining := remaining - {c};
      }
      ok := true;
    }
  }

  /** The cacher's store is as it was on entry. */
  twostate predicate Untouched(c: Cacher)
    reads c.Store()
  {
    match c
    case PerlinCacher(s) => s.Model() == old(s.Model())
    case WeightCacher(s) => s.Model() == old(s.Model())
  }

  /** The cacher's store is its entry state with `id` unloaded. */
  twostate predicate UnloadedFrom(c: Cacher, id: ChunkID)
    reads c.Store()
  {
    match c
    case PerlinCacher(s) => Unloadable(old(s.Model()), id) && s.Model() == StoreUnload(old(s.Model()), id).value
    case WeightCacher(s) => Unloadable(old(s.Model()), id) && s.Model() == StoreUnload(old(s.Model()), id).value
  }

  /** One cacher's `UnloadChunk(id)`: `UnloadID(id)` on its store. */
  method UnloadOne(c: Cacher, id: ChunkID) returns (done: bool)
    modifies c.Store()
    ensures done <==> old(c.CanUnload(id))
    ensures done ==> UnloadedFrom(c, id)
    ensures old(c.Refcounted()) ==> done && c.Refcounted()
  {
    match c {
      case PerlinCacher(s) =>
        if s.Valid() {
          UnloadPreservesRefcount(s.Model(), id);
        }
        done := s.UnloadID(id);
      case WeightCacher(s) =>
        if s.Valid() {
          UnloadPreservesRefcount(s.Model(), id);
        }
        done := s.UnloadID(id);
    }
  }
}

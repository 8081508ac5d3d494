/** PersistentPerlinNoise: a registry of PersistentPerlinNoiseOctave instances
    keyed by scale, created on first request and unloaded together.

    Keys are compared as the .NET dictionary compares floats, by `Equals`,
    under which NaN equals itself; that is the datatype equality of `Float`. */
module PersistentPerlinNoises {
  import opened Common
  import opened ChunkIds
  import opened ValueStore
  import opened PersistentPerlinOctaves

  class PersistentPerlinNoise {
    var octaves: map<Float, PersistentPerlinNoiseOctave>
    /** The generator every octave's store is built with. */
    const gradient: Vec2 -> Vec2

    ghost function Stores(): set<CachedValueStore<ChunkID, Vec2, Vec2>>
      reads this
    {
      set s | s in octaves :: octaves[s].cached
    }

    /** Every stored octave was built for its own (valid) scale over the
        shared generator, keeps its refcount invariant, and no two octaves
        share a store. */
    ghost predicate Valid()
      reads this, Stores()
    {
      && (forall s | s in octaves ::
            && IsValidScale(s) && octaves[s].octaveScale == s.value
            && octaves[s].cached.generator == gradient && octaves[s].cached.Valid())
      && (forall a, b | a in octaves && b in octaves && a != b :: octaves[a].cached != octaves[b].cached)
    }

    constructor (gradient: Vec2 -> Vec2)
      ensures Valid() && octaves == map[] && this.gradient == gradient
    {
      octaves := map[];
      this.gradient := gradient;
    }

    /** `Octave(scale)`: the octave already stored for `scale`, or a new one
        stored under it; an invalid scale throws from the octave's
        constructor before anything is stored. */
    method Octave(scale: Float) returns (r: Result<PersistentPerlinNoiseOctave>)
      requires Valid()
      modifies this
      ensures Valid()
      ensures scale in old(octaves) ==> r == Ok(old(octaves)[scale]) && octaves == old(octaves)
      ensures scale !in old(octaves) && !IsValidScale(scale) ==> r == Err(ArgumentError) && octaves == old(octaves)
      ensures scale !in old(octaves) && IsValidScale(scale) ==>
                && r.Ok? && fresh(r.value) && fresh(r.value.cached)
                && r.value.octaveScale == scale.value && r.value.cached.Model() == EmptyStore()
                && octaves == old(octaves)[scale := r.value]
    {
      if scale in octaves {
        return Ok(octaves[scale]);
      }
      r := OfScale(scale, gradient);
      if r.Ok? {
        octaves := octaves[scale := r.value];
      }
    }

    /** `UnloadChunk(id)`: every octave created so far unloads `id`. Under
        `Valid` no store throws, and each store is unloaded exactly once. */
    method UnloadChunk(id: ChunkID)
      requires Valid()
      modifies Stores()
      ensures Valid()
      ensures forall s | s in octaves ::
                octaves[s].cached.Model() == StoreUnload(old(octaves[s].cached.Model()), id).value
    {
      ghost var models := Models();
      var remaining := octaves.Keys;
      while remaining != {}
        invariant remaining <= octaves.Keys
        invariant Valid() && UnloadedExcept(remaining, models, id)
        decreases remaining
      {
        var scale :| scale in remaining;
        UnloadOctave(scale, id, remaining, models);
        remaining := remaining - {scale};
      }
    }

    /** The model of every octave's store. */
    ghost function Models(): (r: map<Float, Store<ChunkID, Vec2, Vec2>>)
      reads this, Stores()
      ensures r.Keys == octaves.Keys
      ensures forall s | s in octaves :: r[s] == octaves[s].cached.Model()
    {
      map s | s in octaves :: octaves[s].cached.Model()
    }

    /** Every octave outside `remaining` has unloaded `id` from the model it
        had in `models`; those in `remaining` still have that model. */
    ghost predicate UnloadedExcept(remaining: set<Float>, models: map<Float, Store<ChunkID, Vec2, Vec2>>, id: ChunkID)
      reads this, Stores()
    {
      && models.Keys == octaves.Keys
      && forall s | s in octaves ::
           if s in remaining then octaves[s].cached.Model() == models[s]
           else StoreUnload(models[s], id) == Ok(octaves[s].cached.Model())
    }

    /** One iteration of `UnloadChunk`'s loop: the octave of `scale` unloads
        `id`, and no other store changes. */
    method UnloadOctave(scale: Float, id: ChunkID, ghost remaining: set<Float>, ghost models: map<Float, Store<ChunkID, Vec2, Vec2>>)
      requires Valid() && scale in remaining && remaining <= octaves.Keys
      requires UnloadedExcept(remaining, models, id)
      modifies octaves[scale].cached
      ensures Valid() && UnloadedExcept(remaining - {scale}, models, id)
    {
      var octave := octaves[scale];
      var ok := octave.UnloadChunk(id);
      forall s | s in octaves
        ensures octaves[s].cached.Valid()
        ensures if s in remaining - {scale} then octaves[s].cached.Model() == models[s]
                else StoreUnload(models[s], id) == Ok(octaves[s].cached.Model())
      {
        if s != scale {
          assert octaves[s].cached != octave.cached;
          assert octaves[s].cached.Model() == old(octaves[s].cached.Model());
        }
      }
    }
  }
}

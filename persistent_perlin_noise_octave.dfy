/** PersistentPerlinNoiseOctave: one octave of gradient noise over a
    CachedValueStore keyed by the float corners of the scaled position. Unlike
    CachedPerlinNoise it keeps float2 keys, applies no amplitude and does not
    register with ChunkCachers.

    The store's generator is `Random.insideUnitCircle.normalized`, the engine's
    global random source; here it is an opaque function handed in by the
    caller. */
module PersistentPerlinOctaves {
  import opened Common
  import opened ChunkIds
  import opened MathUtils
  import opened ValueStore
  import CachedPerlinOctave

  type FloatGradStore = Store<ChunkID, Vec2, Vec2>

  /** What `Get` does with the scaled position `p`: the four store Gets at the
      float corners of `p` in corner order, then the noise at frac(p). */
  function FloatSample(s: FloatGradStore, chunk: ChunkID, p: Vec2, gradient: Vec2 -> Vec2): (FloatGradStore, real) {
    var q := GetQuad(s, chunk, Corners(p), gradient);
    (q.0, PerlinNoiseFromGrads(Frac2(p), q.1))
  }

  /** A sample marks exactly the four float corners of `p` as used by `chunk`,
      touches no other chunk's set, keeps the refcount invariant, and its
      value is the noise of the gradients then stored at those corners. */
  lemma FloatSampleRequestsTheCorners(s: FloatGradStore, chunk: ChunkID, p: Vec2, gradient: Vec2 -> Vec2)
    ensures var (s', v) := FloatSample(s, chunk, p, gradient);
      && UsedBy(s', chunk) == UsedBy(s, chunk) + Elements(Corners(p))
      && (forall o | o in s.usages && o != chunk :: o in s'.usages && s'.usages[o] == s.usages[o])
      && Elements(Corners(p)) <= s'.values.Keys
      && v == PerlinNoiseFromGrads(Frac2(p), StoredQuad(s', Corners(p)))
    ensures Refcounted(s) ==> Refcounted(FloatSample(s, chunk, p, gradient).0)
  {
    GetQuadMarksExactlyTheKeys(s, chunk, Corners(p), gradient);
    if Refcounted(s) {
      GetQuadPreservesRefcount(s, chunk, Corners(p), gradient);
    }
  }

  /** Sampling again at the same position, by the same chunk, gives the same
      value and changes nothing. */
  lemma FloatSampleRepeatable(s: FloatGradStore, chunk: ChunkID, p: Vec2, gradient: Vec2 -> Vec2)
    ensures var (s', v) := FloatSample(s, chunk, p, gradient);
      FloatSample(s', chunk, p, gradient) == (s', v)
  {
    GetQuadTwiceSameOwner(s, chunk, Corners(p), gradient);
  }

  /** Once the corners are stored, the sample reads them and does not call the
      generator: any two generators give the same result. */
  lemma FloatSampleOfStoredCorners(s: FloatGradStore, chunk: ChunkID, p: Vec2, g1: Vec2 -> Vec2, g2: Vec2 -> Vec2)
    requires Elements(Corners(p)) <= s.values.Keys
    ensures FloatSample(s, chunk, p, g1).1 == PerlinNoiseFromGrads(Frac2(p), StoredQuad(s, Corners(p)))
    ensures FloatSample(s, chunk, p, g1) == FloatSample(s, chunk, p, g2)
  {
    GetQuadOfStoredKeys(s, chunk, Corners(p), g1, g2);
  }

  /** The float keys are the same lattice points the integer-keyed
      CachedPerlinNoise casts to int2: each is the whole-number image of the
      corresponding integer key. */
  lemma {:induction false} FloatCornersAreTheIntegerKeys(p: Vec2)
    ensures var k := CachedPerlinOctave.CornerKeys(p);
      Corners(p) == Quad(AsReal(k.c0), AsReal(k.c1), AsReal(k.c2), AsReal(k.c3))
  {
    CachedPerlinOctave.CornerKeysAreLatticeNeighbours(p);
    var fx, fy := p.x.Floor, p.y.Floor;
    assert (fx + 1) as real == fx as real + 1.0 && (fy + 1) as real == fy as real + 1.0;
  }

  // ---------------------------------------------------------------------------

  class PersistentPerlinNoiseOctave {
    const octaveScale: real
    const cached: CachedValueStore<ChunkID, Vec2, Vec2>

    /** The constructor past its scale check (see `OfScale`). */
    constructor (scale: real, gradient: Vec2 -> Vec2)
      requires scale > 0.0
      ensures octaveScale == scale && fresh(cached) && cached.Valid()
      ensures cached.Model() == EmptyStore() && cached.generator == gradient
    {
      octaveScale := scale;
      cached := new CachedValueStore(gradient);
    }

    /** `UnloadChunk(chunk)`: `UnloadID` on the store; false where it throws. */
    method UnloadChunk(chunk: ChunkID) returns (ok: bool)
      modifies cached
      ensures ok <==> Unloadable(old(cached.Model()), chunk)
      ensures ok ==> cached.Model() == StoreUnload(old(cached.Model()), chunk).value
      ensures old(cached.Valid()) ==> ok && cached.Valid()
    {
      if cached.Valid() {
        UnloadPreservesRefcount(cached.Model(), chunk);
      }
      ok := cached.UnloadID(chunk);
    }

    /** `Get(chunk, position)`: scale the position, Get the four float corners
        in corner order, and return the noise at the fractional position. */
    method Get(chunk: ChunkID, position: Vec2) returns (r: real)
      modifies cached
      ensures (cached.Model(), r) == FloatSample(old(cached.Model()), chunk, position.Scale(octaveScale), cached.generator)
      ensures old(cached.Valid()) ==> cached.Valid()
    {
      ghost var s := cached.Model();
      var p := position.Scale(octaveScale);
      var corners := Corners(p);
      var g0 := cached.Get(chunk, corners.c0);
      var g1 := cached.Get(chunk, corners.c1);
      var g2 := cached.Get(chunk, corners.c2);
      var g3 := cached.Get(chunk, corners.c3);
      r := PerlinNoiseFromGrads(Frac2(p), Quad(g0, g1, g2, g3));
      GetQuadIsFourGets(s, chunk, corners, cached.generator);
      if Refcounted(s) {
        GetQuadPreservesRefcount(s, chunk, corners, cached.generator);
      }
    }
  }

  /** The constructor with its check: an ArgumentException for a scale that is
      not positive, NaN or infinite. */
  method OfScale(scale: Float, gradient: Vec2 -> Vec2) returns (r: Result<PersistentPerlinNoiseOctave>)
    ensures r.Err? <==> !IsValidScale(scale)
    ensures r.Err? ==> r.error == ArgumentError
    ensures r.Ok? ==> && fresh(r.value) && fresh(r.value.cached) && r.value.cached.Valid()
                      && r.value.octaveScale == scale.value
                      && r.value.cached.Model() == EmptyStore() && r.value.cached.generator == gradient
  {
    match CheckScale(scale) {
      case Err(e) =>
        r := Err(e);
      case Ok(s) =>
        var octave := new PersistentPerlinNoiseOctave(s, gradient);
        r := Ok(octave);
    }
  }
}

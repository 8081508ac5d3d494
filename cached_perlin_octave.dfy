/** CachedPerlinNoise: one octave of gradient noise whose gradients live in a
    refcounted store keyed by integer lattice points; `Octave`, an editable
    (scale, amplitude) pair that builds and replaces its instance on demand;
    and `Fractal`, a list of octaves summed (and optionally normalised).

    Gradients come from a random source in the program; here the store's
    generator is an opaque function handed in by the caller. */
module CachedPerlinOctave {
  import opened Common
  import opened ChunkIds
  import opened MathUtils
  import opened ValueStore
  import opened ChunkCaching

  /** The keys a sample reads: the `(int2)` casts of the four corners of the
      cell holding `p`, in corner order. */
  function CornerKeys(p: Vec2): Quad<Int2> {
    var c := Corners(p);
    Quad(Trunc2(c.c0), Trunc2(c.c1), Trunc2(c.c2), Trunc2(c.c3))
  }

  /** A sample's outcome: the store after the Gets and the value returned. */
  datatype Sample = Sample(store: Store<ChunkID, Int2, Vec2>, value: real)

  /** Fetch the gradients at `keys` for `chunk` and return the noise at the
      in-cell position `x`, times `amplitude`. */
  function SampleAt(s: Store<ChunkID, Int2, Vec2>, chunk: ChunkID, keys: Quad<Int2>, x: Vec2, amplitude: real,
                    gradient: Int2 -> Vec2): Sample
  {
    var q := GetQuad(s, chunk, keys, gradient);
    Sample(q.0, PerlinNoiseFromGrads(x, q.1) * amplitude)
  }

  lemma SampleAtUnfolds(s: Store<ChunkID, Int2, Vec2>, chunk: ChunkID, keys: Quad<Int2>, x: Vec2, amplitude: real,
                        gradient: Int2 -> Vec2, s': Store<ChunkID, Int2, Vec2>, grads: Quad<Vec2>)
    requires GetQuad(s, chunk, keys, gradient) == (s', grads)
    ensures SampleAt(s, chunk, keys, x, amplitude, gradient) == Sample(s', PerlinNoiseFromGrads(x, grads) * amplitude)
  {
  }

  /** What `CachedPerlinNoise.Get` does with the scaled position `p`
      (`position * octaveScale`): fetch the four corner gradients for `chunk`
      and return the noise times the amplitude. */
  function PerlinSample(s: Store<ChunkID, Int2, Vec2>, chunk: ChunkID, p: Vec2, amplitude: real,
                        gradient: Int2 -> Vec2): Sample
  {
    SampleAt(s, chunk, CornerKeys(p), Frac2(p), amplitude, gradient)
  }

  lemma PerlinSampleUnfolds(s: Store<ChunkID, Int2, Vec2>, chunk: ChunkID, p: Vec2, amplitude: real,
                            gradient: Int2 -> Vec2, s': Store<ChunkID, Int2, Vec2>, grads: Quad<Vec2>)
    requires GetQuad(s, chunk, CornerKeys(p), gradient) == (s', grads)
    ensures Sample(s', PerlinNoiseFromGrads(Frac2(p), grads) * amplitude) == PerlinSample(s, chunk, p, amplitude, gradient)
  {
    SampleAtUnfolds(s, chunk, CornerKeys(p), Frac2(p), amplitude, gradient, s', grads);
  }

  /** `v` is the noise at `x` computed from the gradients `s` holds at `keys`. */
  ghost predicate CachedAt(v: real, s: Store<ChunkID, Int2, Vec2>, keys: Quad<Int2>, x: Vec2, amplitude: real) {
    && Elements(keys) <= s.values.Keys
    && v == PerlinNoiseFromGrads(x, StoredQuad(s, keys)) * amplitude
  }

  /** `v` is the noise at the scaled position `p` computed from the gradients
      `s` now holds at its four corner keys. */
  ghost predicate CachedSample(v: real, s: Store<ChunkID, Int2, Vec2>, p: Vec2, amplitude: real) {
    CachedAt(v, s, CornerKeys(p), Frac2(p), amplitude)
  }

  // ---------------------------------------------------------------------------

  /** The cast corners are the integer lattice point floor(p) and its
      neighbours (0,1), (1,1), (1,0): the cast of a whole number loses nothing. */
  lemma {:induction false} CornerKeysAreLatticeNeighbours(p: Vec2)
    ensures var k := Int2(p.x.Floor, p.y.Floor);
      CornerKeys(p) == Quad(k, k.Plus(Int2(0, 1)), k.Plus(Int2(1, 1)), k.Plus(Int2(1, 0)))
  {
    var fx, fy := p.x.Floor, p.y.Floor;
    TruncOfWhole(fx);
    TruncOfWhole(fy);
    TruncOfWhole(fx + 1);
    TruncOfWhole(fy + 1);
    assert fx as real + 0.0 == fx as real && fy as real + 0.0 == fy as real;
    assert fx as real + 1.0 == (fx + 1) as real && fy as real + 1.0 == (fy + 1) as real;
  }

  lemma {:induction false} SampleAtMarksTheKeys(s: Store<ChunkID, Int2, Vec2>, chunk: ChunkID, keys: Quad<Int2>, x: Vec2,
                                                amplitude: real, gradient: Int2 -> Vec2)
    ensures var r := SampleAt(s, chunk, keys, x, amplitude, gradient);
      && chunk in r.store.usages
      && r.store.usages[chunk] == (if chunk in s.usages then s.usages[chunk] else {}) + Elements(keys)
      && (forall o | o in s.usages && o != chunk :: o in r.store.usages && r.store.usages[o] == s.usages[o])
      && CachedAt(r.value, r.store, keys, x, amplitude)
    ensures Refcounted(s) ==> Refcounted(SampleAt(s, chunk, keys, x, amplitude, gradient).store)
  {
    var q := GetQuad(s, chunk, keys, gradient);
    GetQuadMarksExactlyTheKeys(s, chunk, keys, gradient);
    if Refcounted(s) {
      GetQuadPreservesRefcount(s, chunk, keys, gradient);
    }
  }

  /** A sample marks exactly the four corner keys of the scaled position as
      used by `chunk`, touches no other chunk's usage set, keeps the refcount
      invariant, and its value is the noise of the gradients then cached there. */
  lemma {:induction false} PerlinSampleRequestsTheCorners(s: Store<ChunkID, Int2, Vec2>, chunk: ChunkID, p: Vec2,
                                                          amplitude: real, gradient: Int2 -> Vec2)
    ensures var r := PerlinSample(s, chunk, p, amplitude, gradient);
      && chunk in r.store.usages
      && r.store.usages[chunk] == (if chunk in s.usages then s.usages[chunk] else {}) + Elements(CornerKeys(p))
      && (forall o | o in s.usages && o != chunk :: o in r.store.usages && r.store.usages[o] == s.usages[o])
      && CachedSample(r.value, r.store, p, amplitude)
    ensures Refcounted(s) ==> Refcounted(PerlinSample(s, chunk, p, amplitude, gradient).store)
  {
    SampleAtMarksTheKeys(s, chunk, CornerKeys(p), Frac2(p), amplitude, gradient);
  }

  /** While a chunk holds its corners, sampling again at the same position
      gives the same value and changes nothing. */
  lemma {:induction false} PerlinSampleRepeatable(s: Store<ChunkID, Int2, Vec2>, chunk: ChunkID, p: Vec2,
                                                  amplitude: real, gradient: Int2 -> Vec2)
    ensures var r := PerlinSample(s, chunk, p, amplitude, gradient);
      PerlinSample(r.store, chunk, p, amplitude, gradient) == r
  {
    SampleAtRepeatable(s, chunk, CornerKeys(p), Frac2(p), amplitude, gradient);
  }

  lemma {:induction false} SampleAtRepeatable(s: Store<ChunkID, Int2, Vec2>, chunk: ChunkID, keys: Quad<Int2>, x: Vec2,
                                              amplitude: real, gradient: Int2 -> Vec2)
    ensures var r := SampleAt(s, chunk, keys, x, amplitude, gradient);
      SampleAt(r.store, chunk, keys, x, amplitude, gradient) == r
  {
    var q := GetQuad(s, chunk, keys, gradient);
    GetQuadTwiceSameOwner(s, chunk, keys, gradient);
    assert GetQuad(q.0, chunk, keys, gradient) == q;
  }

  lemma {:induction false} SampleAtOfCachedKeys(s: Store<ChunkID, Int2, Vec2>, chunk: ChunkID, keys: Quad<Int2>, x: Vec2,
                                                amplitude: real, g1: Int2 -> Vec2, g2: Int2 -> Vec2)
    requires Elements(keys) <= s.values.Keys
    ensures CachedAt(SampleAt(s, chunk, keys, x, amplitude, g1).value, s, keys, x, amplitude)
    ensures SampleAt(s, chunk, keys, x, amplitude, g1) == SampleAt(s, chunk, keys, x, amplitude, g2)
  {
    var q1, q2 := GetQuad(s, chunk, keys, g1), GetQuad(s, chunk, keys, g2);
    GetQuadOfStoredKeys(s, chunk, keys, g1, g2);
    assert q1 == q2;
  }

  /** With the four corners cached, the sample is the noise of the cached
      gradients, whatever the generator would produce. */
  lemma {:induction false} PerlinSampleOfCachedCorners(s: Store<ChunkID, Int2, Vec2>, chunk: ChunkID, p: Vec2,
                                                       amplitude: real, g1: Int2 -> Vec2, g2: Int2 -> Vec2)
    requires Elements(CornerKeys(p)) <= s.values.Keys
    ensures CachedSample(PerlinSample(s, chunk, p, amplitude, g1).value, s, p, amplitude)
    ensures PerlinSample(s, chunk, p, amplitude, g1) == PerlinSample(s, chunk, p, amplitude, g2)
  {
    SampleAtOfCachedKeys(s, chunk, CornerKeys(p), Frac2(p), amplitude, g1, g2);
  }

  lemma {:induction false} CachedAtKeptBySample(v: real, s: Store<ChunkID, Int2, Vec2>, keys: Quad<Int2>, x: Vec2, amplitude: real,
                                                chunk: ChunkID, keys': Quad<Int2>, x': Vec2, amplitude': real, gradient: Int2 -> Vec2)
    requires CachedAt(v, s, keys, x, amplitude)
    ensures CachedAt(v, SampleAt(s, chunk, keys', x', amplitude', gradient).store, keys, x, amplitude)
  {
    var s' := GetQuad(s, chunk, keys', gradient).0;
    GetQuadMarksExactlyTheKeys(s, chunk, keys', gradient);
    assert StoredQuad(s', keys) == StoredQuad(s, keys);
  }

  /** A sample taken earlier stays explained by the store after any later
      sample, since a Get never changes a stored gradient. */
  lemma {:induction false} CachedSampleKeptBySample(v: real, s: Store<ChunkID, Int2, Vec2>, p: Vec2, amplitude: real,
                                                    chunk: ChunkID, p': Vec2, amplitude': real, gradient: Int2 -> Vec2)
    requires CachedSample(v, s, p, amplitude)
    ensures CachedSample(v, PerlinSample(s, chunk, p', amplitude', gradient).store, p, amplitude)
  {
    CachedAtKeptBySample(v, s, CornerKeys(p), Frac2(p), amplitude, chunk, CornerKeys(p'), Frac2(p'), amplitude', gradient);
  }

  /** `s'` holds every key `s` holds, with the same value: what a Get does. */
  ghost predicate Extends(s: Store<ChunkID, Int2, Vec2>, s': Store<ChunkID, Int2, Vec2>) {
    forall k | k in s.values :: k in s'.values && s'.values[k].value == s.values[k].value
  }

  /** A sample the store explains stays explained in any extension of it. */
  lemma CachedSampleExtends(v: real, s: Store<ChunkID, Int2, Vec2>, s': Store<ChunkID, Int2, Vec2>, p: Vec2, amplitude: real)
    requires CachedSample(v, s, p, amplitude) && Extends(s, s')
    ensures CachedSample(v, s', p, amplitude)
  {
    var keys := CornerKeys(p);
    assert StoredQuad(s', keys) == StoredQuad(s, keys);
  }

  /** Sampling only adds to the store: it never drops or changes a gradient. */
  lemma PerlinSampleExtends(s: Store<ChunkID, Int2, Vec2>, chunk: ChunkID, p: Vec2, amplitude: real, gradient: Int2 -> Vec2)
    ensures Extends(s, PerlinSample(s, chunk, p, amplitude, gradient).store)
  {
    GetQuadMarksExactlyTheKeys(s, chunk, CornerKeys(p), gradient);
  }

  // ---------------------------------------------------------------------------

  class CachedPerlinNoise {
    const octaveScale: real
    const octaveAmplitude: real
    const cached: CachedValueStore<ChunkID, Int2, Vec2>

    /** The constructor's scale check held. */
    predicate ScaleChecked() {
      octaveScale > 0.0
    }

    /** The constructor past its scale check (see `OfScale`): an empty store
      over `gradient`, registered with the cachers. */
    constructor (scale: real, amplitude: real, gradient: Int2 -> Vec2, cachers: ChunkCachers)
      requires scale > 0.0 && cachers.Valid()
      modifies cachers
      ensures ScaleChecked() && fresh(cached) && cached.Valid()
      ensures octaveScale == scale && octaveAmplitude == amplitude
      ensures cached.Model() == EmptyStore() && cached.generator == gradient
      ensures cachers.Valid() && cachers.instances == old(cachers.instances) + {PerlinCacher(cached)}
    {
      octaveScale := scale;
      octaveAmplitude := amplitude;
      cached := new CachedValueStore(gradient);
      new;
      cachers.Register(PerlinCacher(cached));
    }

    /** `Get(chunk, position)`. */
    method Get(chunk: ChunkID, position: Vec2) returns (r: real)
      modifies cached
      ensures Sample(cached.Model(), r) == PerlinSample(old(cached.Model()), chunk, position.Scale(octaveScale), octaveAmplitude, cached.generator)
      ensures old(cached.Valid()) ==> cached.Valid()
    {
      ghost var s := cached.Model();
      var p := position.Scale(octaveScale);
      var keys := CornerKeys(p);
      var grads := FetchCorners(chunk, keys);
      r := PerlinNoiseFromGrads(Frac2(p), grads) * octaveAmplitude;
      PerlinSampleUnfolds(s, chunk, p, octaveAmplitude, cached.generator, cached.Model(), grads);
    }

    /** The four `cached.Get` calls of `Get`, in corner order. */
    method FetchCorners(chunk: ChunkID, keys: Quad<Int2>) returns (grads: Quad<Vec2>)
      modifies cached
      ensures (cached.Model(), grads) == GetQuad(old(cached.Model()), chunk, keys, cached.generator)
      ensures old(cached.Valid()) ==> cached.Valid()
    {
      ghost var s := cached.Model();
      var g0 := cached.Get(chunk, keys.c0);
      var g1 := cached.Get(chunk, keys.c1);
      var g2 := cached.Get(chunk, keys.c2);
      var g3 := cached.Get(chunk, keys.c3);
      grads := Quad(g0, g1, g2, g3);
      GetQuadIsFourGets(s, chunk, keys, cached.generator);
      if Refcounted(s) {
        GetQuadPreservesRefcount(s, chunk, keys, cached.generator);
      }
    }

    /** `UnloadChunk(chunk)`: `UnloadID` on the store; false where it throws. */
    method UnloadChunk(chunk: ChunkID) returns (ok: bool)
      modifies cached
      ensures ok <==> Unloadable(old(cached.Model()), chunk)
      ensures ok ==> cached.Model() == StoreUnload(old(cached.Model()), chunk).value
      ensures old(cached.Valid()) ==> ok && cached.Valid()
    {
      if cached.Valid() {
        UnloadPreservesRefcount(cached.Model(), chunk);
      }
      ok := cached.UnloadID(chunk);
    }
  }

  /** `OfScale(scale, amplitude)`, i.e. the constructor with its check: an
      ArgumentException (nothing registered) for an invalid scale. */
  method OfScale(scale: Float, amplitude: real, gradient: Int2 -> Vec2, cachers: ChunkCachers) returns (r: Result<CachedPerlinNoise>)
    requires cachers.Valid()
    modifies cachers
    ensures cachers.Valid()
    ensures r.Err? <==> !IsValidScale(scale)
    ensures r.Err? ==> r.error == ArgumentError && cachers.instances == old(cachers.instances)
    ensures r.Ok? ==> && fresh(r.value) && fresh(r.value.cached) && r.value.ScaleChecked() && r.value.cached.Valid()
                      && r.value.octaveScale == scale.value && r.value.octaveAmplitude == amplitude
                      && r.value.cached.Model() == EmptyStore() && r.value.cached.generator == gradient
                      && cachers.instances == old(cachers.instances) + {PerlinCacher(r.value.cached)}
  {
    match CheckScale(scale) {
      case Err(e) =>
        r := Err(e);
      case Ok(s) =>
        var instance := new CachedPerlinNoise(s, amplitude, gradient, cachers);
        r := Ok(instance);
    }
  }

  /** The registry entry an octave drops when it replaces its instance. */
  function Dropped(instance: CachedPerlinNoise?): set<Cacher> {
    if instance == null then {} else {PerlinCacher(instance.cached)}
  }

  // ---------------------------------------------------------------------------

  /** An editable octave: the serialized scale and amplitude and the instance
      built from them. */
  class Octave {
    var scale: Float
    var amplitude: real
    var instance: CachedPerlinNoise?

    /** An instance is only ever built past the scale check. */
    predicate Valid()
      reads this
    {
      instance != null ==> instance.ScaleChecked()
    }

    /** The instance exists and was built from the current scale and amplitude
      (compared with float `==`, so a NaN scale never matches). */
    predicate InstanceCurrent()
      reads this
    {
      instance != null && FloatEquals(Finite(instance.octaveScale), scale) && instance.octaveAmplitude == amplitude
    }

    /** The gradient store `Get` and `UnloadChunk` would use without rebuilding. */
    function CurrentStores(): set<object>
      reads this
    {
      if InstanceCurrent() then {instance.cached} else {}
    }

    /** The serialized defaults: scale 1, amplitude 1, no instance yet. */
    constructor ()
      ensures scale == Finite(1.0) && amplitude == 1.0 && instance == null && Valid()
    {
      scale := Finite(1.0);
      amplitude := 1.0;
      instance := null;
    }

    /** `GetInstance()`: the current instance while it matches the octave's
        parameters; otherwise unregister the old one and build a new one. The
        double-checked lock collapses to one test in this sequential model. */
    method GetInstance(cachers: ChunkCachers, gradient: Int2 -> Vec2) returns (r: Result<CachedPerlinNoise>)
      requires Valid() && cachers.Valid()
      modifies this`instance, cachers
      ensures Valid() && cachers.Valid()
      ensures old(InstanceCurrent()) ==> instance != null && r == Ok(instance as CachedPerlinNoise) && instance == old(instance) && cachers.instances == old(cachers.instances)
      ensures r.Err? <==> !IsValidScale(scale)
      ensures r.Err? ==> r.error == ArgumentError && instance == old(instance)
                         && cachers.instances == old(cachers.instances) - Dropped(old(instance))
      ensures r.Ok? ==> instance != null && r == Ok(instance as CachedPerlinNoise) && InstanceCurrent()
      ensures !old(InstanceCurrent()) && r.Ok? ==>
                && fresh(instance) && fresh(instance.cached) && instance.cached.Valid()
                && instance.cached.Model() == EmptyStore() && instance.cached.generator == gradient
                && cachers.instances == old(cachers.instances) - Dropped(old(instance)) + {PerlinCacher(instance.cached)}
    {
      if instance != null && FloatEquals(Finite(instance.octaveScale), scale) && instance.octaveAmplitude == amplitude {
        return Ok(instance);
      }
      if instance != null {
        cachers.Unregister(PerlinCacher(instance.cached));
      }
      r := OfScale(scale, amplitude, gradient, cachers);
      if r.Ok? {
        instance := r.value;
      }
    }

    /** `Get(chunk, pos)` = `GetInstance().Get(chunk, pos)`. A replaced
        instance's store is left alone. */
    method Get(chunk: ChunkID, pos: Vec2, cachers: ChunkCachers, gradient: Int2 -> Vec2) returns (r: Result<real>)
      requires Valid() && cachers.Valid()
      modifies this`instance, cachers, CurrentStores()
      ensures Valid() && cachers.Valid()
      ensures r.Err? <==> !IsValidScale(scale)
      ensures r.Err? ==> r.error == ArgumentError && instance == old(instance)
      ensures old(InstanceCurrent()) ==> instance == old(instance)
      ensures r.Ok? ==> && InstanceCurrent()
                        && (!old(InstanceCurrent()) ==> fresh(instance) && fresh(instance.cached))
                        && Sample(instance.cached.Model(), r.value) ==
                             PerlinSample(if old(InstanceCurrent()) then old(instance.cached.Model()) else EmptyStore(),
                                          chunk, pos.Scale(instance.octaveScale), amplitude, instance.cached.generator)
                        && ((old(InstanceCurrent()) ==> old(instance.cached.Valid())) ==> instance.cached.Valid())
    {
      var got := GetInstance(cachers, gradient);
      match got {
        case Err(e) =>
          r := Err(e);
        case Ok(noise) =>
          var v := noise.Get(chunk, pos);
          r := Ok(v);
      }
    }

    /** `UnloadChunk(chunk)` = `GetInstance().UnloadChunk(chunk)`: an
        ArgumentException for an invalid scale, a KeyNotFoundException from a
        store whose usage sets name evicted keys (which a store keeping its
        refcount invariant never does). */
    method UnloadChunk(chunk: ChunkID, cachers: ChunkCachers, gradient: Int2 -> Vec2) returns (r: Result<()>)
      requires Valid() && cachers.Valid()
      modifies this`instance, cachers, CurrentStores()
      ensures Valid() && cachers.Valid()
      ensures r.Err? ==> r.error == ArgumentError || r.error == KeyNotFound
      ensures r.Err? && r.error == ArgumentError <==> !IsValidScale(scale)
      ensures r.Err? && r.error == ArgumentError ==> instance == old(instance)
      ensures old(InstanceCurrent()) ==> instance == old(instance)
      ensures (r.Ok? || r.error == KeyNotFound) ==>
                && InstanceCurrent()
                && (!old(InstanceCurrent()) ==> fresh(instance) && fresh(instance.cached))
                && var prior := if old(InstanceCurrent()) then old(instance.cached.Model()) else EmptyStore();
                   && (r.Ok? <==> Unloadable(prior, chunk))
                   && (r.Ok? ==> instance.cached.Model() == StoreUnload(prior, chunk).value)
                   && (r.Ok? && (old(InstanceCurrent()) ==> old(instance.cached.Valid())) ==> instance.cached.Valid())
      ensures old(InstanceCurrent()) && old(instance.cached.Valid()) ==> r.Ok?
    {
      var got := GetInstance(cachers, gradient);
      match got {
        case Err(e) =>
          r := Err(e);
        case Ok(noise) =>
          var ok := noise.UnloadChunk(chunk);
          r := if ok then Ok(()) else Err(KeyNotFound);
      }
    }
  }

  // ---------------------------------------------------------------------------

  /** The amplitudes of `os` summed in list order. */
  function SumAmplitudes(os: seq<Octave>): real
    reads (set o | o in os)`amplitude
    decreases |os|
  {
    if os == [] then 0.0 else SumAmplitudes(os[..|os| - 1]) + os[|os| - 1].amplitude
  }

  /** The values of `xs` summed in order. */
  function Sum(xs: seq<real>): real
    decreases |xs|
  {
    if xs == [] then 0.0 else Sum(xs[..|xs| - 1]) + xs[|xs| - 1]
  }

  /** Adding one more value to the end adds it to the sum. */
  lemma SumSnoc(xs: seq<real>, x: real)
    ensures Sum(xs + [x]) == Sum(xs) + x
  {
    assert (xs + [x])[..|xs|] == xs;
  }

  /** Summing one more element of `xs` adds that element. */
  lemma SumPrefixStep(xs: seq<real>, i: nat)
    requires i < |xs|
    ensures Sum(xs[..i + 1]) == Sum(xs[..i]) + xs[i]
  {
    assert xs[..i + 1][..i] == xs[..i];
  }

  /** A sampled octave has a valid scale: its instance was built from it. */
  lemma SampledScaleIsValid(o: Octave, v: real, pos: Vec2)
    requires o.Valid() && OctaveSampled(o, v, pos)
    ensures IsValidScale(o.scale)
  {
  }

  /** `amps` lists the amplitudes of `os`: the amplitude sum is their sum. */
  lemma {:induction false} SumAmplitudesIsSum(os: seq<Octave>, amps: seq<real>)
    requires |amps| == |os| && forall j | 0 <= j < |os| :: amps[j] == os[j].amplitude
    ensures SumAmplitudes(os) == Sum(amps)
    decreases |os|
  {
    if os != [] {
      SumAmplitudesIsSum(os[..|os| - 1], amps[..|os| - 1]);
      assert amps[..|os| - 1] + [amps[|os| - 1]] == amps;
    }
  }

  /** Octave `o` is current and `v` is the noise its store now explains at `pos`. */
  ghost predicate OctaveSampled(o: Octave, v: real, pos: Vec2)
    reads o, if o.instance != null then {o.instance.cached} else {}
  {
    && o.InstanceCurrent()
    && CachedSample(v, o.instance.cached.Model(), pos.Scale(o.instance.octaveScale), o.amplitude)
  }

  /** Octave `o` is current and its store holds nothing for `chunk`. */
  ghost predicate OctaveUnloaded(o: Octave, chunk: ChunkID)
    reads o, if o.instance != null then {o.instance.cached} else {}
  {
    o.InstanceCurrent() && chunk !in o.instance.cached.usages
  }

  /** The stores the octaves of `os` currently hold. */
  function InstanceStores(os: seq<Octave>): set<object>
    reads set o | o in os
  {
    set o | o in os && o.instance != null :: o.instance.cached
  }

  /** An octave sampled earlier stays sampled once its store has only grown. */
  twostate lemma SampledKeptByExtends(o: Octave, new w: real, new pos: Vec2)
    requires old(OctaveSampled(o, w, pos))
    requires o.instance == old(o.instance) && o.scale == old(o.scale) && o.amplitude == old(o.amplitude)
    requires Extends(old(o.instance.cached.Model()), o.instance.cached.Model())
    ensures OctaveSampled(o, w, pos)
  {
    CachedSampleExtends(w, old(o.instance.cached.Model()), o.instance.cached.Model(),
                        pos.Scale(o.instance.octaveScale), o.amplitude);
  }

  /** Sampling octave `os[i]` keeps every earlier sample explained: an earlier
      octave other than `os[i]` is untouched, its store too unless it is the
      store `os[i]` sampled from, and that store has only grown. */
  twostate lemma EarlierSamplesKept(os: seq<Octave>, new i: nat, new samples: seq<real>, new pos: Vec2)
    requires i < |os| && |samples| == i
    requires old(forall j {:trigger OctaveSampled(os[j], samples[j], pos)} | 0 <= j < i :: OctaveSampled(os[j], samples[j], pos))
    requires forall j | 0 <= j < i && os[j] != os[i] ::
               os[j].instance == old(os[j].instance) && os[j].scale == old(os[j].scale) && os[j].amplitude == old(os[j].amplitude)
    requires forall j | 0 <= j < i && os[j] != os[i] && os[j].instance != null && os[j].instance.cached !in old(os[i].CurrentStores()) ::
               os[j].instance.cached.Model() == old(os[j].instance.cached.Model())
    requires old(os[i].InstanceCurrent()) ==>
               os[i].instance == old(os[i].instance) && os[i].scale == old(os[i].scale) && os[i].amplitude == old(os[i].amplitude)
               && Extends(old(os[i].instance.cached.Model()), os[i].instance.cached.Model())
    ensures forall j {:trigger OctaveSampled(os[j], samples[j], pos)} | 0 <= j < i :: OctaveSampled(os[j], samples[j], pos)
  {
    forall j | 0 <= j < i
      ensures OctaveSampled(os[j], samples[j], pos)
    {
      assert old(OctaveSampled(os[j], samples[j], pos));
      SampledKeptByExtends(os[j], samples[j], pos);
    }
  }

  /** `octave.Get`, stated by what Fractal needs: the sample is explained by
      the octave's store, and a store that was current has only grown. */
  method GetSampled(octave: Octave, chunk: ChunkID, pos: Vec2, cachers: ChunkCachers, gradient: Int2 -> Vec2)
    returns (v: Result<real>)
    requires octave.Valid() && cachers.Valid()
    modifies octave`instance, cachers, octave.CurrentStores()
    ensures octave.Valid() && cachers.Valid()
    ensures v.Err? <==> !IsValidScale(octave.scale)
    ensures v.Err? ==> v.error == ArgumentError
    ensures octave.instance != null ==> octave.instance == old(octave.instance) || fresh(octave.instance.cached)
    ensures old(octave.InstanceCurrent()) ==>
              octave.instance == old(octave.instance)
              && Extends(old(octave.instance.cached.Model()), octave.instance.cached.Model())
    ensures v.Ok? ==> OctaveSampled(octave, v.value, pos)
  {
    ghost var before := if octave.InstanceCurrent() then octave.instance.cached.Model() else EmptyStore();
    v := octave.Get(chunk, pos, cachers, gradient);
    if v.Ok? {
      ghost var noise := octave.instance;
      PerlinSampleRequestsTheCorners(before, chunk, pos.Scale(noise.octaveScale), octave.amplitude, noise.cached.generator);
      PerlinSampleExtends(before, chunk, pos.Scale(noise.octaveScale), octave.amplitude, noise.cached.generator);
    }
  }

  /** One octave's step of `Fractal.Get`: `octave.Get`, after which the
      samples taken before from the earlier octaves are still explained by
      their stores. */
  method SampleOctave(os: seq<Octave>, i: nat, chunk: ChunkID, pos: Vec2, cachers: ChunkCachers, gradient: Int2 -> Vec2,
                      ghost prevSamples: seq<real>) returns (v: Result<real>)
    requires i < |os| && os[i].Valid() && cachers.Valid()
    requires |prevSamples| == i
    requires forall j {:trigger OctaveSampled(os[j], prevSamples[j], pos)} | 0 <= j < i :: OctaveSampled(os[j], prevSamples[j], pos)
    modifies {os[i]}`instance, cachers, os[i].CurrentStores()
    ensures os[i].Valid() && cachers.Valid()
    ensures v.Err? <==> !IsValidScale(os[i].scale)
    ensures v.Err? ==> v.error == ArgumentError
    ensures os[i].instance != null ==> os[i].instance == old(os[i].instance) || fresh(os[i].instance.cached)
    ensures v.Ok? ==> forall j {:trigger OctaveSampled(os[j], (prevSamples + [v.value])[j], pos)} | 0 <= j <= i
                        :: OctaveSampled(os[j], (prevSamples + [v.value])[j], pos)
  {
    var octave := os[i];
    ghost var stores := octave.CurrentStores();
    v := GetSampled(octave, chunk, pos, cachers, gradient);
    if v.Ok? {
      EarlierSamplesKept(os, i, prevSamples, pos);
      assert forall j | 0 <= j < i :: (prevSamples + [v.value])[j] == prevSamples[j];
    }
  }

  /** One octave's step of `Fractal.UnloadChunk`: `octave.UnloadChunk`, after
      which the earlier octaves still hold nothing for `chunk`. */
  method UnloadOctave(os: seq<Octave>, i: nat, chunk: ChunkID, cachers: ChunkCachers, gradient: Int2 -> Vec2)
    returns (u: Result<()>)
    requires i < |os| && os[i].Valid() && cachers.Valid()
    requires forall j {:trigger OctaveUnloaded(os[j], chunk)} | 0 <= j < i :: OctaveUnloaded(os[j], chunk)
    modifies {os[i]}`instance, cachers, os[i].CurrentStores()
    ensures os[i].Valid() && cachers.Valid()
    ensures u.Err? ==> u.error == ArgumentError || u.error == KeyNotFound
    ensures u.Err? && u.error == ArgumentError <==> !IsValidScale(os[i].scale)
    ensures os[i].instance != null ==> os[i].instance == old(os[i].instance) || fresh(os[i].instance.cached)
    ensures u.Ok? ==> forall j {:trigger OctaveUnloaded(os[j], chunk)} | 0 <= j <= i :: OctaveUnloaded(os[j], chunk)
  {
    var octave := os[i];
    u := octave.UnloadChunk(chunk, cachers, gradient);
    if u.Ok? {
      forall j | 0 <= j < i
        ensures OctaveUnloaded(os[j], chunk)
      {
        assert old(OctaveUnloaded(os[j], chunk));
      }
    }
  }

  /** A list of octaves sampled together. `totalAmplitude` caches the sum of
      the amplitudes; None stands for the NaN the source starts from. */
  class Fractal {
    var octaves: seq<Octave>
    var totalAmplitude: Option<real>

    constructor (octaves: seq<Octave>)
      ensures this.octaves == octaves && totalAmplitude == None
    {
      this.octaves := octaves;
      totalAmplitude := None;
    }

    /** `TotalAmplitude`: the sum of the amplitudes, computed on first use and
        then returned from the cache (even if amplitudes change later). */
    method TotalAmplitude() returns (r: real)
      modifies this`totalAmplitude
      ensures old(totalAmplitude).Some? ==> r == old(totalAmplitude).value && totalAmplitude == old(totalAmplitude)
      ensures old(totalAmplitude).None? ==> r == SumAmplitudes(octaves) && totalAmplitude == Some(r)
    {
      if totalAmplitude.None? {
        totalAmplitude := Some(0.0);
        var i := 0;
        while i < |octaves|
          invariant 0 <= i <= |octaves|
          invariant totalAmplitude == Some(SumAmplitudes(octaves[..i]))
        {
          assert octaves[..i + 1][..i] == octaves[..i];
          totalAmplitude := Some(totalAmplitude.value + octaves[i].amplitude);
          i := i + 1;
        }
        assert octaves[..i] == octaves;
      }
      r := totalAmplitude.value;
    }

    /** `Get(chunk, pos, normalize)`: the sum of the octave samples, divided by
        the sum of the amplitudes when normalising and by 1 otherwise. Fails
        with the first octave whose scale is invalid. `samples` are the
        per-octave values; each is the noise of the gradients its octave's
        instance now caches. */
    method Get(chunk: ChunkID, pos: Vec2, normalize: bool, cachers: ChunkCachers, gradient: Int2 -> Vec2)
      returns (r: Result<Float>, ghost samples: seq<real>)
      requires cachers.Valid() && forall o | o in octaves :: o.Valid()
      modifies (set o | o in octaves), cachers, InstanceStores(octaves)
      ensures cachers.Valid() && forall o | o in octaves :: o.Valid()
      ensures r.Err? <==> exists i | 0 <= i < |octaves| :: !IsValidScale(octaves[i].scale)
      ensures r.Err? ==> r.error == ArgumentError
      ensures r.Ok? ==> |samples| == |octaves|
      ensures r.Ok? ==> r.value == FloatDiv(Sum(samples), if normalize then SumAmplitudes(octaves) else 1.0)
      ensures r.Ok? ==> forall i {:trigger OctaveSampled(octaves[i], samples[i], pos)} | 0 <= i < |octaves| :: OctaveSampled(octaves[i], samples[i], pos)
    {
      var os := octaves;
      ghost var stores0 := InstanceStores(os);
      ghost var amps := seq(|os|, j requires 0 <= j < |os| reads os => os[j].amplitude);
      var result := 0.0;
      var weightSum := 0.0;
      samples := [];
      var i := 0;
      while i < |os|
        invariant 0 <= i <= |os| && |samples| == i
        invariant cachers.Valid() && forall j | 0 <= j < |os| :: os[j].Valid()
        invariant forall j | 0 <= j < |os| :: os[j].scale == old(os[j].scale) && os[j].amplitude == old(os[j].amplitude)
        invariant forall j | 0 <= j < |os| && os[j].instance != null :: os[j].instance.cached in stores0 || fresh(os[j].instance.cached)
        invariant forall j | 0 <= j < |os| :: amps[j] == os[j].amplitude
        invariant result == Sum(samples)
        invariant weightSum == Sum(amps[..i])
        invariant forall j {:trigger OctaveSampled(os[j], samples[j], pos)} | 0 <= j < i :: OctaveSampled(os[j], samples[j], pos)
      {
        var octave := os[i];
        var v := SampleOctave(os, i, chunk, pos, cachers, gradient, samples);
        if v.Err? {
          return Err(v.error), samples;
        }
        SumPrefixStep(amps, i);
        SumSnoc(samples, v.value);
        result := result + v.value;
        weightSum := weightSum + octave.amplitude;
        samples := samples + [v.value];
        i := i + 1;
      }
      assert amps[..i] == amps;
      SumAmplitudesIsSum(os, amps);
      forall j | 0 <= j < |os|
        ensures IsValidScale(os[j].scale)
      {
        SampledScaleIsValid(os[j], samples[j], pos);
      }
      if !normalize {
        weightSum := 1.0;
      }
      r := Ok(FloatDiv(result, weightSum));
    }

    /** `UnloadChunk(chunk)`: forwards to every octave in order, stopping at
        the first exception. */
    method UnloadChunk(chunk: ChunkID, cachers: ChunkCachers, gradient: Int2 -> Vec2) returns (r: Result<()>)
      requires cachers.Valid() && forall o | o in octaves :: o.Valid()
      modifies (set o | o in octaves), cachers, InstanceStores(octaves)
      ensures cachers.Valid() && forall o | o in octaves :: o.Valid()
      ensures r.Err? ==> r.error == ArgumentError || r.error == KeyNotFound
      ensures r.Err? && r.error == ArgumentError ==> exists i | 0 <= i < |octaves| :: !IsValidScale(octaves[i].scale)
      ensures (forall i | 0 <= i < |octaves| :: IsValidScale(octaves[i].scale)) ==> r.Ok? || r.error == KeyNotFound
      ensures r.Ok? ==> forall i {:trigger OctaveUnloaded(octaves[i], chunk)} | 0 <= i < |octaves| :: OctaveUnloaded(octaves[i], chunk)
    {
      var os := octaves;
      ghost var stores0 := InstanceStores(os);
      var i := 0;
      while i < |os|
        invariant 0 <= i <= |os|
        invariant cachers.Valid() && forall j | 0 <= j < |os| :: os[j].Valid()
        invariant forall j | 0 <= j < |os| :: os[j].scale == old(os[j].scale) && os[j].amplitude == old(os[j].amplitude)
        invariant forall j | 0 <= j < |os| && os[j].instance != null :: os[j].instance.cached in stores0 || fresh(os[j].instance.cached)
        invariant forall j {:trigger OctaveUnloaded(os[j], chunk)} | 0 <= j < i :: OctaveUnloaded(os[j], chunk)
      {
        var u := UnloadOctave(os, i, chunk, cachers, gradient);
        if u.Err? {
          return Err(u.error);
        }
        i := i + 1;
      }
      r := Ok(());
    }
  }
}

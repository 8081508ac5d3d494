/** CachedWeightMap: real weights at integer lattice nodes, created on first
    read with a constant default, sampled bilinearly between the four nodes
    around a scaled location, edited in place at the node nearest a location,
    and unloaded per chunk through the refcounted store. */
module WeightMaps {
  import opened Common
  import opened ChunkIds
  import opened MathUtils
  import opened ValueStore
  import opened ChunkCaching
  import CachedPerlinOctave

  type WeightStore = Store<ChunkID, Int2, real>

  /** The store's generator: every new node holds `defaultValue`. */
  function Constant(defaultValue: real): Int2 -> real {
    (_: Int2) => defaultValue
  }

  /** What `Get` does with the scaled location `p`: read the four nodes at the
      `(int2)` casts of the corners of `p` in corner order, then sample them
      bilinearly at frac(p). */
  function WeightSample(s: WeightStore, chunk: ChunkID, p: Vec2, defaultValue: real): (WeightStore, real) {
    var q := GetQuad(s, chunk, CachedPerlinOctave.CornerKeys(p), Constant(defaultValue));
    (q.0, SampleCorners(Frac2(p), q.1))
  }

  /** `math.round`, componentwise: halfway cases go to the even neighbour. */
  function Round2(v: Vec2): Vec2 {
    Vec2(RoundHalfEven(v.x) as real, RoundHalfEven(v.y) as real)
  }

  /** The node `UpdateNearestIfExists` targets for the scaled location `p`:
      the `(int2)` cast of the rounded location. */
  function NearestKey(p: Vec2): Int2 {
    Trunc2(Round2(p))
  }

  /** Every stored weight lies in [lo, hi]. */
  ghost predicate ValuesWithin(s: WeightStore, lo: real, hi: real) {
    forall k | k in s.values :: lo <= s.values[k].value <= hi
  }

  // ---------------------------------------------------------------------------

  /** A sample marks exactly the four corner nodes of `p` as used by `chunk`,
      touches no other chunk's set, keeps the refcount invariant, and its
      value is the bilinear sample of the weights then stored there. */
  lemma WeightSampleRequestsTheCorners(s: WeightStore, chunk: ChunkID, p: Vec2, defaultValue: real)
    ensures var (s', v) := WeightSample(s, chunk, p, defaultValue);
      var keys := CachedPerlinOctave.CornerKeys(p);
      && UsedBy(s', chunk) == UsedBy(s, chunk) + Elements(keys)
      && (forall o | o in s.usages && o != chunk :: o in s'.usages && s'.usages[o] == s.usages[o])
      && Elements(keys) <= s'.values.Keys
      && v == SampleCorners(Frac2(p), StoredQuad(s', keys))
    ensures Refcounted(s) ==> Refcounted(WeightSample(s, chunk, p, defaultValue).0)
  {
    var keys := CachedPerlinOctave.CornerKeys(p);
    GetQuadMarksExactlyTheKeys(s, chunk, keys, Constant(defaultValue));
    if Refcounted(s) {
      GetQuadPreservesRefcount(s, chunk, keys, Constant(defaultValue));
    }
  }

  /** Four equal corner weights are sampled as that weight. */
  lemma WeightSampleOfEqualCorners(s: WeightStore, chunk: ChunkID, p: Vec2, defaultValue: real, w: real)
    requires var s' := WeightSample(s, chunk, p, defaultValue).0;
      var keys := CachedPerlinOctave.CornerKeys(p);
      Elements(keys) <= s'.values.Keys && StoredQuad(s', keys) == Quad(w, w, w, w)
    ensures WeightSample(s, chunk, p, defaultValue).1 == w
  {
    WeightSampleRequestsTheCorners(s, chunk, p, defaultValue);
    SampleCornersOfEqualValues(Frac2(p), w);
  }

  lemma GetKeepsValuesWithin(s: WeightStore, chunk: ChunkID, key: Int2, defaultValue: real, lo: real, hi: real)
    requires ValuesWithin(s, lo, hi) && lo <= defaultValue <= hi
    ensures ValuesWithin(StoreGet(s, chunk, key, Constant(defaultValue)).0, lo, hi)
  {
  }

  /** With every stored weight and the default in [lo, hi], a sample stays in
      [lo, hi] and so does every weight stored after it. */
  lemma {:induction false} WeightSampleWithin(s: WeightStore, chunk: ChunkID, p: Vec2, defaultValue: real, lo: real, hi: real)
    requires ValuesWithin(s, lo, hi) && lo <= defaultValue <= hi
    ensures ValuesWithin(WeightSample(s, chunk, p, defaultValue).0, lo, hi)
    ensures lo <= WeightSample(s, chunk, p, defaultValue).1 <= hi
  {
    var keys := CachedPerlinOctave.CornerKeys(p);
    var g := Constant(defaultValue);
    GetQuadIsFourGets(s, chunk, keys, g);
    var s0 := StoreGet(s, chunk, keys.c0, g).0;
    var s1 := StoreGet(s0, chunk, keys.c1, g).0;
    var s2 := StoreGet(s1, chunk, keys.c2, g).0;
    GetKeepsValuesWithin(s, chunk, keys.c0, defaultValue, lo, hi);
    GetKeepsValuesWithin(s0, chunk, keys.c1, defaultValue, lo, hi);
    GetKeepsValuesWithin(s1, chunk, keys.c2, defaultValue, lo, hi);
    GetKeepsValuesWithin(s2, chunk, keys.c3, defaultValue, lo, hi);
    var s' := WeightSample(s, chunk, p, defaultValue).0;
    WeightSampleRequestsTheCorners(s, chunk, p, defaultValue);
    var q := StoredQuad(s', keys);
    assert lo <= q.c0 <= hi && lo <= q.c1 <= hi && lo <= q.c2 <= hi && lo <= q.c3 <= hi;
    SampleCornersBounded(Frac2(p), q, lo, hi);
  }

  /** Over a store holding only defaults, every sample is the default. */
  lemma WeightSampleOfDefaults(s: WeightStore, chunk: ChunkID, p: Vec2, defaultValue: real)
    requires ValuesWithin(s, defaultValue, defaultValue)
    ensures WeightSample(s, chunk, p, defaultValue).1 == defaultValue
  {
    WeightSampleWithin(s, chunk, p, defaultValue, defaultValue, defaultValue);
  }

  /** An update that keeps weights in [lo, hi] keeps the store within it. */
  lemma UpdateKeepsValuesWithin(s: WeightStore, key: Int2, updator: real -> real, lo: real, hi: real)
    requires ValuesWithin(s, lo, hi)
    requires forall w | lo <= w <= hi :: lo <= updator(w) <= hi
    ensures ValuesWithin(StoreUpdate(s, key, updator).0, lo, hi)
  {
  }

  /** The nearest node is within half a unit of `p` on each axis, and it is
      one of the four corner nodes `Get` reads at `p` (not necessarily the
      cell's own corner 00). */
  lemma {:induction false} NearestKeyIsACorner(p: Vec2)
    ensures var k := NearestKey(p);
      && -0.5 <= k.x as real - p.x <= 0.5 && -0.5 <= k.y as real - p.y <= 0.5
      && k in Elements(CachedPerlinOctave.CornerKeys(p))
  {
    var rx, ry := RoundHalfEven(p.x), RoundHalfEven(p.y);
    TruncOfWhole(rx);
    TruncOfWhole(ry);
    assert NearestKey(p) == Int2(rx, ry);
    CachedPerlinOctave.CornerKeysAreLatticeNeighbours(p);
    var fx, fy := p.x.Floor, p.y.Floor;
    assert fx <= rx <= fx + 1 && fy <= ry <= fy + 1;
  }

  /** The nearest node of a point three quarters of the way along the first
      axis is the corner 10 of its cell, not the cell's corner 00. */
  lemma NearestKeyIsNotTheCell()
    ensures NearestKey(Vec2(0.75, 0.0)) == Int2(1, 0)
    ensures CachedPerlinOctave.CornerKeys(Vec2(0.75, 0.0)).c0 == Int2(0, 0)
  {
    assert NearestKey(Vec2(0.75, 0.0)) == Int2(1, 0) by {
      assert RoundHalfEven(0.75) == 1 && RoundHalfEven(0.0) == 0;
      TruncOfWhole(1);
      TruncOfWhole(0);
    }
    assert CachedPerlinOctave.CornerKeys(Vec2(0.75, 0.0)).c0 == Int2(0, 0) by {
      assert (0.75).Floor == 0 && (0.0).Floor == 0;
      CachedPerlinOctave.CornerKeysAreLatticeNeighbours(Vec2(0.75, 0.0));
    }
  }

  // ---------------------------------------------------------------------------

  class CachedWeightMap {
    const cached: CachedValueStore<ChunkID, Int2, real>
    const scale: real
    const defaultValue: real

    /** The constructor: an empty store whose generator yields `defaultValue`,
        registered with the cachers. The scale is not checked. */
    constructor (scale: real, defaultValue: real, cachers: ChunkCachers)
      requires cachers.Valid()
      modifies cachers
      ensures fresh(cached) && cached.Valid() && cached.Model() == EmptyStore()
      ensures this.scale == scale && this.defaultValue == defaultValue
      ensures cached.generator == Constant(defaultValue)
      ensures cachers.Valid() && cachers.instances == old(cachers.instances) + {WeightCacher(cached)}
    {
      this.scale := scale;
      this.defaultValue := defaultValue;
      cached := new CachedValueStore(Constant(defaultValue));
      new;
      cachers.Register(WeightCacher(cached));
    }

    /** `UnloadChunk(id)`: `UnloadID` on the store; false where it throws. */
    method UnloadChunk(id: ChunkID) returns (ok: bool)
      modifies cached
      ensures ok <==> Unloadable(old(cached.Model()), id)
      ensures ok ==> cached.Model() == StoreUnload(old(cached.Model()), id).value
      ensures old(cached.Valid()) ==> ok && cached.Valid()
    {
      if cached.Valid() {
        UnloadPreservesRefcount(cached.Model(), id);
      }
      ok := cached.UnloadID(id);
    }

    /** `Get(chunk, location)`. */
    method Get(chunk: ChunkID, location: Vec2) returns (r: real)
      requires cached.generator == Constant(defaultValue)
      modifies cached
      ensures (cached.Model(), r) == WeightSample(old(cached.Model()), chunk, location.Scale(scale), defaultValue)
      ensures old(cached.Valid()) ==> cached.Valid()
    {
      ghost var s := cached.Model();
      var p := location.Scale(scale);
      var keys := CachedPerlinOctave.CornerKeys(p);
      var w0 := cached.Get(chunk, keys.c0);
      var w1 := cached.Get(chunk, keys.c1);
      var w2 := cached.Get(chunk, keys.c2);
      var w3 := cached.Get(chunk, keys.c3);
      r := SampleCorners(Frac2(p), Quad(w0, w1, w2, w3));
      GetQuadIsFourGets(s, chunk, keys, cached.generator);
      if Refcounted(s) {
        GetQuadPreservesRefcount(s, chunk, keys, cached.generator);
      }
    }

    /** `UpdateNearestIfExists(location, updator)`: apply `updator` to the node
        nearest the scaled location if it is stored; never creates a node. */
    method UpdateNearestIfExists(location: Vec2, updator: real -> real) returns (found: bool)
      modifies cached
      ensures (cached.Model(), found) == StoreUpdate(old(cached.Model()), NearestKey(location.Scale(scale)), updator)
      ensures old(cached.Valid()) ==> cached.Valid()
    {
      if cached.Valid() {
        UpdatePreservesRefcount(cached.Model(), NearestKey(location.Scale(scale)), updator);
      }
      var p := location.Scale(scale);
      var nearest := Round2(p);
      found := cached.UpdateIfExists(Trunc2(nearest), updator);
    }

    /** The overload with an extra argument curried into the updator. */
    method UpdateNearestIfExistsWith<T>(location: Vec2, updator: (real, T) -> real, genarg: T) returns (found: bool)
      modifies cached
      ensures (cached.Model(), found) ==
                StoreUpdate(old(cached.Model()), NearestKey(location.Scale(scale)), w => updator(w, genarg))
      ensures old(cached.Valid()) ==> cached.Valid()
    {
      found := UpdateNearestIfExists(location, w => updator(w, genarg));
    }
  }
}

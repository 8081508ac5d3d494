/** PersistentNoiseOctave: an older octave of gradient noise that keeps its own
    copy of the refcounted gradient cache instead of using CachedValueStore.
    Its state has the same shape as a store (chunk -> used corners, corner ->
    counted gradient), so `Store` from ValueStore describes it.

    Two things set it apart from the store it copies:
    - `Grad` on a present corner marks it used but never writes the
      incremented count back, so counts lag behind the owners;
    - new gradients come from `rand.NextFloat2Direction()` on a `readonly`
      struct field, which draws from a copy and never advances the field, so
      every new gradient is the same direction (a constant of the octave). */
module PersistentNoiseOctaves {
  import opened Common
  import opened ChunkIds
  import opened MathUtils
  import opened ValueStore

  type GradStore = Store<ChunkID, Vec2, Vec2>

  /** `Grad(chunk, xy)` as written: a present corner is added to the chunk's
      set but keeps its old count; an absent one is stored with count 1 and
      the octave's one direction. */
  function GradAsWritten(s: GradStore, chunk: ChunkID, xy: Vec2, direction: Vec2): (GradStore, Vec2) {
    var s1 := WithUsageSet(s, chunk);
    var used := s1.usages[chunk];
    if xy in s1.values then
      if xy !in used then
        (Store(s1.usages[chunk := used + {xy}], s1.values), s1.values[xy].value)
      else
        (s1, s1.values[xy].value)
    else
      (Store(s1.usages[chunk := used + {xy}], s1.values[xy := Entry(1, direction)]), direction)
  }

  /** `Grad` with the incremented count written back: the store's own `Get`
      over a generator that always yields `direction`. */
  function GradCorrected(s: GradStore, chunk: ChunkID, xy: Vec2, direction: Vec2): (GradStore, Vec2) {
    StoreGet(s, chunk, xy, (_: Vec2) => direction)
  }

  /** `Grad` as written for each corner of `keys` in order. */
  function GradKeys(s: GradStore, chunk: ChunkID, keys: seq<Vec2>, direction: Vec2): (r: (GradStore, seq<Vec2>))
    ensures |r.1| == |keys|
    decreases |keys|
  {
    if keys == [] then (s, [])
    else
      var (s0, g) := GradAsWritten(s, chunk, keys[0], direction);
      var (s1, gs) := GradKeys(s0, chunk, keys[1..], direction);
      (s1, [g] + gs)
  }

  function CornerSeq(p: Vec2): seq<Vec2> {
    var c := Corners(p);
    [c.c0, c.c1, c.c2, c.c3]
  }

  /** What `Get` does with the scaled position `p`: the four `Grad` calls at
      the float corners of `p` in corner order, then the noise at frac(p). */
  function NoiseAt(s: GradStore, chunk: ChunkID, p: Vec2, direction: Vec2): (GradStore, real) {
    var (s', g) := GradKeys(s, chunk, CornerSeq(p), direction);
    (s', PerlinNoiseFromGrads(Frac2(p), Quad(g[0], g[1], g[2], g[3])))
  }

  /** The invariant the code as written still keeps: a stored count is
      positive and never more than the number of chunks using the corner. */
  ghost predicate CountsAtMostOwners(s: GradStore) {
    forall k | k in s.values :: 0 < s.values[k].useCount <= |Owners(s, k)|
  }

  /** Every stored gradient is `direction`. */
  ghost predicate AllGradsAre(s: GradStore, direction: Vec2) {
    forall k | k in s.values :: s.values[k].value == direction
  }

  // ---------------------------------------------------------------------------
  // One Grad

  /** A present corner: its stored gradient is returned, it is marked used by
      `chunk`, and no count changes (the write-back is missing). */
  lemma GradOfPresentKey(s: GradStore, chunk: ChunkID, xy: Vec2, direction: Vec2)
    requires xy in s.values
    ensures var (s', g) := GradAsWritten(s, chunk, xy, direction);
      && g == s.values[xy].value
      && s'.values == s.values
      && chunk in s'.usages && s'.usages[chunk] == UsedBy(s, chunk) + {xy}
  {
  }

  /** An absent corner: stored with count 1 and the octave's direction, and
      marked used by `chunk`. */
  lemma GradOfAbsentKey(s: GradStore, chunk: ChunkID, xy: Vec2, direction: Vec2)
    requires xy !in s.values
    ensures var (s', g) := GradAsWritten(s, chunk, xy, direction);
      && g == direction
      && s'.values == s.values[xy := Entry(1, direction)]
      && chunk in s'.usages && s'.usages[chunk] == UsedBy(s, chunk) + {xy}
  {
  }

  lemma OwnersAfterGrad(s: GradStore, chunk: ChunkID, xy: Vec2, direction: Vec2, k: Vec2)
    ensures Owners(GradAsWritten(s, chunk, xy, direction).0, k) ==
              if k == xy then Owners(s, k) + {chunk} else Owners(s, k)
  {
    var s' := GradAsWritten(s, chunk, xy, direction).0;
    var s1 := WithUsageSet(s, chunk);
    assert Owners(s1, k) == Owners(s, k);
    if k != xy {
      forall o ensures o in Owners(s', k) <==> o in Owners(s1, k) {
        if o == chunk {
          assert k in s'.usages[chunk] <==> k in s1.usages[chunk];
        }
      }
    }
  }

  /** `Grad` as written keeps counts positive and at most the owners. */
  lemma {:induction false} GradKeepsCountsAtMostOwners(s: GradStore, chunk: ChunkID, xy: Vec2, direction: Vec2)
    requires CountsAtMostOwners(s)
    ensures CountsAtMostOwners(GradAsWritten(s, chunk, xy, direction).0)
  {
    var s' := GradAsWritten(s, chunk, xy, direction).0;
    forall k | k in s'.values
      ensures 0 < s'.values[k].useCount <= |Owners(s', k)|
    {
      OwnersAfterGrad(s, chunk, xy, direction, k);
      if k == xy {
        assert chunk in Owners(s', k);
        assert |Owners(s', k)| >= 1;
        if k in s.values {
          assert |Owners(s, k)| <= |Owners(s, k) + {chunk}|;
        }
      }
    }
  }

  /** Unloading keeps counts positive and at most the owners, whenever it
      does not throw. */
  lemma {:induction false} UnloadKeepsCountsAtMostOwners(s: GradStore, chunk: ChunkID)
    requires CountsAtMostOwners(s) && Unloadable(s, chunk)
    ensures CountsAtMostOwners(StoreUnload(s, chunk).value)
  {
    var s' := StoreUnload(s, chunk).value;
    forall k | k in s'.values
      ensures 0 < s'.values[k].useCount <= |Owners(s', k)|
    {
      OwnersAfterUnload(s, chunk, k);
      if chunk in Owners(s, k) {
        assert |Owners(s, k) - {chunk}| == |Owners(s, k)| - 1;
      } else {
        assert Owners(s, k) - {chunk} == Owners(s, k);
      }
    }
  }

  /** The RNG is never advanced: with every stored gradient equal to
      `direction`, `Grad` returns `direction` and keeps it so. */
  lemma GradIsAlwaysTheDirection(s: GradStore, chunk: ChunkID, xy: Vec2, direction: Vec2)
    requires AllGradsAre(s, direction)
    ensures GradAsWritten(s, chunk, xy, direction).1 == direction
    ensures AllGradsAre(GradAsWritten(s, chunk, xy, direction).0, direction)
  {
  }

  lemma UnloadKeepsAllGradsAre(s: GradStore, chunk: ChunkID, direction: Vec2)
    requires AllGradsAre(s, direction) && Unloadable(s, chunk)
    ensures AllGradsAre(StoreUnload(s, chunk).value, direction)
  {
  }

  // ---------------------------------------------------------------------------
  // The missing write-back (see README, Findings)

  /** As written: two chunks use one corner, but its count stays 1; unloading
      the first evicts the gradient the second still uses, and unloading the
      second then meets the missing key (KeyNotFoundException). */
  lemma MissingWriteBackEvictsEarly(a: ChunkID, b: ChunkID, xy: Vec2, direction: Vec2)
    requires a != b
    ensures var s1 := GradAsWritten(EmptyStore(), a, xy, direction).0;
      var s2 := GradAsWritten(s1, b, xy, direction).0;
      && s2.values[xy].useCount == 1 && Owners(s2, xy) == {a, b}
      && StoreUnload(s2, a).Ok?
      && xy !in StoreUnload(s2, a).value.values
      && xy in StoreUnload(s2, a).value.usages[b]
      && StoreUnload(StoreUnload(s2, a).value, b) == Err(KeyNotFound)
  {
    var s1 := GradAsWritten(EmptyStore(), a, xy, direction).0;
    var s2 := GradAsWritten(s1, b, xy, direction).0;
    assert Owners(s2, xy) == {a, b};
    var s3 := StoreUnload(s2, a).value;
    assert xy !in s3.values;
    assert !Unloadable(s3, b);
  }

  /** Corrected: with the count written back, the refcount invariant holds,
      so the same two unloads succeed and the corner survives the first. */
  lemma CorrectedGradKeepsRefcount(s: GradStore, chunk: ChunkID, xy: Vec2, direction: Vec2)
    requires Refcounted(s)
    ensures Refcounted(GradCorrected(s, chunk, xy, direction).0)
    ensures var s' := GradCorrected(s, chunk, xy, direction).0;
      forall id | id in s'.usages :: StoreUnload(s', id).Ok?
  {
    var s' := GradCorrected(s, chunk, xy, direction).0;
    GetPreservesRefcount(s, chunk, xy, (_: Vec2) => direction);
    forall id | id in s'.usages
      ensures StoreUnload(s', id).Ok?
    {
      UnloadPreservesRefcount(s', id);
    }
  }

  lemma CorrectedKeepsSharedCorner(a: ChunkID, b: ChunkID, xy: Vec2, direction: Vec2)
    requires a != b
    ensures var s1 := GradCorrected(EmptyStore(), a, xy, direction).0;
      var s2 := GradCorrected(s1, b, xy, direction).0;
      && s2.values[xy].useCount == 2
      && StoreUnload(s2, a).Ok?
      && xy in StoreUnload(s2, a).value.values
      && StoreUnload(StoreUnload(s2, a).value, b).Ok?
  {
    var s1 := GradCorrected(EmptyStore(), a, xy, direction).0;
    var s2 := GradCorrected(s1, b, xy, direction).0;
    var s3 := StoreUnload(s2, a).value;
    assert xy in s3.values;
    assert Unloadable(s3, b);
  }

  // ---------------------------------------------------------------------------
  // Four Grads

  /** The Grads add exactly their corners to the chunk's set, leave every
      other chunk's set alone, and store each corner they returned. */
  lemma {:induction false} GradKeysMarksTheKeys(s: GradStore, chunk: ChunkID, keys: seq<Vec2>, direction: Vec2)
    ensures var (s', gs) := GradKeys(s, chunk, keys, direction);
      && UsedBy(s', chunk) == UsedBy(s, chunk) + (set k | k in keys)
      && (forall o | o in s.usages && o != chunk :: o in s'.usages && s'.usages[o] == s.usages[o])
      && (forall i | 0 <= i < |keys| :: keys[i] in s'.values && s'.values[keys[i]].value == gs[i])
      && (forall k | k in s.values :: k in s'.values && s'.values[k].value == s.values[k].value)
    decreases |keys|
  {
    if keys != [] {
      var s0 := GradAsWritten(s, chunk, keys[0], direction).0;
      GradKeysMarksTheKeys(s0, chunk, keys[1..], direction);
      SetOfConsSeq(keys);
      var (s', gs) := GradKeys(s, chunk, keys, direction);
      forall i | 0 <= i < |keys|
        ensures keys[i] in s'.values && s'.values[keys[i]].value == gs[i]
      {
        if i > 0 {
          assert keys[i] == keys[1..][i - 1];
        }
      }
    }
  }

  lemma {:induction false} GradKeysAllDirection(s: GradStore, chunk: ChunkID, keys: seq<Vec2>, direction: Vec2)
    requires AllGradsAre(s, direction)
    ensures AllGradsAre(GradKeys(s, chunk, keys, direction).0, direction)
    ensures forall i | 0 <= i < |keys| :: GradKeys(s, chunk, keys, direction).1[i] == direction
    decreases |keys|
  {
    if keys != [] {
      GradIsAlwaysTheDirection(s, chunk, keys[0], direction);
      GradKeysAllDirection(GradAsWritten(s, chunk, keys[0], direction).0, chunk, keys[1..], direction);
    }
  }

  /** `Get` requests exactly the four float corners of the scaled position,
      and leaves every other chunk's set alone. */
  lemma NoiseAtRequestsTheCorners(s: GradStore, chunk: ChunkID, p: Vec2, direction: Vec2)
    ensures var s' := NoiseAt(s, chunk, p, direction).0;
      && UsedBy(s', chunk) == UsedBy(s, chunk) + Elements(Corners(p))
      && Elements(Corners(p)) <= s'.values.Keys
      && (forall o | o in s.usages && o != chunk :: o in s'.usages && s'.usages[o] == s.usages[o])
  {
    var ks := CornerSeq(p);
    GradKeysMarksTheKeys(s, chunk, ks, direction);
    assert (set k | k in ks) == Elements(Corners(p));
  }

  /** Since every gradient is the one direction, the noise depends on the
      position only: it is the noise of four equal gradients. */
  lemma NoiseAtOfOneDirection(s: GradStore, chunk: ChunkID, p: Vec2, direction: Vec2)
    requires AllGradsAre(s, direction)
    ensures NoiseAt(s, chunk, p, direction).1 == PerlinNoiseFromGrads(Frac2(p), Quad(direction, direction, direction, direction))
    ensures AllGradsAre(NoiseAt(s, chunk, p, direction).0, direction)
  {
    GradKeysAllDirection(s, chunk, CornerSeq(p), direction);
  }

  /** The four Grads one after the other. */
  lemma NoiseAtIsFourGrads(s: GradStore, chunk: ChunkID, p: Vec2, direction: Vec2)
    ensures var c := Corners(p);
      var (s0, g0) := GradAsWritten(s, chunk, c.c0, direction);
      var (s1, g1) := GradAsWritten(s0, chunk, c.c1, direction);
      var (s2, g2) := GradAsWritten(s1, chunk, c.c2, direction);
      var (s3, g3) := GradAsWritten(s2, chunk, c.c3, direction);
      NoiseAt(s, chunk, p, direction) == (s3, PerlinNoiseFromGrads(Frac2(p), Quad(g0, g1, g2, g3)))
  {
    var c := Corners(p);
    var (s0, g0) := GradAsWritten(s, chunk, c.c0, direction);
    var (s1, g1) := GradAsWritten(s0, chunk, c.c1, direction);
    var (s2, g2) := GradAsWritten(s1, chunk, c.c2, direction);
    var (s3, g3) := GradAsWritten(s2, chunk, c.c3, direction);
    var ks := CornerSeq(p);
    assert ks[1..] == [c.c1, c.c2, c.c3];
    assert ks[1..][1..] == [c.c2, c.c3];
    assert ks[1..][1..][1..] == [c.c3];
    assert [c.c3][1..] == [];
    assert GradKeys(s3, chunk, [], direction) == (s3, []);
    assert [g3] + [] == [g3] && [g2] + [g3] == [g2, g3];
    assert [g1] + [g2, g3] == [g1, g2, g3] && [g0] + [g1, g2, g3] == [g0, g1, g2, g3];
    assert GradKeys(s2, chunk, [c.c3], direction) == (s3, [g3]);
    assert GradKeys(s1, chunk, [c.c2, c.c3], direction) == (s3, [g2, g3]);
    assert GradKeys(s0, chunk, [c.c1, c.c2, c.c3], direction) == (s3, [g1, g2, g3]);
    assert GradKeys(s, chunk, ks, direction) == (s3, [g0, g1, g2, g3]);
  }

  // ---------------------------------------------------------------------------

  class PersistentNoiseOctave {
    const octaveScale: real
    /** What `rand.NextFloat2Direction()` yields on every call: the first
        direction of the generator seeded from the scale's bits. */
    const direction: Vec2
    var chunkToUsedGrads: map<ChunkID, set<Vec2>>
    var grads: map<Vec2, Entry<Vec2>>

    function Model(): GradStore
      reads this
    {
      Store(chunkToUsedGrads, grads)
    }

    /** The constructor past its scale check (see `OfScale`). */
    constructor (scale: real, direction: Vec2)
      requires scale > 0.0
      ensures octaveScale == scale && this.direction == direction
      ensures Model() == EmptyStore()
    {
      octaveScale := scale;
      this.direction := direction;
      chunkToUsedGrads := map[];
      grads := map[];
    }

    /** `GetUsedGrads(chunk)`: the chunk's set, registering an empty one. */
    method GetUsedGrads(chunk: ChunkID) returns (used: set<Vec2>)
      modifies this
      ensures Model() == WithUsageSet(old(Model()), chunk)
      ensures used == chunkToUsedGrads[chunk]
    {
      if chunk !in chunkToUsedGrads {
        chunkToUsedGrads := chunkToUsedGrads[chunk := {}];
      }
      used := chunkToUsedGrads[chunk];
    }

    /** `UnloadChunk(chunk)`: give back one use of every corner the chunk used,
        dropping those reaching zero, then drop its set. False where the
        indexer throws KeyNotFoundException (a corner already evicted). */
    method UnloadChunk(chunk: ChunkID) returns (ok: bool)
      modifies this
      ensures ok <==> Unloadable(old(Model()), chunk)
      ensures ok ==> Model() == StoreUnload(old(Model()), chunk).value
      ensures !ok ==> chunkToUsedGrads == old(chunkToUsedGrads)
    {
      var used := GetUsedGrads(chunk);
      var remaining := used;
      while remaining != {}
        invariant remaining <= used
        invariant chunkToUsedGrads == WithUsageSet(old(Model()), chunk).usages
        invariant used == chunkToUsedGrads[chunk]
        invariant forall k | k in used - remaining :: k in old(grads)
        invariant grads == Decremented(old(grads), used - remaining)
        decreases remaining
      {
        var grad :| grad in remaining;
        if grad !in grads {
          assert grad !in old(grads);
          return false;
        }
        var value := grads[grad];
        value := value.(useCount := value.useCount - 1);
        if value.useCount == 0 {
          grads := grads - {grad};
        } else {
          grads := grads[grad := value];
        }
        remaining := remaining - {grad};
        assert grads == Decremented(old(grads), used - remaining);
      }
      chunkToUsedGrads := chunkToUsedGrads - {chunk};
      return true;
    }

    /** `Grad(chunk, xy)`, as written. */
    method Grad(chunk: ChunkID, xy: Vec2) returns (g: Vec2)
      modifies this
      ensures (Model(), g) == GradAsWritten(old(Model()), chunk, xy, direction)
    {
      var used := GetUsedGrads(chunk);
      var grad: Entry<Vec2>;
      if xy in grads {
        grad := grads[xy];
        if xy !in used {
          chunkToUsedGrads := chunkToUsedGrads[chunk := used + {xy}];
          grad := grad.(useCount := grad.useCount + 1);
        }
      } else {
        grad := Entry(1, direction);
        chunkToUsedGrads := chunkToUsedGrads[chunk := used + {xy}];
        grads := grads[xy := grad];
      }
      g := grad.value;
    }

    /** `Get(chunk, position)`: scale, take the four float corners, Grad each
        in corner order, and return the noise at the fractional position. */
    method Get(chunk: ChunkID, position: Vec2) returns (r: real)
      modifies this
      ensures (Model(), r) == NoiseAt(old(Model()), chunk, position.Scale(octaveScale), direction)
    {
      ghost var s := Model();
      var p := position.Scale(octaveScale);
      var corners := Corners(p);
      var g0 := Grad(chunk, corners.c0);
      var g1 := Grad(chunk, corners.c1);
      var g2 := Grad(chunk, corners.c2);
      var g3 := Grad(chunk, corners.c3);
      r := PerlinNoiseFromGrads(Frac2(p), Quad(g0, g1, g2, g3));
      NoiseAtIsFourGrads(s, chunk, p, direction);
    }
  }

  /** The constructor with its check: an ArgumentException for a scale that is
      not positive, NaN or infinite; otherwise the random source is seeded
      from the scale, and `firstDirection(scale)` is the one direction it
      yields. */
  method OfScale(scale: Float, firstDirection: real -> Vec2) returns (r: Result<PersistentNoiseOctave>)
    ensures r.Err? <==> !IsValidScale(scale)
    ensures r.Err? ==> r.error == ArgumentError
    ensures r.Ok? ==> fresh(r.value) && r.value.octaveScale == scale.value
                      && r.value.direction == firstDirection(scale.value)
                      && r.value.Model() == EmptyStore()
  {
    match CheckScale(scale) {
      case Err(e) =>
        r := Err(e);
      case Ok(s) =>
        var octave := new PersistentNoiseOctave(s, firstDirection(s));
        r := Ok(octave);
    }
  }
}

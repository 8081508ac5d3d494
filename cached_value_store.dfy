/** The reference-counted, owner-scoped value cache (CachedValueStore<ID, K, V>).
    A store maps keys to generated values, remembers per owner id the set of keys
    that owner has used, and keeps a use count per key; unloading an owner gives
    back one use of every key it used and evicts the keys nobody uses any more.

    The pure part (Store, StoreGet, StoreUnload) states what one call does to the
    whole state; the class CachedValueStore is the mutable object the source has,
    proved to follow those functions; the lemmas state what the design promises:
    the refcount invariant, idempotent marking, eviction and stability. */
module ValueStore {
  import opened Common

  /** One cached value with its use count (the source's `Value` struct). */
  datatype Entry<V> = Entry(useCount: int, value: V)

  /** The two dictionaries of a store: `usages` (owner -> keys it used)
      and `values` (key -> entry). */
  datatype Store<ID, K, V> = Store(usages: map<ID, set<K>>, values: map<K, Entry<V>>)

  function EmptyStore<ID, K, V>(): Store<ID, K, V> {
    Store(map[], map[])
  }

  /** The owners whose usage set holds `key`. */
  function Owners<ID, K, V>(s: Store<ID, K, V>, key: K): set<ID> {
    set id | id in s.usages && key in s.usages[id]
  }

  /** The cache invariant: the count of every stored key is the number of
      owners using it and is positive, and every used key is stored; so a key
      is stored exactly when some owner uses it. */
  ghost predicate Refcounted<ID, K, V>(s: Store<ID, K, V>) {
    && (forall k | k in s.values ::
          s.values[k].useCount == |Owners(s, k)| && s.values[k].useCount > 0)
    && (forall id, k | id in s.usages && k in s.usages[id] :: k in s.values)
  }

  /** GetUsedValues: the owner's usage set, created empty when missing. */
  function WithUsageSet<ID, K, V>(s: Store<ID, K, V>, id: ID): (r: Store<ID, K, V>)
    ensures id in r.usages && r.values == s.values
    ensures id in s.usages ==> r == s
    ensures id !in s.usages ==> r.usages == s.usages[id := {}]
  {
    if id in s.usages then s else Store(s.usages[id := {}], s.values)
  }

  /** What `Get(id, key)` does: returns the stored value, marking the key used by
      `id` and counting `id` once; or generates, stores with count 1 and marks. */
  function StoreGet<ID, K, V>(s: Store<ID, K, V>, id: ID, key: K, generator: K -> V): (Store<ID, K, V>, V) {
    var s1 := WithUsageSet(s, id);
    var used := s1.usages[id];
    if key in s1.values then
      var e := s1.values[key];
      if key !in used then
        (Store(s1.usages[id := used + {key}], s1.values[key := e.(useCount := e.useCount + 1)]), e.value)
      else
        (s1, e.value)
    else
      var e := Entry(1, generator(key));
      (Store(s1.usages[id := used + {key}], s1.values[key := e]), e.value)
  }

  /** The entries after giving back one use of every key in `used`: a key whose
      count drops to zero is removed. */
  function Decremented<K, V>(values: map<K, Entry<V>>, used: set<K>): map<K, Entry<V>> {
    map k | k in values && (k !in used || values[k].useCount - 1 != 0) ::
      if k in used then values[k].(useCount := values[k].useCount - 1) else values[k]
  }

  /** Unloading reads each used key with the throwing indexer: it succeeds
      exactly when every key the owner used is still stored. */
  predicate Unloadable<ID, K, V>(s: Store<ID, K, V>, id: ID) {
    id in s.usages ==> forall k | k in s.usages[id] :: k in s.values
  }

  /** What `UnloadID(id)` does: decrements, evicts at zero, drops the usage set;
      or fails with KeyNotFound when a used key is no longer stored. */
  function StoreUnload<ID, K, V>(s: Store<ID, K, V>, id: ID): (r: Result<Store<ID, K, V>>)
    ensures r.Ok? <==> Unloadable(s, id)
  {
    if !Unloadable(s, id) then Err(KeyNotFound)
    else
      var used := if id in s.usages then s.usages[id] else {};
      Ok(Store(s.usages - {id}, Decremented(s.values, used)))
  }

  /** `UpdateIfExists(key, updator)`, which the weight map calls, is assumed
      to behave as follows: the stored value is replaced by `updator` of it when
      the key is present; counts and usage sets are untouched. */
  function StoreUpdate<ID, K, V>(s: Store<ID, K, V>, key: K, updator: V -> V): (Store<ID, K, V>, bool) {
    if key in s.values then
      (Store(s.usages, s.values[key := s.values[key].(value := updator(s.values[key].value))]), true)
    else
      (s, false)
  }

  // ---------------------------------------------------------------------------
  // Owner sets across one operation

  lemma OwnersAfterGet<ID, K, V>(s: Store<ID, K, V>, id: ID, key: K, generator: K -> V, k: K)
    ensures Owners(StoreGet(s, id, key, generator).0, k) ==
              if k == key then Owners(s, k) + {id} else Owners(s, k)
  {
    var s' := StoreGet(s, id, key, generator).0;
    var s1 := WithUsageSet(s, id);
    assert Owners(s1, k) == Owners(s, k);
    if k == key {
      assert Owners(s', k) == Owners(s1, k) + {id};
    } else {
      forall o ensures o in Owners(s', k) <==> o in Owners(s1, k) {
        if o == id {
          assert k in s'.usages[id] <==> k in s1.usages[id];
        }
      }
    }
  }

  lemma OwnersAfterUnload<ID, K, V>(s: Store<ID, K, V>, id: ID, k: K)
    requires Unloadable(s, id)
    ensures Owners(StoreUnload(s, id).value, k) == Owners(s, k) - {id}
  {
  }

  lemma OwnersAfterUpdate<ID, K, V>(s: Store<ID, K, V>, key: K, updator: V -> V, k: K)
    ensures Owners(StoreUpdate(s, key, updator).0, k) == Owners(s, k)
  {
  }

  // ---------------------------------------------------------------------------
  // The invariant is kept by every operation

  /** `Get` keeps the refcount invariant: the count of a key is the number of
      owners using it (never double-counted), and stored iff used. */
  lemma {:induction false} GetPreservesRefcount<ID, K, V>(s: Store<ID, K, V>, id: ID, key: K, generator: K -> V)
    requires Refcounted(s)
    ensures Refcounted(StoreGet(s, id, key, generator).0)
  {
    var s' := StoreGet(s, id, key, generator).0;
    forall k | k in s'.values
      ensures s'.values[k].useCount == |Owners(s', k)| && s'.values[k].useCount > 0
    {
      OwnersAfterGet(s, id, key, generator, k);
      if k == key && key in s.values {
        var used := WithUsageSet(s, id).usages[id];
        if key in used {
          assert id in Owners(s, key);
          assert Owners(s, key) + {id} == Owners(s, key);
        } else {
          assert id !in Owners(s, key);
        }
      } else if k == key {
        assert Owners(s, key) == {} by {
          forall o | o in Owners(s, key) ensures false { }
        }
        assert Owners(s, key) + {id} == {id};
      }
    }
    forall o, k | o in s'.usages && k in s'.usages[o] ensures k in s'.values {
      OwnersAfterGet(s, id, key, generator, k);
      assert o in Owners(s', k);
      if k != key {
        assert o in Owners(s, k);
      }
    }
  }

  /** `UnloadID` keeps the refcount invariant, and under it never meets a
      missing key. */
  lemma {:induction false} UnloadPreservesRefcount<ID, K, V>(s: Store<ID, K, V>, id: ID)
    requires Refcounted(s)
    ensures StoreUnload(s, id).Ok?
    ensures Refcounted(StoreUnload(s, id).value)
  {
    assert Unloadable(s, id);
    var s' := StoreUnload(s, id).value;
    forall k | k in s'.values
      ensures s'.values[k].useCount == |Owners(s', k)| && s'.values[k].useCount > 0
    {
      OwnersAfterUnload(s, id, k);
      if id in Owners(s, k) {
        assert |Owners(s, k) - {id}| == |Owners(s, k)| - 1;
      } else {
        assert Owners(s, k) - {id} == Owners(s, k);
      }
    }
    forall o, k | o in s'.usages && k in s'.usages[o] ensures k in s'.values {
      OwnersAfterUnload(s, id, k);
      assert o in Owners(s, k) && o != id;
      assert id in Owners(s, k) ==> |Owners(s, k) - {id}| == |Owners(s, k)| - 1;
      assert o in Owners(s, k) - {id};
    }
  }

  lemma {:induction false} UpdatePreservesRefcount<ID, K, V>(s: Store<ID, K, V>, key: K, updator: V -> V)
    requires Refcounted(s)
    ensures Refcounted(StoreUpdate(s, key, updator).0)
  {
    var s' := StoreUpdate(s, key, updator).0;
    forall k | k in s'.values
      ensures s'.values[k].useCount == |Owners(s', k)| && s'.values[k].useCount > 0
    {
      OwnersAfterUpdate(s, key, updator, k);
    }
  }

  // ---------------------------------------------------------------------------
  // What one Get promises

  /** A key already present: the stored value is returned and kept, and the
      generator plays no part (any two generators give the same outcome). */
  lemma GetPresentKey<ID, K, V>(s: Store<ID, K, V>, id: ID, key: K, g1: K -> V, g2: K -> V)
    requires key in s.values
    ensures StoreGet(s, id, key, g1).1 == s.values[key].value
    ensures StoreGet(s, id, key, g1).0.values[key].value == s.values[key].value
    ensures StoreGet(s, id, key, g1) == StoreGet(s, id, key, g2)
  {
  }

  /** An absent key: generated once, stored with count 1, marked used by `id`. */
  lemma GetAbsentKey<ID, K, V>(s: Store<ID, K, V>, id: ID, key: K, generator: K -> V)
    requires key !in s.values
    ensures var (s', v) := StoreGet(s, id, key, generator);
      && v == generator(key)
      && s'.values == s.values[key := Entry(1, v)]
      && s'.usages[id] == (if id in s.usages then s.usages[id] else {}) + {key}
  {
  }

  /** Marking is idempotent: a second Get of the same key by the same owner
      changes nothing and returns the same value. */
  lemma GetTwiceSameOwner<ID, K, V>(s: Store<ID, K, V>, id: ID, key: K, generator: K -> V)
    ensures var (s1, v1) := StoreGet(s, id, key, generator);
      StoreGet(s1, id, key, generator) == (s1, v1)
  {
  }

  /** A present key requested by an owner that has not used it yet gains exactly
      one use; one that has used it already keeps its count. */
  lemma GetCountsNewOwnerOnce<ID, K, V>(s: Store<ID, K, V>, id: ID, key: K, generator: K -> V)
    requires key in s.values
    ensures var s' := StoreGet(s, id, key, generator).0;
      s'.values[key].useCount ==
        if id in s.usages && key in s.usages[id] then s.values[key].useCount
        else s.values[key].useCount + 1
  {
  }

  /** Get changes neither the value nor the count of any other key, and never
      the value of a key already stored. */
  lemma GetKeepsOtherEntries<ID, K, V>(s: Store<ID, K, V>, id: ID, key: K, generator: K -> V, k: K)
    requires k in s.values
    ensures var s' := StoreGet(s, id, key, generator).0;
      k in s'.values && s'.values[k].value == s.values[k].value
      && (k != key ==> s'.values[k] == s.values[k])
  {
  }

  // ---------------------------------------------------------------------------
  // What one UnloadID promises

  /** Unloading an owner with no usage set changes nothing. */
  lemma UnloadUnknownOwner<ID, K, V>(s: Store<ID, K, V>, id: ID)
    requires id !in s.usages
    ensures StoreUnload(s, id) == Ok(s)
  {
    assert Decremented(s.values, {}) == s.values;
    assert s.usages - {id} == s.usages;
  }

  /** Unloading drops the owner's usage set, gives back one use of each key it
      used, evicts those reaching zero, and leaves every other key as it was. */
  lemma UnloadEntries<ID, K, V>(s: Store<ID, K, V>, id: ID, k: K)
    requires id in s.usages && Unloadable(s, id) && k in s.values
    ensures var s' := StoreUnload(s, id).value;
      && id !in s'.usages
      && (k !in s.usages[id] ==> k in s'.values && s'.values[k] == s.values[k])
      && (k in s.usages[id] && s.values[k].useCount == 1 ==> k !in s'.values)
      && (k in s.usages[id] && s.values[k].useCount != 1 ==>
            k in s'.values && s'.values[k] == s.values[k].(useCount := s.values[k].useCount - 1))
  {
  }

  /** A key still used by an owner survives the unloading of any other owner,
      with its value: the determinism the samplers rely on while a chunk lives. */
  lemma {:induction false} UnloadOtherKeepsHeldKey<ID, K, V>(s: Store<ID, K, V>, id: ID, other: ID, k: K)
    requires Refcounted(s)
    requires id in s.usages && k in s.usages[id] && other != id
    ensures StoreUnload(s, other).Ok?
    ensures k in StoreUnload(s, other).value.values
    ensures StoreUnload(s, other).value.values[k].value == s.values[k].value
  {
    UnloadPreservesRefcount(s, other);
    var s' := StoreUnload(s, other).value;
    OwnersAfterUnload(s, other, k);
    assert id in Owners(s', k);
  }

  // ---------------------------------------------------------------------------
  // Gets in a row: how every sampler reads the corners of a cell

  /** `Get(id, k)` for each key of `keys` in order, threading the store. */
  function GetKeys<ID, K, V>(s: Store<ID, K, V>, id: ID, keys: seq<K>, generator: K -> V): (r: (Store<ID, K, V>, seq<V>))
    ensures |r.1| == |keys|
    decreases |keys|
  {
    if keys == [] then (s, [])
    else
      var (s0, v) := StoreGet(s, id, keys[0], generator);
      var (s1, vs) := GetKeys(s0, id, keys[1..], generator);
      (s1, [v] + vs)
  }

  /** `Get(id, k)` for the four keys in corner order. */
  function GetQuad<ID, K, V>(s: Store<ID, K, V>, id: ID, keys: Quad<K>, generator: K -> V): (Store<ID, K, V>, Quad<V>) {
    var (s', vs) := GetKeys(s, id, [keys.c0, keys.c1, keys.c2, keys.c3], generator);
    (s', Quad(vs[0], vs[1], vs[2], vs[3]))
  }

  /** The four Gets one after the other, each on the store the previous left. */
  lemma GetQuadIsFourGets<ID, K, V>(s: Store<ID, K, V>, id: ID, keys: Quad<K>, generator: K -> V)
    ensures var (s0, v0) := StoreGet(s, id, keys.c0, generator);
      var (s1, v1) := StoreGet(s0, id, keys.c1, generator);
      var (s2, v2) := StoreGet(s1, id, keys.c2, generator);
      var (s3, v3) := StoreGet(s2, id, keys.c3, generator);
      GetQuad(s, id, keys, generator) == (s3, Quad(v0, v1, v2, v3))
  {
    var (s0, v0) := StoreGet(s, id, keys.c0, generator);
    var (s1, v1) := StoreGet(s0, id, keys.c1, generator);
    var (s2, v2) := StoreGet(s1, id, keys.c2, generator);
    var (s3, v3) := StoreGet(s2, id, keys.c3, generator);
    var ks := [keys.c0, keys.c1, keys.c2, keys.c3];
    assert ks[1..] == [keys.c1, keys.c2, keys.c3];
    assert ks[1..][1..] == [keys.c2, keys.c3];
    assert ks[1..][1..][1..] == [keys.c3];
    assert [keys.c3][1..] == [];
    assert GetKeys(s3, id, [], generator) == (s3, []);
    assert [v3] + [] == [v3] && [v2] + [v3] == [v2, v3];
    assert [v1] + [v2, v3] == [v1, v2, v3] && [v0] + [v1, v2, v3] == [v0, v1, v2, v3];
    assert GetKeys(s2, id, [keys.c3], generator) == (s3, [v3]);
    assert GetKeys(s1, id, [keys.c2, keys.c3], generator) == (s3, [v2, v3]);
    assert GetKeys(s0, id, [keys.c1, keys.c2, keys.c3], generator) == (s3, [v1, v2, v3]);
    assert GetKeys(s, id, ks, generator) == (s3, [v0, v1, v2, v3]);
  }

  /** The values a store holds at four keys it holds. */
  function StoredQuad<ID, K, V>(s: Store<ID, K, V>, keys: Quad<K>): Quad<V>
    requires Elements(keys) <= s.values.Keys
  {
    Quad(s.values[keys.c0].value, s.values[keys.c1].value, s.values[keys.c2].value, s.values[keys.c3].value)
  }

  /** The keys an owner has used so far (none when it has no usage set). */
  function UsedBy<ID, K, V>(s: Store<ID, K, V>, id: ID): set<K> {
    if id in s.usages then s.usages[id] else {}
  }

  /** One Get leaves every stored key stored with its value, puts `key` in the
      store and in the owner's usage set, and touches no other owner. */
  lemma GetKeepsStoredAndMarks<ID, K, V>(s: Store<ID, K, V>, id: ID, key: K, generator: K -> V)
    ensures var (s', v) := StoreGet(s, id, key, generator);
      && key in s'.values && s'.values[key].value == v
      && (forall k | k in s.values :: k in s'.values && s'.values[k].value == s.values[k].value)
      && id in s'.usages && s'.usages[id] == UsedBy(s, id) + {key}
      && (forall o | o in s.usages && o != id :: o in s'.usages && s'.usages[o] == s.usages[o])
      && (forall o | o in s'.usages && o != id :: o in s.usages)
  {
  }

  /** A run of Gets keeps the refcount invariant. */
  lemma {:induction false} GetKeysPreservesRefcount<ID, K, V>(s: Store<ID, K, V>, id: ID, keys: seq<K>, generator: K -> V)
    requires Refcounted(s)
    ensures Refcounted(GetKeys(s, id, keys, generator).0)
    decreases |keys|
  {
    if keys != [] {
      GetPreservesRefcount(s, id, keys[0], generator);
      GetKeysPreservesRefcount(StoreGet(s, id, keys[0], generator).0, id, keys[1..], generator);
    }
  }

  /** A run of Gets adds exactly its keys to the owner's usage set, leaves
      every other owner's set alone, keeps every stored value, and returns for
      each key the value the store then holds for it. */
  lemma {:induction false} GetKeysMarksExactlyTheKeys<ID, K, V>(s: Store<ID, K, V>, id: ID, keys: seq<K>, generator: K -> V)
    ensures var (s', vs) := GetKeys(s, id, keys, generator);
      && (keys != [] ==> id in s'.usages)
      && UsedBy(s', id) == UsedBy(s, id) + (set k | k in keys)
      && (forall o | o in s.usages && o != id :: o in s'.usages && s'.usages[o] == s.usages[o])
      && (forall o | o in s'.usages && o != id :: o in s.usages)
      && (forall i | 0 <= i < |keys| :: keys[i] in s'.values && s'.values[keys[i]].value == vs[i])
      && (forall k | k in s.values :: k in s'.values && s'.values[k].value == s.values[k].value)
    decreases |keys|
  {
    if keys != [] {
      var (s0, v0) := StoreGet(s, id, keys[0], generator);
      GetKeepsStoredAndMarks(s, id, keys[0], generator);
      GetKeysMarksExactlyTheKeys(s0, id, keys[1..], generator);
      SetOfConsSeq(keys);
      var (s', vs) := GetKeys(s, id, keys, generator);
      forall i | 0 <= i < |keys|
        ensures keys[i] in s'.values && s'.values[keys[i]].value == vs[i]
      {
        if i > 0 {
          assert keys[i] == keys[1..][i - 1];
        }
      }
    }
  }

  /** With every key already stored, a run of Gets returns the stored values
      whatever the generator. */
  lemma {:induction false} GetKeysOfStoredKeys<ID, K, V>(s: Store<ID, K, V>, id: ID, keys: seq<K>, g1: K -> V, g2: K -> V)
    requires forall i | 0 <= i < |keys| :: keys[i] in s.values
    ensures forall i | 0 <= i < |keys| :: GetKeys(s, id, keys, g1).1[i] == s.values[keys[i]].value
    ensures GetKeys(s, id, keys, g1) == GetKeys(s, id, keys, g2)
    decreases |keys|
  {
    if keys != [] {
      var s0 := StoreGet(s, id, keys[0], g1).0;
      GetPresentKey(s, id, keys[0], g1, g2);
      GetKeepsStoredAndMarks(s, id, keys[0], g1);
      forall i | 0 <= i < |keys[1..]|
        ensures keys[1..][i] in s0.values && s0.values[keys[1..][i]].value == s.values[keys[1..][i]].value
      {
        assert keys[1..][i] == keys[i + 1];
      }
      GetKeysOfStoredKeys(s0, id, keys[1..], g1, g2);
      var vs := GetKeys(s, id, keys, g1).1;
      forall i | 0 <= i < |keys|
        ensures vs[i] == s.values[keys[i]].value
      {
        if i > 0 {
          assert keys[i] == keys[1..][i - 1];
        }
      }
    }
  }

  /** Asking again for keys the owner already uses, all stored, changes nothing. */
  lemma {:induction false} GetKeysOfMarkedKeys<ID, K, V>(s: Store<ID, K, V>, id: ID, keys: seq<K>, generator: K -> V)
    requires id in s.usages
    requires forall i | 0 <= i < |keys| :: keys[i] in s.usages[id] && keys[i] in s.values
    ensures GetKeys(s, id, keys, generator).0 == s
    decreases |keys|
  {
    if keys != [] {
      assert StoreGet(s, id, keys[0], generator).0 == s;
      assert forall i | 0 <= i < |keys[1..]| :: keys[1..][i] == keys[i + 1];
      GetKeysOfMarkedKeys(s, id, keys[1..], generator);
    }
  }

  /** The four Gets keep the refcount invariant. */
  lemma GetQuadPreservesRefcount<ID, K, V>(s: Store<ID, K, V>, id: ID, keys: Quad<K>, generator: K -> V)
    requires Refcounted(s)
    ensures Refcounted(GetQuad(s, id, keys, generator).0)
  {
    GetKeysPreservesRefcount(s, id, [keys.c0, keys.c1, keys.c2, keys.c3], generator);
  }

  /** The four Gets add exactly the four keys to the owner's usage set, leave
      every other owner's set alone, and return for each key the value the
      store then holds for it. */
  lemma GetQuadMarksExactlyTheKeys<ID, K, V>(s: Store<ID, K, V>, id: ID, keys: Quad<K>, generator: K -> V)
    ensures var (s', vs) := GetQuad(s, id, keys, generator);
      && id in s'.usages
      && s'.usages[id] == UsedBy(s, id) + Elements(keys)
      && (forall o | o in s.usages && o != id :: o in s'.usages && s'.usages[o] == s.usages[o])
      && (forall o | o in s'.usages && o != id :: o in s.usages)
      && Elements(keys) <= s'.values.Keys
      && vs == StoredQuad(s', keys)
      && (forall k | k in s.values :: k in s'.values && s'.values[k].value == s.values[k].value)
  {
    var ks := [keys.c0, keys.c1, keys.c2, keys.c3];
    GetKeysMarksExactlyTheKeys(s, id, ks, generator);
    var (s', vs) := GetKeys(s, id, ks, generator);
    assert (set k | k in ks) == Elements(keys);
    assert ks[0] == keys.c0 && ks[1] == keys.c1 && ks[2] == keys.c2 && ks[3] == keys.c3;
  }

  /** With all four keys already stored, the four Gets return the stored
      values whatever the generator: results are repeatable while entries live. */
  lemma GetQuadOfStoredKeys<ID, K, V>(s: Store<ID, K, V>, id: ID, keys: Quad<K>, g1: K -> V, g2: K -> V)
    requires Elements(keys) <= s.values.Keys
    ensures GetQuad(s, id, keys, g1).1 == StoredQuad(s, keys)
    ensures GetQuad(s, id, keys, g1) == GetQuad(s, id, keys, g2)
  {
    var ks := [keys.c0, keys.c1, keys.c2, keys.c3];
    GetKeysOfStoredKeys(s, id, ks, g1, g2);
  }

  /** Asking again, from the same owner, for the same four keys changes
      nothing and gives the same four values. */
  lemma GetQuadTwiceSameOwner<ID, K, V>(s: Store<ID, K, V>, id: ID, keys: Quad<K>, generator: K -> V)
    ensures var (s1, vs) := GetQuad(s, id, keys, generator);
      GetQuad(s1, id, keys, generator) == (s1, vs)
  {
    var ks := [keys.c0, keys.c1, keys.c2, keys.c3];
    var (s1, vs) := GetQuad(s, id, keys, generator);
    GetQuadMarksExactlyTheKeys(s, id, keys, generator);
    GetQuadOfStoredKeys(s1, id, keys, generator, generator);
    GetKeysOfMarkedKeys(s1, id, ks, generator);
  }

  // ---------------------------------------------------------------------------
  // Several owners

  lemma SetOfConsSeq<T>(ids: seq<T>)
    requires ids != []
    ensures (set i | i in ids) == {ids[0]} + set i | i in ids[1..]
  {
    assert ids == [ids[0]] + ids[1..];
  }

  /** `Get(id, key)` by each owner of `ids` in turn. */
  function GetByEach<ID, K, V>(s: Store<ID, K, V>, ids: seq<ID>, key: K, generator: K -> V): Store<ID, K, V>
    decreases |ids|
  {
    if ids == [] then s else GetByEach(StoreGet(s, ids[0], key, generator).0, ids[1..], key, generator)
  }

  /** `UnloadID` of each owner of `ids` in turn, stopping at the first failure. */
  function UnloadEach<ID, K, V>(s: Store<ID, K, V>, ids: seq<ID>): Result<Store<ID, K, V>>
    decreases |ids|
  {
    if ids == [] then Ok(s)
    else match StoreUnload(s, ids[0])
      case Err(e) => Err(e)
      case Ok(s') => UnloadEach(s', ids[1..])
  }

  lemma {:induction false} OwnersAfterGetByEach<ID, K, V>(s: Store<ID, K, V>, ids: seq<ID>, key: K, generator: K -> V)
    requires Refcounted(s)
    ensures Refcounted(GetByEach(s, ids, key, generator))
    ensures Owners(GetByEach(s, ids, key, generator), key) == Owners(s, key) + set i | i in ids
    decreases |ids|
  {
    if ids != [] {
      var s1 := StoreGet(s, ids[0], key, generator).0;
      assert GetByEach(s, ids, key, generator) == GetByEach(s1, ids[1..], key, generator);
      GetPreservesRefcount(s, ids[0], key, generator);
      OwnersAfterGet(s, ids[0], key, generator, key);
      OwnersAfterGetByEach(s1, ids[1..], key, generator);
      SetOfConsSeq(ids);
    }
  }

  /** Refcount correctness: when owners request a key nobody held, the cache
      holds one entry whose count is the number of DISTINCT requesting owners;
      a repeated request by the same owner adds nothing. */
  lemma {:induction false} CountIsNumberOfDistinctOwners<ID, K, V>(s: Store<ID, K, V>, ids: seq<ID>, key: K, generator: K -> V)
    requires Refcounted(s) && key !in s.values && ids != []
    ensures var s' := GetByEach(s, ids, key, generator);
      key in s'.values && s'.values[key].useCount == |set i | i in ids|
  {
    OwnersAfterGetByEach(s, ids, key, generator);
    assert Owners(s, key) == {} by {
      forall o | o in Owners(s, key) ensures false { }
    }
    var s' := GetByEach(s, ids, key, generator);
    assert ids[0] in Owners(s', key);
  }

  lemma {:induction false} OwnersAfterUnloadEach<ID, K, V>(s: Store<ID, K, V>, ids: seq<ID>, k: K)
    requires Refcounted(s)
    ensures UnloadEach(s, ids).Ok?
    ensures Refcounted(UnloadEach(s, ids).value)
    ensures Owners(UnloadEach(s, ids).value, k) == Owners(s, k) - set i | i in ids
    decreases |ids|
  {
    if ids != [] {
      UnloadPreservesRefcount(s, ids[0]);
      var s1 := StoreUnload(s, ids[0]).value;
      OwnersAfterUnload(s, ids[0], k);
      OwnersAfterUnloadEach(s1, ids[1..], k);
      SetOfConsSeq(ids);
    }
  }

  /** Eviction: once every owner that used a key has unloaded, the key is gone
      from the cache (a later Get regenerates it). */
  lemma {:induction false} EvictedAfterAllOwnersUnload<ID, K, V>(s: Store<ID, K, V>, ids: seq<ID>, k: K)
    requires Refcounted(s)
    requires forall o | o in Owners(s, k) :: o in ids
    ensures UnloadEach(s, ids).Ok?
    ensures k !in UnloadEach(s, ids).value.values
  {
    OwnersAfterUnloadEach(s, ids, k);
    var s' := UnloadEach(s, ids).value;
    assert Owners(s', k) == {};
  }

  // ---------------------------------------------------------------------------

  /** The store object: the two dictionaries and the generator delegate. */
  class CachedValueStore<ID(==), K(==), V> {
    var usages: map<ID, set<K>>
    var values: map<K, Entry<V>>
    const generator: K -> V

    function Model(): Store<ID, K, V>
      reads this
    {
      Store(usages, values)
    }

    ghost predicate Valid()
      reads this
    {
      Refcounted(Model())
    }

    constructor (generator: K -> V)
      ensures Model() == EmptyStore() && Valid()
      ensures this.generator == generator
    {
      usages := map[];
      values := map[];
      this.generator := generator;
    }

    /** GetUsedValues: the owner's usage set, registering an empty one if missing. */
    method GetUsedValues(id: ID) returns (used: set<K>)
      modifies this
      ensures Model() == WithUsageSet(old(Model()), id)
      ensures used == usages[id]
    {
      if id !in usages {
        usages := usages[id := {}];
      }
      used := usages[id];
    }

    /** Unload all values used by `id`. Returns false where the source throws
        KeyNotFoundException (a used key that is no longer stored). */
    method UnloadID(id: ID) returns (ok: bool)
      modifies this
      ensures ok <==> Unloadable(old(Model()), id)
      ensures ok ==> Model() == StoreUnload(old(Model()), id).value
      ensures !ok ==> usages == old(usages)
    {
      var used := GetUsedValues(id);
      var remaining := used;
      while remaining != {}
        invariant remaining <= used
        invariant usages == WithUsageSet(old(Model()), id).usages
        invariant used == usages[id]
        invariant forall k | k in used - remaining :: k in old(values)
        invariant values == Decremented(old(values), used - remaining)
        decreases remaining
      {
        var grad :| grad in remaining;
        if grad !in values {
          assert grad !in old(values);
          return false;
        }
        var value := values[grad];
        value := value.(useCount := value.useCount - 1);
        if value.useCount == 0 {
          values := values - {grad};
        } else {
          values := values[grad := value];
        }
        remaining := remaining - {grad};
        assert values == Decremented(old(values), used - remaining);
      }
      usages := usages - {id};
      return true;
    }

    /** Get, or generate and cache, the value for `key`, marking it used by `id`. */
    method Get(id: ID, key: K) returns (v: V)
      modifies this
      ensures (Model(), v) == StoreGet(old(Model()), id, key, generator)
    {
      var used := GetUsedValues(id);
      var value: Entry<V>;
      if key in values {
        value := values[key];
        if key !in used {
          usages := usages[id := used + {key}];
          value := value.(useCount := value.useCount + 1);
        }
      } else {
        value := Entry(1, generator(key));
        usages := usages[id := used + {key}];
      }
      ghost var before := values;
      values := values[key := value];
      assert key in before && key in used ==> values == before;
      v := value.value;
    }

    /** The assumed `UpdateIfExists`: replace the stored value by `updator` of it
        when the key is present, and report whether it was. */
    method UpdateIfExists(key: K, updator: V -> V) returns (found: bool)
      modifies this
      ensures (Model(), found) == StoreUpdate(old(Model()), key, updator)
    {
      found := key in values;
      if found {
        values := values[key := values[key].(value := updator(values[key].value))];
      }
    }
  }
}

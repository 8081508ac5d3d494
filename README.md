# Chunked terrain generation core, modelled in Dafny

This project models the core of a Unity game that generates an endless snowy
forest in square chunks around the player. Two things carry the design.

- **A reference-counted, owner-scoped value cache.** `CachedValueStore<ID, K, V>` maps lattice keys to generated values. It remembers which chunk (`ChunkID`) used which keys, counts the users of each key, and evicts a key when the last chunk that used it unloads. `PersistentNoiseOctave` is an older copy of the same algorithm written inline.
- **The samplers built on that cache.** These are the Perlin octaves and fractals, the persistent noise octaves and their per-scale registries, and the cached weight map. Each one reads the four lattice corners of a cell through the cache.

Around these sit the rest of the core:

- the integer grid iterator `Griderable`;
- the vertex and triangle index arithmetic of the two chunk meshers, the mesh builder and `Generator.BuildSimpleGridMesh`;
- the chunk manager, which culls chunks by Manhattan distance, unloads them, and then generates the missing ones with fresh ids from an instance pool;
- small state machines for the player's inventory and the special-item placer;
- an ancestor relation over transform parents.

There is one Dafny module per source file, and each file is named after it:

| file | models |
|---|---|
| `common.dfy` | shared value types: `Int2`, `Vec2`, `Quad`, `Option` and `Result`, and a `Float` with NaN and the infinities for scale validation |
| `chunk_id.dfy` | `ChunkID` and its static counter |
| `cached_value_store.dfy` | the cache, as a pure `Store` specification plus the class that is proved against it |
| `persistent_noise_octave.dfy` | the inline cache as written, and a corrected one |
| `math_utils.dfy` | `MathUtils` over `real` |
| `chunk_cachers.dfy` | the registry of chunk caches |
| `cached_perlin_octave.dfy` | `CachedPerlinNoise`, `Octave` and `Fractal` |
| `persistent_perlin_noise_octave.dfy`, `persistent_perlin_noise.dfy`, `persistent_noise.dfy`, `cached_weight_map.dfy` | the other samplers and registries |
| `griderable.dfy` | the grid iterator |
| `chunk_mesher.dfy`, `chunk_mesh.dfy`, `chunk_mesh_builder.dfy`, `generator.dfy` | the mesh index arithmetic and array filling |
| `generation_utils.dfy` | triangle selection and the height queries |
| `generator_manager.dfy` | chunk loading and unloading |
| `instance_pool.dfy` | the object pool |
| `player_inventory.dfy`, `special_item_placer.dfy`, `heirarchy_utils.dfy` | the small state machines and the parent relation |

The form of the code follows the form of the source:

- **Objects.** An object whose fields change is a `class`. Where a pure specification of its state exists (the cache's `Model()`), its methods are proved against it; otherwise each method states its whole new state.
- **Loops.** A loop stays a loop, with its invariants.
- **Expressions.** Expression code is a function.

Values the engine owns become parameters of the model:

- the RNG draws, the gradient generator and the constructor delegates;
- the generation centre's position;
- the chunk found under a location, the barycentric interpolation and the raycast hit.

Static singletons are explicit objects passed in: the chunk-cacher set, the pool registry and the `ChunkID` counter.

## Model

| member | source | states |
|---|---|---|
| ValueStore.EmptyStore | Assets/Scripts/Generation/CachedValueStore.cs:22-29 | a new store has no usage sets and no values |
| ValueStore.WithUsageSet | Assets/Scripts/Generation/CachedValueStore.cs:36-45 | afterwards the owner has a usage set: an existing one is kept as it is, a missing one is created empty; the values are not touched |
| ValueStore.StoreUnload | Assets/Scripts/Generation/CachedValueStore.cs:50-75 | unloading succeeds exactly when every key the owner used is still stored; the indexer at line 58 throws otherwise |
| ValueStore.OwnersAfterGet | Assets/Scripts/Generation/CachedValueStore.cs:80-108 | after `Get(id, key)` the owners of `key` are the old owners plus `id`, and every other key keeps its owners |
| ValueStore.OwnersAfterUnload | Assets/Scripts/Generation/CachedValueStore.cs:50-75 | after `UnloadID(id)` every key has lost `id` from its owners and no other owner |
| ValueStore.OwnersAfterUpdate | Assets/Scripts/Generation/CachedWeightMap.cs:58 | replacing a stored value (the assumed `UpdateIfExists`) changes no key's owners |
| ValueStore.GetPreservesRefcount | Assets/Scripts/Generation/CachedValueStore.cs:80-108 | `Get` keeps the cache invariant: every stored key's use count is the number of owners whose usage set holds it, and is positive; every used key is stored |
| ValueStore.UnloadPreservesRefcount | Assets/Scripts/Generation/CachedValueStore.cs:50-75 | under the invariant `UnloadID` never meets a missing key, and it keeps the invariant |
| ValueStore.UpdatePreservesRefcount | Assets/Scripts/Generation/CachedWeightMap.cs:58 | replacing a stored value keeps the invariant |
| ValueStore.GetPresentKey | Assets/Scripts/Generation/CachedValueStore.cs:84-107 | for a stored key, `Get` returns the stored value and keeps it, and the generator plays no part: any two generators give the same outcome |
| ValueStore.GetAbsentKey | Assets/Scripts/Generation/CachedValueStore.cs:94-107 | for an absent key, `Get` calls the generator once, stores the value with use count 1, and adds the key to the caller's usage set |
| ValueStore.GetTwiceSameOwner | Assets/Scripts/Generation/CachedValueStore.cs:88-106 | a second `Get` of the same key by the same owner changes nothing and returns the same value |
| ValueStore.GetCountsNewOwnerOnce | Assets/Scripts/Generation/CachedValueStore.cs:88-92 | a stored key gains exactly one use from an owner that had not used it, and none from one that had |
| ValueStore.GetKeepsOtherEntries | Assets/Scripts/Generation/CachedValueStore.cs:80-108 | `Get` changes neither the value nor the count of any other key, and never the value of a stored key |
| ValueStore.UnloadUnknownOwner | Assets/Scripts/Generation/CachedValueStore.cs:36-75 | unloading an owner with no usage set leaves the store as it was |
| ValueStore.UnloadEntries | Assets/Scripts/Generation/CachedValueStore.cs:55-73 | unloading drops the owner's usage set; a key it used loses one use and is evicted at zero; a key it did not use keeps its value and its count |
| ValueStore.UnloadOtherKeepsHeldKey | Assets/Scripts/Generation/CachedValueStore.cs:50-75 | under the invariant, a key an owner still uses survives the unloading of any other owner, with its value |
| ValueStore.GetKeys | Assets/Scripts/Generation/CachedValueStore.cs:80-108 | a run of `Get`s on keys in order returns one value per key |
| ValueStore.GetQuadIsFourGets | Assets/Scripts/Generation/CachedValueStore.cs:80-108 | the four-corner read is exactly four `Get`s in a row, each on the store the one before left |
| ValueStore.GetKeepsStoredAndMarks | Assets/Scripts/Generation/CachedValueStore.cs:80-108 | one `Get` keeps every stored key with its value, stores `key` and puts it in the owner's usage set, and touches no other owner |
| ValueStore.GetKeysPreservesRefcount | Assets/Scripts/Generation/CachedValueStore.cs:80-108 | a run of `Get`s keeps the invariant |
| ValueStore.GetKeysMarksExactlyTheKeys | Assets/Scripts/Generation/CachedValueStore.cs:80-108 | a run of `Get`s adds exactly its keys to the owner's usage set and leaves other owners alone; it returns for each key the value then stored, and keeps every stored value |
| ValueStore.GetKeysOfStoredKeys | Assets/Scripts/Generation/CachedValueStore.cs:84-107 | when every key is stored, a run of `Get`s returns the stored values, whatever the generator |
| ValueStore.GetKeysOfMarkedKeys | Assets/Scripts/Generation/CachedValueStore.cs:84-106 | asking again for keys that the owner already uses and that are stored changes nothing |
| ValueStore.GetQuadPreservesRefcount | Assets/Scripts/Generation/CachedValueStore.cs:80-108 | the four-corner read keeps the invariant |
| ValueStore.GetQuadMarksExactlyTheKeys | Assets/Scripts/Generation/CachedValueStore.cs:80-108 | the four-corner read adds exactly the four keys to the owner's set, and returns the values the store then holds at them |
| ValueStore.GetQuadOfStoredKeys | Assets/Scripts/Generation/CachedValueStore.cs:84-107 | with all four keys stored, the read returns the stored values whatever the generator |
| ValueStore.GetQuadTwiceSameOwner | Assets/Scripts/Generation/CachedValueStore.cs:84-107 | repeating the four-corner read from the same owner changes nothing and gives the same four values |
| ValueStore.OwnersAfterGetByEach | Assets/Scripts/Generation/CachedValueStore.cs:80-108 | after each owner of a list calls `Get(key)`, the key's owners are the old ones plus the listed ones, and the invariant holds |
| ValueStore.CountIsNumberOfDistinctOwners | Assets/Scripts/Generation/CachedValueStore.cs:88-104 | when owners ask for a key nobody held, its use count becomes the number of distinct owners who asked |
| ValueStore.OwnersAfterUnloadEach | Assets/Scripts/Generation/CachedValueStore.cs:50-75 | unloading each owner of a list in turn never fails under the invariant, and removes exactly the listed owners from every key |
| ValueStore.EvictedAfterAllOwnersUnload | Assets/Scripts/Generation/CachedValueStore.cs:55-70 | once every owner that used a key has unloaded, the key is evicted |
| ValueStore.CachedValueStore.constructor | Assets/Scripts/Generation/CachedValueStore.cs:22-29 | a new store is empty and keeps the invariant |
| ValueStore.CachedValueStore.GetUsedValues | Assets/Scripts/Generation/CachedValueStore.cs:36-45 | the method's new state is `WithUsageSet` of the old one, and it returns the owner's set |
| ValueStore.CachedValueStore.UnloadID | Assets/Scripts/Generation/CachedValueStore.cs:50-75 | the loop succeeds exactly when `StoreUnload` does, and then leaves the store `StoreUnload` gives; on a missing key it reports failure, where the source throws |
| ValueStore.CachedValueStore.Get | Assets/Scripts/Generation/CachedValueStore.cs:80-108 | the new state and the returned value are those of `StoreGet` |
| ValueStore.CachedValueStore.UpdateIfExists | Assets/Scripts/Generation/CachedWeightMap.cs:58 | the new state and the flag are those of `StoreUpdate`: the method is called there but is not defined in CachedValueStore, so its meaning (update a stored value in place, report whether the key was stored) is assumed |
| PersistentNoiseOctaves.GradKeys | Assets/Scripts/Generation/PersistentNoiseOctave.cs:153-159 | the four `Grad` calls in order return one gradient per corner |
| PersistentNoiseOctaves.GradOfPresentKey | Assets/Scripts/Generation/PersistentNoiseOctave.cs:109-134 | `Grad` on a stored corner returns the stored gradient and marks the corner used by the chunk, but no count changes: the incremented copy is never written back |
| PersistentNoiseOctaves.GradOfAbsentKey | Assets/Scripts/Generation/PersistentNoiseOctave.cs:121-134 | `Grad` on an absent corner stores the octave's direction with count 1 and marks the corner used by the chunk |
| PersistentNoiseOctaves.OwnersAfterGrad | Assets/Scripts/Generation/PersistentNoiseOctave.cs:103-135 | after `Grad(chunk, xy)` the owners of `xy` gain the chunk, and other corners keep theirs |
| PersistentNoiseOctaves.GradKeepsCountsAtMostOwners | Assets/Scripts/Generation/PersistentNoiseOctave.cs:103-135 | the invariant the code as written still keeps: each stored count is positive and at most the number of chunks using the corner |
| PersistentNoiseOctaves.UnloadKeepsCountsAtMostOwners | Assets/Scripts/Generation/PersistentNoiseOctave.cs:64-89 | an unload that does not throw keeps that weaker invariant |
| PersistentNoiseOctaves.GradIsAlwaysTheDirection | Assets/Scripts/Generation/PersistentNoiseOctave.cs:124-128 | the `readonly` struct RNG is never advanced, so every gradient `Grad` stores or returns is the octave's one direction |
| PersistentNoiseOctaves.UnloadKeepsAllGradsAre | Assets/Scripts/Generation/PersistentNoiseOctave.cs:64-89 | unloading keeps every stored gradient equal to that direction |
| PersistentNoiseOctaves.MissingWriteBackEvictsEarly | Assets/Scripts/Generation/PersistentNoiseOctave.cs:64-120 | as written: after two chunks use one corner its count is still 1; unloading the first evicts a gradient the second still uses, and unloading the second then meets the missing key |
| PersistentNoiseOctaves.CorrectedGradKeepsRefcount | Assets/Scripts/Generation/PersistentNoiseOctave.cs:103-135 | with the count written back, `Grad` keeps the refcount invariant, so no later unload can throw |
| PersistentNoiseOctaves.CorrectedKeepsSharedCorner | Assets/Scripts/Generation/PersistentNoiseOctave.cs:64-135 | with the count written back, the shared corner has count 2 and survives the first unload, and both unloads succeed |
| PersistentNoiseOctaves.GradKeysMarksTheKeys | Assets/Scripts/Generation/PersistentNoiseOctave.cs:103-135 | a run of `Grad`s adds exactly its corners to the chunk's set, leaves other chunks alone, and stores each corner it returned |
| PersistentNoiseOctaves.GradKeysAllDirection | Assets/Scripts/Generation/PersistentNoiseOctave.cs:153-159 | a run of `Grad`s returns the octave's direction for every corner |
| PersistentNoiseOctaves.NoiseAtRequestsTheCorners | Assets/Scripts/Generation/PersistentNoiseOctave.cs:145-159 | `Get` scales the position, requests exactly its four float corners for the chunk, and leaves every other chunk's set alone |
| PersistentNoiseOctaves.NoiseAtOfOneDirection | Assets/Scripts/Generation/PersistentNoiseOctave.cs:153-162 | since every gradient is the one direction, the noise is that of four equal gradients at the fractional position |
| PersistentNoiseOctaves.NoiseAtIsFourGrads | Assets/Scripts/Generation/PersistentNoiseOctave.cs:153-162 | `Get` is the four `Grad` calls in the order [00, 01, 11, 10], then the noise at the fractional position |
| PersistentNoiseOctaves.PersistentNoiseOctave.constructor | Assets/Scripts/Generation/PersistentNoiseOctave.cs:26-33 | past the scale check, the octave holds its scale and its one direction, and both dictionaries are empty |
| PersistentNoiseOctaves.PersistentNoiseOctave.GetUsedGrads | Assets/Scripts/Generation/PersistentNoiseOctave.cs:48-57 | the new state is `WithUsageSet` of the old one, and the method returns the chunk's set |
| PersistentNoiseOctaves.PersistentNoiseOctave.UnloadChunk | Assets/Scripts/Generation/PersistentNoiseOctave.cs:64-89 | the loop succeeds exactly when `StoreUnload` does, leaving its store; it reports failure where the indexer at line 72 throws on an evicted corner |
| PersistentNoiseOctaves.PersistentNoiseOctave.Grad | Assets/Scripts/Generation/PersistentNoiseOctave.cs:103-135 | the new state and the returned gradient are those of `GradAsWritten` |
| PersistentNoiseOctaves.PersistentNoiseOctave.Get | Assets/Scripts/Generation/PersistentNoiseOctave.cs:141-163 | the new state and the result are those of `NoiseAt` at the position times the octave scale |
| PersistentNoiseOctaves.OfScale | Assets/Scripts/Generation/PersistentNoiseOctave.cs:26-33 | the constructor raises `ArgumentException` exactly for a scale that is not positive, or is NaN or infinite; otherwise it gives a fresh, empty octave with that scale |
| ChunkIds.GetHashCode | Assets/Scripts/Generation/ChunkID.cs:30-31 | the hash code is the id's 32 bits read as a signed int: the id itself below 2^31, and the id minus 2^32 from there on |
| ChunkIds.EqualsIsValueEquality | Assets/Scripts/Generation/ChunkID.cs:27-28 | `Equals` holds exactly for equal ids, and is symmetric |
| ChunkIds.OperatorsAreComplements | Assets/Scripts/Generation/ChunkID.cs:36-39 | `==` and `!=` always disagree |
| ChunkIds.EqualsObjectOnlyForChunkIDs | Assets/Scripts/Generation/ChunkID.cs:24-25 | `Equals(object)` is false for null and for any non-ChunkID argument, and is value equality on a boxed ChunkID |
| ChunkIds.HashCodeAgreesWithEquality | Assets/Scripts/Generation/ChunkID.cs:27-31 | equal ids have equal hash codes; the hash is injective as well, so unequal ids have unequal hash codes |
| ChunkIds.IssuedIdsDistinctUntilWrap | Assets/Scripts/Generation/ChunkID.cs:18-21 | the ids of the i-th and j-th calls of `Unique` are equal exactly when j - i is a multiple of 2^32: distinct until the counter wraps |
| ChunkIds.IdCounter.constructor | Assets/Scripts/Generation/ChunkID.cs:18 | the counter starts at 0 with nothing issued |
| ChunkIds.IdCounter.Unique | Assets/Scripts/Generation/ChunkID.cs:20-21 | `Unique` returns the counter's current value, the id of the next issue number, and increments it, wrapping from 2^32 - 1 to 0 |
| MathUtils.SmootherstepFixesEnds | Assets/Scripts/Generation/MathUtils.cs:10-17 | the kernel maps 0 to 0 and 1 to 1 |
| MathUtils.SmootherstepInUnitInterval | Assets/Scripts/Generation/MathUtils.cs:10-17 | on [0, 1] the kernel stays within [0, 1], as its documentation says |
| MathUtils.Corners | Assets/Scripts/Generation/MathUtils.cs:19-36 | the first corner is a lattice point with `x` in the unit square at it, and the other three are that square's corners in the order (0,1), (1,1), (1,0); so the four are floor(x) plus those offsets |
| MathUtils.CornersSpanCellOfX | Assets/Scripts/Generation/MathUtils.cs:27-36 | the four corners are pairwise distinct, they span a unit square, and `x` lies in that square |
| MathUtils.LerpBetween | Assets/Scripts/Generation/MathUtils.cs:47-50 | with a weight in [0, 1], `math.lerp` stays between its two ends |
| MathUtils.SampleCornersBounded | Assets/Scripts/Generation/MathUtils.cs:42-51 | bilinear sampling never leaves the range of its four corner values |
| MathUtils.SampleCornersOfEqualValues | Assets/Scripts/Generation/MathUtils.cs:42-51 | four equal corner values are sampled as that value, wherever `x` is |
| MathUtils.SampleCornersAtLatticePoint | Assets/Scripts/Generation/MathUtils.cs:44-50 | at fractional position (0, 0) sampling returns the first corner |
| MathUtils.PerlinNoiseInUnitInterval | Assets/Scripts/Generation/MathUtils.cs:58-67 | the noise, the sampled dot products times 0.5 plus 0.5, lies in [0, 1] whenever each dot product lies in [-1, 1] |
| ChunkCaching.ChunkCachers.constructor | Assets/Scripts/Generation/ChunkCachers.cs:19 | the set of cachers starts empty |
| ChunkCaching.ChunkCachers.Register | Assets/Scripts/Generation/ChunkCachers.cs:24-27 | the cacher is added to the set, so registering twice has no further effect |
| ChunkCaching.ChunkCachers.Unregister | Assets/Scripts/Generation/ChunkCachers.cs:33-36 | the cacher is removed from the set |
| ChunkCaching.ChunkCachers.UnloadChunk | Assets/Scripts/Generation/ChunkCachers.cs:41-47 | every registered cacher unloads the id exactly once, and only registered caches change, so an unregistered cacher gets no call; the broadcast completes exactly when no registered cache meets a missing key, which the refcount invariant guarantees and keeps |
| ChunkCaching.UnloadOne | Assets/Scripts/Generation/ChunkCachers.cs:45 | one cacher's `UnloadChunk(id)` is `UnloadID(id)` on its own store: it succeeds exactly when that store can unload the id, and it keeps the refcount invariant |
| CachedPerlinOctave.CornerKeysAreLatticeNeighbours | Assets/Scripts/Generation/CachedPerlinOctave.cs:167-172 | the four keys a sample reads are the lattice point under the scaled position and its neighbours (0,1), (1,1), (1,0), in that order |
| CachedPerlinOctave.PerlinSampleRequestsTheCorners | Assets/Scripts/Generation/CachedPerlinOctave.cs:161-177 | a sample marks exactly the four corner keys as used by the chunk, leaves every other chunk's usage set alone, keeps the refcount invariant, and returns the noise of the gradients now cached at those corners times the amplitude |
| CachedPerlinOctave.PerlinSampleRepeatable | Assets/Scripts/Generation/CachedPerlinOctave.cs:161-177 | while the chunk still holds its corners, sampling the same position again returns the same value and leaves the store as it was |
| CachedPerlinOctave.PerlinSampleOfCachedCorners | Assets/Scripts/Generation/CachedPerlinOctave.cs:161-177 | once all four corners are cached the generator is never consulted: any two generators give the same sample |
| CachedPerlinOctave.CachedSampleKeptBySample | Assets/Scripts/Generation/CachedPerlinOctave.cs:161-177 | a value sampled earlier is still the noise of the cached gradients after any later sample, since a Get never replaces a stored gradient |
| CachedPerlinOctave.PerlinSampleExtends | Assets/Scripts/Generation/CachedPerlinOctave.cs:169-172 | a sample only adds gradients to the store and never changes one |
| CachedPerlinOctave.CachedPerlinNoise.constructor | Assets/Scripts/Generation/CachedPerlinOctave.cs:126-135 | past the scale check: the octave keeps its scale and amplitude, its store starts empty, and it is registered with the cachers |
| CachedPerlinOctave.CachedPerlinNoise.Get | Assets/Scripts/Generation/CachedPerlinOctave.cs:161-177 | the store and the value are those of the four corner Gets at position times the scale, followed by the noise of the fetched gradients times the amplitude; the refcount invariant is kept |
| CachedPerlinOctave.CachedPerlinNoise.FetchCorners | Assets/Scripts/Generation/CachedPerlinOctave.cs:168-173 | the four corner Gets happen in corner order and return the gradients they fetch |
| CachedPerlinOctave.CachedPerlinNoise.UnloadChunk | Assets/Scripts/Generation/CachedPerlinOctave.cs:154-155 | the unload succeeds exactly when the store can unload the chunk, and then leaves the store `UnloadID` defines; a store keeping the refcount invariant always succeeds |
| CachedPerlinOctave.OfScale | Assets/Scripts/Generation/CachedPerlinOctave.cs:126-141 | an ArgumentException, with nothing registered, exactly when the scale is not positive and finite (NaN included); otherwise a fresh registered octave with an empty store |
| CachedPerlinOctave.Octave.constructor | Assets/Scripts/Generation/CachedPerlinOctave.cs:20-21 | the serialized defaults are scale 1 and amplitude 1, with no instance |
| CachedPerlinOctave.Octave.GetInstance | Assets/Scripts/Generation/CachedPerlinOctave.cs:27-48 | an instance built from the current scale and amplitude is returned unchanged and nothing is registered; otherwise the old instance is unregistered and a fresh one is built and registered, or an ArgumentException is raised for an invalid scale |
| CachedPerlinOctave.Octave.Get | Assets/Scripts/Generation/CachedPerlinOctave.cs:53-54 | fails exactly for an invalid scale; otherwise the value is the sample of the current instance, taken from its existing store or, after a rebuild, from an empty store |
| CachedPerlinOctave.Octave.UnloadChunk | Assets/Scripts/Generation/CachedPerlinOctave.cs:59-60 | ArgumentException exactly for an invalid scale; otherwise the unload of the current (perhaps rebuilt) instance's store, which cannot fail while that store keeps the refcount invariant |
| CachedPerlinOctave.SumAmplitudesIsSum | Assets/Scripts/Generation/CachedPerlinOctave.cs:81-84 | the amplitudes added in list order equal the sum of the amplitude list |
| CachedPerlinOctave.SampledScaleIsValid | Assets/Scripts/Generation/CachedPerlinOctave.cs:128-129 | an octave that produced a sample has a valid scale |
| CachedPerlinOctave.GetSampled | Assets/Scripts/Generation/CachedPerlinOctave.cs:102 | one octave's sample is explained by its store, and a store that was current has only grown |
| CachedPerlinOctave.SampleOctave | Assets/Scripts/Generation/CachedPerlinOctave.cs:100-104 | sampling one more octave keeps every earlier octave's sample explained by its store |
| CachedPerlinOctave.UnloadOctave | Assets/Scripts/Generation/CachedPerlinOctave.cs:117-118 | unloading one more octave keeps the earlier octaves free of the chunk |
| CachedPerlinOctave.Fractal.constructor | Assets/Scripts/Generation/CachedPerlinOctave.cs:70-71 | the octave list is kept and the amplitude total is not yet computed (the NaN start) |
| CachedPerlinOctave.Fractal.TotalAmplitude | Assets/Scripts/Generation/CachedPerlinOctave.cs:74-89 | the first call computes and caches the sum of the amplitudes; later calls return the cached value unchanged |
| CachedPerlinOctave.Fractal.Get | Assets/Scripts/Generation/CachedPerlinOctave.cs:95-110 | fails exactly when some octave's scale is invalid; otherwise the sum of the per-octave samples, each the noise its octave's store explains, divided (as a float) by the sum of the amplitudes when normalising and by 1 otherwise |
| CachedPerlinOctave.Fractal.UnloadChunk | Assets/Scripts/Generation/CachedPerlinOctave.cs:115-119 | every octave is unloaded in order, stopping at the first exception; on success no octave's store holds anything for the chunk, and with every scale valid the only possible failure is a missing key |
| PersistentPerlinOctaves.FloatSampleRequestsTheCorners | Assets/Scripts/Generation/PersistentPerlinNoiseOctave.cs:40-63 | a sample marks exactly the four float corners of the scaled position as used by the chunk, leaves other chunks' usage sets alone, keeps the refcount invariant, and returns the noise of the gradients now stored at those corners |
| PersistentPerlinOctaves.FloatSampleRepeatable | Assets/Scripts/Generation/PersistentPerlinNoiseOctave.cs:47-59 | sampling the same position again by the same chunk gives the same value and changes nothing |
| PersistentPerlinOctaves.FloatSampleOfStoredCorners | Assets/Scripts/Generation/PersistentPerlinNoiseOctave.cs:53-62 | once the corners are stored the generator is not consulted: any two generators give the same sample |
| PersistentPerlinOctaves.FloatCornersAreTheIntegerKeys | Assets/Scripts/Generation/PersistentPerlinNoiseOctave.cs:53 | the float keys are exactly the lattice points the integer-keyed octave casts to, so both octave kinds read the same cells |
| PersistentPerlinOctaves.PersistentPerlinNoiseOctave.constructor | Assets/Scripts/Generation/PersistentPerlinNoiseOctave.cs:15-26 | past the scale check: the scale is kept and the store starts empty over the given generator |
| PersistentPerlinOctaves.PersistentPerlinNoiseOctave.UnloadChunk | Assets/Scripts/Generation/PersistentPerlinNoiseOctave.cs:33-34 | the unload succeeds exactly when the store can unload the chunk, leaves the store `UnloadID` defines, and always succeeds on a store keeping the refcount invariant |
| PersistentPerlinOctaves.PersistentPerlinNoiseOctave.Get | Assets/Scripts/Generation/PersistentPerlinNoiseOctave.cs:40-63 | the store and value are those of the four corner Gets at position times the scale, in corner order, and the noise at the fractional position with no amplitude; the refcount invariant is kept |
| PersistentPerlinOctaves.OfScale | Assets/Scripts/Generation/PersistentPerlinNoiseOctave.cs:15-18 | an ArgumentException exactly when the scale is not positive and finite (NaN included); otherwise a fresh octave with an empty store |
| PersistentPerlinNoises.PersistentPerlinNoise.constructor | Assets/Scripts/Generation/PersistentPerlinNoise.cs:13 | the registry starts empty |
| PersistentPerlinNoises.PersistentPerlinNoise.Octave | Assets/Scripts/Generation/PersistentPerlinNoise.cs:27-36 | a scale already present returns its octave and changes nothing; a new valid scale gets exactly one fresh octave with an empty store, stored under it; an invalid scale throws and stores nothing |
| PersistentPerlinNoises.PersistentPerlinNoise.UnloadChunk | Assets/Scripts/Generation/PersistentPerlinNoise.cs:18-22 | every octave created so far unloads the id exactly once, none of them fails, and the registry keeps its invariant |
| PersistentPerlinNoises.PersistentPerlinNoise.UnloadOctave | Assets/Scripts/Generation/PersistentPerlinNoise.cs:20-21 | one iteration unloads the id from one octave's store and changes no other store |
| PersistentNoises.PersistentNoise.constructor | Assets/Scripts/Generation/PersistentNoise.cs:13 | the registry starts empty |
| PersistentNoises.PersistentNoise.Octave | Assets/Scripts/Generation/PersistentNoise.cs:18-27 | a scale already present returns its octave and changes nothing; a new valid scale gets exactly one fresh empty octave whose direction is the one its scale seeds; entries are never replaced; an invalid scale throws and stores nothing |
| WeightMaps.WeightSampleRequestsTheCorners | Assets/Scripts/Generation/CachedWeightMap.cs:34-47 | a weight sample marks exactly the four corner nodes of the scaled location as used by the chunk, leaves other chunks' sets alone, keeps the refcount invariant, and returns the bilinear sample of the weights now stored at those nodes |
| WeightMaps.WeightSampleOfEqualCorners | Assets/Scripts/Generation/CachedWeightMap.cs:46 | four equal corner weights sample as that weight |
| WeightMaps.WeightSampleWithin | Assets/Scripts/Generation/CachedWeightMap.cs:34-47 | with every stored weight and the default in [lo, hi], the sample lies in [lo, hi] and so does every weight stored afterwards |
| WeightMaps.WeightSampleOfDefaults | Assets/Scripts/Generation/CachedWeightMap.cs:17 | over a map holding only defaults every sample is the default |
| WeightMaps.UpdateKeepsValuesWithin | Assets/Scripts/Generation/CachedWeightMap.cs:53-58 | an updator that maps [lo, hi] into itself keeps every stored weight in [lo, hi] |
| WeightMaps.NearestKeyIsACorner | Assets/Scripts/Generation/CachedWeightMap.cs:55-58 | the node an update targets is within half a unit of the scaled location on each axis and is one of the four nodes a sample there reads |
| WeightMaps.NearestKeyIsNotTheCell | Assets/Scripts/Generation/CachedWeightMap.cs:38-58 | at (0.75, 0) the updated node is (1, 0) while the cell's own corner is (0, 0): the nearest node is not always the cell's corner |
| WeightMaps.CachedWeightMap.constructor | Assets/Scripts/Generation/CachedWeightMap.cs:14-20 | the map keeps its scale, starts empty, creates every node with the default value and is registered with the cachers |
| WeightMaps.CachedWeightMap.UnloadChunk | Assets/Scripts/Generation/CachedWeightMap.cs:25-28 | the unload succeeds exactly when the store can unload the id, leaves the store `UnloadID` defines, and cannot fail on a store keeping the refcount invariant |
| WeightMaps.CachedWeightMap.Get | Assets/Scripts/Generation/CachedWeightMap.cs:34-47 | the store and value are those of the four corner Gets at location times the scale and the bilinear sample at the fractional position |
| WeightMaps.CachedWeightMap.UpdateNearestIfExists | Assets/Scripts/Generation/CachedWeightMap.cs:53-59 | applies the updator to the node at the cast of the rounded (half to even) scaled location when that node is stored, reports whether it was, never creates a node and keeps the refcount invariant |
| WeightMaps.CachedWeightMap.UpdateNearestIfExistsWith | Assets/Scripts/Generation/CachedWeightMap.cs:66-72 | the overload is the same update with the extra argument curried into the updator |
| Grids.StepFromStart | Assets/Scripts/Generation/Griderable.cs:72-95 | the first `MoveNext` after `Reset` lands on the first yielded point and returns true exactly when there is one |
| Grids.StepFromYield | Assets/Scripts/Generation/Griderable.cs:72-88 | from the i-th yielded point `MoveNext` lands on the (i+1)-th and returns true exactly when that is still within the count |
| Grids.AfterIsYieldAt | Assets/Scripts/Generation/Griderable.cs:58-95 | after k calls of `MoveNext` from `Reset` the current point is the (k-1)-th yielded point, and the k-th call returned true exactly when k-1 is below the count: the enumerator yields exactly `Count` points, in the order `YieldAt` gives |
| Grids.YieldInRect | Assets/Scripts/Generation/Griderable.cs:22-28 | for a non-empty x-range every yielded point lies in [min, max) |
| Grids.YieldCoversRect | Assets/Scripts/Generation/Griderable.cs:22-28 | for a non-empty x-range every point of [min, max) is yielded, at its row-major index |
| Grids.YieldOnce | Assets/Scripts/Generation/Griderable.cs:22-28 | the row-major index of the i-th yielded point is i, so no point is yielded twice |
| Grids.EmptyWidthStillYields | Assets/Scripts/Generation/Griderable.cs:72-88 | when max.x <= min.x the rectangle is empty yet every step wraps, so the enumerator yields Height - 1 points at x = min.x, all outside [min, max) |
| Grids.Enumerator.constructor | Assets/Scripts/Generation/Griderable.cs:58-64 | a new enumerator over the grid starts at the `Reset` point |
| Grids.Enumerator.Reset | Assets/Scripts/Generation/Griderable.cs:90-95 | the point moves one unit left of min |
| Grids.Enumerator.MoveNext | Assets/Scripts/Generation/Griderable.cs:72-88 | the new point and the result are those of `Step` on the old point, which the lemmas above relate to `YieldAt` and `Count` |
| ChunkMeshers.SizesAreSquares | Assets/Scripts/Generation/ChunkMesher.cs:188-195 | the vertex count is (n+1)^2 and the triangle buffer holds 6 n^2 slots, a whole number 2 n^2 of triangles |
| ChunkMeshers.CountForInclusive | Assets/Scripts/Generation/ChunkMesher.cs:149 | the vertex loop visits (n+1)^2 points for n >= 0 and none otherwise, exactly filling the vertex buffer |
| ChunkMeshers.CountForCells | Assets/Scripts/Generation/ChunkMesher.cs:166 | the triangle loop visits n^2 cells for n > 0 and none otherwise |
| ChunkMeshers.GridIndexMatchesFill | Assets/Scripts/Generation/ChunkMesher.cs:97-98 | for a point of [0, n]^2 the flat index is inside the vertex buffer and is the slot the vertex loop wrote that point to |
| ChunkMeshers.GridIndexOfFill | Assets/Scripts/Generation/ChunkMesher.cs:97-98 | conversely the k-th point the vertex loop visits lies on the grid and has flat index k: the index is a bijection onto the buffer |
| ChunkMeshers.CellTrianglesAreTheTransposedSquare | Assets/Scripts/Generation/ChunkMesher.cs:168-176 | the cell the loop calls (i, j) writes the two triangles of the grid square whose lower corner is (j, i): the loop reads its coordinates transposed, which still covers every square once |
| ChunkMeshers.CellTrianglesInRange | Assets/Scripts/Generation/ChunkMesher.cs:168-176 | every index a cell of [0, n)^2 writes names a vertex |
| ChunkMeshers.AdaptorAcceptsTheGrid | Assets/Scripts/Generation/ChunkMesher.cs:36-46 | the indexer accepts exactly the points whose flat index lies in the array, and for a point of the grid it addresses the vertex the loop wrote there |
| ChunkMeshers.AdaptorAliasesPastRowEnd | Assets/Scripts/Generation/ChunkMesher.cs:40-44 | the bounds test is on the flat index only: (n+1, 0) is accepted and addresses the same slot as (0, 1) |
| ChunkMeshers.AdaptorGet | Assets/Scripts/Generation/ChunkMesher.cs:36-46 | an InvalidOperationException exactly when the flat index is outside the array; otherwise the value in that slot |
| ChunkMeshers.AdaptorSet | Assets/Scripts/Generation/ChunkMesher.cs:36-46 | writing through the indexer changes exactly the one checked slot, or nothing with an InvalidOperationException |
| ChunkMeshers.TriIndexInBuffer | Assets/Scripts/Generation/ChunkMesher.cs:67-76 | in a buffer of whole triangles, triangle k is accepted exactly when 0 <= k < length/3, and then all three of its slots are in the buffer |
| ChunkMeshers.TriGet | Assets/Scripts/Generation/ChunkMesher.cs:67-76 | reading triangle k gives slots 3k, 3k+1, 3k+2, or an IndexOutOfRangeException when triangle k is outside the buffer |
| ChunkMeshers.TriSet | Assets/Scripts/Generation/ChunkMesher.cs:67-76 | writing triangle k changes exactly those three slots, or nothing with an IndexOutOfRangeException |
| ChunkMeshers.GridAxisInChunk | Assets/Scripts/Generation/ChunkMesher.cs:105-123 | for a position inside the chunk the cell index is in [0, n-1], the fraction in [0, 1], and cell plus fraction is the position; the far edge maps to cell n-1 with fraction 1 |
| ChunkMeshers.GridAxisLeftOfChunk | Assets/Scripts/Generation/ChunkMesher.cs:107-110 | left of the chunk the int cast rounds toward zero while the fraction is floor-based: -0.5 maps to cell 0 with fraction 0.5, so cell plus fraction is not the position |
| ChunkMeshers.GridTrianglesSlot | Assets/Scripts/Generation/ChunkMesher.cs:166-177 | slot t of the triangle list holds corner t mod 6 of the (t div 6)-th cell the loop visits |
| ChunkMeshers.TrianglesIndexVertices | Assets/Scripts/Generation/ChunkMesher.cs:165-177 | once all n^2 cells are written the list fills the triangle buffer and every index names a vertex |
| ChunkMeshers.WriteGridVertices | Assets/Scripts/Generation/ChunkMesher.cs:148-163 | the vertex loop writes, in iteration order, vertex (i·unit, 0, j·unit) and a white colour for each point it visits, and leaves later slots alone |
| ChunkMeshers.WriteCell | Assets/Scripts/Generation/ChunkMesher.cs:168-176 | one cell appends its six indices at the write cursor and leaves later slots alone |
| ChunkMeshers.WriteGridTriangles | Assets/Scripts/Generation/ChunkMesher.cs:165-177 | the triangle loop writes the six indices of each visited cell, in iteration order, and leaves later slots alone |
| ChunkMeshers.VertexOfGridPoint | Assets/Scripts/Generation/ChunkMesher.cs:97-98 | in written buffers the slot the flat index gives for a grid point holds that point's vertex and a white colour |
| ChunkMeshers.ChunkMesher.constructor | Assets/Scripts/Generation/ChunkMesher.cs:183-203 | the buffers are sized (n+1)^2 and 6 n^2, the triangle count is 2 n^2, and the grid is written when `setToGrid` holds; otherwise (or for a negative n) the buffers keep their zero defaults |
| ChunkMeshers.ChunkMesher.GenerateGrid | Assets/Scripts/Generation/ChunkMesher.cs:143-178 | the vertex and triangle loops leave the written grid; for n >= 0 the loops fill both buffers exactly and every triangle index names a vertex; for a negative n nothing is written |
| ChunkMeshLegacy.GridIndexIsTransposed | Assets/Scripts/Generation/ChunkMesh.cs:52-53 | the x-major index of a point is the row-major index of its transpose, so it too maps [0, n]^2 one-to-one into the vertex range |
| ChunkMeshLegacy.IndexerReadsTheTransposedVertex | Assets/Scripts/Generation/ChunkMesh.cs:32-33 | after the fill the indexer at (x, y) reads the vertex written for (y, x), which differs from the vertex of (x, y) off the diagonal for a non-zero unit length |
| ChunkMeshLegacy.TransposedVertexDiffers | Assets/Scripts/Generation/ChunkMesh.cs:93-96 | off the diagonal, with a non-zero unit length, a point and its transpose have different vertices |
| ChunkMeshLegacy.CellTrianglesAreTheIndexerSquare | Assets/Scripts/Generation/ChunkMesh.cs:108-119 | the loop's cell (i, j) writes the two triangles of the indexer's grid square with lower corner (i, j) |
| ChunkMeshLegacy.AdaptorAcceptsTheGrid | Assets/Scripts/Generation/ChunkMesh.cs:32-33 | the indexer accepts exactly the points whose flat index lies in the array (an IndexOutOfRangeException otherwise), which includes every grid point of a full-size buffer |
| ChunkMeshLegacy.AdaptorAliasesPastColumnEnd | Assets/Scripts/Generation/ChunkMesh.cs:32-33 | (0, n+1) is accepted and addresses the same slot as (1, 0) |
| ChunkMeshLegacy.GridAxisInChunk | Assets/Scripts/Generation/ChunkMesh.cs:60-66 | inside the chunk, short of the far edge, the cell is one of the n cells and cell plus fraction is the position |
| ChunkMeshLegacy.GridAxisAtFarEdge | Assets/Scripts/Generation/ChunkMesh.cs:60-66 | at the far edge the unclamped cell is n, one past the last cell, where the newer mesher gives cell n-1 with fraction 1 |
| ChunkMeshLegacy.ChunkMesher.constructor | Assets/Scripts/Generation/ChunkMesh.cs:125-140 | the buffers are sized (n+1)^2 and 6 n^2, and `Reset` always runs, so the grid is written and, for n >= 0, every triangle index names a vertex |
| ChunkMeshLegacy.ChunkMesher.Reset | Assets/Scripts/Generation/ChunkMesh.cs:85-120 | the same two loops as the newer mesher: for n >= 0 both buffers are filled exactly and every triangle index names a vertex; for a negative n nothing is written |
| ChunkMeshBuilders.GridVerticesSlot | Assets/Scripts/Generation/ChunkMeshBuilder.cs:85-91 | slot i of the vertex list holds the centred vertex of the i-th point the loop visits |
| ChunkMeshBuilders.WrittenCounts | Assets/Scripts/Generation/ChunkMeshBuilder.cs:72-105 | the loops write n^2 vertex slots and 6 (n-1)^2 triangle slots for n >= 1 and none otherwise, and both fit the buffers sized (n+1)^2 and 6 n^2 |
| ChunkMeshBuilders.AdaptorIndexIntoWritten | Assets/Scripts/Generation/ChunkMeshBuilder.cs:30-33 | the indexer maps a point of [0, n)^2 into [0, n^2), onto the slot where the vertex loop wrote the transposed point |
| ChunkMeshBuilders.AdaptorIndexOntoWritten | Assets/Scripts/Generation/ChunkMeshBuilder.cs:30-33 | every slot of [0, n^2) is the index of exactly one point of [0, n)^2, so the indexer is a bijection onto the written vertices |
| ChunkMeshBuilders.AdaptorReadsTheTransposedVertex | Assets/Scripts/Generation/ChunkMeshBuilder.cs:30-33 | after the constructor the indexer at (x, y) is in bounds and reads the vertex written for (y, x) |
| ChunkMeshBuilders.TrianglesIndexWrittenVertices | Assets/Scripts/Generation/ChunkMeshBuilder.cs:94-105 | every index the triangle loop writes is below n^2, so it names a vertex the vertex loop wrote |
| ChunkMeshBuilders.CenteredOnlyForOddCounts | Assets/Scripts/Generation/ChunkMeshBuilder.cs:82-90 | with the offset n/2 truncated to an int, the grid's x extent is symmetric about the origin exactly for an odd n; for an even n its midpoint sits half a unit length toward negative coordinates |
| ChunkMeshBuilders.WriteVertices | Assets/Scripts/Generation/ChunkMeshBuilder.cs:84-91 | the vertex loop writes the centred vertex of each visited point at the running index and leaves later slots alone |
| ChunkMeshBuilders.ChunkMeshBuilder.constructor | Assets/Scripts/Generation/ChunkMeshBuilder.cs:67-106 | buffers sized for (n+1)^2 vertices and 6 n^2 indices; the first n^2 vertex slots hold the centred vertices in iteration order and the rest keep the zero default; every colour keeps its default; the first 6 (n-1)^2 index slots hold the triangles of the (n-1)^2 cells with stride n and the rest stay 0 |
| SimpleGridMeshes.GridVerticesSlot | Assets/Scripts/Generation/Generator.cs:22-31 | slot i n + j of the vertex list holds the centred vertex of point (i, j), with no transposition |
| SimpleGridMeshes.CellInRange | Assets/Scripts/Generation/Generator.cs:38-46 | every index of a cell of [0, n-1)^2 is below n^2 |
| SimpleGridMeshes.RowTrianglesInRange | Assets/Scripts/Generation/Generator.cs:36-47 | every index a row of cells writes is below n^2 |
| SimpleGridMeshes.GridTrianglesInRange | Assets/Scripts/Generation/Generator.cs:34-48 | every index the triangle loops write is below n^2, so it names a vertex the vertex loops wrote |
| SimpleGridMeshes.WrittenCounts | Assets/Scripts/Generation/Generator.cs:13-48 | the loops write n^2 vertices and 6 (n-1)^2 indices (none for n <= 0, no triangles for n = 1), and both fit the buffers sized (n+1)^2 and 6 n^2 |
| SimpleGridMeshes.SameFacesAsBuilder | Assets/Scripts/Generation/Generator.cs:22-48 | the generator's cell (j, i) and the builder's cell (i, j) are the same two triangles over the same vertex positions, in the same winding: the two meshes have the same faces |
| SimpleGridMeshes.SameCorner | Assets/Scripts/Generation/Generator.cs:22-31 | point (x, y) sits at the generator's slot x n + y and at the builder's slot y n + x |
| SimpleGridMeshes.WriteCell | Assets/Scripts/Generation/Generator.cs:38-46 | one cell appends its six indices (b, b+1, b+n) and (b+n, b+1, b+n+1) at the cursor and leaves later slots alone |
| SimpleGridMeshes.WriteVertexRow | Assets/Scripts/Generation/Generator.cs:24-30 | the inner loop appends the centred vertices of row i at the cursor and leaves later slots alone |
| SimpleGridMeshes.WriteVertices | Assets/Scripts/Generation/Generator.cs:22-31 | the vertex loops write the n^2 centred vertices row by row and leave later slots alone |
| SimpleGridMeshes.WriteTriangleRow | Assets/Scripts/Generation/Generator.cs:36-47 | the inner loop appends the cells of row i at the cursor and leaves later slots alone |
| SimpleGridMeshes.WriteTriangles | Assets/Scripts/Generation/Generator.cs:34-48 | the triangle loops write the (n-1)^2 cells row by row and leave later slots alone |
| SimpleGridMeshes.BuildSimpleGridMesh | Assets/Scripts/Generation/Generator.cs:6-48 | fresh buffers sized for (n+1)^2 vertices and 6 n^2 indices; the first n^2 vertex slots hold the grid, the first 6 (n-1)^2 index slots its triangles, and every other slot keeps its zero default |
| GenerationUtil.GetTriangleInformation | Assets/Scripts/Generation/GenerationUtils.cs:14-49 | no chunk exactly when the result is not found, and then the defaults (the location itself and the zero triangle); with a chunk, the local coordinate is the location minus the chunk's lower bound |
| GenerationUtil.SelectedTriangleContainsPoint | Assets/Scripts/Generation/GenerationUtils.cs:31-46 | for a fraction in the unit square the chosen half of the cell contains grid + fraction |
| GenerationUtil.SelectionIsTheOnlyChoice | Assets/Scripts/Generation/GenerationUtils.cs:31-46 | off the diagonal, the lower-left triangle contains the point exactly when the test picks it, and the upper-right exactly when it does not: the rule picks the only triangle that contains the point |
| GenerationUtil.TriangleUnderLocation | Assets/Scripts/Generation/GenerationUtils.cs:14-49 | for a location inside a chunk with a positive unit length, the triangle found has its three corners on the mesher's grid and contains the location's grid position |
| GenerationUtil.StandHeightAt | Assets/Scripts/Generation/GenerationUtils.cs:72-73 | the standing height is the larger of the path and ground heights: at least both, and equal to one of them |
| GenerationUtil.StandsOnPathExactlyWhereIsPath | Assets/Scripts/Generation/GenerationUtils.cs:65-73 | `IsPathAt` holds exactly where the standing height is above the ground, and fails exactly where the standing height is the ground height |
| GenerationUtil.HeightSampler.constructor | Assets/Scripts/Generation/GenerationUtils.cs:9 | the warn-once flag starts clear, with no warning logged |
| GenerationUtil.HeightSampler.HeightAt | Assets/Scripts/Generation/GenerationUtils.cs:90-168 | with no chunk under the location the warning is logged only the first time, the flag is set, and the answer is the raycast's hit height or `DEFAULT_HEIGHT` (-1) on a miss; with a chunk nothing changes and the answer is the interpolation over the triangle `GetTriangleInformation` selects in the chosen mesh |
| GeneratorManagers.ChunkInstance.Tag | Assets/Scripts/Generation/GeneratorManager.cs:44-45 | the instance takes the given id and position, and the bounds `Generate` computes |
| GeneratorManagers.Ceil | Assets/Scripts/Generation/GeneratorManager.cs:34 | `CeilToInt`: the least integer at or above x |
| GeneratorManagers.RadiusInsideSquare | Assets/Scripts/Generation/GeneratorManager.cs:125-130 | an offset within Manhattan distance R of the origin lies in the square [-R, R]^2 that the generation loop walks, and that square is not empty |
| GeneratorManagers.GeneratorManager.constructor | Assets/Scripts/Generation/GeneratorManager.cs:87-94 | no chunk is loaded, nothing is unloaded, a fresh pool is made, and the radius in chunks is the ceiling of generation radius over grid side |
| GeneratorManagers.GeneratorManager.LoadedIdsDistinct | Assets/Scripts/Generation/GeneratorManager.cs:44 | while fewer than 2^32 ids have been issued, two different loaded coordinates carry different ids |
| GeneratorManagers.GeneratorManager.Generate | Assets/Scripts/Generation/GeneratorManager.cs:39-85 | the location becomes loaded with an instance the pool handed out (an `OnGet` event), the next id of the counter, its position and bounds (x, z) to (x + side, z + side); every other loaded chunk keeps its instance and id; nothing is unloaded; the free instances only shrink |
| GeneratorManagers.GeneratorManager.Register | Assets/Scripts/Generation/GeneratorManager.cs:44-84 | the instance gets the counter's next id, then its position and bounds, and is added under the location; other chunks keep their ids |
| GeneratorManagers.GeneratorManager.Obtain | Assets/Scripts/Generation/GeneratorManager.cs:42 | `chunkPool.Get()` gives an instance that the pool owns, that no loaded coordinate holds and that is not free, either taken from the free instances or newly created |
| GeneratorManagers.GeneratorManager.Place | Assets/Scripts/Generation/GeneratorManager.cs:44-84 | the instance takes the id, position and bounds, and is added under the location; the manager's invariant holds again |
| GeneratorManagers.GeneratorManager.Add | Assets/Scripts/Generation/GeneratorManager.cs:84 | `loadedChunks.Add`: the map gains the location and the manager's invariant holds again |
| GeneratorManagers.GeneratorManager.CollectCulled | Assets/Scripts/Generation/GeneratorManager.cs:105-113 | the list holds exactly the loaded coordinates beyond the radius, each once |
| GeneratorManagers.GeneratorManager.UnloadOne | Assets/Scripts/Generation/GeneratorManager.cs:117-119 | the chunk is removed, the noise is unloaded for the id it carried, and its instance is released to the pool (and becomes free) |
| GeneratorManagers.GeneratorManager.UnloadChunks | Assets/Scripts/Generation/GeneratorManager.cs:115-120 | every listed chunk is removed; the noise is unloaded for their ids and the pool releases their instances, both in list order; a free instance afterwards was free or loaded before |
| GeneratorManagers.GeneratorManager.UnloadedIdsAreCarried | Assets/Scripts/Generation/GeneratorManager.cs:117-118 | the ids the unload loop logs are the ids the listed chunks carry |
| GeneratorManagers.GeneratorManager.UnloadAt | Assets/Scripts/Generation/GeneratorManager.cs:115-120 | one iteration of the unload loop advances the loop's invariant by one chunk |
| GeneratorManagers.GeneratorManager.GenerateMissing | Assets/Scripts/Generation/GeneratorManager.cs:124-134 | afterwards the loaded coordinates are the old ones plus every one within the radius of the centre; the old ones keep their instances and ids; nothing is unloaded; the pool only hands out instances |
| GeneratorManagers.GeneratorManager.GenerateAt | Assets/Scripts/Generation/GeneratorManager.cs:127-133 | one offset: a coordinate beyond the radius or already loaded is skipped, any other is generated, and the loop's invariant advances by one |
| GeneratorManagers.GeneratorManager.Cull | Assets/Scripts/Generation/GeneratorManager.cs:103-122 | exactly the loaded chunks beyond the radius are unloaded; the rest keep their instances; the noise log grows by the ids of the culled chunks in unload order; the pool's events grow by the releases of their instances in the same order |
| GeneratorManagers.GeneratorManager.Update | Assets/Scripts/Generation/GeneratorManager.cs:99-135 | with the centre floor(position / side): afterwards exactly the coordinates within the radius are loaded; chunks kept keep their instances and ids; the culled chunks are exactly the old ones beyond the radius; their ids are unloaded from the noise in order; and the pool released their instances before it handed out any, so new chunks can reuse them |
| GeneratorManagers.ReachedInside | Assets/Scripts/Generation/GeneratorManager.cs:129-130 | every coordinate the generation loop has reached is within the radius |
| GeneratorManagers.ReachedHas | Assets/Scripts/Generation/GeneratorManager.cs:127-133 | the loop reaches the coordinate of every offset it has passed that is within the radius |
| GeneratorManagers.ReachedIsInRadius | Assets/Scripts/Generation/GeneratorManager.cs:125-134 | walking the whole square [-R, R]^2 reaches exactly the coordinates within Manhattan distance R of the centre |
| GeneratorManagers.GeneratingSkip | Assets/Scripts/Generation/GeneratorManager.cs:129-132 | skipping an offset beyond the radius or already loaded keeps the loop's invariant one step further |
| GeneratorManagers.GeneratingAdd | Assets/Scripts/Generation/GeneratorManager.cs:132-133 | generating the chunk of an offset within the radius and not loaded keeps the loop's invariant one step further |
| GeneratorManagers.UnloadingStep | Assets/Scripts/Generation/GeneratorManager.cs:115-120 | unloading the next listed chunk keeps the unload loop's invariant one step further |
| GeneratorManagers.UnloadedIdsAt | Assets/Scripts/Generation/GeneratorManager.cs:118 | entry i of the unloaded-id log is the id of the i-th listed chunk |
| GeneratorManagers.ReleasedOfAt | Assets/Scripts/Generation/GeneratorManager.cs:119 | entry i of the release log releases the i-th listed chunk's instance |
| InstancePools.Registry.constructor | Assets/Scripts/Generation/InstancePool.cs:14 | the process-wide map starts empty |
| InstancePools.Registry.RegisterObject | Assets/Scripts/Generation/InstancePool.cs:16-19 | `TryAdd`: an object already registered keeps its first pool; a new one is mapped to the given pool |
| InstancePools.Registry.GetAssociatedPool | Assets/Scripts/Generation/InstancePool.cs:21-27 | the object's pool when it is registered, and null exactly when it is not |
| InstancePools.Registry.Release | Assets/Scripts/Generation/InstancePool.cs:37-43 | a null object or one no pool created ends in ArgumentNullException with no pool changed; otherwise exactly the owning pool runs `onRelease` and frees the object |
| InstancePools.InstancePool.constructor | Assets/Scripts/Generation/InstancePool.cs:57-62 | the free list starts empty and no callback has run |
| InstancePools.InstancePool.Get | Assets/Scripts/Generation/InstancePool.cs:64-86 | with free instances, one of them is taken out and returned and the registry is unchanged; with none, the created instance is returned and registered to this pool unless some pool already owns it; either way `onGet` runs once, on the instance returned |
| InstancePools.InstancePool.Release | Assets/Scripts/Generation/InstancePool.cs:91-103 | null throws ArgumentNullException and an instance this pool did not create throws ArgumentException, both changing nothing; otherwise `onRelease` runs once and the instance joins the free list |
| PlayerInventory.PlayerInventoryComponent.constructor | Assets/Scripts/Player/PlayerInventoryComponent.cs:6-7 | the serialized defaults: no firewood and no item |
| PlayerInventory.PlayerInventoryComponent.Worth | Assets/Scripts/Player/PlayerInventoryComponent.cs:40-43 | what the inventory is worth at the campfire: the log count, plus one when an item is held |
| PlayerInventory.PlayerInventoryComponent.ObtainFireWood | Assets/Scripts/Player/PlayerInventoryComponent.cs:13-17 | the count goes up by one and the new count is returned; nothing else changes |
| PlayerInventory.PlayerInventoryComponent.ReplaceItem | Assets/Scripts/Player/PlayerInventoryComponent.cs:19-36 | handing over the item already held returns it and changes nothing; handing over null while holding an item throws from `Store` before anything changes; otherwise the new item is stored (hidden) and held, the old one, if any, is dropped back (shown) and returned, and the collect effect runs once |
| PlayerInventory.PlayerInventoryComponent.BurnInventory | Assets/Scripts/Player/PlayerInventoryComponent.cs:38-49 | returns what the inventory was worth and empties it; when an item was held the placer moves to its next entry with nothing placed, and otherwise the placer is untouched |
| PlayerInventory.Item.Store | Assets/Scripts/Props/ItemComponent.cs:8-12 | the item is hidden and handed back |
| PlayerInventory.Item.Drop | Assets/Scripts/Props/ItemComponent.cs:14-18 | the item is shown again |
| SpecialItemPlacers.SpecialItemPlacer.constructor | Assets/Scripts/Generation/SpecialItemPlacer.cs:14-27 | nothing placed, the first entry, the default location, and no prop requested |
| SpecialItemPlacers.SpecialItemPlacer.ItemPlace | Assets/Scripts/Generation/SpecialItemPlacer.cs:29-30 | the location exactly while the item is placed, null otherwise |
| SpecialItemPlacers.SpecialItemPlacer.BurnSpecialItem | Assets/Scripts/Generation/SpecialItemPlacer.cs:18-23 | the entry index goes up by one, nothing is placed and the location returns to the default |
| SpecialItemPlacers.SpecialItemPlacer.PlaceInChunk | Assets/Scripts/Generation/SpecialItemPlacer.cs:32-61 | with no campfire manager, no entry left or too few logs used, nothing changes; a placed item is re-requested in the chunk whose bounds contain its location when the player holds no item; an unplaced item is placed at the chunk's centre, and requested there, exactly when the roll is below the chance and the centre lies within the void radius; the entry index never changes |
| SpecialItemPlacers.MagnitudeBelowIsLengthBelow | Assets/Scripts/Generation/SpecialItemPlacer.cs:53 | comparing squared lengths is the magnitude test: a length is below the radius exactly when the radius is positive and the squared length is below the squared radius |
| HeirarchyUtil.IsChildOf | Assets/Scripts/Generation/HeirarchyUtils.cs:9-13 | the extension, called statically: for a non-null parent it is strict ancestry, since the engine's method at line 12 adds only the identity that line 11 already covers; for a null parent it is true exactly at a root, and otherwise line 12 passes null to the engine's method, which throws ArgumentNullException |
| HeirarchyUtil.Ancestors | Assets/Scripts/Generation/HeirarchyUtils.cs:9-13 | the chain of ancestors is empty exactly for a root and starts with the direct parent |
| HeirarchyUtil.ChildOfDirectParent | Assets/Scripts/Generation/HeirarchyUtils.cs:11 | under the extension a transform is a child of its direct parent, or of null at a root |
| HeirarchyUtil.DescendsIsAncestry | Assets/Scripts/Generation/HeirarchyUtils.cs:9-13 | strict ancestry, the extension's answer for a non-null parent, holds exactly when the parent is in the chain of ancestors |
| HeirarchyUtil.EngineIsChildOfIsAncestryOrSelf | Assets/Scripts/Generation/HeirarchyUtils.cs:12 | the engine's `Transform.IsChildOf` that line 12 calls holds exactly when the argument is the transform itself or in its chain of ancestors |
| HeirarchyUtil.NotChildOfItself | Assets/Scripts/Generation/HeirarchyUtils.cs:9-13 | the extension answers false for a transform and itself, while the engine's method answers true |
| HeirarchyUtil.AncestorsAreSmaller | Assets/Scripts/Generation/HeirarchyUtils.cs:9-13 | every ancestor is strictly smaller than its descendant, so the recursion terminates |
| HeirarchyUtil.DescendsIsTransitive | Assets/Scripts/Generation/HeirarchyUtils.cs:9-13 | a descendant of a descendant of c descends from c |
| HeirarchyUtil.EngineIsChildOfIsPartialOrder | Assets/Scripts/Generation/HeirarchyUtils.cs:15-25 | the engine's method, which all five overloads run, is transitive and antisymmetric |
| HeirarchyUtil.ParentOfIsChildOfSwapped | Assets/Scripts/Generation/HeirarchyUtils.cs:15-25 | each `IsParentOf` overload is the engine's `IsChildOf` with the arguments swapped, so it holds exactly when the receiver's transform is the child or one of its ancestors, and it is true for a transform and itself; the `Component` and `GameObject` `IsChildOf` overloads run the engine's method on their transform and throw ArgumentNullException for a null parent |

## Left out

- Engine plumbing: MonoBehaviour lifecycle, GameObject instantiation and destruction, Transform positions, Gizmos and debug drawing, scene queries. Only the state these touch is modelled.
- Physics, input, the UI and audio are outside the modelled core.
- Random numbers: every draw is a parameter of the method that makes it (the gradient generator, the first direction of a seeded generator, the constructor delegates).
- Floating point: every `float` is a Dafny `real`, so rounding, NaN propagation and overflow of ordinary arithmetic are not modelled. Only the scale checks model NaN and the infinities, through `Common.Float`.
- Concurrency: the `ConcurrentSet` of chunk cachers is a set, the `ConcurrentBag` free list of an instance pool is a multiset, and the double-checked lock of the registries is taken as sequential code.
- Mesh output beyond indices: the uv buffer, the `packedIsPath` and `isPath` buffers, vertex colours other than the fill colour, `UpdateMeshInfo` and the calls that upload a built mesh to the engine.
- Prop placers other than `SpecialItemPlacer`, and `ChunkID.ToString`.
- `Griderable.ForInclusive` is an external enumerator, used at Assets/Scripts/Generation/ChunkMesher.cs:149 and by the chunk manager. It is assumed to yield every point of [0, n]^2 in x-fastest order.
- `CachedValueStore.UpdateIfExists`, which the weight map calls, is assumed to replace a present value by `updator` of it and leave the counts and usages alone.
- `MathUtils.Barycentric`, `WorldToChunkInstance` and the void radius of the path: the chunk found under a location and the barycentric interpolation are parameters of the height queries.
- `GeneratorManager.Generate`: the height noise, the vertex colours and the props it places are left out. The noise unloads it triggers are recorded as the `noiseUnloads` log.
- The `Griderable` enumerator that `GenerateMissing` walks is stepped by value through `Grids.Step`; `Grids.Enumerator.MoveNext` is proved to make that same step.
- Unity's `Transform.IsChildOf` is engine code: it is modelled as true for the transform itself and its descendants, and as throwing ArgumentNullException for a null argument, as the engine declares its parameter not-null. A null receiver of the hierarchy helpers is not modelled.
- Unity's overloaded null equality for destroyed objects: a destroyed object is never compared with null in the model.
- GeneratorManagers.GeneratorManager.Generate requires the location not to be loaded. The caller only reaches it for such a location, so the duplicate-key exception of `Dictionary.Add` is not modelled.
- GeneratorManagers.GeneratorManager.constructor requires a non-zero grid side length, because a float division by zero has no `real` counterpart.
- GenerationUtil.GetTriangleInformation requires a non-zero unit side length of the chunk found, for the same reason.
- GenerationUtil.HeightSampler.HeightAt requires a non-zero unit side length of the chunk found, for the same reason.
- ChunkCaching.ChunkCachers.Register requires that no registered cacher already holds the new cacher's store. Each cacher constructs its own store, so this always holds in the source.
- WeightMaps.CachedWeightMap.Get requires the store's generator to be the constant default value. The constructor establishes it and nothing changes it.
- PersistentNoiseOctaves.PersistentNoiseOctave.Grad models the code as written (see Findings). The corrected behaviour is the pure `GradCorrected`, and the class keeps the source's missing write-back.

## Findings

| source | as written | input that shows it | evidently intended | confidence | as-written member | corrected member |
|---|---|---|---|---|---|---|
| Assets/Scripts/Generation/PersistentNoiseOctave.cs:109-120 | `Grad` increments the use count of a present corner on a local copy of the struct and never stores it back, so a corner shared by two chunks keeps count 1 | chunk a and then chunk b (a != b) call `Grad` on the same corner; unloading a evicts the corner, and unloading b then throws KeyNotFoundException | the count is written back, as `CachedValueStore.Get` does, so the corner survives until its last user unloads | not executed | PersistentNoiseOctaves.MissingWriteBackEvictsEarly | PersistentNoiseOctaves.CorrectedKeepsSharedCorner |
| Assets/Scripts/Generation/ChunkMesh.cs:52-53 | the vertex loop writes grid point (x, y) at x + y(n + 1), but `GridPositionToIndex` reads (x, y) from x(n + 1) + y, so the indexer sees the grid transposed | n = 1, unit length 1: the indexer at (1, 0) returns the vertex of (0, 1) | one layout for writer and indexer, as in ChunkMesher.cs | not executed | ChunkMeshLegacy.IndexerReadsTheTransposedVertex | ChunkMeshers.VertexOfGridPoint |
| Assets/Scripts/Generation/ChunkMesh.cs:60-66 | `WorldToGridPosition` casts position over unit length to int with no adjustment, so a position on the chunk's far edge lands in cell n, whose far corner n + 1 is off the grid | n >= 1, a position of exactly n unit lengths: cell n with fraction 0 | the far edge maps to the last cell n - 1 with fraction 1, as in ChunkMesher.cs | not executed | ChunkMeshLegacy.GridAxisAtFarEdge | ChunkMeshers.GridAxisInChunk |

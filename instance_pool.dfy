/** InstancePool: a free-list pool of instances, and the process-wide map
    from each instance to the pool that created it.

    The static `pooledInstanceMap` is a `Registry` object shared by the
    pools; it maps the instances of one element type, which is all a pool
    of that type ever looks up. The `ConcurrentBag` of free instances is a
    multiset and `TryTake` takes any one of them. `create` is not called
    here: `Get` is handed the instance `create()` would return. The
    `onGet`/`onRelease` callbacks are recorded, in order, as events. */
module InstancePools {
  import opened Common

  /** One run of a pool's `onGet` or `onRelease` callback. */
  datatype PoolEvent<T> = OnGet(instance: T) | OnRelease(instance: T)

  /** The static part of `InstancePool`: `pooledInstanceMap`. */
  class Registry<T(==)> {
    var pooledInstanceMap: map<T, InstancePool<T>>

    constructor ()
      ensures pooledInstanceMap == map[]
    {
      pooledInstanceMap := map[];
    }

    /** Every registered pool looks its instances up here. */
    ghost predicate Valid()
      reads this
    {
      forall p | p in pooledInstanceMap.Values :: p.registry == this
    }

    /** `RegisterObject(obj, pool)`: `TryAdd`, so the first association of
        an object is kept. */
    method RegisterObject(obj: T, pool: InstancePool<T>)
      requires Valid() && pool.registry == this
      modifies this
      ensures Valid()
      ensures obj in old(pooledInstanceMap) ==> pooledInstanceMap == old(pooledInstanceMap)
      ensures obj !in old(pooledInstanceMap) ==> pooledInstanceMap == old(pooledInstanceMap)[obj := pool]
    {
      if obj !in pooledInstanceMap {
        pooledInstanceMap := pooledInstanceMap[obj := pool];
      }
    }

    /** `GetAssociatedPool(obj)`: null for an object no pool created. */
    function GetAssociatedPool(obj: T): (r: Option<InstancePool<T>>)
      reads this
      ensures r.Some? <==> obj in pooledInstanceMap
      ensures r.Some? ==> r.value == pooledInstanceMap[obj]
    {
      if obj in pooledInstanceMap then Some(pooledInstanceMap[obj]) else None
    }

    /** The static `Release(obj)`: hand the object back to the pool that
        created it. A null object (the dictionary lookup rejects a null key)
        and an object from no pool both end in ArgumentNullException. */
    method Release(obj: Option<T>) returns (r: Result<()>)
      requires Valid()
      requires obj.Some? && obj.value in pooledInstanceMap ==> pooledInstanceMap[obj.value].Valid()
      modifies pooledInstanceMap.Values
      ensures Valid()
      ensures obj.None? || obj.value !in pooledInstanceMap ==> r == Err(ArgumentNullError)
      ensures obj.None? || obj.value !in pooledInstanceMap ==> forall p | p in pooledInstanceMap.Values :: unchanged(p)
      ensures obj.Some? && obj.value in pooledInstanceMap ==>
        var v := obj.value;
        var owner := pooledInstanceMap[v];
        && r == Ok(())
        && owner.freeInstances == old(owner.freeInstances) + multiset{v}
        && owner.events == old(owner.events) + [OnRelease(v)]
        && owner.Valid()
        && forall p | p in pooledInstanceMap.Values && p != owner :: unchanged(p)
      ensures pooledInstanceMap == old(pooledInstanceMap)
    {
      if obj.None? {
        return Err(ArgumentNullError);
      }
      var pool := GetAssociatedPool(obj.value);
      if pool.None? {
        return Err(ArgumentNullError);
      }
      r := pool.value.Release(obj);
    }
  }

  class InstancePool<T(==)> {
    const registry: Registry<T>
    var freeInstances: multiset<T>
    /** The callbacks run so far, oldest first. */
    var events: seq<PoolEvent<T>>

    /** `new InstancePool(create, onGet, onRelease)`: an empty free list. */
    constructor (registry: Registry<T>)
      ensures this.registry == registry
      ensures freeInstances == multiset{} && events == []
    {
      this.registry := registry;
      freeInstances := multiset{};
      events := [];
    }

    /** Every free instance was created by this pool. */
    ghost predicate Valid()
      reads this, registry
    {
      forall x | x in freeInstances :: x in registry.pooledInstanceMap && registry.pooledInstanceMap[x] == this
    }

    /** `Get`: a free instance if there is one, otherwise `created`, which
        is registered as this pool's (unless some pool already registered
        it); `onGet` runs on the instance returned. */
    method Get(created: T) returns (instance: T)
      requires Valid() && registry.Valid()
      modifies this, registry
      ensures Valid() && registry.Valid()
      ensures old(freeInstances) != multiset{} ==>
        && instance in old(freeInstances)
        && freeInstances == old(freeInstances) - multiset{instance}
        && registry.pooledInstanceMap == old(registry.pooledInstanceMap)
      ensures old(freeInstances) == multiset{} ==>
        && instance == created && freeInstances == multiset{}
        && registry.pooledInstanceMap == if created in old(registry.pooledInstanceMap) then old(registry.pooledInstanceMap)
                                         else old(registry.pooledInstanceMap)[created := this]
      ensures instance in registry.pooledInstanceMap
      ensures events == old(events) + [OnGet(instance)]
    {
      if freeInstances != multiset{} {
        instance :| instance in freeInstances;
        freeInstances := freeInstances - multiset{instance};
      } else {
        instance := created;
        registry.RegisterObject(instance, this);
      }
      events := events + [OnGet(instance)];
    }

    /** `Release(instance)`: null throws ArgumentNullException, an instance
        this pool did not create throws ArgumentException, and in both cases
        nothing changes; otherwise `onRelease` runs and the instance joins
        the free list. */
    method Release(instance: Option<T>) returns (r: Result<()>)
      requires Valid()
      modifies this
      ensures Valid()
      ensures instance.None? ==> r == Err(ArgumentNullError) && unchanged(this)
      ensures instance.Some? && registry.GetAssociatedPool(instance.value) != Some(this) ==>
        r == Err(ArgumentError) && unchanged(this)
      ensures instance.Some? && registry.GetAssociatedPool(instance.value) == Some(this) ==>
        && r == Ok(())
        && freeInstances == old(freeInstances) + multiset{instance.value}
        && events == old(events) + [OnRelease(instance.value)]
    {
      if instance.None? {
        return Err(ArgumentNullError);
      }
      var pool := registry.GetAssociatedPool(instance.value);
      if pool != Some(this) {
        return Err(ArgumentError);
      }
      events := events + [OnRelease(instance.value)];
      freeInstances := freeInstances + multiset{instance.value};
      r := Ok(());
    }
  }
}

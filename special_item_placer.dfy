/** SpecialItemPlacer: the one special item of the current stage. `index`
    counts the items burnt so far and picks the entry; the item is either
    placed at a location or not placed yet. `PlaceInChunk` runs once per
    generated chunk: it re-creates the placed item when its chunk comes
    back, and otherwise may place it at the chunk's centre.

    What `PlaceInChunk` reads from other singletons is a parameter: the
    campfire manager (None for a missing one) and its used-log count,
    whether the player holds an item, the `Random.value` roll, and
    `GeneratorManager.VoidRadius`, an engine-side setting. The
    props it creates through `AttemptCreate` are recorded as requests. */
module SpecialItemPlacers {
  import opened Common

  /** A `SpecialItemEntry`: the firewood needed before it appears, and what
      it is. */
  datatype SpecialItemEntry = SpecialItemEntry(minFirewood: int, specification: nat)

  /** A chunk's `Bounds`: a Unity `Rect` from `min` to `max`. */
  datatype Rect = Rect(min: Vec2, max: Vec2)

  /** `Rect.Contains`: closed at the lower edges, open at the upper ones. */
  predicate Contains(r: Rect, p: Vec2) {
    r.min.x <= p.x < r.max.x && r.min.y <= p.y < r.max.y
  }

  function Center(r: Rect): Vec2 {
    Vec2((r.min.x + r.max.x) / 2.0, (r.min.y + r.max.y) / 2.0)
  }

  /** `v.magnitude < radius`, without the square root: for a positive radius
      the squared length is below the squared radius, and no length is below
      a radius that is not positive. */
  predicate MagnitudeBelow(v: Vec2, radius: real) {
    radius > 0.0 && v.x * v.x + v.y * v.y < radius * radius
  }

  /** One `AttemptCreate(chunk, location, false)` call, with the
      specification then written into the prop's item. */
  datatype PropRequest = PropRequest(chunk: Rect, location: Vec2, specification: nat)

  const Origin: Vec2 := Vec2(0.0, 0.0)

  class SpecialItemPlacer {
    const entries: seq<SpecialItemEntry>
    const chanceToPlace: real
    var isPlaced: bool
    var location: Vec2
    var index: int
    /** The props requested from `AttemptCreate`, oldest first. */
    var requests: seq<PropRequest>

    /** The index only counts up from 0, and a placer that is not placed
        keeps the default location. */
    ghost predicate Valid()
      reads this
    {
      index >= 0 && (!isPlaced ==> location == Origin)
    }

    /** The serialized defaults: nothing placed, first entry. */
    constructor (entries: seq<SpecialItemEntry>, chanceToPlace: real)
      ensures Valid()
      ensures this.entries == entries && this.chanceToPlace == chanceToPlace
      ensures !isPlaced && index == 0 && requests == []
    {
      this.entries := entries;
      this.chanceToPlace := chanceToPlace;
      isPlaced := false;
      location := Origin;
      index := 0;
      requests := [];
    }

    /** `ItemPlace`: the location while placed, null otherwise. */
    function ItemPlace(): (r: Option<Vec2>)
      reads this
      ensures r.Some? <==> isPlaced
      ensures r.Some? ==> r.value == location
    {
      if isPlaced then Some(location) else None
    }

    /** `BurnSpecialItem`: on to the next entry, with nothing placed. */
    method BurnSpecialItem()
      modifies this
      requires Valid()
      ensures Valid()
      ensures index == old(index) + 1 && !isPlaced && location == Origin
      ensures requests == old(requests)
    {
      index := index + 1;
      isPlaced := false;
      location := Origin;
    }

    /** The guards in front of any placement: a campfire manager, an entry
        left, and enough logs used for it. */
    predicate Active(usedLogs: Option<int>)
      reads this
    {
      usedLogs.Some? && 0 <= index < |entries| && usedLogs.value >= entries[index].minFirewood
    }

    /** `PlaceInChunk(chunk)`. */
    method PlaceInChunk(chunk: Rect, usedLogs: Option<int>, holdsItem: bool, roll: real, voidRadius: real)
      requires Valid()
      modifies this
      ensures Valid()
      ensures index == old(index)
      ensures !Active(usedLogs) ==> unchanged(this)
      ensures Active(usedLogs) && old(isPlaced) ==>
        && isPlaced && location == old(location)
        && requests == old(requests) + (if Contains(chunk, location) && !holdsItem
                                       then [PropRequest(chunk, location, entries[index].specification)] else [])
      ensures Active(usedLogs) && !old(isPlaced) ==>
        var place := roll < chanceToPlace && MagnitudeBelow(Center(chunk), voidRadius);
        && isPlaced == place
        && location == (if place then Center(chunk) else Origin)
        && requests == old(requests) + (if place then [PropRequest(chunk, Center(chunk), entries[index].specification)] else [])
    {
      if usedLogs.None? {
        return;
      }
      if index >= |entries| {
        return;
      }
      var logs := usedLogs.value;
      if logs < entries[index].minFirewood {
        return;
      }
      if isPlaced {
        if Contains(chunk, location) && !holdsItem {
          requests := requests + [PropRequest(chunk, location, entries[index].specification)];
        }
      } else if roll < chanceToPlace && MagnitudeBelow(Center(chunk), voidRadius) {
        isPlaced := true;
        location := Center(chunk);
        requests := requests + [PropRequest(chunk, location, entries[index].specification)];
      }
    }
  }

  /** `MagnitudeBelow` is `sqrt(x^2 + y^2) < r`: for a non-negative length
      m, m < r exactly when r is positive and m^2 < r^2. */
  lemma {:induction false} MagnitudeBelowIsLengthBelow(m: real, radius: real)
    requires m >= 0.0
    ensures m < radius <==> (radius > 0.0 && m * m < radius * radius)
  {
    if m < radius {
      ProductNonNegative(radius - m, m);
      ProductPositive(radius - m, radius);
      assert radius * radius - m * m == (radius - m) * m + (radius - m) * radius;
    } else if radius > 0.0 {
      ProductNonNegative(m - radius, m);
      ProductNonNegative(m - radius, radius);
      assert m * m - radius * radius == (m - radius) * m + (m - radius) * radius;
    }
  }

  lemma ProductNonNegative(a: real, b: real)
    requires a >= 0.0 && b >= 0.0
    ensures a * b >= 0.0
  {
  }

  lemma ProductPositive(a: real, b: real)
    requires a > 0.0 && b > 0.0
    ensures a * b > 0.0
  {
  }
}

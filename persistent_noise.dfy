/** PersistentNoise: a registry of PersistentNoiseOctave instances keyed by
    scale, created on first request and never replaced.

    Each octave seeds its random source from the bits of its scale, so the
    one direction it ever draws (see PersistentNoiseOctaves) is a function of
    the scale: `firstDirection`, opaque here. */
module PersistentNoises {
  import opened Common
  import opened ValueStore
  import opened PersistentNoiseOctaves

  class PersistentNoise {
    var octaves: map<Float, PersistentNoiseOctave>
    const firstDirection: real -> Vec2

    /** Every stored octave was built for its own (valid) scale. */
    ghost predicate Valid()
      reads this
    {
      forall s | s in octaves ::
        IsValidScale(s) && octaves[s].octaveScale == s.value && octaves[s].direction == firstDirection(s.value)
    }

    constructor (firstDirection: real -> Vec2)
      ensures Valid() && octaves == map[] && this.firstDirection == firstDirection
    {
      octaves := map[];
      this.firstDirection := firstDirection;
    }

    /** `Octave(scale)`: the octave already stored for `scale`, or exactly one
        new octave stored under it; existing entries are never replaced, and
        an invalid scale throws before anything is stored. */
    method Octave(scale: Float) returns (r: Result<PersistentNoiseOctave>)
      requires Valid()
      modifies this
      ensures Valid()
      ensures old(octaves).Keys <= octaves.Keys
      ensures forall s | s in old(octaves) :: octaves[s] == old(octaves)[s]
      ensures scale in old(octaves) ==> r == Ok(old(octaves)[scale]) && octaves == old(octaves)
      ensures scale !in old(octaves) && !IsValidScale(scale) ==> r == Err(ArgumentError) && octaves == old(octaves)
      ensures scale !in old(octaves) && IsValidScale(scale) ==>
                && r.Ok? && fresh(r.value) && r.value.Model() == EmptyStore()
                && r.value.octaveScale == scale.value && r.value.direction == firstDirection(scale.value)
                && octaves == old(octaves)[scale := r.value]
    {
      if scale in octaves {
        return Ok(octaves[scale]);
      }
      r := OfScale(scale, firstDirection);
      if r.Ok? {
        octaves := octaves[scale := r.value];
      }
    }
  }
}

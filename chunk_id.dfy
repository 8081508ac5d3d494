/** ChunkID: an opaque 32-bit unsigned identifier with value equality, issued
    by a post-incrementing counter that wraps at 2^32. The process-wide static
    counter is an explicit `IdCounter` object here. */
module ChunkIds {

  const UINT32_MODULUS: int := 0x1_0000_0000

  newtype uint32 = x: int | 0 <= x < 0x1_0000_0000
  newtype int32 = x: int | -0x8000_0000 <= x < 0x8000_0000

  datatype ChunkID = ChunkID(id: uint32)

  /** What `Equals(object)` may be handed: a boxed ChunkID, any other object, or null. */
  datatype Object = BoxedChunkID(chunk: ChunkID) | OtherObject | Null

  /** `Equals(ChunkID)`: the wrapped integers are equal. */
  predicate Equals(self: ChunkID, other: ChunkID) {
    self.id == other.id
  }

  /** `Equals(object)`: a pattern test, then `Equals(ChunkID)`. */
  predicate EqualsObject(self: ChunkID, other: Object) {
    other.BoxedChunkID? && Equals(self, other.chunk)
  }

  /** `operator ==` */
  predicate Eq(l: ChunkID, r: ChunkID) {
    Equals(l, r)
  }

  /** `operator !=` */
  predicate NotEq(l: ChunkID, r: ChunkID) {
    !Equals(l, r)
  }

  /** `uint.GetHashCode()` is the same 32 bits read as a signed int. */
  function GetHashCode(c: ChunkID): (h: int32)
    ensures h as int == c.id as int || h as int == c.id as int - UINT32_MODULUS
    ensures h >= 0 <==> c.id < 0x8000_0000
  {
    if c.id < 0x8000_0000 then c.id as int as int32 else (c.id as int - UINT32_MODULUS) as int32
  }

  /** The id issued by the k-th call of `Unique` on a fresh counter. */
  function NthId(k: nat): uint32 {
    (k % UINT32_MODULUS) as uint32
  }

  // ---------------------------------------------------------------------------

  /** Equality is exactly equality of the wrapped integer, i.e. value equality. */
  lemma EqualsIsValueEquality(l: ChunkID, r: ChunkID)
    ensures Equals(l, r) <==> l == r
    ensures Equals(l, r) == Equals(r, l)
  {
  }

  /** `==` and `!=` are exact complements. */
  lemma OperatorsAreComplements(l: ChunkID, r: ChunkID)
    ensures Eq(l, r) != NotEq(l, r)
  {
  }

  /** `Equals(object)` is false for null and for anything not a ChunkID, and
      agrees with `Equals(ChunkID)` on a boxed ChunkID. */
  lemma EqualsObjectOnlyForChunkIDs(self: ChunkID, other: Object)
    ensures !other.BoxedChunkID? ==> !EqualsObject(self, other)
    ensures other.BoxedChunkID? ==> (EqualsObject(self, other) <==> self == other.chunk)
  {
  }

  /** Equal ids have equal hash codes; the reinterpretation loses nothing, so
      unequal ids also have unequal hash codes. */
  lemma {:induction false} HashCodeAgreesWithEquality(l: ChunkID, r: ChunkID)
    ensures Equals(l, r) <==> GetHashCode(l) == GetHashCode(r)
  {
    if GetHashCode(l) == GetHashCode(r) {
      assert (l.id < 0x8000_0000) == (r.id < 0x8000_0000);
    }
  }

  /** Ids issued by successive calls are distinct until the counter has gone
      round once; the 2^32-th call repeats the first id. */
  lemma {:induction false} IssuedIdsDistinctUntilWrap(i: nat, j: nat)
    requires i < j
    ensures NthId(i) == NthId(j) <==> (j - i) % UINT32_MODULUS == 0
  {
    var a, b := i % UINT32_MODULUS, j % UINT32_MODULUS;
    assert i == (i / UINT32_MODULUS) * UINT32_MODULUS + a;
    assert j == (j / UINT32_MODULUS) * UINT32_MODULUS + b;
    assert j - i == (j / UINT32_MODULUS - i / UINT32_MODULUS) * UINT32_MODULUS + (b - a);
    if a == b {
      assert (j - i) % UINT32_MODULUS == 0;
    } else {
      ModOfOffset(j / UINT32_MODULUS - i / UINT32_MODULUS, b - a);
    }
  }

  lemma ModOfOffset(q: int, d: int)
    requires -UINT32_MODULUS < d < UINT32_MODULUS && d != 0
    ensures (q * UINT32_MODULUS + d) % UINT32_MODULUS != 0
  {
    var m := UINT32_MODULUS;
    if d > 0 {
      assert q * m + d == q * m + d;
      assert (q * m + d) % m == d;
    } else {
      assert q * m + d == (q - 1) * m + (m + d);
      assert ((q - 1) * m + (m + d)) % m == m + d;
    }
  }

  /** The static `nextId` counter behind `ChunkID.Unique`. */
  class IdCounter {
    var nextId: uint32
    /** How many ids have been issued, for stating the wrap-around. */
    ghost var issued: nat

    ghost predicate Valid()
      reads this
    {
      nextId == NthId(issued)
    }

    constructor ()
      ensures Valid() && issued == 0 && nextId == 0
    {
      nextId := 0;
      issued := 0;
    }

    /** `new(nextId++)`: returns the current value, then increments with
        unsigned wrap-around. */
    method Unique() returns (c: ChunkID)
      requires Valid()
      modifies this
      ensures Valid() && issued == old(issued) + 1
      ensures c.id == old(nextId) && c.id == NthId(old(issued))
      ensures nextId == if old(nextId) as int == UINT32_MODULUS - 1 then 0 else old(nextId) + 1
    {
      c := ChunkID(nextId);
      if nextId as int == UINT32_MODULUS - 1 {
        nextId := 0;
      } else {
        nextId := nextId + 1;
      }
      issued := issued + 1;
      assert NthId(issued) as int == (old(issued) + 1) % UINT32_MODULUS;
    }
  }
}

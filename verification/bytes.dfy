/**
 * The byte comparator behind the staleness check: `_IsEqualBytes` compares a
 * source DLL and a deployed DLL exactly, byte by byte.
 */
module Bytes {
  import opened Wrappers

  /** An unsigned 8-bit value, the element type of a C# `byte[]`. */
  newtype byte = x: int | 0 <= x < 256

  /** Same length and the same byte at every index. */
  predicate SameBytes(a: seq<byte>, b: seq<byte>)
  {
    |a| == |b| && forall i :: 0 <= i < |a| ==> a[i] == b[i]
  }

  /** Reference meaning of the comparison: a null array on either side never compares equal. */
  predicate EqualBytes(a: Option<seq<byte>>, b: Option<seq<byte>>)
  {
    a.Some? && b.Some? && SameBytes(a.value, b.value)
  }

  /** `_IsEqualBytes`: null check, length check, then an index-by-index scan that stops at the first mismatch. */
  method IsEqualBytes(sourceBytes: Option<seq<byte>>, destBytes: Option<seq<byte>>) returns (equal: bool)
    ensures equal <==> EqualBytes(sourceBytes, destBytes)
    ensures equal <==> sourceBytes.Some? && destBytes.Some? && sourceBytes.value == destBytes.value
  {
    if sourceBytes.None? || destBytes.None? {
      return false;
    }
    var source := sourceBytes.value;
    var dest := destBytes.value;
    if |source| != |dest| {
      return false;
    }
    var i := 0;
    while i < |source|
      invariant 0 <= i <= |source|
      invariant forall k :: 0 <= k < i ==> source[k] == dest[k]
    {
      if source[i] != dest[i] {
        return false;
      }
      i := i + 1;
    }
    return true;
  }

  /** The comparison is exact equality on present arrays: reflexive, symmetric, and false whenever a side is null. */
  lemma EqualBytesIsExactEquality(a: Option<seq<byte>>, b: Option<seq<byte>>)
    ensures EqualBytes(a, b) <==> a.Some? && a == b
    ensures EqualBytes(a, b) <==> EqualBytes(b, a)
    ensures a.Some? ==> EqualBytes(a, a)
    ensures a.None? || b.None? ==> !EqualBytes(a, b)
  {
    if a.Some? && b.Some? && SameBytes(a.value, b.value) {
      assert a.value == b.value;
    }
  }
}

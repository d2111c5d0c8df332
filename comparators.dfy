/** The comparators of test.c that only decide: integer, unsigned, C-string and
    memory equality. References are nullable byte arrays, so that pointer
    identity (`==` on references) is separate from equality of contents. */
module Comparators {
  import opened Diagnostics
  import opened CMemory

  newtype Int64 = x: int | -0x8000_0000_0000_0000 <= x < 0x8000_0000_0000_0000
  newtype UInt64 = x: int | 0 <= x < 0x1_0000_0000_0000_0000

  /** `fantestic_assert_equals_int`. */
  function EqualsInt(expected: Int64, actual: Int64): (s: Status)
    ensures s.ReturnValue() == 1 <==> expected == actual
    ensures s != Ok ==> s == Mismatch && s.Channel() == Stdout
  {
    if expected == actual then Ok else Mismatch
  }

  /** `fantestic_assert_equals_unsigned_int`. */
  function EqualsUnsignedInt(expected: UInt64, actual: UInt64): (s: Status)
    ensures s.ReturnValue() == 1 <==> expected == actual
    ensures s != Ok ==> s == Mismatch && s.Channel() == Stdout
  {
    if expected == actual then Ok else Mismatch
  }

  /** What `strcmp` may read: both strings are terminated, unless the identity
      or NULL check returns first. */
  predicate StrArgsReadable(expected: array?<bv8>, actual: array?<bv8>)
    reads expected, actual
  {
    expected != actual && expected != null && actual != null ==>
      IsCString(expected[..]) && IsCString(actual[..])
  }

  /** `fantestic_assert_equals_str`. */
  function EqualsStr(expected: array?<bv8>, actual: array?<bv8>): (s: Status)
    reads expected, actual
    requires StrArgsReadable(expected, actual)
    ensures expected == actual ==> s == Ok
    ensures expected != actual && (expected == null || actual == null) ==> s == NullInput
    ensures expected != actual && expected != null && actual != null ==>
      (s == Ok <==> CStr(expected[..]) == CStr(actual[..])) && s in {Ok, Mismatch}
  {
    if expected == actual then Ok
    else if expected == null || actual == null then NullInput
    else
      StrCmpZeroIff(expected[..], actual[..]);
      if StrCmp(expected[..], actual[..]) == 0 then Ok else Mismatch
  }

  /** What `memcmp` may read: `len` bytes of each region, unless the identity
      or NULL check returns first. */
  predicate MemArgsReadable(expected: array?<bv8>, actual: array?<bv8>, len: nat)
  {
    expected != actual && expected != null && actual != null ==>
      len <= expected.Length && len <= actual.Length
  }

  /** `fantestic_assert_equals_mem`. */
  function EqualsMem(expected: array?<bv8>, actual: array?<bv8>, len: nat): (s: Status)
    reads expected, actual
    requires MemArgsReadable(expected, actual, len)
    ensures expected == actual ==> s == Ok
    ensures expected != actual && (expected == null || actual == null) ==> s == NullInput
    ensures expected != actual && expected != null && actual != null ==>
      (s == Ok <==> expected[..len] == actual[..len]) && s in {Ok, Mismatch}
  {
    if expected == actual then Ok
    else if expected == null || actual == null then NullInput
    else
      MemCmpZeroIff(expected[..], actual[..], len);
      if MemCmp(expected[..], actual[..], len) == 0 then Ok else Mismatch
  }
}

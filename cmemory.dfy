/** The two C library comparisons the comparators call, `strcmp` and `memcmp`,
    over byte sequences. Section 7.24.4 of C11 fixes only the sign of their
    result: zero, or the sign of the difference of the first differing bytes
    read as `unsigned char`. The model returns that difference itself, which
    has the sign C requires. */
module CMemory {

  /** A NUL-terminated C string: the bytes hold a terminating zero somewhere. */
  predicate IsCString(s: seq<bv8>) {
    0 in s
  }

  /** The characters of a C string: the bytes before the first NUL. */
  function CStr(s: seq<bv8>): (r: seq<bv8>)
    requires IsCString(s)
    ensures |r| < |s| && r == s[..|r|] && s[|r|] == 0
    ensures 0 !in r
    decreases |s|
  {
    if s[0] == 0 then [] else [s[0]] + CStr(s[1..])
  }

  /** `strcmp`: compare byte by byte until a difference or a common NUL. */
  function StrCmp(a: seq<bv8>, b: seq<bv8>): (r: int)
    requires IsCString(a) && IsCString(b)
    ensures -255 <= r <= 255
    decreases |a|
  {
    if a[0] != b[0] then a[0] as int - b[0] as int
    else if a[0] == 0 then 0
    else StrCmp(a[1..], b[1..])
  }

  /** `strcmp` reports equality exactly when the two C strings are equal:
      the bytes after the terminator never matter. */
  lemma {:induction false} StrCmpZeroIff(a: seq<bv8>, b: seq<bv8>)
    requires IsCString(a) && IsCString(b)
    ensures StrCmp(a, b) == 0 <==> CStr(a) == CStr(b)
    decreases |a|
  {
    CStrUnfold(a);
    CStrUnfold(b);
    if a[0] != b[0] {
      assert a[0] as int != b[0] as int;
      assert CStr(a) == [] || CStr(b) == [] || CStr(a)[0] != CStr(b)[0];
    } else if a[0] != 0 {
      StrCmpZeroIff(a[1..], b[1..]);
      if CStr(a) == CStr(b) {
        assert CStr(a[1..]) == CStr(a)[1..] == CStr(b)[1..] == CStr(b[1..]);
      }
    }
  }

  /** One step of `CStr`: empty at a leading NUL, otherwise the first byte
      followed by the characters of the rest. */
  lemma CStrUnfold(s: seq<bv8>)
    requires IsCString(s)
    ensures s[0] == 0 ==> CStr(s) == []
    ensures s[0] != 0 ==> IsCString(s[1..]) && CStr(s) == [s[0]] + CStr(s[1..]) && CStr(s)[0] == s[0]
  {
  }

  /** The sign of `strcmp` is that of the first pair of differing bytes, when
      that pair comes before any NUL; swapping the arguments negates it. */
  lemma {:induction false} StrCmpFirstDifference(a: seq<bv8>, b: seq<bv8>, i: nat)
    requires IsCString(a) && IsCString(b)
    requires i < |a| && i < |b| && a[..i] == b[..i] && 0 !in a[..i] && a[i] != b[i]
    ensures StrCmp(a, b) == a[i] as int - b[i] as int
    ensures StrCmp(b, a) == -StrCmp(a, b)
    decreases i
  {
    if i > 0 {
      assert a[0] == a[..i][0] == b[..i][0] == b[0];
      assert a[0] != 0 by { assert a[..i][0] in a[..i]; }
      assert a[1..][..i - 1] == a[..i][1..] == b[..i][1..] == b[1..][..i - 1];
      assert 0 !in a[1..][..i - 1] by { assert a[1..][..i - 1] == a[..i][1..]; }
      StrCmpFirstDifference(a[1..], b[1..], i - 1);
    }
  }

  /** `memcmp` over the first `n` bytes. */
  function MemCmp(a: seq<bv8>, b: seq<bv8>, n: nat): (r: int)
    requires n <= |a| && n <= |b|
    ensures -255 <= r <= 255
  {
    if n == 0 then 0
    else if a[0] != b[0] then a[0] as int - b[0] as int
    else MemCmp(a[1..], b[1..], n - 1)
  }

  /** `memcmp` reports equality exactly when the first `n` bytes agree. */
  lemma {:induction false} MemCmpZeroIff(a: seq<bv8>, b: seq<bv8>, n: nat)
    requires n <= |a| && n <= |b|
    ensures MemCmp(a, b, n) == 0 <==> a[..n] == b[..n]
  {
    if n > 0 {
      if a[0] == b[0] {
        MemCmpZeroIff(a[1..], b[1..], n - 1);
        assert a[..n] == [a[0]] + a[1..][..n - 1];
        assert b[..n] == [b[0]] + b[1..][..n - 1];
        if a[..n] == b[..n] {
          assert a[1..][..n - 1] == a[..n][1..] == b[..n][1..] == b[1..][..n - 1];
        }
      } else {
        assert a[..n][0] != b[..n][0];
      }
    }
  }

  /** The sign of `memcmp` is that of the first pair of differing bytes among
      the first `n`; swapping the arguments negates it. */
  lemma {:induction false} MemCmpFirstDifference(a: seq<bv8>, b: seq<bv8>, n: nat, i: nat)
    requires n <= |a| && n <= |b|
    requires i < n && a[..i] == b[..i] && a[i] != b[i]
    ensures MemCmp(a, b, n) == a[i] as int - b[i] as int
    ensures MemCmp(b, a, n) == -MemCmp(a, b, n)
    decreases i
  {
    if i > 0 {
      assert a[0] == a[..i][0] == b[..i][0] == b[0];
      assert a[1..][..i - 1] == a[..i][1..] == b[..i][1..] == b[1..][..i - 1];
      MemCmpFirstDifference(a[1..], b[1..], n - 1, i - 1);
    }
  }
}

/** The sample tests of example.c, run through the model. The file tests
    depend on the contents of file1.txt to file4.txt, which are not known, and
    are left out. */
module ExampleTests {
  import opened Diagnostics
  import opened CMemory
  import opened Comparators
  import opened Assertions
  import opened Registry
  import opened Runner

  /** The bytes of an ASCII string without NUL characters. */
  function Ascii(s: string): (b: seq<bv8>)
    requires forall i :: 0 <= i < |s| ==> 0 < s[i] as int < 128
    ensures |b| == |s| && 0 !in b
  {
    seq(|s|, i requires 0 <= i < |s| => (s[i] as int) as bv8)
  }

  /** A string literal: its bytes followed by the terminating NUL. */
  lemma {:induction false} CStrOfLiteral(b: seq<bv8>)
    requires 0 !in b
    ensures IsCString(b + [0]) && CStr(b + [0]) == b
  {
    if b != [] {
      assert (b + [0])[1..] == b[1..] + [0];
      CStrOfLiteral(b[1..]);
    }
  }

  /** The in-memory bytes of an `int[]` whose elements fit in one byte (given
      here as those bytes), on a platform with 32-bit little-endian `int`: each
      element is its low byte followed by three zero bytes. */
  function IntArrayBytes(xs: seq<bv8>): (b: seq<bv8>)
    ensures |b| == 4 * |xs|
  {
    if xs == [] then [] else [xs[0], 0, 0, 0] + IntArrayBytes(xs[1..])
  }

  /** Two such arrays have the same bytes exactly when they have the same
      elements, so `memcmp` over the whole image compares the elements (the
      byte order does not change which images are equal). */
  lemma {:induction false} IntArrayBytesInjective(xs: seq<bv8>, ys: seq<bv8>)
    ensures IntArrayBytes(xs) == IntArrayBytes(ys) <==> xs == ys
  {
    if xs != [] && ys != [] {
      var bx, bys := IntArrayBytes(xs), IntArrayBytes(ys);
      IntArrayBytesInjective(xs[1..], ys[1..]);
      assert bx[4..] == IntArrayBytes(xs[1..]) && bys[4..] == IntArrayBytes(ys[1..]);
      if bx == bys {
        assert xs[0] == bx[0] == bys[0] == ys[0];
        assert xs == [xs[0]] + xs[1..] && ys == [ys[0]] + ys[1..];
      }
    }
  }

  method NewBytes(s: seq<bv8>) returns (a: array<bv8>)
    ensures fresh(a) && a[..] == s
  {
    a := new bv8[|s|](i requires 0 <= i < |s| => s[i]);
  }

  /** `example_str` and `example_str2`: two distinct literals with the same
      text compare equal; "This is a string" against "This is another string"
      is a content mismatch. */
  method ExampleStr() returns (same: Status, different: Status)
    ensures same == Ok && different == Mismatch
  {
    var text := Ascii("This is a string");
    var other := Ascii("This is another string");
    CStrOfLiteral(text);
    CStrOfLiteral(other);
    var str1 := NewBytes(text + [0]);
    var str2 := NewBytes(text + [0]);
    var str3 := NewBytes(other + [0]);
    same := EqualsStr(str1, str2);
    assert |CStr(str1[..])| != |CStr(str3[..])|;
    different := EqualsStr(str1, str3);
  }

  /** `example_mem`: {1,2,3,4,5} equals an array with the same elements and
      differs from {1,2,3,4,6} over 5 * sizeof(int) bytes. */
  method ExampleMem() returns (equal: Status, unequal: Status)
    ensures equal == Ok && unequal == Mismatch
  {
    var i1 := NewBytes(IntArrayBytes([1, 2, 3, 4, 5]));
    var i2 := NewBytes(IntArrayBytes([1, 2, 3, 4, 5]));
    var i3 := NewBytes(IntArrayBytes([1, 2, 3, 4, 6]));
    IntArrayBytesInjective([1, 2, 3, 4, 5], [1, 2, 3, 4, 5]);
    IntArrayBytesInjective([1, 2, 3, 4, 5], [1, 2, 3, 4, 6]);
    assert i1[..] == i1[..20] && i2[..] == i2[..20] && i3[..] == i3[..20];
    equal := EqualsMem(i1, i2, 5 * 4);
    unequal := EqualsMem(i1, i3, 5 * 4);
  }

  /** `example_pass`, `example_fail` and `example_assert`: the last one stops at
      `ASSERT_EQUALS_INT(1, 2)` and never reaches `PASS()`. */
  lemma ExampleBodies()
    ensures Run([Pass]) == Returned(1, Silent)
    ensures Run([Fail]) == Returned(0, Stdout)
    ensures Run([Check(EqualsUnsignedInt(1, 1)), Check(EqualsInt(1, 2)), Pass]) == Returned(0, Stdout)
  {
    FailingCheckEndsBody([Check(EqualsUnsignedInt(1, 1)), Check(EqualsInt(1, 2)), Pass], 1, []);
  }

  /** `example_pass` followed by `example_fail`, as their constructors register them. */
  function PassFailTests(): (ts: seq<TestFunction>)
    ensures |ts| == 2 && RegisterAll([], ts) == ts && PassedCount(ts) == 1
  {
    var ts := [TestFunction([Pass], "example_pass"), TestFunction([Fail], "example_fail")];
    RegisterAllAppendsWhatFits([], ts);
    assert ts[..1] == [ts[0]] && ts[..1][..0] == [];
    assert Passes(ts[0]) && !Passes(ts[1]);
    ts
  }

  /** A registry with one passing and one failing test reports
      `Total: 2  Passed: 1  Failed: 1` and exits with 0. */
  method ExampleSummary() returns (total: nat, passed: nat, failed: nat, exitCode: int)
    ensures total == 2 && passed == 1 && failed == 1 && exitCode == 0
  {
    var registry := new TestRegistry();
    var fatals := registry.DeclareTests(PassFailTests());
    assert Returns(registry.testArray[0]) && Returns(registry.testArray[1]);
    var executed, outcomes;
    executed, outcomes, total, passed, failed, exitCode := RunTests(registry);
  }
}

/** The bounded test registry of test.c (`test_array`, `fantestic_current_test_count`,
    `fantestic_register_test`) and the `TEST(NAME)` macro of test.h, whose
    generated constructor makes one registration call before `main` runs. */
module Registry {
  import opened Diagnostics
  import opened Assertions

  /** MAX_TEST_COUNT: the capacity of the registry. */
  const MAX_TEST_COUNT: nat := 65536

  /** One registry entry: the test body (standing for the function pointer)
      and its name. `TEST(NAME) { body }` produces exactly one: its generated
      constructor calls `register_test(NAME, #NAME)`, pairing the body with the
      identifier spelled as text. */
  datatype TestFunction = TestFunction(test: seq<Step>, name: string)

  /** The registered entries after one `fantestic_register_test` call: the
      entries already there stay in place, and `t` is appended exactly when
      the registry is not full; nothing else is added. */
  function Register(entries: seq<TestFunction>, t: TestFunction): (r: seq<TestFunction>)
    ensures entries <= r && |r| <= |entries| + 1
    ensures |r| == |entries| + 1 <==> |entries| < MAX_TEST_COUNT
    ensures |r| == |entries| + 1 ==> r[|entries|] == t
    ensures |entries| <= MAX_TEST_COUNT ==> |r| <= MAX_TEST_COUNT
  {
    if |entries| >= MAX_TEST_COUNT then entries else entries + [t]
  }

  /** The registered entries after registering each of `ts` in order: the
      starting entries stay as a prefix, each added entry is one of `ts`, and
      a registry within capacity stays within it. */
  function RegisterAll(entries: seq<TestFunction>, ts: seq<TestFunction>): (r: seq<TestFunction>)
    ensures entries <= r && |r| <= |entries| + |ts|
    ensures forall k :: |entries| <= k < |r| ==> r[k] in ts
    ensures |entries| <= MAX_TEST_COUNT ==> |r| <= MAX_TEST_COUNT
  {
    if ts == [] then entries else Register(RegisterAll(entries, ts[..|ts| - 1]), ts[|ts| - 1])
  }

  /** How many of `n` registrations fit into a registry holding `count` entries. */
  function Admitted(count: nat, n: nat): (k: nat)
    requires count <= MAX_TEST_COUNT
    ensures k <= n && count + k <= MAX_TEST_COUNT
    ensures k < n ==> count + k == MAX_TEST_COUNT
  {
    if n <= MAX_TEST_COUNT - count then n else MAX_TEST_COUNT - count
  }

  /** Registration keeps the registry a prefix-extension: the entries already
      there stay, the registrations that fit are appended in order, and every
      later one is dropped. The registry never exceeds its capacity. */
  lemma {:induction false} RegisterAllAppendsWhatFits(entries: seq<TestFunction>, ts: seq<TestFunction>)
    requires |entries| <= MAX_TEST_COUNT
    ensures RegisterAll(entries, ts) == entries + ts[..Admitted(|entries|, |ts|)]
    ensures |RegisterAll(entries, ts)| <= MAX_TEST_COUNT
    decreases |ts|
  {
    if ts != [] {
      var init := ts[..|ts| - 1];
      RegisterAllAppendsWhatFits(entries, init);
      assert init[..Admitted(|entries|, |init|)] == ts[..Admitted(|entries|, |init|)];
      if Admitted(|entries|, |init|) < |init| {
        assert Admitted(|entries|, |ts|) == Admitted(|entries|, |init|);
      } else {
        assert ts[..|init|] + [ts[|ts| - 1]] == ts;
      }
    }
  }

  /** The registration one past capacity is dropped: with `MAX_TEST_COUNT + 1`
      declarations the registry holds exactly the first `MAX_TEST_COUNT`. */
  lemma CapacityPlusOneIsDropped(ts: seq<TestFunction>)
    requires |ts| == MAX_TEST_COUNT + 1
    ensures RegisterAll([], ts) == ts[..MAX_TEST_COUNT]
  {
    RegisterAllAppendsWhatFits([], ts);
  }

  /** `test_array` together with `fantestic_current_test_count`. */
  class TestRegistry {
    var testArray: array<TestFunction>
    var count: nat

    ghost predicate Valid()
      reads this
    {
      testArray.Length == MAX_TEST_COUNT && count <= MAX_TEST_COUNT
    }

    /** The registered entries, in registration order. */
    ghost function Entries(): (es: seq<TestFunction>)
      reads this, testArray
      requires Valid()
      ensures |es| == count
    {
      testArray[..count]
    }

    /** The zero-initialised global array: every slot holds a NULL body and
        name, modelled as an empty body and an empty name; no slot is read
        before it is registered. */
    constructor ()
      ensures Valid() && fresh(testArray) && Entries() == []
    {
      testArray := new TestFunction[MAX_TEST_COUNT](_ => TestFunction([], ""));
      count := 0;
    }

    /** `fantestic_register_test(test, name)`: appends the entry at index
        `count` when there is room; a full registry is left unchanged and
        the call reports a FATAL ERROR on standard error. */
    method RegisterTest(test: seq<Step>, name: string) returns (c: Channel)
      requires Valid()
      modifies this`count, testArray
      ensures Valid()
      ensures old(count) >= MAX_TEST_COUNT ==>
        c == Stderr && count == old(count) && testArray[..] == old(testArray[..])
      ensures old(count) < MAX_TEST_COUNT ==>
        c == Silent && count == old(count) + 1 && testArray[old(count)] == TestFunction(test, name) &&
        forall i :: 0 <= i < MAX_TEST_COUNT && i != old(count) ==> testArray[i] == old(testArray[i])
      ensures Entries() == Register(old(Entries()), TestFunction(test, name))
    {
      if count >= MAX_TEST_COUNT {
        return Stderr;
      }
      testArray[count] := TestFunction(test, name);
      count := count + 1;
      c := Silent;
    }

    /** The startup phase: the constructor of every `TEST(NAME)` runs once, in
        declaration order, and registers its test; `fatals` counts the FATAL
        ERROR lines. */
    method DeclareTests(tests: seq<TestFunction>) returns (fatals: nat)
      requires Valid()
      modifies this`count, testArray
      ensures Valid()
      ensures Entries() == RegisterAll(old(Entries()), tests)
      ensures old(count) <= count && fatals == |tests| - (count - old(count))
    {
      fatals := 0;
      var i := 0;
      while i < |tests|
        invariant 0 <= i <= |tests|
        invariant Valid()
        invariant Entries() == RegisterAll(old(Entries()), tests[..i])
        invariant old(count) <= count && count - old(count) <= i && fatals == i - (count - old(count))
      {
        var c := RegisterTest(tests[i].test, tests[i].name);
        assert tests[..i + 1][..i] == tests[..i];
        if c == Stderr {
          fatals := fatals + 1;
        }
        i := i + 1;
      }
      assert tests[..i] == tests;
    }
  }

  /** A program declaring `MAX_TEST_COUNT + 1` tests: the startup phase prints
      exactly one FATAL ERROR line and keeps the first `MAX_TEST_COUNT` tests. */
  method DeclareOnePastCapacity(tests: seq<TestFunction>) returns (fatals: nat, registered: seq<TestFunction>)
    requires |tests| == MAX_TEST_COUNT + 1
    ensures fatals == 1 && registered == tests[..MAX_TEST_COUNT]
  {
    var registry := new TestRegistry();
    fatals := registry.DeclareTests(tests);
    RegisterAllAppendsWhatFits([], tests);
    registered := registry.testArray[..registry.count];
  }
}

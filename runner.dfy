/** The `main` function of test.c: run every registered test in registration
    order, count the ones that returned nonzero, report the totals and exit
    with 0. */
module Runner {
  import opened Assertions
  import opened Registry

  /** The test body returns rather than running off its end. */
  predicate Returns(t: TestFunction) {
    Run(t.test).Returned?
  }

  /** `if (test_array[i].test())`: the test returned nonzero. */
  predicate Passes(t: TestFunction) {
    Run(t.test).Returned? && Run(t.test).value != 0
  }

  /** What the test returns. */
  function Outcome(t: TestFunction): (r: int)
    requires Returns(t)
    ensures r == 0 || r == 1
    ensures r != 0 <==> Passes(t)
  {
    Run(t.test).value
  }

  /** The number of entries whose test passes. */
  function PassedCount(entries: seq<TestFunction>): (n: nat)
    ensures n <= |entries|
  {
    if entries == [] then 0
    else PassedCount(entries[..|entries| - 1]) + if Passes(entries[|entries| - 1]) then 1 else 0
  }

  /** The count reaches its extremes exactly when every entry passes or every
      entry fails. */
  lemma {:induction false} PassedCountExtremes(entries: seq<TestFunction>)
    ensures PassedCount(entries) == |entries| <==> forall k :: 0 <= k < |entries| ==> Passes(entries[k])
    ensures PassedCount(entries) == 0 <==> forall k :: 0 <= k < |entries| ==> !Passes(entries[k])
  {
    if entries != [] {
      var init := entries[..|entries| - 1];
      PassedCountExtremes(init);
      assert forall k :: 0 <= k < |init| ==> init[k] == entries[k];
    }
  }

  /** The loop of `main` over the registered entries. `executed` holds the
      names printed by the "Executing" lines, `outcomes` what each test
      returned and `passed` how many returned nonzero. */
  method RunEntries(entries: seq<TestFunction>) returns (executed: seq<string>, outcomes: seq<int>, passed: nat)
    requires forall k :: 0 <= k < |entries| ==> Returns(entries[k])
    ensures |executed| == |entries| && |outcomes| == |entries|
    ensures forall k :: 0 <= k < |entries| ==> executed[k] == entries[k].name
    ensures forall k :: 0 <= k < |entries| ==> outcomes[k] == Outcome(entries[k])
    ensures passed == PassedCount(entries)
  {
    executed, outcomes, passed := [], [], 0;
    var i := 0;
    while i < |entries|
      invariant 0 <= i <= |entries|
      invariant |executed| == i && |outcomes| == i
      invariant forall k :: 0 <= k < i ==> executed[k] == entries[k].name
      invariant forall k :: 0 <= k < i ==> outcomes[k] == Outcome(entries[k])
      invariant passed == PassedCount(entries[..i])
    {
      var entry := entries[i];
      executed := executed + [entry.name];
      var result := Outcome(entry);
      outcomes := outcomes + [result];
      assert entries[..i + 1][..i] == entries[..i];
      assert PassedCount(entries[..i + 1]) == passed + if Passes(entry) then 1 else 0;
      if result != 0 {
        passed := passed + 1;
      }
      i := i + 1;
    }
    assert entries[..i] == entries;
  }

  /** `main`: run the registered tests, then report `total`, `passed` and
      `failed`, the three numbers of the summary line, and exit with 0. */
  method RunTests(registry: TestRegistry)
    returns (executed: seq<string>, outcomes: seq<int>, total: nat, passed: nat, failed: nat, exitCode: int)
    requires registry.Valid()
    requires forall k :: 0 <= k < registry.count ==> Returns(registry.testArray[k])
    ensures total == |registry.Entries()|
    ensures |executed| == total && |outcomes| == total
    ensures forall k :: 0 <= k < total ==> executed[k] == registry.Entries()[k].name
    ensures forall k :: 0 <= k < total ==> Returns(registry.Entries()[k]) && outcomes[k] == Outcome(registry.Entries()[k])
    ensures passed == PassedCount(registry.Entries())
    ensures passed <= total && failed == total - passed
    ensures exitCode == 0
  {
    var entries := registry.testArray[..registry.count];
    executed, outcomes, passed := RunEntries(entries);
    total := |entries|;
    failed := total - passed;
    exitCode := 0;
  }
}

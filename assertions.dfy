/** The control flow test.h gives a test body: each `ASSERT_*` macro is
    `if (!comparator(...)) return 0;`, `FAIL()` prints an ERROR line and
    returns 0, `PASS()` returns 1. A body is modelled as the sequence of these
    steps in execution order; statements between them do not affect the
    outcome and are left out. */
module Assertions {
  import opened Diagnostics

  datatype Step =
    | Check(status: Status)  // an ASSERT_* macro whose comparator decided `status`
    | Pass                   // PASS()
    | Fail                   // FAIL()

  /** How a body ends: returning `value` after printing on `channel`, or
      running off its end without a return statement, which C leaves
      undefined for a function whose value is used. */
  datatype Exit = Returned(value: int, channel: Channel) | FellOffEnd

  /** Run a body from its first step. */
  function Run(body: seq<Step>): (e: Exit)
    ensures e.Returned? ==> e.value == 0 || e.value == 1
    ensures e.Returned? ==> (e.value == 1 <==> e.channel == Silent)
    ensures e == FellOffEnd <==> forall i :: 0 <= i < |body| ==> body[i] == Check(Ok)
  {
    if body == [] then FellOffEnd
    else match body[0]
      case Check(s) => if s == Ok then Run(body[1..]) else Returned(0, s.Channel())
      case Pass => Returned(1, Silent)
      case Fail => Returned(0, Stdout)
  }

  /** Every step before `i` is an assertion that held. */
  ghost predicate ReachesStep(body: seq<Step>, i: nat)
    requires i <= |body|
  {
    forall j :: 0 <= j < i ==> body[j] == Check(Ok)
  }

  /** Once a body has returned, nothing after the return point runs. */
  lemma {:induction false} StepsAfterReturnDoNotRun(body: seq<Step>, rest: seq<Step>)
    requires Run(body).Returned?
    ensures Run(body + rest) == Run(body)
  {
    assert (body + rest)[0] == body[0];
    if body[0] == Check(Ok) {
      assert (body + rest)[1..] == body[1..] + rest;
      StepsAfterReturnDoNotRun(body[1..], rest);
    }
  }

  /** Passing assertions let execution continue: the outcome is that of the
      first step that is not a passing assertion. */
  lemma {:induction false} PassingChecksAreSkipped(body: seq<Step>, i: nat)
    requires i <= |body| && ReachesStep(body, i)
    ensures Run(body) == Run(body[i..])
  {
    if i > 0 {
      assert body[0] == Check(Ok);
      assert body[1..][i - 1..] == body[i..];
      PassingChecksAreSkipped(body[1..], i - 1);
    }
  }

  /** The first failing `ASSERT_*` ends the body with 0 and its comparator's
      diagnostic; whatever follows it (`rest` in place of the actual
      continuation) does not change the outcome. */
  lemma FailingCheckEndsBody(body: seq<Step>, i: nat, rest: seq<Step>)
    requires i < |body| && ReachesStep(body, i)
    requires body[i].Check? && body[i].status != Ok
    ensures Run(body) == Returned(0, body[i].status.Channel())
    ensures Run(body[..i + 1] + rest) == Run(body)
  {
    PassingChecksAreSkipped(body, i);
    PassingChecksAreSkipped(body[..i + 1] + rest, i);
    assert (body[..i + 1] + rest)[i..][0] == body[i];
  }

  /** `PASS()` reached after passing assertions ends the body with 1. */
  lemma PassEndsBody(body: seq<Step>, i: nat)
    requires i < |body| && ReachesStep(body, i) && body[i] == Pass
    ensures Run(body) == Returned(1, Silent)
  {
    PassingChecksAreSkipped(body, i);
  }

  /** `FAIL()` ends the body with 0 and an ERROR line on standard output,
      whatever assertions passed before it. */
  lemma FailEndsBody(body: seq<Step>, i: nat)
    requires i < |body| && ReachesStep(body, i) && body[i] == Fail
    ensures Run(body) == Returned(0, Stdout)
  {
    PassingChecksAreSkipped(body, i);
  }
}

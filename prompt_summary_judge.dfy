/**
 * The verdict of the prompt-summary example problem: a model's summary is
 * accepted when it is shorter than the test case's input and contains the
 * test case's expected output.
 */
module PromptSummaryJudge {
  import opened Wrappers
  import opened Strings
  import opened DecisionCodes

  /** The `test` hook: a missing input counts as empty and a missing expected output as the empty string. */
  function SummaryVerdict(input: Option<string>, expected: Option<string>, output: string): (code: DecisionCode)
    ensures code == ACCEPTED || code == WRONG_ANSWER
    ensures code == ACCEPTED <==>
              |output| < |input.GetOr("")| && exists i :: OccursAt(output, expected.GetOr(""), i)
  {
    assert IsDecisionCode(ACCEPTED) && IsDecisionCode(WRONG_ANSWER);
    if |output| < |input.GetOr("")| && Includes(output, expected.GetOr("")) then ACCEPTED else WRONG_ANSWER
  }

  /** Without an input no summary is short enough. */
  lemma MissingInputNeverAccepted(expected: Option<string>, output: string)
    ensures SummaryVerdict(None, expected, output) == WRONG_ANSWER
  {
  }

  /** Without an expected output only the length is judged. */
  lemma MissingExpectedJudgesLengthOnly(input: Option<string>, output: string)
    ensures SummaryVerdict(input, None, output) == ACCEPTED <==> |output| < |input.GetOr("")|
  {
    assert OccursAt(output, "", 0);
  }

  /** An expected output at least as long as the input can never be met. */
  lemma LongExpectedNeverAccepted(input: string, expected: string, output: string)
    requires |expected| >= |input|
    ensures SummaryVerdict(Some(input), Some(expected), output) == WRONG_ANSWER
  {
  }
}

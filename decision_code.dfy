/**
 * The decision-code table: the integer verdicts a judge reports per test case.
 * ACCEPTED is the largest value, so the minimum code over a run is its most
 * severe outcome and a run passes exactly when that minimum is ACCEPTED.
 */
module DecisionCodes {

  const WAITING_JUDGE := 0
  const JUDGE_NOT_AVAILABLE := 1
  const WRONG_ANSWER := 1000
  const RUNTIME_ERROR := 1001
  const TIME_LIMIT_EXCEEDED := 1002
  const MEMORY_LIMIT_EXCEEDED := 1003
  const OUTPUT_SIZE_LIMIT_EXCEEDED := 1004
  const PRESENTATION_ERROR := 1005
  const FORBIDDEN_PATTERNS_IN_CODE_ERROR := 1006
  const REQUIRED_PATTERNS_IN_CODE_ERROR := 1007
  const BUILD_ERROR := 1100
  const BUILD_TIME_LIMIT_EXCEEDED := 1101
  const BUILD_MEMORY_LIMIT_EXCEEDED := 1102
  const BUILD_OUTPUT_SIZE_LIMIT_EXCEEDED := 1103
  const MISSING_REQUIRED_SUBMISSION_FILE_ERROR := 1201
  const MISSING_REQUIRED_OUTPUT_FILE_ERROR := 1202
  const ACCEPTED := 2000

  /** The table's values in declaration order. */
  const Codes: seq<int> := [
    WAITING_JUDGE, JUDGE_NOT_AVAILABLE,
    WRONG_ANSWER, RUNTIME_ERROR, TIME_LIMIT_EXCEEDED, MEMORY_LIMIT_EXCEEDED,
    OUTPUT_SIZE_LIMIT_EXCEEDED, PRESENTATION_ERROR,
    FORBIDDEN_PATTERNS_IN_CODE_ERROR, REQUIRED_PATTERNS_IN_CODE_ERROR,
    BUILD_ERROR, BUILD_TIME_LIMIT_EXCEEDED, BUILD_MEMORY_LIMIT_EXCEEDED, BUILD_OUTPUT_SIZE_LIMIT_EXCEEDED,
    MISSING_REQUIRED_SUBMISSION_FILE_ERROR, MISSING_REQUIRED_OUTPUT_FILE_ERROR,
    ACCEPTED
  ]

  /** The `DecisionCode` type: exactly the values of the table. */
  predicate IsDecisionCode(c: int) {
    c in Codes
  }

  type DecisionCode = c: int | IsDecisionCode(c) witness ACCEPTED

  /** ACCEPTED is strictly greater than every other code. */
  lemma AcceptedIsStrictMaximum(c: int)
    requires IsDecisionCode(c) && c != ACCEPTED
    ensures c < ACCEPTED
  {
  }

  /** The seventeen values are pairwise distinct. */
  lemma CodesAreDistinct()
    ensures |Codes| == 17
    ensures forall i, j :: 0 <= i < j < |Codes| ==> Codes[i] != Codes[j]
  {
  }

  /** The four failure bands and the success value. */
  lemma CodesFallIntoBands(c: int)
    requires IsDecisionCode(c)
    ensures || 0 <= c <= 1
            || 1000 <= c <= 1007
            || 1100 <= c <= 1103
            || 1201 <= c <= 1202
            || c == ACCEPTED
  {
  }

  /** The largest code of a non-empty collection. */
  function MaxCode(s: seq<int>): (m: int)
    requires |s| > 0
    ensures m in s
    ensures forall i :: 0 <= i < |s| ==> s[i] <= m
  {
    if |s| == 1 then s[0]
    else
      var rest := MaxCode(s[1..]);
      assert forall i :: 1 <= i < |s| ==> s[i] == s[1..][i - 1];
      if s[0] < rest then rest else s[0]
  }

  /** The smallest code of a non-empty collection: the most severe outcome. */
  function MinCode(s: seq<int>): (m: int)
    requires |s| > 0
    ensures m in s
    ensures forall i :: 0 <= i < |s| ==> m <= s[i]
  {
    if |s| == 1 then s[0]
    else
      var rest := MinCode(s[1..]);
      assert forall i :: 1 <= i < |s| ==> s[i] == s[1..][i - 1];
      if rest < s[0] then rest else s[0]
  }

  predicate AllDecisionCodes(s: seq<int>) {
    forall i :: 0 <= i < |s| ==> IsDecisionCode(s[i])
  }

  /** A collection of codes that holds ACCEPTED has ACCEPTED as its maximum. */
  lemma MaxWithAcceptedIsAccepted(s: seq<int>)
    requires AllDecisionCodes(s) && ACCEPTED in s
    ensures MaxCode(s) == ACCEPTED
  {
    var m := MaxCode(s);
    if m != ACCEPTED {
      AcceptedIsStrictMaximum(m);
    }
  }

  /** The minimum code is ACCEPTED exactly when every code is ACCEPTED. */
  lemma MinIsAcceptedIffAllAccepted(s: seq<int>)
    requires |s| > 0 && AllDecisionCodes(s)
    ensures MinCode(s) == ACCEPTED <==> forall i :: 0 <= i < |s| ==> s[i] == ACCEPTED
  {
    var m := MinCode(s);
    if m == ACCEPTED {
      forall i | 0 <= i < |s|
        ensures s[i] == ACCEPTED
      {
        if s[i] != ACCEPTED {
          AcceptedIsStrictMaximum(s[i]);
        }
      }
    }
  }
}

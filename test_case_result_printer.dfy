/**
 * Emitting result records: the caller's fields are merged over a default
 * record, the merged record is serialised, and the line printed is the result
 * marker followed by that serialisation. `JSON.stringify` and `JSON.parse` are
 * parameters.
 */
module TestCaseResultPrinter {
  import opened Wrappers
  import opened JsonValues
  import opened Strings
  import opened DecisionCodes
  import opened TestCaseResultSchema

  /** The printer's own copy of the result marker. */
  const PRINTER_PREFIX := "TEST_CASE_RESULT "

  /** The printer's marker is the schema's marker, trailing space included. */
  lemma PrefixesAgree()
    ensures PRINTER_PREFIX == TEST_CASE_RESULT_PREFIX
    ensures |PRINTER_PREFIX| == 17 && PRINTER_PREFIX[16] == ' '
  {
  }

  const DefaultTestCaseResult := TestCaseResult("", ACCEPTED, 0, "", "", "", 0.0, 0.0, "", [])

  /** What a producer passes in: `testCaseId` is required, every other field may be omitted. */
  datatype PartialResult = PartialResult(
    testCaseId: string,
    decisionCode: Option<int>,
    exitStatus: Option<int>,
    stdin: Option<string>,
    stdout: Option<string>,
    stderr: Option<string>,
    timeSeconds: Option<real>,
    memoryBytes: Option<real>,
    feedbackMarkdown: Option<string>,
    outputFiles: Option<seq<OutputFile>>)

  /** A partial record with only its id given. */
  function OnlyId(id: string): PartialResult {
    PartialResult(id, None, None, None, None, None, None, None, None, None)
  }

  /** `{ ...defaultTestCaseResult, ...result }`. */
  function WithDefaults(p: PartialResult): TestCaseResult {
    var d := DefaultTestCaseResult;
    TestCaseResult(
      p.testCaseId,
      p.decisionCode.GetOr(d.decisionCode),
      p.exitStatus.GetOr(d.exitStatus),
      p.stdin.GetOr(d.stdin),
      p.stdout.GetOr(d.stdout),
      p.stderr.GetOr(d.stderr),
      p.timeSeconds.GetOr(d.timeSeconds),
      p.memoryBytes.GetOr(d.memoryBytes),
      p.feedbackMarkdown.GetOr(d.feedbackMarkdown),
      p.outputFiles.GetOr(d.outputFiles))
  }

  /** The partial record that gives every field of `r`. */
  function Full(r: TestCaseResult): PartialResult {
    PartialResult(r.testCaseId, Some(r.decisionCode), Some(r.exitStatus), Some(r.stdin), Some(r.stdout),
                  Some(r.stderr), Some(r.timeSeconds), Some(r.memoryBytes), Some(r.feedbackMarkdown),
                  Some(r.outputFiles))
  }

  /**
   * Omitted fields take their defaults: empty id and texts, ACCEPTED, exit
   * status 0, zero time and memory, no output files.
   */
  lemma OmittedFieldsTakeDefaults(p: PartialResult)
    ensures p.decisionCode.None? ==> WithDefaults(p).decisionCode == ACCEPTED
    ensures p.exitStatus.None? ==> WithDefaults(p).exitStatus == 0
    ensures p.stdin.None? ==> WithDefaults(p).stdin == ""
    ensures p.stdout.None? ==> WithDefaults(p).stdout == ""
    ensures p.stderr.None? ==> WithDefaults(p).stderr == ""
    ensures p.timeSeconds.None? ==> WithDefaults(p).timeSeconds == 0.0
    ensures p.memoryBytes.None? ==> WithDefaults(p).memoryBytes == 0.0
    ensures p.feedbackMarkdown.None? ==> WithDefaults(p).feedbackMarkdown == ""
    ensures p.outputFiles.None? ==> WithDefaults(p).outputFiles == []
  {
  }

  /**
   * Supplied fields override the defaults, field by field, because the
   * caller's fields are spread last.
   */
  lemma SuppliedFieldsWin(p: PartialResult)
    ensures WithDefaults(p).testCaseId == p.testCaseId
    ensures p.decisionCode.Some? ==> WithDefaults(p).decisionCode == p.decisionCode.value
    ensures p.exitStatus.Some? ==> WithDefaults(p).exitStatus == p.exitStatus.value
    ensures p.stdin.Some? ==> WithDefaults(p).stdin == p.stdin.value
    ensures p.stdout.Some? ==> WithDefaults(p).stdout == p.stdout.value
    ensures p.stderr.Some? ==> WithDefaults(p).stderr == p.stderr.value
    ensures p.timeSeconds.Some? ==> WithDefaults(p).timeSeconds == p.timeSeconds.value
    ensures p.memoryBytes.Some? ==> WithDefaults(p).memoryBytes == p.memoryBytes.value
    ensures p.feedbackMarkdown.Some? ==> WithDefaults(p).feedbackMarkdown == p.feedbackMarkdown.value
    ensures p.outputFiles.Some? ==> WithDefaults(p).outputFiles == p.outputFiles.value
  {
  }

  /** A fully given record is printed as it is. */
  lemma FullRecordUnchanged(r: TestCaseResult)
    ensures WithDefaults(Full(r)) == r
  {
  }

  /** A record given only its id is an ACCEPTED record with every other field at its default. */
  lemma OnlyIdIsAccepted(id: string)
    ensures WithDefaults(OnlyId(id)) == DefaultTestCaseResult.(testCaseId := id)
    ensures WithDefaults(OnlyId(id)).decisionCode == ACCEPTED
  {
  }

  /** The default record, and so every merged record, has the full result shape. */
  lemma MergedRecordIsValid(p: PartialResult)
    ensures ValidResultJson(ToJson(DefaultTestCaseResult))
    ensures ValidResultJson(ToJson(WithDefaults(p)))
    ensures ParseResult(ToJson(WithDefaults(p))) == Some(WithDefaults(p))
  {
    ResultRoundTrip(DefaultTestCaseResult);
    ResultRoundTrip(WithDefaults(p));
  }

  /** `printTestCaseResult`: the line written to standard output. */
  function ResultLine(p: PartialResult, stringify: Json -> string): (line: string)
    ensures StartsWith(line, PRINTER_PREFIX)
    ensures line[|PRINTER_PREFIX|..] == stringify(ToJson(WithDefaults(p)))
  {
    PRINTER_PREFIX + stringify(ToJson(WithDefaults(p)))
  }

  /** One line of the judge's standard output: a result record or incidental diagnostic text. */
  datatype OutputLine = Record(result: PartialResult) | Diagnostic(text: string)

  function RenderLines(out: seq<OutputLine>, stringify: Json -> string): (lines: seq<string>)
    ensures |lines| == |out|
  {
    if out == [] then []
    else
      [match out[0] case Record(p) => ResultLine(p, stringify) case Diagnostic(t) => t]
      + RenderLines(out[1..], stringify)
  }

  /** What a supervising process does: keep the marked lines, drop the marker. */
  function ExtractSerialisations(lines: seq<string>): seq<string> {
    if lines == [] then []
    else if StartsWith(lines[0], TEST_CASE_RESULT_PREFIX) then
      [lines[0][|TEST_CASE_RESULT_PREFIX|..]] + ExtractSerialisations(lines[1..])
    else
      ExtractSerialisations(lines[1..])
  }

  /** The records in emission order, after defaults. */
  function EmittedRecords(out: seq<OutputLine>): seq<TestCaseResult> {
    if out == [] then []
    else
      (match out[0] case Record(p) => [WithDefaults(p)] case Diagnostic(_) => [])
      + EmittedRecords(out[1..])
  }

  function SerialiseAll(rs: seq<TestCaseResult>, stringify: Json -> string): (r: seq<string>)
    ensures |r| == |rs|
    ensures forall i :: 0 <= i < |rs| ==> r[i] == stringify(ToJson(rs[i]))
  {
    if rs == [] then [] else [stringify(ToJson(rs[0]))] + SerialiseAll(rs[1..], stringify)
  }

  predicate NoDiagnosticLooksLikeResult(out: seq<OutputLine>) {
    forall i :: 0 <= i < |out| && out[i].Diagnostic? ==> !StartsWith(out[i].text, TEST_CASE_RESULT_PREFIX)
  }

  /**
   * Filtering the printed lines on the marker and dropping the marker recovers
   * exactly the serialised records, in order, whatever diagnostics are mixed in.
   */
  lemma {:induction false} ExtractRecoversSerialisations(out: seq<OutputLine>, stringify: Json -> string)
    requires NoDiagnosticLooksLikeResult(out)
    ensures ExtractSerialisations(RenderLines(out, stringify)) == SerialiseAll(EmittedRecords(out), stringify)
  {
    if out != [] {
      ExtractRecoversSerialisations(out[1..], stringify);
      var lines := RenderLines(out, stringify);
      assert lines[1..] == RenderLines(out[1..], stringify);
      var rest := EmittedRecords(out[1..]);
      match out[0] {
        case Record(p) =>
          assert EmittedRecords(out) == [WithDefaults(p)] + rest;
          assert SerialiseAll([WithDefaults(p)] + rest, stringify)[1..] == SerialiseAll(rest, stringify);
        case Diagnostic(t) =>
          assert EmittedRecords(out) == rest;
      }
    }
  }

  /** Parsing one extracted serialisation and validating it against the schema. */
  function ParseOne(text: string, parse: string -> Option<Json>): Option<TestCaseResult> {
    match parse(text)
    case Some(j) => ParseResult(j)
    case None => None
  }

  function ParseAll(texts: seq<string>, parse: string -> Option<Json>): (r: seq<Option<TestCaseResult>>)
    ensures |r| == |texts|
    ensures forall i :: 0 <= i < |texts| ==> r[i] == ParseOne(texts[i], parse)
  {
    if texts == [] then [] else [ParseOne(texts[0], parse)] + ParseAll(texts[1..], parse)
  }

  /**
   * When `JSON.parse` inverts `JSON.stringify`, parsing and validating the
   * extracted serialisations gives back every emitted record, in order.
   */
  lemma StreamRoundTrip(out: seq<OutputLine>, stringify: Json -> string, parse: string -> Option<Json>)
    requires NoDiagnosticLooksLikeResult(out)
    requires forall j :: parse(stringify(j)) == Some(j)
    ensures var parsed := ParseAll(ExtractSerialisations(RenderLines(out, stringify)), parse);
            && |parsed| == |EmittedRecords(out)|
            && forall i :: 0 <= i < |parsed| ==> parsed[i] == Some(EmittedRecords(out)[i])
  {
    ExtractRecoversSerialisations(out, stringify);
    ParseAllSerialised(EmittedRecords(out), stringify, parse);
  }

  /** Every serialised record parses back to itself. */
  lemma ParseAllSerialised(rs: seq<TestCaseResult>, stringify: Json -> string, parse: string -> Option<Json>)
    requires forall j :: parse(stringify(j)) == Some(j)
    ensures var parsed := ParseAll(SerialiseAll(rs, stringify), parse);
            && |parsed| == |rs|
            && forall i :: 0 <= i < |rs| ==> parsed[i] == Some(rs[i])
  {
    forall i | 0 <= i < |rs|
      ensures ParseOne(stringify(ToJson(rs[i])), parse) == Some(rs[i])
    {
      ResultRoundTrip(rs[i]);
    }
  }
}

/**
 * The result record a judge emits per test case, the zod schema that validates
 * it, and the marker that starts every result line.
 */
module TestCaseResultSchema {
  import opened Wrappers
  import opened JsonValues

  const TEST_CASE_RESULT_PREFIX := "TEST_CASE_RESULT "

  /** The only encoding an output file may declare. */
  datatype Encoding = Base64

  datatype OutputFile = OutputFile(path: string, data: string, encoding: Option<Encoding>)

  datatype TestCaseResult = TestCaseResult(
    testCaseId: string,
    decisionCode: int,
    exitStatus: int,
    stdin: string,
    stdout: string,
    stderr: string,
    timeSeconds: real,
    memoryBytes: real,
    feedbackMarkdown: string,
    outputFiles: seq<OutputFile>)

  predicate HasString(f: map<string, Json>, key: string) {
    key in f && f[key].JString?
  }

  predicate HasNumber(f: map<string, Json>, key: string) {
    key in f && f[key].JNumber?
  }

  predicate HasInteger(f: map<string, Json>, key: string) {
    HasNumber(f, key) && IsIntegral(f[key].n)
  }

  /** `fileSchema`: a path, data, and an encoding that is absent or exactly `'base64'`. */
  predicate ValidFileJson(j: Json) {
    && j.JObject?
    && HasString(j.fields, "path")
    && HasString(j.fields, "data")
    && ("encoding" in j.fields ==> j.fields["encoding"] == JString("base64"))
  }

  /** `testCaseResultSchema`: all ten fields present with their types. */
  predicate ValidResultJson(j: Json) {
    && j.JObject?
    && HasString(j.fields, "testCaseId")
    && HasInteger(j.fields, "decisionCode")
    && HasInteger(j.fields, "exitStatus")
    && HasString(j.fields, "stdin")
    && HasString(j.fields, "stdout")
    && HasString(j.fields, "stderr")
    && HasNumber(j.fields, "timeSeconds")
    && HasNumber(j.fields, "memoryBytes")
    && HasString(j.fields, "feedbackMarkdown")
    && "outputFiles" in j.fields
    && j.fields["outputFiles"].JArray?
    && forall i :: 0 <= i < |j.fields["outputFiles"].items| ==> ValidFileJson(j.fields["outputFiles"].items[i])
  }

  /** `fileSchema.parse`. */
  function ParseFile(j: Json): (r: Option<OutputFile>)
    ensures r.Some? <==> ValidFileJson(j)
  {
    if !ValidFileJson(j) then None
    else
      var f := j.fields;
      Some(OutputFile(f["path"].s, f["data"].s, if "encoding" in f then Some(Base64) else None))
  }

  function ParseFiles(items: seq<Json>): (r: Option<seq<OutputFile>>)
    ensures r.Some? <==> forall i :: 0 <= i < |items| ==> ValidFileJson(items[i])
    ensures r.Some? ==> |r.value| == |items|
  {
    if items == [] then Some([])
    else
      var head := ParseFile(items[0]);
      var rest := ParseFiles(items[1..]);
      assert forall i :: 1 <= i < |items| ==> items[i] == items[1..][i - 1];
      if head.Some? && rest.Some? then Some([head.value] + rest.value) else None
  }

  /** `testCaseResultSchema.parse`: a record exactly when the value has the full shape. */
  function ParseResult(j: Json): (r: Option<TestCaseResult>)
    ensures r.Some? <==> ValidResultJson(j)
  {
    if !ValidResultJson(j) then None
    else
      var f := j.fields;
      var files := ParseFiles(f["outputFiles"].items);
      Some(TestCaseResult(
        f["testCaseId"].s, f["decisionCode"].n.Floor, f["exitStatus"].n.Floor,
        f["stdin"].s, f["stdout"].s, f["stderr"].s,
        f["timeSeconds"].n, f["memoryBytes"].n, f["feedbackMarkdown"].s,
        files.value))
  }

  /** The object `JSON.stringify` is given for an output file; an absent encoding is left out. */
  function FileToJson(file: OutputFile): Json {
    var base := map["path" := JString(file.path), "data" := JString(file.data)];
    JObject(if file.encoding.Some? then base["encoding" := JString("base64")] else base)
  }

  function FilesToJson(files: seq<OutputFile>): (r: seq<Json>)
    ensures |r| == |files|
    ensures forall i :: 0 <= i < |files| ==> r[i] == FileToJson(files[i])
  {
    if files == [] then [] else [FileToJson(files[0])] + FilesToJson(files[1..])
  }

  /** The object `JSON.stringify` is given for a result record. */
  function ToJson(r: TestCaseResult): Json {
    JObject(map[
      "testCaseId" := JString(r.testCaseId),
      "decisionCode" := JNumber(r.decisionCode as real),
      "exitStatus" := JNumber(r.exitStatus as real),
      "stdin" := JString(r.stdin),
      "stdout" := JString(r.stdout),
      "stderr" := JString(r.stderr),
      "timeSeconds" := JNumber(r.timeSeconds),
      "memoryBytes" := JNumber(r.memoryBytes),
      "feedbackMarkdown" := JString(r.feedbackMarkdown),
      "outputFiles" := JArray(FilesToJson(r.outputFiles))])
  }

  lemma FileRoundTrip(file: OutputFile)
    ensures ParseFile(FileToJson(file)) == Some(file)
  {
    var f := FileToJson(file).fields;
    assert f["path"] == JString(file.path) && f["data"] == JString(file.data);
    assert "encoding" in f <==> file.encoding.Some?;
    assert ValidFileJson(FileToJson(file));
    var parsed := ParseFile(FileToJson(file)).value;
    assert parsed.path == file.path && parsed.data == file.data;
    match file.encoding {
      case None =>
      case Some(e) => assert e.Base64?;
    }
  }

  lemma {:induction false} FilesRoundTrip(files: seq<OutputFile>)
    ensures ParseFiles(FilesToJson(files)) == Some(files)
  {
    if files != [] {
      FileRoundTrip(files[0]);
      FilesRoundTrip(files[1..]);
      assert FilesToJson(files)[1..] == FilesToJson(files[1..]);
      assert files == [files[0]] + files[1..];
    }
  }

  /** What the serialised object holds under each key. */
  lemma ToJsonFields(r: TestCaseResult)
    ensures var f := ToJson(r).fields;
            && HasString(f, "testCaseId") && f["testCaseId"].s == r.testCaseId
            && f["decisionCode"] == JNumber(r.decisionCode as real)
            && f["exitStatus"] == JNumber(r.exitStatus as real)
            && HasString(f, "stdin") && f["stdin"].s == r.stdin
            && HasString(f, "stdout") && f["stdout"].s == r.stdout
            && HasString(f, "stderr") && f["stderr"].s == r.stderr
            && f["timeSeconds"] == JNumber(r.timeSeconds)
            && f["memoryBytes"] == JNumber(r.memoryBytes)
            && HasString(f, "feedbackMarkdown") && f["feedbackMarkdown"].s == r.feedbackMarkdown
            && f["outputFiles"] == JArray(FilesToJson(r.outputFiles))
  {
  }

  /** Every record serialises to a value the schema accepts, and parsing gives the record back. */
  lemma {:induction false} ResultRoundTrip(r: TestCaseResult)
    ensures ValidResultJson(ToJson(r))
    ensures ParseResult(ToJson(r)) == Some(r)
  {
    var items := FilesToJson(r.outputFiles);
    forall i | 0 <= i < |items|
      ensures ValidFileJson(items[i])
    {
      FileRoundTrip(r.outputFiles[i]);
    }
    FilesRoundTrip(r.outputFiles);
    ToJsonFields(r);
    assert (r.decisionCode as real).Floor == r.decisionCode;
    assert (r.exitStatus as real).Floor == r.exitStatus;
    assert ValidResultJson(ToJson(r));
  }

  /** A value missing any one of the ten fields is rejected. */
  lemma MissingFieldRejected(j: Json, key: string)
    requires j.JObject? && key !in j.fields
    requires key in {"testCaseId", "decisionCode", "exitStatus", "stdin", "stdout", "stderr",
                     "timeSeconds", "memoryBytes", "feedbackMarkdown", "outputFiles"}
    ensures ParseResult(j).None?
  {
  }

  /** An integral code outside the decision-code table is still accepted: the schema asks only for an integer. */
  lemma AnyIntegerCodeAccepted(r: TestCaseResult, code: int)
    ensures ParseResult(ToJson(r.(decisionCode := code))) == Some(r.(decisionCode := code))
  {
    ResultRoundTrip(r.(decisionCode := code));
  }

  /** A fractional decision code or exit status is rejected. */
  lemma FractionalCodeRejected(r: TestCaseResult, code: real)
    requires !IsIntegral(code)
    ensures ParseResult(JObject(ToJson(r).fields["decisionCode" := JNumber(code)])).None?
    ensures ParseResult(JObject(ToJson(r).fields["exitStatus" := JNumber(code)])).None?
  {
  }

  /** An output file whose encoding is anything but `'base64'` is rejected. */
  lemma OtherEncodingRejected(j: Json, other: Json)
    requires j.JObject? && other != JString("base64")
    ensures ParseFile(JObject(j.fields["encoding" := other])).None?
  {
  }
}

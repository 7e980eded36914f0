/**
 * The standard-input/output judging preset. It reads its parameters from the
 * command line and optionally builds the submission. A failing build ends the
 * run with one build verdict. Otherwise it runs every test case once, in
 * order. Each run is classified by a fixed priority chain: runtime error,
 * time limit, memory limit, output size, missing required output file, wrong
 * answer, otherwise accepted. One result record is printed per case.
 *
 * Spawning a process, reading files, decoding UTF-8, base64 and the token
 * comparison of outputs are collaborators passed in as functions.
 */
module StdioPreset {
  import opened Wrappers
  import opened JsonValues
  import opened Strings
  import opened DecisionCodes
  import opened PathNames
  import opened TestCaseResultSchema
  import opened TestCaseResultPrinter
  import opened CommandLine
  import ProblemSchema
  import FsHelpers

  const BUILD_TIMEOUT_SECONDS := 10
  const DEFAULT_TIMEOUT_SECONDS := 2
  const MAX_STDOUT_LENGTH := 50000

  // ---------------------------------------------------------------------------
  // Parameters

  /** The preset's parameters; `command` and a given `buildCommand` are non-empty argv lists. */
  datatype Params = Params(
    cwd: string,
    buildCommand: Option<seq<string>>,
    command: seq<string>,
    env: Option<map<string, string>>)

  /** `z.tuple([z.string()], z.string())`: at least one string. */
  predicate IsArgv(j: Json) {
    j.JArray? && |j.items| >= 1 && forall i :: 0 <= i < |j.items| ==> j.items[i].JString?
  }

  function ArgvOf(items: seq<Json>): (r: seq<string>)
    requires forall i :: 0 <= i < |items| ==> items[i].JString?
    ensures |r| == |items| && forall i :: 0 <= i < |items| ==> r[i] == items[i].s
  {
    if items == [] then [] else [items[0].s] + ArgvOf(items[1..])
  }

  /** `z.record(z.string(), z.string())`. */
  predicate IsStringRecord(j: Json) {
    j.JObject? && forall k :: k in j.fields ==> j.fields[k].JString?
  }

  /** `paramsSchema`: unknown keys are dropped. */
  predicate ValidParamsJson(j: Json) {
    && j.JObject?
    && "cwd" in j.fields && j.fields["cwd"].JString?
    && ("buildCommand" in j.fields ==> IsArgv(j.fields["buildCommand"]))
    && "command" in j.fields && IsArgv(j.fields["command"])
    && ("env" in j.fields ==> IsStringRecord(j.fields["env"]))
  }

  function ParseParams(j: Json): (r: Option<Params>)
    ensures r.Some? <==> ValidParamsJson(j)
    ensures r.Some? ==> |r.value.command| >= 1
    ensures r.Some? ==> (r.value.buildCommand.Some? <==> "buildCommand" in j.fields)
    ensures r.Some? && r.value.buildCommand.Some? ==> |r.value.buildCommand.value| >= 1
  {
    if !ValidParamsJson(j) then None
    else
      var f := j.fields;
      var build := if "buildCommand" in f then Some(ArgvOf(f["buildCommand"].items)) else None;
      var env := if "env" in f then Some(map k | k in f["env"].fields :: f["env"].fields[k].s) else None;
      Some(Params(f["cwd"].s, build, ArgvOf(f["command"].items), env))
  }

  // ---------------------------------------------------------------------------
  // Collaborators

  /** What `spawnSyncWithTimeout` is asked to do. */
  datatype SpawnRequest = SpawnRequest(
    file: string, args: seq<string>, cwd: string, env: Option<map<string, string>>,
    input: Option<string>, timeoutSeconds: real)

  /** What it reports: a `None` status is a process killed by a signal. */
  datatype SpawnResult = SpawnResult(
    status: Option<int>, stdout: string, stderr: string, timeSeconds: real, memoryBytes: real)

  datatype BuildOutcome = Built(result: SpawnResult) | BuildThrew(message: string)

  /** A run, with the files (keyed by full path) present once it finished, or a throw. */
  datatype RunOutcome = Ran(result: SpawnResult, files: map<string, seq<bv8>>) | RunThrew

  datatype Collaborators = Collaborators(
    build: SpawnRequest -> BuildOutcome,
    run: SpawnRequest -> RunOutcome,
    tokensMatch: (string, string) -> bool,
    decodeUtf8: seq<bv8> -> string,
    encodeBase64: seq<bv8> -> string)

  function BuildRequest(params: Params): SpawnRequest
    requires params.buildCommand.Some? && |params.buildCommand.value| >= 1
  {
    var argv := params.buildCommand.value;
    SpawnRequest(argv[0], argv[1..], params.cwd, params.env, None, BUILD_TIMEOUT_SECONDS as real)
  }

  function RunRequest(params: Params, stdin: Option<string>, timeoutSeconds: real): SpawnRequest
    requires |params.command| >= 1
  {
    SpawnRequest(params.command[0], params.command[1..], params.cwd, params.env, stdin, timeoutSeconds)
  }

  // ---------------------------------------------------------------------------
  // The build phase

  predicate OutputTooLarge(s: SpawnResult) {
    |s.stdout| > MAX_STDOUT_LENGTH || |s.stderr| > MAX_STDOUT_LENGTH
  }

  /** The build's verdict: time first, then output size, then exit status; `None` lets judging go on. */
  function BuildDecision(s: SpawnResult): (r: Option<int>)
    ensures r == Some(BUILD_TIME_LIMIT_EXCEEDED) <==> s.timeSeconds > BUILD_TIMEOUT_SECONDS as real
    ensures r == Some(BUILD_OUTPUT_SIZE_LIMIT_EXCEEDED) <==>
              s.timeSeconds <= BUILD_TIMEOUT_SECONDS as real && OutputTooLarge(s)
    ensures r == Some(BUILD_ERROR) <==>
              s.timeSeconds <= BUILD_TIMEOUT_SECONDS as real && !OutputTooLarge(s) && s.status != Some(0)
    ensures r.None? <==>
              s.timeSeconds <= BUILD_TIMEOUT_SECONDS as real && !OutputTooLarge(s) && s.status == Some(0)
  {
    if s.timeSeconds > BUILD_TIMEOUT_SECONDS as real then Some(BUILD_TIME_LIMIT_EXCEEDED)
    else if OutputTooLarge(s) then Some(BUILD_OUTPUT_SIZE_LIMIT_EXCEEDED)
    else if s.status != Some(0) then Some(BUILD_ERROR)
    else None
  }

  /** The id a build verdict is reported under: the first test case's, or empty. */
  function FirstId(testCases: seq<FsHelpers.TestCase>): string {
    if testCases == [] then "" else testCases[0].id
  }

  /** The record printed when the build fails, if it does. */
  function BuildFailure(params: Params, testCases: seq<FsHelpers.TestCase>, c: Collaborators): Option<PartialResult>
    requires params.buildCommand.Some? ==> |params.buildCommand.value| >= 1
  {
    if params.buildCommand.None? then None
    else match c.build(BuildRequest(params))
      case BuildThrew(message) =>
        Some(OnlyId(FirstId(testCases)).(decisionCode := Some(BUILD_ERROR), stderr := Some(message)))
      case Built(s) =>
        match BuildDecision(s)
        case None => None
        case Some(code) =>
          Some(PartialResult(FirstId(testCases), Some(code), Some(s.status.GetOr(0)), None,
                             Some(Slice(s.stdout, MAX_STDOUT_LENGTH)), Some(Slice(s.stderr, MAX_STDOUT_LENGTH)),
                             Some(s.timeSeconds), Some(s.memoryBytes), None, None))
  }

  /** Without a build command nothing is built and nothing fails. */
  lemma NoBuildCommandNoBuild(params: Params, testCases: seq<FsHelpers.TestCase>, c: Collaborators)
    requires params.buildCommand.None?
    ensures BuildFailure(params, testCases, c).None?
  {
  }

  /** A build failure, a throw included, is one record with a build code under the first case's id. */
  lemma BuildFailureShape(params: Params, testCases: seq<FsHelpers.TestCase>, c: Collaborators)
    requires params.buildCommand.Some? && |params.buildCommand.value| >= 1
    requires BuildFailure(params, testCases, c).Some?
    ensures var r := WithDefaults(BuildFailure(params, testCases, c).value);
            && r.testCaseId == (if testCases == [] then "" else testCases[0].id)
            && r.decisionCode in {BUILD_ERROR, BUILD_TIME_LIMIT_EXCEEDED, BUILD_OUTPUT_SIZE_LIMIT_EXCEEDED}
            && |r.stdout| <= MAX_STDOUT_LENGTH
    ensures c.build(BuildRequest(params)).BuildThrew? ==>
              WithDefaults(BuildFailure(params, testCases, c).value)
              == DefaultTestCaseResult.(testCaseId := FirstId(testCases), decisionCode := BUILD_ERROR,
                                        stderr := c.build(BuildRequest(params)).message)
  {
  }

  // ---------------------------------------------------------------------------
  // Required output files

  /** The entry recorded for a file: base64 when its UTF-8 decoding holds a replacement character. */
  function Capture(path: string, bytes: seq<bv8>, decodeUtf8: seq<bv8> -> string, encodeBase64: seq<bv8> -> string)
    : (f: OutputFile)
    ensures f.path == path
    ensures f.encoding == Some(Base64) <==> '�' in decodeUtf8(bytes)
    ensures f.encoding.None? ==> f.data == decodeUtf8(bytes)
    ensures f.encoding.Some? ==> f.data == encodeBase64(bytes)
  {
    var text := decodeUtf8(bytes);
    if '�' in text then OutputFile(path, encodeBase64(bytes), Some(Base64))
    else OutputFile(path, text, None)
  }

  /** The entries recorded for the declared paths, in declared order, skipping the missing ones. */
  function Captures(cwd: string, paths: seq<string>, files: map<string, seq<bv8>>,
                    decodeUtf8: seq<bv8> -> string, encodeBase64: seq<bv8> -> string): (r: seq<OutputFile>)
    ensures |r| <= |paths|
  {
    if paths == [] then []
    else
      var front := Captures(cwd, paths[..|paths| - 1], files, decodeUtf8, encodeBase64);
      var p := paths[|paths| - 1];
      if JoinPath(cwd, p) in files then front + [Capture(p, files[JoinPath(cwd, p)], decodeUtf8, encodeBase64)]
      else front
  }

  predicate AllPresent(cwd: string, paths: seq<string>, files: map<string, seq<bv8>>) {
    forall i :: 0 <= i < |paths| ==> JoinPath(cwd, paths[i]) in files
  }

  /** When every declared file exists, each one is recorded, in declared order. */
  lemma {:induction false} AllPresentCapturesAll(cwd: string, paths: seq<string>, files: map<string, seq<bv8>>,
                                                 decodeUtf8: seq<bv8> -> string, encodeBase64: seq<bv8> -> string)
    requires AllPresent(cwd, paths, files)
    ensures var r := Captures(cwd, paths, files, decodeUtf8, encodeBase64);
            |r| == |paths| && forall i :: 0 <= i < |r| ==> r[i].path == paths[i]
  {
    if paths != [] {
      var n := |paths|;
      var front := paths[..n - 1];
      assert AllPresent(cwd, front, files) by {
        forall i | 0 <= i < |front|
          ensures JoinPath(cwd, front[i]) in files
        {
          assert front[i] == paths[i];
        }
      }
      AllPresentCapturesAll(cwd, front, files, decodeUtf8, encodeBase64);
      var rest := Captures(cwd, front, files, decodeUtf8, encodeBase64);
      assert JoinPath(cwd, paths[n - 1]) in files;
      var last := Capture(paths[n - 1], files[JoinPath(cwd, paths[n - 1])], decodeUtf8, encodeBase64);
      assert Captures(cwd, paths, files, decodeUtf8, encodeBase64) == rest + [last];
    }
  }

  /** Every recorded entry names a declared path whose file exists, and holds that file's contents. */
  lemma {:induction false} CapturedFilesExist(cwd: string, paths: seq<string>, files: map<string, seq<bv8>>,
                                              decodeUtf8: seq<bv8> -> string, encodeBase64: seq<bv8> -> string,
                                              i: nat)
    requires i < |Captures(cwd, paths, files, decodeUtf8, encodeBase64)|
    ensures var e := Captures(cwd, paths, files, decodeUtf8, encodeBase64)[i];
            && e.path in paths && JoinPath(cwd, e.path) in files
            && e == Capture(e.path, files[JoinPath(cwd, e.path)], decodeUtf8, encodeBase64)
  {
    var n := |paths|;
    var front := paths[..n - 1];
    var rest := Captures(cwd, front, files, decodeUtf8, encodeBase64);
    if i < |rest| {
      CapturedFilesExist(cwd, front, files, decodeUtf8, encodeBase64, i);
      assert Captures(cwd, paths, files, decodeUtf8, encodeBase64)[i] == rest[i];
      assert forall p :: p in front ==> p in paths;
    }
  }

  /** The positions of the declared paths whose file exists, in ascending order. */
  function PresentIndices(cwd: string, paths: seq<string>, files: map<string, seq<bv8>>): (idx: seq<nat>)
    ensures forall i :: 0 <= i < |idx| ==> idx[i] < |paths| && JoinPath(cwd, paths[idx[i]]) in files
    ensures forall i, j :: 0 <= i < j < |idx| ==> idx[i] < idx[j]
    ensures forall k :: 0 <= k < |paths| && JoinPath(cwd, paths[k]) in files ==> k in idx
  {
    if paths == [] then []
    else
      var n := |paths|;
      var front := PresentIndices(cwd, paths[..n - 1], files);
      assert forall i :: 0 <= i < |front| ==> paths[..n - 1][front[i]] == paths[front[i]];
      assert forall k :: 0 <= k < n - 1 ==> paths[..n - 1][k] == paths[k];
      if JoinPath(cwd, paths[n - 1]) in files then front + [n - 1] else front
  }

  /**
   * The recorded entries are exactly the captures of the existing files, one
   * per existing path and in declared order.
   */
  lemma {:induction false} CapturesFollowPresentIndices(cwd: string, paths: seq<string>, files: map<string, seq<bv8>>,
                                                        decodeUtf8: seq<bv8> -> string, encodeBase64: seq<bv8> -> string)
    ensures var r := Captures(cwd, paths, files, decodeUtf8, encodeBase64);
            var idx := PresentIndices(cwd, paths, files);
            && |r| == |idx|
            && forall i :: 0 <= i < |r| ==>
                 r[i] == Capture(paths[idx[i]], files[JoinPath(cwd, paths[idx[i]])], decodeUtf8, encodeBase64)
  {
    if paths != [] {
      var n := |paths|;
      var front := paths[..n - 1];
      CapturesFollowPresentIndices(cwd, front, files, decodeUtf8, encodeBase64);
      var idx := PresentIndices(cwd, front, files);
      assert forall i :: 0 <= i < |idx| ==> front[idx[i]] == paths[idx[i]];
    }
  }

  /**
   * A missing file is skipped: a record per path exactly when every file
   * exists, and every file that exists is still recorded.
   */
  lemma {:induction false} MissingFileIsSkipped(cwd: string, paths: seq<string>, files: map<string, seq<bv8>>,
                                                decodeUtf8: seq<bv8> -> string, encodeBase64: seq<bv8> -> string)
    ensures |Captures(cwd, paths, files, decodeUtf8, encodeBase64)| == |paths| <==> AllPresent(cwd, paths, files)
    ensures var r := Captures(cwd, paths, files, decodeUtf8, encodeBase64);
            forall k :: 0 <= k < |paths| && JoinPath(cwd, paths[k]) in files ==>
              exists i :: 0 <= i < |r| && r[i] == Capture(paths[k], files[JoinPath(cwd, paths[k])], decodeUtf8, encodeBase64)
  {
    if paths != [] {
      var front := paths[..|paths| - 1];
      MissingFileIsSkipped(cwd, front, files, decodeUtf8, encodeBase64);
      assert AllPresent(cwd, paths, files) <==>
             AllPresent(cwd, front, files) && JoinPath(cwd, paths[|paths| - 1]) in files;
    }
    CapturesFollowPresentIndices(cwd, paths, files, decodeUtf8, encodeBase64);
    var r := Captures(cwd, paths, files, decodeUtf8, encodeBase64);
    var idx := PresentIndices(cwd, paths, files);
    forall k | 0 <= k < |paths| && JoinPath(cwd, paths[k]) in files
      ensures exists i :: 0 <= i < |r| && r[i] == Capture(paths[k], files[JoinPath(cwd, paths[k])], decodeUtf8, encodeBase64)
    {
      var i :| 0 <= i < |idx| && idx[i] == k;
      assert r[i] == Capture(paths[k], files[JoinPath(cwd, paths[k])], decodeUtf8, encodeBase64);
    }
  }

  /** The `outputFiles` list of a result under construction. */
  class OutputFileBuffer {
    var entries: seq<OutputFile>

    constructor ()
      ensures entries == []
    {
      entries := [];
    }

    /**
     * `checkAndReadRequiredOutputFiles`: appends an entry for every declared
     * path that exists and reports whether all of them do. A missing file
     * does not stop the scan.
     */
    method CheckAndReadRequiredOutputFiles(cwd: string, requiredOutputFilePaths: Option<seq<string>>,
                                           files: map<string, seq<bv8>>,
                                           decodeUtf8: seq<bv8> -> string, encodeBase64: seq<bv8> -> string)
      returns (allExist: bool)
      modifies this
      ensures var paths := requiredOutputFilePaths.GetOr([]);
              && (allExist <==> AllPresent(cwd, paths, files))
              && entries == old(entries) + Captures(cwd, paths, files, decodeUtf8, encodeBase64)
    {
      var paths := requiredOutputFilePaths.GetOr([]);
      allExist := true;
      for i := 0 to |paths|
        invariant allExist <==> AllPresent(cwd, paths[..i], files)
        invariant entries == old(entries) + Captures(cwd, paths[..i], files, decodeUtf8, encodeBase64)
      {
        assert paths[..i + 1][..i] == paths[..i];
        var filePath := JoinPath(cwd, paths[i]);
        if filePath !in files {
          allExist := false;
          continue;
        }
        var bytes := files[filePath];
        var utf8Text := decodeUtf8(bytes);
        if '�' in utf8Text {
          entries := entries + [OutputFile(paths[i], encodeBase64(bytes), Some(Base64))];
        } else {
          entries := entries + [OutputFile(paths[i], utf8Text, None)];
        }
      }
      assert paths[..|paths|] == paths;
    }
  }

  // ---------------------------------------------------------------------------
  // Judging one test case

  /** The time limit in milliseconds: the front matter's, zero included, else two seconds. */
  function TimeoutMs(fm: ProblemSchema.FrontMatter): (ms: nat)
    ensures fm.timeLimitMs.Some? ==> ms == fm.timeLimitMs.value
    ensures fm.timeLimitMs.None? ==> ms == DEFAULT_TIMEOUT_SECONDS * 1000
  {
    fm.timeLimitMs.GetOr(DEFAULT_TIMEOUT_SECONDS * 1000)
  }

  function TimeoutSeconds(fm: ProblemSchema.FrontMatter): real {
    TimeoutMs(fm) as real / 1000.0
  }

  /** `s` with its trailing `0` characters removed. */
  function TrimZeros(s: string): (r: string)
    ensures r <= s
    ensures r == [] || r[|r| - 1] != '0'
    ensures forall i :: |r| <= i < |s| ==> s[i] == '0'
  {
    if s != [] && s[|s| - 1] == '0' then TrimZeros(s[..|s| - 1]) else s
  }

  /** The three digits of a thousandth count. */
  function ThreeDigits(f: nat): (r: string)
    requires f < 1000
    ensures |r| == 3 && (forall i :: 0 <= i < 3 ==> IsDigit(r[i])) && DigitsValue(r) == f
  {
    var r := [DigitChar(f / 100), DigitChar(f / 10 % 10), DigitChar(f % 10)];
    assert r[..2] == r[..|r| - 1] && r[..1] == r[..2][..|r[..2]| - 1] && r[..1][..0] == [];
    assert DigitsValue(r[..1]) == f / 100;
    assert DigitsValue(r[..2]) == 10 * (f / 100) + f / 10 % 10;
    r
  }

  /** Only zero has three zero digits. */
  lemma ThreeDigitsOfNonZero(f: nat)
    requires 0 < f < 1000
    ensures exists i :: 0 <= i < 3 && ThreeDigits(f)[i] != '0'
  {
    var r := ThreeDigits(f);
    if r[0] == '0' && r[1] == '0' && r[2] == '0' {
      assert false;
    }
  }

  /**
   * A time in milliseconds written as JavaScript writes the number of seconds:
   * the whole seconds, then a point and the thousandths without trailing zeros
   * when there are any.
   */
  function FormatSeconds(ms: nat): (r: string)
    ensures ms % 1000 == 0 ==> r == NatToDecimal(ms / 1000)
    ensures ms % 1000 != 0 ==>
              exists k :: 1 <= k <= 3 && r == NatToDecimal(ms / 1000) + "." + ThreeDigits(ms % 1000)[..k]
                          && r[|r| - 1] != '0'
                          && forall i :: k <= i < 3 ==> ThreeDigits(ms % 1000)[i] == '0'
  {
    var f := ms % 1000;
    if f == 0 then NatToDecimal(ms / 1000)
    else
      var digits := TrimZeros(ThreeDigits(f));
      assert digits != [] by {
        ThreeDigitsOfNonZero(f);
      }
      assert ThreeDigits(f)[..|digits|] == digits;
      NatToDecimal(ms / 1000) + "." + digits
  }

  /** The default limit is written `2`, and 1500 ms is written `1.5`. */
  lemma FormatSecondsExamples()
    ensures FormatSeconds(DEFAULT_TIMEOUT_SECONDS * 1000) == "2"
    ensures FormatSeconds(1500) == "1.5"
  {
    assert NatToDecimal(2) == "2";
    assert NatToDecimal(1) == "1";
    assert ThreeDigits(500) == "500";
    assert TrimZeros("50") == TrimZeros("5");
  }

  /** The fixed parts of the notice, around the time limit written twice. */
  const NOTICE_OPENING := "時間制限内（"
  const NOTICE_MIDDLE := "秒）に終了しませんでした！\n意図した出力が表示されていない場合は、\nプログラムを修正・再提出してください。\n\nYour program TIMED OUT (+"
  const NOTICE_CLOSING := " seconds)!\nIf intended output is not displayed,\nplease correct and re-submit your program.\n\n"

  /** The notice that replaces `stderr` when a manually scored run exceeds its time limit. */
  function TimeoutNotice(timeoutMs: nat): string {
    var t := FormatSeconds(timeoutMs);
    NOTICE_OPENING + t + NOTICE_MIDDLE + t + NOTICE_CLOSING
  }


  /** The memory check: only a declared limit can be exceeded, and only strictly. */
  predicate MemoryExceeded(s: SpawnResult, memoryLimitByte: Option<nat>) {
    memoryLimitByte.Some? && s.memoryBytes > memoryLimitByte.value as real
  }

  /**
   * The decision for one run, given whether all required output files exist
   * and whether the output matches. Exactly one of seven codes applies.
   */
  function Decision(s: SpawnResult, timeoutSeconds: real, manualScoring: bool, memoryLimitByte: Option<nat>,
                    allOutputFilesPresent: bool, tokensMatch: bool): (code: int)
  {
    if s.status != Some(0) then RUNTIME_ERROR
    else if s.timeSeconds > timeoutSeconds then (if manualScoring then ACCEPTED else TIME_LIMIT_EXCEEDED)
    else if MemoryExceeded(s, memoryLimitByte) then MEMORY_LIMIT_EXCEEDED
    else if OutputTooLarge(s) then OUTPUT_SIZE_LIMIT_EXCEEDED
    else if !allOutputFilesPresent then MISSING_REQUIRED_OUTPUT_FILE_ERROR
    else if !tokensMatch then WRONG_ANSWER
    else ACCEPTED
  }

  /**
   * The priority chain: each code applies exactly when every earlier check
   * passed and its own check fails.
   */
  lemma DecisionPriority(s: SpawnResult, timeoutSeconds: real, manualScoring: bool, memoryLimitByte: Option<nat>,
                         allOutputFilesPresent: bool, tokensMatch: bool)
    ensures var code := Decision(s, timeoutSeconds, manualScoring, memoryLimitByte, allOutputFilesPresent,
                                 tokensMatch);
            var ran := s.status == Some(0);
            var inTime := s.timeSeconds <= timeoutSeconds;
            var withinMemory := !MemoryExceeded(s, memoryLimitByte);
            && code in {RUNTIME_ERROR, TIME_LIMIT_EXCEEDED, MEMORY_LIMIT_EXCEEDED, OUTPUT_SIZE_LIMIT_EXCEEDED,
                        MISSING_REQUIRED_OUTPUT_FILE_ERROR, WRONG_ANSWER, ACCEPTED}
            && (code == RUNTIME_ERROR <==> !ran)
            && (code == TIME_LIMIT_EXCEEDED <==> ran && !inTime && !manualScoring)
            && (code == MEMORY_LIMIT_EXCEEDED <==> ran && inTime && !withinMemory)
            && (code == OUTPUT_SIZE_LIMIT_EXCEEDED <==> ran && inTime && withinMemory && OutputTooLarge(s))
            && (code == MISSING_REQUIRED_OUTPUT_FILE_ERROR <==>
                  ran && inTime && withinMemory && !OutputTooLarge(s) && !allOutputFilesPresent)
            && (code == WRONG_ANSWER <==>
                  ran && inTime && withinMemory && !OutputTooLarge(s) && allOutputFilesPresent && !tokensMatch)
            && (code == ACCEPTED <==>
                  ran && ((!inTime && manualScoring)
                          || (inTime && withinMemory && !OutputTooLarge(s) && allOutputFilesPresent && tokensMatch)))
  {
  }

  predicate ManualScoring(fm: ProblemSchema.FrontMatter) {
    fm.isManualScoringRequired == Some(true)
  }

  /** The run reaches the output-file check: it exited normally, in time, within memory and output size. */
  predicate ReachesFileCheck(fm: ProblemSchema.FrontMatter, s: SpawnResult) {
    s.status == Some(0) && s.timeSeconds <= TimeoutSeconds(fm) && !MemoryExceeded(s, fm.memoryLimitByte)
    && !OutputTooLarge(s)
  }

  predicate TimedOut(fm: ProblemSchema.FrontMatter, s: SpawnResult) {
    s.status == Some(0) && s.timeSeconds > TimeoutSeconds(fm)
  }

  /** The reported `stderr`: the notice and the trimmed output after a manually scored timeout, else truncated. */
  function ReportedStderr(fm: ProblemSchema.FrontMatter, s: SpawnResult): string {
    if TimedOut(fm, s) && ManualScoring(fm) then TimeoutNotice(TimeoutMs(fm)) + TrimEnd(s.stderr)
    else Slice(s.stderr, MAX_STDOUT_LENGTH)
  }

  /** The reported time: the limit plus a millisecond after a timeout, else the measured time. */
  function ReportedTime(fm: ProblemSchema.FrontMatter, s: SpawnResult): real {
    if TimedOut(fm, s) then TimeoutSeconds(fm) + 0.001 else s.timeSeconds
  }

  /** The recorded output files: read only when the chain reaches the file check. */
  function RecordedFiles(params: Params, fm: ProblemSchema.FrontMatter, s: SpawnResult, files: map<string, seq<bv8>>,
                         c: Collaborators): seq<OutputFile>
  {
    if ReachesFileCheck(fm, s)
    then Captures(params.cwd, fm.requiredOutputFilePaths.GetOr([]), files, c.decodeUtf8, c.encodeBase64)
    else []
  }

  function CaseDecision(params: Params, fm: ProblemSchema.FrontMatter, tc: FsHelpers.TestCase, s: SpawnResult,
                        files: map<string, seq<bv8>>, c: Collaborators): int
  {
    Decision(s, TimeoutSeconds(fm), ManualScoring(fm), fm.memoryLimitByte,
             AllPresent(params.cwd, fm.requiredOutputFilePaths.GetOr([]), files),
             c.tokensMatch(s.stdout, tc.stdout.GetOr("")))
  }

  /** The record printed for a finished run. */
  function CaseResult(params: Params, fm: ProblemSchema.FrontMatter, tc: FsHelpers.TestCase, s: SpawnResult,
                      files: map<string, seq<bv8>>, c: Collaborators): PartialResult
  {
    PartialResult(
      tc.id,
      Some(CaseDecision(params, fm, tc, s, files, c)),
      Some(s.status.GetOr(0)),
      Some(tc.stdin.GetOr("")),
      Some(Slice(s.stdout, MAX_STDOUT_LENGTH)),
      Some(ReportedStderr(fm, s)),
      Some(ReportedTime(fm, s)),
      Some(s.memoryBytes),
      None,
      Some(RecordedFiles(params, fm, s, files, c)))
  }

  /** What judging one test case yields: its record, or `None` when spawning throws. */
  function CaseOutcome(params: Params, fm: ProblemSchema.FrontMatter, tc: FsHelpers.TestCase, c: Collaborators)
    : Option<PartialResult>
    requires |params.command| >= 1
  {
    match c.run(RunRequest(params, tc.stdin, TimeoutSeconds(fm)))
    case RunThrew => None
    case Ran(s, files) => Some(CaseResult(params, fm, tc, s, files, c))
  }

  /** A non-zero or missing exit status is a runtime error, and a missing one is reported as 0. */
  lemma AbnormalExitIsRuntimeError(params: Params, fm: ProblemSchema.FrontMatter, tc: FsHelpers.TestCase,
                                   s: SpawnResult, files: map<string, seq<bv8>>, c: Collaborators)
    requires s.status != Some(0)
    ensures var r := WithDefaults(CaseResult(params, fm, tc, s, files, c));
            && r.decisionCode == RUNTIME_ERROR
            && r.exitStatus == (if s.status.Some? then s.status.value else 0)
            && r.timeSeconds == s.timeSeconds
            && r.outputFiles == []
  {
  }

  /**
   * A run over its time limit is reported at the limit plus a millisecond. It
   * is a time-limit verdict, except under manual scoring, where the verdict stays
   * ACCEPTED and `stderr` becomes the notice followed by the trimmed output.
   */
  lemma TimedOutRun(params: Params, fm: ProblemSchema.FrontMatter, tc: FsHelpers.TestCase,
                    s: SpawnResult, files: map<string, seq<bv8>>, c: Collaborators)
    requires s.status == Some(0) && s.timeSeconds > TimeoutSeconds(fm)
    ensures var r := WithDefaults(CaseResult(params, fm, tc, s, files, c));
            && r.timeSeconds == TimeoutSeconds(fm) + 0.001
            && r.outputFiles == []
            && (ManualScoring(fm) ==> r.decisionCode == ACCEPTED
                                      && r.stderr == TimeoutNotice(TimeoutMs(fm)) + TrimEnd(s.stderr))
            && (!ManualScoring(fm) ==> r.decisionCode == TIME_LIMIT_EXCEEDED
                                       && r.stderr == Slice(s.stderr, MAX_STDOUT_LENGTH))
  {
  }

  /** Without a memory limit no run is a memory-limit verdict. */
  lemma NoMemoryLimitNeverExceeded(params: Params, fm: ProblemSchema.FrontMatter, tc: FsHelpers.TestCase,
                                   s: SpawnResult, files: map<string, seq<bv8>>, c: Collaborators)
    requires fm.memoryLimitByte.None?
    ensures WithDefaults(CaseResult(params, fm, tc, s, files, c)).decisionCode != MEMORY_LIMIT_EXCEEDED
  {
  }

  /**
   * The output-size verdict looks at the full output, while the record holds at
   * most its first 50000 characters.
   */
  lemma ReportedOutputIsTruncated(params: Params, fm: ProblemSchema.FrontMatter, tc: FsHelpers.TestCase,
                                  s: SpawnResult, files: map<string, seq<bv8>>, c: Collaborators)
    ensures var r := WithDefaults(CaseResult(params, fm, tc, s, files, c));
            && r.stdout <= s.stdout && |r.stdout| <= MAX_STDOUT_LENGTH
            && ((s.status == Some(0) && s.timeSeconds <= TimeoutSeconds(fm) && !MemoryExceeded(s, fm.memoryLimitByte)
                 && |s.stdout| > MAX_STDOUT_LENGTH)
                ==> r.decisionCode == OUTPUT_SIZE_LIMIT_EXCEEDED)
  {
  }

  /**
   * A run that passes every resource check is accepted exactly when all
   * required files exist and its full output matches the expected output (or
   * the empty text); the existing required files are then recorded.
   */
  lemma CleanRunVerdict(params: Params, fm: ProblemSchema.FrontMatter, tc: FsHelpers.TestCase,
                        s: SpawnResult, files: map<string, seq<bv8>>, c: Collaborators)
    requires ReachesFileCheck(fm, s)
    ensures var r := WithDefaults(CaseResult(params, fm, tc, s, files, c));
            var paths := fm.requiredOutputFilePaths.GetOr([]);
            && (r.decisionCode == ACCEPTED <==>
                  AllPresent(params.cwd, paths, files) && c.tokensMatch(s.stdout, tc.stdout.GetOr("")))
            && (r.decisionCode == MISSING_REQUIRED_OUTPUT_FILE_ERROR <==> !AllPresent(params.cwd, paths, files))
            && r.outputFiles == Captures(params.cwd, paths, files, c.decodeUtf8, c.encodeBase64)
            && r.stderr == Slice(s.stderr, MAX_STDOUT_LENGTH)
  {
  }

  /** Judging one test case: spawn the command, then classify the run by the priority chain. */
  method JudgeCase(params: Params, fm: ProblemSchema.FrontMatter, tc: FsHelpers.TestCase, c: Collaborators)
    returns (outcome: Option<PartialResult>)
    requires |params.command| >= 1
    ensures outcome == CaseOutcome(params, fm, tc, c)
  {
    var timeoutMs := TimeoutMs(fm);
    var timeoutSeconds := timeoutMs as real / 1000.0;
    var run := c.run(RunRequest(params, tc.stdin, timeoutSeconds));
    if run.RunThrew? {
      return None;
    }
    var r := ClassifyRun(params, fm, tc, run.result, run.files, c);
    return Some(r);
  }

  /** The priority chain over a finished run, filling in the record as it goes. */
  method ClassifyRun(params: Params, fm: ProblemSchema.FrontMatter, tc: FsHelpers.TestCase, s: SpawnResult,
                     files: map<string, seq<bv8>>, c: Collaborators)
    returns (r: PartialResult)
    ensures r == CaseResult(params, fm, tc, s, files, c)
  {
    var timeoutMs := TimeoutMs(fm);
    var timeoutSeconds := timeoutMs as real / 1000.0;
    var decisionCode := ACCEPTED;
    var stderr := Slice(s.stderr, MAX_STDOUT_LENGTH);
    var timeSeconds := s.timeSeconds;
    var outputFiles: seq<OutputFile> := [];
    if s.status != Some(0) {
      decisionCode := RUNTIME_ERROR;
    } else if s.timeSeconds > timeoutSeconds {
      if fm.isManualScoringRequired == Some(true) {
        stderr := TimeoutNotice(timeoutMs) + TrimEnd(s.stderr);
      } else {
        decisionCode := TIME_LIMIT_EXCEEDED;
      }
      timeSeconds := timeoutSeconds + 0.001;
    } else if fm.memoryLimitByte.Some? && s.memoryBytes > fm.memoryLimitByte.value as real {
      decisionCode := MEMORY_LIMIT_EXCEEDED;
    } else if |s.stdout| > MAX_STDOUT_LENGTH || |s.stderr| > MAX_STDOUT_LENGTH {
      decisionCode := OUTPUT_SIZE_LIMIT_EXCEEDED;
    } else {
      decisionCode, outputFiles := CheckOutputs(params, fm, tc, s, files, c);
    }
    assert decisionCode == CaseDecision(params, fm, tc, s, files, c);
    assert stderr == ReportedStderr(fm, s);
    assert timeSeconds == ReportedTime(fm, s);
    assert outputFiles == RecordedFiles(params, fm, s, files, c);
    r := PartialResult(tc.id, Some(decisionCode), Some(s.status.GetOr(0)), Some(tc.stdin.GetOr("")),
                       Some(Slice(s.stdout, MAX_STDOUT_LENGTH)), Some(stderr), Some(timeSeconds),
                       Some(s.memoryBytes), None, Some(outputFiles));
  }

  /**
   * The end of the chain: read the required output files into a fresh list,
   * then compare the output.
   */
  method CheckOutputs(params: Params, fm: ProblemSchema.FrontMatter, tc: FsHelpers.TestCase, s: SpawnResult,
                      files: map<string, seq<bv8>>, c: Collaborators)
    returns (decisionCode: int, outputFiles: seq<OutputFile>)
    ensures var paths := fm.requiredOutputFilePaths.GetOr([]);
            && decisionCode == (if !AllPresent(params.cwd, paths, files) then MISSING_REQUIRED_OUTPUT_FILE_ERROR
                                else if !c.tokensMatch(s.stdout, tc.stdout.GetOr("")) then WRONG_ANSWER
                                else ACCEPTED)
            && outputFiles == Captures(params.cwd, paths, files, c.decodeUtf8, c.encodeBase64)
  {
    var buffer := new OutputFileBuffer();
    var allExist := buffer.CheckAndReadRequiredOutputFiles(
      params.cwd, fm.requiredOutputFilePaths, files, c.decodeUtf8, c.encodeBase64);
    decisionCode := ACCEPTED;
    if !allExist {
      decisionCode := MISSING_REQUIRED_OUTPUT_FILE_ERROR;
    } else if !c.tokensMatch(s.stdout, tc.stdout.GetOr("")) {
      decisionCode := WRONG_ANSWER;
    }
    outputFiles := buffer.entries;
  }

  // ---------------------------------------------------------------------------
  // The preset

  /**
   * The judging phase printed a record per test case, in order, for a prefix
   * of the cases; it stopped early only where spawning threw.
   */
  predicate JudgedInOrder(params: Params, fm: ProblemSchema.FrontMatter, testCases: seq<FsHelpers.TestCase>,
                          c: Collaborators, printed: seq<PartialResult>, completed: bool)
    requires |params.command| >= 1
  {
    && |printed| <= |testCases|
    && (forall i :: 0 <= i < |printed| ==> CaseOutcome(params, fm, testCases[i], c) == Some(printed[i]))
    && (completed <==> |printed| == |testCases|)
    && (!completed ==> CaseOutcome(params, fm, testCases[|printed|], c).None?)
  }

  /**
   * `stdioPreset`, given the command line, the problem's front matter and its
   * test cases. `printed` holds the records passed to the result printer;
   * `completed` is false when the preset ends by a throw.
   */
  method RunStdioPreset(argv: seq<string>, jsonParse: string -> Option<Json>, fm: ProblemSchema.FrontMatter,
                        testCases: seq<FsHelpers.TestCase>, c: Collaborators)
    returns (printed: seq<PartialResult>, completed: bool)
    ensures ParseArgs(argv, jsonParse).Err? ==> printed == [] && !completed
    ensures ParseArgs(argv, jsonParse).Ok? && ParseParams(ParseArgs(argv, jsonParse).value.params).None? ==>
              printed == [] && !completed
    ensures ParseArgs(argv, jsonParse).Ok? && ParseParams(ParseArgs(argv, jsonParse).value.params).Some? ==>
              var params := ParseParams(ParseArgs(argv, jsonParse).value.params).value;
              match BuildFailure(params, testCases, c)
              case Some(failure) => printed == [failure] && completed
              case None => JudgedInOrder(params, fm, testCases, c, printed, completed)
  {
    var args := ParseArgs(argv, jsonParse);
    if args.Err? {
      return [], false;
    }
    var parsed := ParseParams(args.value.params);
    if parsed.None? {
      return [], false;
    }
    var params := parsed.value;
    var failure := BuildPhase(params, testCases, c);
    if failure.Some? {
      return [failure.value], true;
    }
    printed, completed := JudgeAll(params, fm, testCases, c);
  }

  /** The build step: the record to print when it fails, `None` when judging goes on. */
  method BuildPhase(params: Params, testCases: seq<FsHelpers.TestCase>, c: Collaborators)
    returns (failure: Option<PartialResult>)
    requires params.buildCommand.Some? ==> |params.buildCommand.value| >= 1
    ensures failure == BuildFailure(params, testCases, c)
  {
    if params.buildCommand.None? {
      return None;
    }
    var firstId := if |testCases| > 0 then testCases[0].id else "";
    var build := c.build(BuildRequest(params));
    if build.BuildThrew? {
      return Some(PartialResult(firstId, Some(BUILD_ERROR), None, None, None, Some(build.message),
                                None, None, None, None));
    }
    var s := build.result;
    var base := PartialResult(firstId, None, Some(s.status.GetOr(0)), None,
                              Some(Slice(s.stdout, MAX_STDOUT_LENGTH)), Some(Slice(s.stderr, MAX_STDOUT_LENGTH)),
                              Some(s.timeSeconds), Some(s.memoryBytes), None, None);
    if s.timeSeconds > BUILD_TIMEOUT_SECONDS as real {
      return Some(base.(decisionCode := Some(BUILD_TIME_LIMIT_EXCEEDED)));
    }
    if |s.stdout| > MAX_STDOUT_LENGTH || |s.stderr| > MAX_STDOUT_LENGTH {
      return Some(base.(decisionCode := Some(BUILD_OUTPUT_SIZE_LIMIT_EXCEEDED)));
    }
    if s.status != Some(0) {
      return Some(base.(decisionCode := Some(BUILD_ERROR)));
    }
    return None;
  }

  /** The judging loop: every test case once, in order, with no early stop other than a throw. */
  method JudgeAll(params: Params, fm: ProblemSchema.FrontMatter, testCases: seq<FsHelpers.TestCase>,
                  c: Collaborators)
    returns (printed: seq<PartialResult>, completed: bool)
    requires |params.command| >= 1
    ensures JudgedInOrder(params, fm, testCases, c, printed, completed)
  {
    printed := [];
    for i := 0 to |testCases|
      invariant |printed| == i
      invariant forall j :: 0 <= j < i ==> CaseOutcome(params, fm, testCases[j], c) == Some(printed[j])
    {
      var outcome := JudgeCase(params, fm, testCases[i], c);
      if outcome.None? {
        return printed, false;
      }
      printed := printed + [outcome.value];
    }
    completed := true;
  }

  /** Each printed record is one line: the result marker and the merged record's serialisation. */
  lemma PrintedLinesCarryRecords(printed: seq<PartialResult>, stringify: Json -> string, i: nat)
    requires i < |printed|
    ensures StartsWith(ResultLine(printed[i], stringify), TEST_CASE_RESULT_PREFIX)
    ensures ParseResult(ToJson(WithDefaults(printed[i]))) == Some(WithDefaults(printed[i]))
  {
    PrefixesAgree();
    MergedRecordIsValid(printed[i]);
  }
}

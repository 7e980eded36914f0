# exercode-problem-utils: stdio judging preset, in Dafny

This project models the judging core of `@exercode/problem-utils`.

The centre is the **stdio preset** (`stdioPreset`). It reads its command-line
arguments and parameters, optionally runs a build command, and then runs the
submitted program once per test case. Each run is classified into exactly one
decision code by a fixed priority chain:

1. runtime error
2. time limit
3. memory limit
4. output size
5. missing required output file
6. wrong answer
7. otherwise accepted

One `TEST_CASE_RESULT ` line is printed per case. Alongside the preset, the
model covers the helpers and tables it relies on:

- the decision-code table and its ordering;
- the language registry (argv builders, extensions, grammar data);
- result defaulting and the printed line protocol;
- the result and problem front-matter schemas, as validity predicates with parsers;
- the two test-case loaders;
- working-directory snapshot and cleanup;
- the static HTTP server's path rewrite and content-type lookup;
- command-line argument positions;
- the example summary judge.

External machinery appears as function-typed parameters. This covers:

- process spawning;
- `JSON.stringify` and `JSON.parse`;
- UTF-8 decoding and base64;
- the token comparator;
- the front-matter parser.

The file system is a listing of directory entries, or a map from paths to bytes. JSON
values are an abstract `Json` datatype. A JavaScript `Set` is a sequence of
distinct strings in insertion order, and `toSorted()` is an insertion sort
under the character order on strings.

Modules, one per source file plus shared helpers:

| file | module | models |
|---|---|---|
| wrappers.dfy | Wrappers | `Option` / `Result` |
| json_values.dfy | JsonValues | parsed JSON values |
| strings.dfy | Strings | `endsWith`, `includes`, `slice`, `trimEnd`, decimal digits |
| string_order.dfy | StringOrder | the default `Array.prototype.toSorted` order and the sort |
| path_names.dfy | PathNames | `path.parse` stem/extension, `path.join`, last write to a `Map` |
| decision_code.dfy | DecisionCodes | `DecisionCode` table |
| language.dfy | Languages | `languageIdToDefinition` |
| test_case_result_schema.dfy | TestCaseResultSchema | `testCaseResultSchema`, `fileSchema` |
| test_case_result_printer.dfy | TestCaseResultPrinter | `printTestCaseResult` |
| problem.dfy | ProblemSchema | `problemMarkdownFrontMatterSchema` |
| fs.dfy | FsHelpers | `readProblemMarkdownFrontMatter`, `readTestCases` (`.in`/`.out`) |
| read_test_cases.dfy | FixtureLoader | `readTestCases` (`.in`/`.out`/`.fin`/`.fout`, `_shared`) |
| clean_working_directory.dfy | WorkingDirectoryCleanup | `snapshotWorkingDirectory`, `cleanWorkingDirectory` |
| http_server.dfy | StaticServer | request handler, `getContentType` |
| parse_args.dfy | CommandLine | `parseArgs` |
| prompt_summary_judge.dfy | PromptSummaryJudge | the summary example's `test` |
| stdio_preset.dfy | StdioPreset | `stdioPreset`, `checkAndReadRequiredOutputFiles` |

Imperative source code is modelled as methods with loops, each proved against a
specification function:

- the per-case loop and classification chain of `stdioPreset`;
- the `checkAndReadRequiredOutputFiles` loop, which appends to the caller's array;
- the directory-entry loops of both loaders;
- the cleanup loop, which removes paths from the directory;
- the content-type search and the request handler.

The mutated objects are classes: `OutputFileBuffer` stands for the `outputFiles` array, and
`WorkingDirectory` for the directory tree.

## Model

| member | source | states |
|---|---|---|
| DecisionCodes.AcceptedIsStrictMaximum | src/types/decisionCode.ts:50-55 | every table code other than ACCEPTED is strictly below ACCEPTED (2000) |
| DecisionCodes.CodesAreDistinct | src/types/decisionCode.ts:1-56 | the table holds seventeen pairwise distinct values |
| DecisionCodes.CodesFallIntoBands | src/types/decisionCode.ts:2-55 | every code lies in 0–1, 1000–1007, 1100–1103, 1201–1202, or is ACCEPTED |
| DecisionCodes.MaxCode | src/types/decisionCode.ts:50-54 | the maximum of a non-empty list is an element of it and bounds every element from above |
| DecisionCodes.MinCode | src/types/decisionCode.ts:50-54 | the minimum of a non-empty list is an element of it and bounds every element from below |
| DecisionCodes.MaxWithAcceptedIsAccepted | src/types/decisionCode.ts:50-54 | the maximum of decision codes containing ACCEPTED is ACCEPTED (it is found first in descending order) |
| DecisionCodes.MinIsAcceptedIffAllAccepted | src/types/decisionCode.ts:50-54 | the minimum of decision codes is ACCEPTED iff every element is ACCEPTED |
| Languages.Lookup | src/types/language.ts:43-231 | a language found under a key has that key as its table name |
| Languages.LookupIdName | src/types/language.ts:43-231 | every language is found under its own table key |
| Languages.BuildCommand | src/types/language.ts:14 | every build command, when present, is a non-empty argv |
| Languages.Command | src/types/language.ts:17 | every run command is a non-empty argv |
| Languages.JavaCommands | src/types/language.ts:98-100 | Java builds with `javac file` and runs `java -Xmx1024m` on the path with only a trailing `.java` removed |
| Languages.ZigCommand | src/types/language.ts:175-176 | Zig runs `./` + the path with only a trailing `.zig` removed |
| Languages.MainExecutableLanguages | src/types/language.ts:44-171 | c, cpp, dart, haskell and rust build from the path with `-o main` and run `./main` whatever the path |
| Languages.InterpretedLanguages | src/types/language.ts:104-189 | javascript, typescript, python, php and text have no build command and pass the path as the last argv element |
| Languages.ExtensionCounts | src/types/language.ts:43-231 | javascript has `.js/.cjs/.mjs`, typescript `.ts/.cts/.mts`, every other language one extension |
| Languages.ExtensionsAreDisjoint | src/types/language.ts:43-231 | no file extension belongs to two languages |
| Languages.GrammarShapes | src/types/language.ts:20-23 | only `text` has no grammar, and every string matcher of a grammar has a `close` |
| Languages.PythonTripleQuotesFirst | src/types/language.ts:139-144 | Python lists `'''` and `"""` before `'` and `"` |
| Strings.StripSuffix | src/types/language.ts:100 | removing a trailing suffix: re-appending it gives the input; without the suffix the input is unchanged |
| Strings.Includes | example/prompt_summary/judge.ts:9 | `includes` is true iff the needle occurs at some index |
| Strings.Slice | src/presets/stdio.ts:102-103 | `slice(0, n)` is a prefix of length min(n, length) |
| Strings.TrimEnd | src/presets/stdio.ts:113 | `trimEnd` is a prefix whose removed tail is all whitespace and whose last character is not whitespace |
| Strings.NatToDecimal | src/presets/stdio.ts:113 | the decimal text of a natural is non-empty, has no leading zero and denotes that number |
| StringOrder.BelowIrreflexive | src/helpers/fs.ts:42 | no string sorts strictly before itself |
| StringOrder.BelowTransitive | src/helpers/fs.ts:42 | the sort order is transitive |
| StringOrder.BelowTotal | src/helpers/fs.ts:42 | any two distinct strings are ordered one way |
| StringOrder.BelowAsymmetric | src/helpers/fs.ts:42 | the sort order is asymmetric |
| StringOrder.InsertSorted | src/helpers/readTestCases.ts:41 | inserting a new string into a strictly sorted list keeps it strictly sorted and adds exactly that string |
| StringOrder.SortStringsCorrect | src/helpers/readTestCases.ts:41 | sorting distinct strings yields a strictly ascending permutation |
| StringOrder.SortedHasNoRepeats | src/helpers/fs.ts:42 | a strictly sorted list has no repeats |
| PathNames.ParseName | src/helpers/fs.ts:32 | `path.parse` splits a name into stem + extension; the extension is empty or one dot with no other dot, with a non-empty stem |
| PathNames.ParseNameWithExtension | src/helpers/readTestCases.ts:21 | a non-empty stem followed by a one-dot extension parses back to exactly that stem and extension |
| PathNames.LastEntry | src/helpers/readTestCases.ts:27-28 | the entry a `Map.set` keeps is an entry of the listing of the right kind and name |
| PathNames.LastEntryOfNamed | src/helpers/readTestCases.ts:24-28 | with unique names, the entry named `id + ext` is the one kept for `id` |
| TestCaseResultSchema.ParseFile | src/types/testCaseResult.ts:5-9 | a file record parses iff `path` and `data` are strings and `encoding` is absent or exactly `'base64'` |
| TestCaseResultSchema.ParseFiles | src/types/testCaseResult.ts:21 | a file array parses iff every element does, keeping the length |
| TestCaseResultSchema.ParseResult | src/types/testCaseResult.ts:11-22 | a result parses iff the object meets the ten-field schema |
| TestCaseResultSchema.FilesToJson | src/types/testCaseResult.ts:21 | serialising files keeps length and order, element by element |
| TestCaseResultSchema.FileRoundTrip | src/types/testCaseResult.ts:5-9 | every file record's JSON parses back to the same record |
| TestCaseResultSchema.FilesRoundTrip | src/types/testCaseResult.ts:21 | every file list's JSON parses back to the same list |
| TestCaseResultSchema.ToJsonFields | src/types/testCaseResult.ts:11-22 | the JSON form holds each of the ten fields with the record's value |
| TestCaseResultSchema.ResultRoundTrip | src/types/testCaseResult.ts:11-22 | every result's JSON is schema-valid and parses back to the same result |
| TestCaseResultSchema.MissingFieldRejected | src/types/testCaseResult.ts:11-22 | an object missing any of the ten fields is rejected |
| TestCaseResultSchema.AnyIntegerCodeAccepted | src/types/testCaseResult.ts:13 | any integer decision code is accepted, not only table codes |
| TestCaseResultSchema.FractionalCodeRejected | src/types/testCaseResult.ts:13-14 | a fractional `decisionCode` or `exitStatus` is rejected |
| TestCaseResultSchema.OtherEncodingRejected | src/types/testCaseResult.ts:8 | any `encoding` other than the string `'base64'` is rejected |
| TestCaseResultPrinter.PrefixesAgree | src/helpers/testCaseResult.ts:4 | the printer's private prefix equals the exported `'TEST_CASE_RESULT '`, trailing space included |
| TestCaseResultPrinter.OmittedFieldsTakeDefaults | src/helpers/testCaseResult.ts:6-17 | every field the caller omits takes its default (ACCEPTED, 0, empty strings, no files) |
| TestCaseResultPrinter.SuppliedFieldsWin | src/helpers/testCaseResult.ts:20 | every field the caller supplies, in any partial record, overrides its default; the id is always the caller's |
| TestCaseResultPrinter.FullRecordUnchanged | src/helpers/testCaseResult.ts:20 | a record with all fields supplied is printed unchanged |
| TestCaseResultPrinter.OnlyIdIsAccepted | src/helpers/testCaseResult.ts:8 | a call with only `testCaseId` prints the default record with that id, hence ACCEPTED |
| TestCaseResultPrinter.MergedRecordIsValid | src/helpers/testCaseResult.ts:17 | the default record and every merged record satisfy the result schema and round-trip |
| TestCaseResultPrinter.ResultLine | src/helpers/testCaseResult.ts:19-21 | the printed line is the prefix followed by the serialisation of the merged record |
| TestCaseResultPrinter.RenderLines | src/helpers/testCaseResult.ts:19-21 | one output line per console write |
| TestCaseResultPrinter.SerialiseAll | src/helpers/testCaseResult.ts:20 | serialising a run of records keeps length and order |
| TestCaseResultPrinter.ExtractRecoversSerialisations | src/helpers/testCaseResult.ts:20 | keeping prefixed lines and dropping the prefix recovers exactly the serialisations, in order, when no diagnostic line starts with the prefix |
| TestCaseResultPrinter.ParseAll | src/types/testCaseResult.ts:11-22 | parsing a run of lines keeps length and parses each one |
| TestCaseResultPrinter.StreamRoundTrip | src/helpers/testCaseResult.ts:19-21 | reading a printed stream back yields exactly the printed records, in order |
| TestCaseResultPrinter.ParseAllSerialised | src/types/testCaseResult.ts:11-22 | parsing serialised records yields each record back |
| ProblemSchema.Limit | src/types/problem.ts:4-5 | a limit is present iff its key is, and equals the JSON number |
| ProblemSchema.Strings | src/types/problem.ts:6-12 | string-array conversion keeps length and each element |
| ProblemSchema.StringList | src/types/problem.ts:6-12 | a list is present iff its key is, and holds only non-empty strings |
| ProblemSchema.ParseFrontMatter | src/types/problem.ts:3-13 | front matter parses iff it meets the schema, and every list of a parsed front matter holds only non-empty strings |
| ProblemSchema.ParsedFieldsFollowKeys | src/types/problem.ts:4-12 | each of the nine fields of a parsed front matter is present iff its key is, and then equals the JSON number, boolean or array of strings under that key |
| ProblemSchema.EmptyObjectIsValid | src/types/problem.ts:3-13 | the empty record is valid and sets no field |
| ProblemSchema.BadTimeLimitRejected | src/types/problem.ts:4 | a negative or fractional `timeLimitMs` is rejected |
| ProblemSchema.EmptyPathRejected | src/types/problem.ts:11 | a `requiredOutputFilePaths` list with an empty string is rejected |
| ProblemSchema.NonBooleanManualScoringRejected | src/types/problem.ts:9 | a non-boolean `isManualScoringRequired` is rejected |
| FsHelpers.FindProblemMarkdown | src/helpers/fs.ts:10-19 | finds the first regular file in listing order ending in `.problem.md`, or none iff there is none |
| FsHelpers.ReadProblemMarkdownFrontMatter | src/helpers/fs.ts:9-22 | fails with "problem markdown not found" iff no such file; otherwise the schema-checked attributes of the first one |
| FsHelpers.IdsAfterCorrect | src/helpers/fs.ts:29-37 | the id set built by the loop is duplicate-free and holds exactly the stems of regular `.in`/`.out` files |
| FsHelpers.TextsAfterIsTextOf | src/helpers/fs.ts:38-39 | the map built by the loop gives, for every id, the text of `<id>.in` / `<id>.out` or nothing |
| FsHelpers.CollectCaseFiles | src/helpers/fs.ts:25-40 | the loop collects distinct ids of exactly the case files and each id's stdin/stdout text |
| FsHelpers.ReadTestCases | src/helpers/fs.ts:24-43 | ids are exactly the `.in`/`.out` stems, strictly ascending; each case carries its own stdin/stdout or none |
| FsHelpers.SortedIds | src/helpers/fs.ts:42 | sorting the collected ids gives a strictly ascending list of exactly the case ids |
| FsHelpers.InputIsNamedFile | src/helpers/fs.ts:38 | with unique names, a case's stdin is the contents of the file `<id>.in` |
| FsHelpers.SharedIdIsKept | src/helpers/fs.ts:42 | this loader keeps `_shared` as an ordinary id |
| PathNames.Ids | src/helpers/readTestCases.ts:42-48 | the ids of a loader's case list keep its length and order, element by element |
| FixtureLoader.Without | src/helpers/readTestCases.ts:40 | filtering out `_shared` keeps exactly the other ids and keeps them distinct |
| FixtureLoader.IdsAfterCorrect | src/helpers/readTestCases.ts:19-37 | the id set built by the loop is duplicate-free and holds exactly the stems of `.in`/`.out` files and `.fin`/`.fout` directories |
| FixtureLoader.MapAfterIsLastEntry | src/helpers/readTestCases.ts:27-35 | each map built by the loop gives an id the payload of the last matching entry, or nothing |
| FixtureLoader.CollectFixtureEntries | src/helpers/readTestCases.ts:13-37 | the loop collects the distinct contributing ids and, per id, input, output and the two directory paths |
| FixtureLoader.SortedFixtures | src/helpers/readTestCases.ts:39-48 | the case list is strictly ascending, holds every contributing id except `_shared`, and each case is built from that id's entries |
| FixtureLoader.SortedKeptIds | src/helpers/readTestCases.ts:39-41 | filtering then sorting yields strictly ascending ids, exactly the contributing ids other than `_shared` |
| FixtureLoader.ReadFixtures | src/helpers/readTestCases.ts:6-55 | a missing directory gives an empty list without `shared`; otherwise sorted cases without `_shared`, and `shared` set iff `_shared` was seen, holding its `.fin` path or nothing |
| FixtureLoader.AbsentKindIsUndefined | src/helpers/readTestCases.ts:44 | a case without an `.in` file has no input |
| WorkingDirectoryCleanup.WorkingDirectory.Snapshot | src/helpers/cleanWorkingDirectory.ts:5-8 | the snapshot is exactly the current recursive listing |
| WorkingDirectoryCleanup.WorkingDirectory.Remove | src/helpers/cleanWorkingDirectory.ts:13 | a forced recursive remove deletes the path and everything below it, and is harmless when the path is gone |
| WorkingDirectoryCleanup.WorkingDirectory.Clean | src/helpers/cleanWorkingDirectory.ts:10-15 | afterwards no listed path outside the snapshot remains; the tree is the listing minus the subtrees of removed paths; with a parent-closed snapshot every snapshot path survives |
| WorkingDirectoryCleanup.SnapshotPathsSurvive | src/helpers/cleanWorkingDirectory.ts:11-14 | paths outside the snapshot are gone, and snapshot paths survive when the snapshot is parent-closed |
| WorkingDirectoryCleanup.CleanAfterSnapshotKeepsAll | src/helpers/cleanWorkingDirectory.ts:5-15 | cleaning against a fresh snapshot of the same listing removes nothing |
| StaticServer.ContentTypeFrom | src/helpers/startHttpServer.ts:75-80 | the lookup returns `text/plain` or one of the table's content types |
| StaticServer.GetContentType | src/helpers/startHttpServer.ts:75-80 | the early-return loop computes the first-match lookup |
| StaticServer.NestedSuffixes | src/helpers/startHttpServer.ts:77 | two suffixes of one path are suffixes of each other |
| StaticServer.SuffixesExclusive | src/helpers/startHttpServer.ts:65-73 | no path ends with two different table suffixes, so at most one entry matches |
| StaticServer.ContentTypeFromMatch | src/helpers/startHttpServer.ts:76-77 | the first matching suffix's content type is returned |
| StaticServer.ContentTypeFromNoMatch | src/helpers/startHttpServer.ts:79 | with no matching suffix the result is `text/plain` |
| StaticServer.ContentTypeOfSuffix | src/helpers/startHttpServer.ts:65-80 | a path ending with a table suffix gets that entry's content type |
| StaticServer.ContentTypeOfOther | src/helpers/startHttpServer.ts:79 | any other path gets `text/plain` |
| StaticServer.RewritePathname | src/helpers/startHttpServer.ts:18-22 | a pathname ending in `/` (including `/`) resolves to its `index.html`; any other is unchanged |
| StaticServer.DirectoryRequestsServeIndexHtml | src/helpers/startHttpServer.ts:22-33 | a directory request is served as `text/html` from a path not ending in `/` |
| StaticServer.RewriteIdempotent | src/helpers/startHttpServer.ts:18-22 | rewriting twice is rewriting once |
| StaticServer.Handle | src/helpers/startHttpServer.ts:15-43 | 404 for an absent file, 500 when the read throws, otherwise 200 with the file's bytes, CORS `*`, `no-cache` in both `Cache-Control` and `Pragma`, and the rewritten path's content type |
| CommandLine.ParseArgs | src/helpers/parseArgs.ts:4-15 | fails with "cwd argument required" iff `argv[2]` is missing or empty, with "bad params argument" iff `argv[3]` is non-empty and does not parse; otherwise `cwd = argv[2]` and `params` is `{}` or the parsed `argv[3]` |
| CommandLine.TrailingArgumentsIgnored | src/helpers/parseArgs.ts:5-8 | arguments after position 3 do not affect the result |
| CommandLine.ParamsRoundTrip | src/helpers/parseArgs.ts:11 | a serialised params argument is read back as the same value |
| PromptSummaryJudge.SummaryVerdict | example/prompt_summary/judge.ts:5-13 | ACCEPTED iff the output is strictly shorter than the input and contains the expected output, otherwise WRONG_ANSWER |
| PromptSummaryJudge.MissingInputNeverAccepted | example/prompt_summary/judge.ts:8 | a case without input is never accepted |
| PromptSummaryJudge.MissingExpectedJudgesLengthOnly | example/prompt_summary/judge.ts:9 | without an expected output only the length test matters |
| PromptSummaryJudge.LongExpectedNeverAccepted | example/prompt_summary/judge.ts:8-9 | an expected output at least as long as the input can never be contained in a shorter output |
| StdioPreset.ArgvOf | src/presets/stdio.ts:22-23 | a JSON string array becomes the same strings in order |
| StdioPreset.ParseParams | src/presets/stdio.ts:20-25 | params parse iff they meet the schema; `command` and a present `buildCommand` are non-empty |
| StdioPreset.BuildDecision | src/presets/stdio.ts:58-71 | build over 10 s is BUILD_TIME_LIMIT_EXCEEDED, else output over 50000 is BUILD_OUTPUT_SIZE_LIMIT_EXCEEDED, else a status other than 0 is BUILD_ERROR, else the build passes |
| StdioPreset.NoBuildCommandNoBuild | src/presets/stdio.ts:40 | without `buildCommand` the build phase never fails |
| StdioPreset.BuildFailureShape | src/presets/stdio.ts:49-81 | a build failure reports the first case's id (or `''`), a build code and truncated stdout; a thrown build gives BUILD_ERROR with the message as stderr |
| StdioPreset.Capture | src/presets/stdio.ts:152-166 | a file is recorded as base64 iff its UTF-8 decoding contains U+FFFD, else as the decoded text |
| StdioPreset.Captures | src/presets/stdio.ts:146-167 | at most one record per declared path |
| StdioPreset.AllPresentCapturesAll | src/presets/stdio.ts:146-167 | when every path exists, one record per path in declared order |
| StdioPreset.CapturedFilesExist | src/presets/stdio.ts:147-166 | every record is for a declared, existing path and holds that file's capture |
| StdioPreset.PresentIndices | src/presets/stdio.ts:146-150 | the positions of the existing declared files: ascending, each one existing, and every existing one included |
| StdioPreset.CapturesFollowPresentIndices | src/presets/stdio.ts:146-167 | the records are exactly the captures of the existing files, one per existing path, in declared order |
| StdioPreset.MissingFileIsSkipped | src/presets/stdio.ts:147-150 | a record per path iff every path exists; a missing path is skipped and every existing file, also after a missing one, is recorded |
| StdioPreset.OutputFileBuffer.CheckAndReadRequiredOutputFiles | src/presets/stdio.ts:140-169 | returns true iff every declared path exists, and appends the captures of the existing ones, in order, to the existing entries |
| StdioPreset.TimeoutMs | src/presets/stdio.ts:85-88 | the time limit is `timeLimitMs` (0 included) or 2000 ms |
| StdioPreset.TrimZeros | src/presets/stdio.ts:113 | trailing zeros are dropped and nothing else |
| StdioPreset.ThreeDigits | src/presets/stdio.ts:113 | three decimal digits denoting the milliseconds |
| StdioPreset.ThreeDigitsOfNonZero | src/presets/stdio.ts:113 | non-zero milliseconds have a non-zero digit |
| StdioPreset.FormatSeconds | src/presets/stdio.ts:113 | whole seconds print without a point; otherwise 1 to 3 fraction digits with no trailing zero |
| StdioPreset.FormatSecondsExamples | src/presets/stdio.ts:16 | the 2000 ms default prints as `2`, 1500 ms as `1.5` |
| StdioPreset.DecisionPriority | src/presets/stdio.ts:109-132 | the run's code is one of seven, each characterised exactly by the earlier checks passing and its own failing; a manual-scoring timeout stays ACCEPTED |
| StdioPreset.AbnormalExitIsRuntimeError | src/presets/stdio.ts:100-110 | a missing or non-zero status is RUNTIME_ERROR, reported as the status or 0, with the measured time and no files |
| StdioPreset.TimedOutRun | src/presets/stdio.ts:111-117 | a timeout reports limit + 0.001 s; under manual scoring the code stays ACCEPTED and stderr is the notice plus trimmed stderr, otherwise TIME_LIMIT_EXCEEDED |
| StdioPreset.NoMemoryLimitNeverExceeded | src/presets/stdio.ts:118-119 | without `memoryLimitByte` no run is MEMORY_LIMIT_EXCEEDED |
| StdioPreset.ReportedOutputIsTruncated | src/presets/stdio.ts:102-121 | reported stdout is a prefix of at most 50000 characters, while the size check uses the full length |
| StdioPreset.CleanRunVerdict | src/presets/stdio.ts:122-132 | past the earlier checks: MISSING_REQUIRED_OUTPUT_FILE_ERROR iff a file is missing, ACCEPTED iff all exist and the tokens match, and the existing files are recorded |
| StdioPreset.JudgeCase | src/presets/stdio.ts:85-134 | one loop iteration computes the specified per-case outcome |
| StdioPreset.ClassifyRun | src/presets/stdio.ts:97-132 | the mutable record and its `else if` chain compute the specified per-case result |
| StdioPreset.CheckOutputs | src/presets/stdio.ts:122-132 | the last two checks give MISSING_REQUIRED_OUTPUT_FILE_ERROR, WRONG_ANSWER or ACCEPTED, with the recorded files |
| StdioPreset.BuildPhase | src/presets/stdio.ts:40-82 | the build phase yields exactly the specified failure record, or none |
| StdioPreset.JudgeAll | src/presets/stdio.ts:84-135 | one record per test case, in input order and with no early stop, unless the run spawn throws |
| StdioPreset.RunStdioPreset | src/presets/stdio.ts:33-136 | bad arguments print nothing; a build failure prints exactly one record; otherwise every case is judged in order |
| StdioPreset.PrintedLinesCarryRecords | src/presets/stdio.ts:134 | every printed line starts with the result prefix and carries a schema-valid record |

## Left out

- Diagnostic logging is not modelled. This is the build phase's `console.error('build error', error)`. It writes to stderr and does not change the printed result lines.
- Process spawning (`spawnSyncWithTimeout`) is not part of this model. This covers timeout enforcement, process-tree killing and memory measurement. A spawn is a collaborator function from the request to a result record, so the same request always gives the same result.
- A throw from the build spawn is the `BuildThrew` outcome. A throw from the run spawn is uncaught in the source; the model ends the loop there with `completed = false`.
- The token comparator (`compareStdioAsSpaceSeparatedTokens`) and `deleteCommentsInSourceCode` are not part of this model. The comparator is a collaborator predicate.
- The Java `prebuild` (a class-name rename) and the C# `prebuild` (a project-file write) are left out. They are file I/O and depend on the comment stripper.
- Grammar patterns are regular expressions in the source. Here they are their source text, without regex semantics.
- `JSON.stringify`, `JSON.parse`, UTF-8 decoding, base64 and the front-matter parser are collaborator functions. zod is modelled by the validity predicates and parsers.
- The LLM preset (`src/presets/llm.ts`), the web-page example, the end-to-end test and `copyTestCaseFileInput` are left out. They involve network calls, a browser, process spawning and a thin `fs.cp` wrapper.
- Server listen/close, the server URL, `URL` parsing and `path.join` normalisation are left out. The handler takes the request's pathname from a collaborator, and joins with plain concatenation.
- Times are Dafny `real`s. No claim is made about floating-point rounding of `timeLimitMs / 1000` or `+ 1e-3`.
- StdioPreset.FormatSeconds: gives the exact decimal text of `ms / 1000`. JavaScript's double division and shortest-round-trip printing agree with it while `ms / 1000` has at most 15 significant digits and stays below 10^21; larger limits are not claimed.
- String lengths count Dafny characters. JavaScript counts UTF-16 code units, and these differ for characters outside the Basic Multilingual Plane; this affects the 50000 limit, `slice` and the summary judge. The sort order is code-point order, which agrees with code-unit order inside that plane.
- The preset imports `parseArgs` from `src/helpers/args.ts`, which is not part of this model. The model takes it to be the `parseArgs` of `src/helpers/parseArgs.ts`, modelled by `CommandLine.ParseArgs`.
- The readers' results are passed to the preset as values. These are the front matter and the test cases read from `test_cases`.
- The "problem markdown not found" and schema failures of the front-matter read make the preset throw. The model of the preset starts after that read.
- `existsSync` followed by `readFileSync` on a directory throws in the source. In the model, the file map holds only readable files.
- An explicitly `undefined` field in the printer's argument overrides the default in the spread. Here an omitted field is `None` and takes the default.
- WorkingDirectoryCleanup.WorkingDirectory.Clean: files changed or deleted after the snapshot are not restored, as in the source. The snapshot keeps paths only.

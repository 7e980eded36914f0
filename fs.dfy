/**
 * The stdio preset's loaders: the problem front matter is read from the first
 * `.problem.md` file of the problem directory, and test cases are the
 * `<id>.in` / `<id>.out` files of the test-case directory, by sorted id.
 * Directory listings are given as sequences of entries in listing order.
 */
module FsHelpers {
  import opened Wrappers
  import opened JsonValues
  import opened Strings
  import opened StringOrder
  import opened PathNames
  import opened ProblemSchema

  const PROBLEM_MARKDOWN_SUFFIX := ".problem.md"

  predicate IsProblemMarkdown(e: DirEntry) {
    e.kind == RegularFile && EndsWith(e.name, PROBLEM_MARKDOWN_SUFFIX)
  }

  /** Entry `k` is the first problem markdown of the listing. */
  predicate FirstProblemMarkdownAt(entries: seq<DirEntry>, k: int) {
    0 <= k < |entries| && IsProblemMarkdown(entries[k])
    && forall j :: 0 <= j < k ==> !IsProblemMarkdown(entries[j])
  }

  /** The search loop of `readProblemMarkdownFrontMatter`, returning at the first match. */
  method FindProblemMarkdown(entries: seq<DirEntry>) returns (index: Option<nat>)
    ensures index.Some? ==> FirstProblemMarkdownAt(entries, index.value)
    ensures index.None? <==> forall j :: 0 <= j < |entries| ==> !IsProblemMarkdown(entries[j])
  {
    for i := 0 to |entries|
      invariant forall j :: 0 <= j < i ==> !IsProblemMarkdown(entries[j])
    {
      if entries[i].kind != RegularFile {
        continue;
      }
      if !EndsWith(entries[i].name, PROBLEM_MARKDOWN_SUFFIX) {
        continue;
      }
      return Some(i);
    }
    return None;
  }

  datatype LoadError = ProblemMarkdownNotFound(dir: string) | InvalidFrontMatter

  /**
   * `readProblemMarkdownFrontMatter`: parse the front matter of the first
   * problem markdown and validate it; the front-matter parser is a parameter.
   */
  method ReadProblemMarkdownFrontMatter(dir: string, entries: seq<DirEntry>, attributesOf: string -> Json)
    returns (r: Result<FrontMatter, LoadError>)
    ensures r == Err(ProblemMarkdownNotFound(dir)) <==> forall j :: 0 <= j < |entries| ==> !IsProblemMarkdown(entries[j])
    ensures r.Ok? ==> exists k :: FirstProblemMarkdownAt(entries, k) && ParseFrontMatter(attributesOf(entries[k].text)) == Some(r.value)
    ensures r == Err(InvalidFrontMatter) ==> exists k :: FirstProblemMarkdownAt(entries, k) && ParseFrontMatter(attributesOf(entries[k].text)).None?
  {
    var index := FindProblemMarkdown(entries);
    if index.None? {
      return Err(ProblemMarkdownNotFound(dir));
    }
    var parsed := ParseFrontMatter(attributesOf(entries[index.value].text));
    if parsed.None? {
      return Err(InvalidFrontMatter);
    }
    return Ok(parsed.value);
  }

  /** A test case: its id and the contents of `<id>.in` and `<id>.out`, when present. */
  datatype TestCase = TestCase(id: string, stdin: Option<string>, stdout: Option<string>)

  const IN_EXT := ".in"
  const OUT_EXT := ".out"

  /** Only regular files with extension `.in` or `.out` contribute. */
  predicate IsCaseFile(e: DirEntry) {
    e.kind == RegularFile && (ParseName(e.name).ext == IN_EXT || ParseName(e.name).ext == OUT_EXT)
  }

  /** The ids the entries contribute. */
  function CaseIds(entries: seq<DirEntry>): set<string> {
    if entries == [] then {}
    else
      var last := entries[|entries| - 1];
      CaseIds(entries[..|entries| - 1]) + if IsCaseFile(last) then {ParseName(last.name).stem} else {}
  }

  function CaseId(c: TestCase): string {
    c.id
  }

  /** The id set, in insertion order, after the loop has seen `entries`. */
  function IdsAfter(entries: seq<DirEntry>): seq<string> {
    if entries == [] then []
    else
      var ids := IdsAfter(entries[..|entries| - 1]);
      var last := entries[|entries| - 1];
      if IsCaseFile(last) && ParseName(last.name).stem !in ids then ids + [ParseName(last.name).stem] else ids
  }

  /** The id-to-contents map for `ext` after the loop has seen `entries`. */
  function TextsAfter(entries: seq<DirEntry>, ext: string): map<string, string> {
    if entries == [] then map[]
    else
      var m := TextsAfter(entries[..|entries| - 1], ext);
      var last := entries[|entries| - 1];
      if last.kind == RegularFile && ParseName(last.name).ext == ext then m[ParseName(last.name).stem := last.text]
      else m
  }

  lemma IdsAfterStep(entries: seq<DirEntry>, i: nat)
    requires i < |entries|
    ensures var parsed := ParseName(entries[i].name);
            IdsAfter(entries[..i + 1])
            == if IsCaseFile(entries[i]) && parsed.stem !in IdsAfter(entries[..i])
               then IdsAfter(entries[..i]) + [parsed.stem] else IdsAfter(entries[..i])
  {
    assert entries[..i + 1][..i] == entries[..i];
  }

  lemma TextsAfterStep(entries: seq<DirEntry>, i: nat, ext: string)
    requires i < |entries|
    ensures var parsed := ParseName(entries[i].name);
            TextsAfter(entries[..i + 1], ext)
            == if entries[i].kind == RegularFile && parsed.ext == ext
               then TextsAfter(entries[..i], ext)[parsed.stem := entries[i].text]
               else TextsAfter(entries[..i], ext)
  {
    assert entries[..i + 1][..i] == entries[..i];
  }

  /** The id set holds each contributed id once. */
  lemma {:induction false} IdsAfterCorrect(entries: seq<DirEntry>)
    ensures Distinct(IdsAfter(entries))
    ensures forall id :: id in IdsAfter(entries) <==> id in CaseIds(entries)
  {
    if entries != [] {
      IdsAfterCorrect(entries[..|entries| - 1]);
    }
  }

  /** Each map holds, per id, the contents of the last file named `<id><ext>`. */
  lemma {:induction false} TextsAfterIsTextOf(entries: seq<DirEntry>, ext: string, id: string)
    ensures Get(TextsAfter(entries, ext), id) == TextOf(entries, id, ext)
  {
    if entries != [] {
      TextsAfterIsTextOf(entries[..|entries| - 1], ext, id);
      var last := entries[|entries| - 1];
      var parsed := ParseName(last.name);
      if last.kind == RegularFile && parsed.ext == ext && parsed.stem != id {
        assert parsed != ParsedName(id, ext);
      }
    }
  }

  /** The `for` loop over the listing: fills the id set (in insertion order) and the two maps. */
  method CollectCaseFiles(entries: seq<DirEntry>)
    returns (ids: seq<string>, stdinOf: map<string, string>, stdoutOf: map<string, string>)
    ensures Distinct(ids)
    ensures forall id :: id in ids <==> id in CaseIds(entries)
    ensures forall id :: Get(stdinOf, id) == TextOf(entries, id, IN_EXT)
    ensures forall id :: Get(stdoutOf, id) == TextOf(entries, id, OUT_EXT)
  {
    ids, stdinOf, stdoutOf := [], map[], map[];
    for i := 0 to |entries|
      invariant ids == IdsAfter(entries[..i])
      invariant stdinOf == TextsAfter(entries[..i], IN_EXT)
      invariant stdoutOf == TextsAfter(entries[..i], OUT_EXT)
    {
      IdsAfterStep(entries, i);
      TextsAfterStep(entries, i, IN_EXT);
      TextsAfterStep(entries, i, OUT_EXT);
      var e := entries[i];
      if e.kind != RegularFile {
        continue;
      }
      var parsed := ParseName(e.name);
      if parsed.ext != IN_EXT && parsed.ext != OUT_EXT {
        continue;
      }
      if parsed.stem !in ids {
        ids := ids + [parsed.stem];
      }
      if parsed.ext == IN_EXT {
        stdinOf := stdinOf[parsed.stem := e.text];
      }
      if parsed.ext == OUT_EXT {
        stdoutOf := stdoutOf[parsed.stem := e.text];
      }
    }
    assert entries[..|entries|] == entries;
    IdsAfterCorrect(entries);
    forall id
      ensures Get(stdinOf, id) == TextOf(entries, id, IN_EXT)
      ensures Get(stdoutOf, id) == TextOf(entries, id, OUT_EXT)
    {
      TextsAfterIsTextOf(entries, IN_EXT, id);
      TextsAfterIsTextOf(entries, OUT_EXT, id);
    }
  }

  /**
   * `readTestCases` of the stdio preset: one case per id, ids unique and in
   * ascending order, `_shared` included like any other id.
   */
  method ReadTestCases(entries: seq<DirEntry>) returns (cases: seq<TestCase>)
    ensures StrictlySorted(Ids(cases, CaseId))
    ensures forall id :: id in Ids(cases, CaseId) <==> id in CaseIds(entries)
    ensures forall k :: 0 <= k < |cases| ==>
              && cases[k].stdin == TextOf(entries, cases[k].id, IN_EXT)
              && cases[k].stdout == TextOf(entries, cases[k].id, OUT_EXT)
  {
    var ids, stdinOf, stdoutOf := CollectCaseFiles(entries);
    var sorted := SortStrings(ids);
    SortedIds(entries, ids, sorted);
    cases := seq(|sorted|, k requires 0 <= k < |sorted| => TestCase(sorted[k], Get(stdinOf, sorted[k]), Get(stdoutOf, sorted[k])));
    assert Ids(cases, CaseId) == sorted;
  }

  /** Sorting the collected ids gives every contributed id once, in ascending order. */
  lemma SortedIds(entries: seq<DirEntry>, ids: seq<string>, sorted: seq<string>)
    requires Distinct(ids)
    requires forall id :: id in ids <==> id in CaseIds(entries)
    requires sorted == SortStrings(ids)
    ensures StrictlySorted(sorted)
    ensures forall id :: id in sorted <==> id in CaseIds(entries)
  {
    SortStringsCorrect(ids);
    forall id
      ensures id in sorted <==> id in ids
    {
      assert id in sorted <==> id in multiset(sorted);
      assert id in ids <==> id in multiset(ids);
    }
  }

  /** In a listing with distinct names, a case's input is the contents of the file `<id>.in`. */
  lemma InputIsNamedFile(entries: seq<DirEntry>, id: string, k: nat)
    requires forall i, j :: 0 <= i < j < |entries| ==> entries[i].name != entries[j].name
    requires k < |entries| && entries[k].kind == RegularFile && entries[k].name == id + IN_EXT && id != []
    ensures TextOf(entries, id, IN_EXT) == Some(entries[k].text)
  {
    LastEntryOfNamed(entries, RegularFile, id, IN_EXT, k);
  }

  /** Unlike the other fixture loader, this one keeps the reserved `_shared` id. */
  lemma {:induction false} SharedIdIsKept(entries: seq<DirEntry>, k: nat)
    requires k < |entries| && entries[k] == DirEntry("_shared.in", RegularFile, entries[k].text)
    ensures "_shared" in CaseIds(entries)
  {
    ParseNameWithExtension("_shared", IN_EXT);
    assert "_shared" + IN_EXT == "_shared.in";
    var n := |entries|;
    if k < n - 1 {
      SharedIdIsKept(entries[..n - 1], k);
    }
  }
}

/**
 * The fixture loader of the LLM preset: test cases from `<id>.in` / `<id>.out`
 * files and `<id>.fin` / `<id>.fout` directories, sorted by id, with the
 * reserved id `_shared` taken out of the list and reported separately.
 */
module FixtureLoader {
  import opened Wrappers
  import opened StringOrder
  import opened PathNames

  const SHARED_TEST_CASE_NAME := "_shared"

  datatype Fixture = Fixture(
    id: string,
    input: Option<string>,
    output: Option<string>,
    fileInputPath: Option<string>,
    fileOutputPath: Option<string>)

  datatype SharedFixture = SharedFixture(fileInputPath: Option<string>)

  /** The returned array and its optional `shared` property. */
  datatype Fixtures = Fixtures(cases: seq<Fixture>, shared: Option<SharedFixture>)

  /** Files with `.in`/`.out` and directories with `.fin`/`.fout` contribute an id. */
  predicate Contributes(e: DirEntry) {
    var ext := ParseName(e.name).ext;
    || (e.kind == RegularFile && (ext == ".in" || ext == ".out"))
    || (e.kind == Directory && (ext == ".fin" || ext == ".fout"))
  }

  function FixtureIds(entries: seq<DirEntry>): set<string> {
    if entries == [] then {}
    else
      var last := entries[|entries| - 1];
      FixtureIds(entries[..|entries| - 1]) + if Contributes(last) then {ParseName(last.name).stem} else {}
  }

  /** The joined path of the directory `<id><ext>`. */
  function DirPathOf(directory: string, entries: seq<DirEntry>, id: string, ext: string): Option<string> {
    match LastEntry(entries, Directory, id, ext)
    case Some(e) => Some(JoinPath(directory, e.name))
    case None => None
  }

  function FixtureId(c: Fixture): string {
    c.id
  }

  /** `ids.filter((id) => id !== x)`. */
  function Without(ids: seq<string>, x: string): (r: seq<string>)
    ensures forall id :: id in r <==> id in ids && id != x
    ensures Distinct(ids) ==> Distinct(r)
  {
    if ids == [] then []
    else
      var rest := Without(ids[1..], x);
      assert forall id :: id in ids[1..] ==> id in ids;
      if ids[0] == x then rest
      else
        assert ids[0] !in ids[1..] || !Distinct(ids);
        [ids[0]] + rest
  }

  /** The value the loop stores for an entry: a file's text, a directory's joined path. */
  function Payload(directory: string, e: DirEntry): string {
    if e.kind == RegularFile then e.text else JoinPath(directory, e.name)
  }

  /** The id set, in insertion order, after the loop has seen `entries`. */
  function IdsAfter(entries: seq<DirEntry>): seq<string> {
    if entries == [] then []
    else
      var ids := IdsAfter(entries[..|entries| - 1]);
      var last := entries[|entries| - 1];
      if Contributes(last) && ParseName(last.name).stem !in ids then ids + [ParseName(last.name).stem] else ids
  }

  /** One of the four maps after the loop has seen `entries`. */
  function MapAfter(directory: string, entries: seq<DirEntry>, kind: EntryKind, ext: string): map<string, string> {
    if entries == [] then map[]
    else
      var m := MapAfter(directory, entries[..|entries| - 1], kind, ext);
      var last := entries[|entries| - 1];
      if last.kind == kind && ParseName(last.name).ext == ext then m[ParseName(last.name).stem := Payload(directory, last)]
      else m
  }

  /** What one more loop iteration does to the id set. */
  lemma IdsAfterStep(entries: seq<DirEntry>, i: nat)
    requires i < |entries|
    ensures var parsed := ParseName(entries[i].name);
            IdsAfter(entries[..i + 1])
            == if Contributes(entries[i]) && parsed.stem !in IdsAfter(entries[..i])
               then IdsAfter(entries[..i]) + [parsed.stem] else IdsAfter(entries[..i])
  {
    assert entries[..i + 1][..i] == entries[..i];
  }

  /** What one more loop iteration does to one of the maps. */
  lemma MapAfterStep(directory: string, entries: seq<DirEntry>, i: nat, kind: EntryKind, ext: string)
    requires i < |entries|
    ensures var parsed := ParseName(entries[i].name);
            MapAfter(directory, entries[..i + 1], kind, ext)
            == if entries[i].kind == kind && parsed.ext == ext
               then MapAfter(directory, entries[..i], kind, ext)[parsed.stem := Payload(directory, entries[i])]
               else MapAfter(directory, entries[..i], kind, ext)
  {
    assert entries[..i + 1][..i] == entries[..i];
  }

  /** The id set holds each contributed id once. */
  lemma {:induction false} IdsAfterCorrect(entries: seq<DirEntry>)
    ensures Distinct(IdsAfter(entries))
    ensures forall id :: id in IdsAfter(entries) <==> id in FixtureIds(entries)
  {
    if entries != [] {
      IdsAfterCorrect(entries[..|entries| - 1]);
    }
  }

  /** Each map holds, per id, the payload of the last entry of its kind named `<id><ext>`. */
  lemma {:induction false} MapAfterIsLastEntry(directory: string, entries: seq<DirEntry>, kind: EntryKind, ext: string, id: string)
    ensures Get(MapAfter(directory, entries, kind, ext), id)
            == match LastEntry(entries, kind, id, ext)
               case Some(e) => Some(Payload(directory, e))
               case None => None
  {
    if entries != [] {
      MapAfterIsLastEntry(directory, entries[..|entries| - 1], kind, ext, id);
      var last := entries[|entries| - 1];
      var parsed := ParseName(last.name);
      if last.kind == kind && parsed.ext == ext && parsed.stem != id {
        assert parsed != ParsedName(id, ext);
      }
    }
  }

  /** The listing loop: the id set in insertion order and the four maps. */
  method CollectFixtureEntries(directory: string, entries: seq<DirEntry>)
    returns (ids: seq<string>, inputs: map<string, string>, outputs: map<string, string>,
             inputDirs: map<string, string>, outputDirs: map<string, string>)
    ensures Distinct(ids)
    ensures forall id :: id in ids <==> id in FixtureIds(entries)
    ensures forall id :: Get(inputs, id) == TextOf(entries, id, ".in")
    ensures forall id :: Get(outputs, id) == TextOf(entries, id, ".out")
    ensures forall id :: Get(inputDirs, id) == DirPathOf(directory, entries, id, ".fin")
    ensures forall id :: Get(outputDirs, id) == DirPathOf(directory, entries, id, ".fout")
  {
    ids, inputs, outputs, inputDirs, outputDirs := [], map[], map[], map[], map[];
    for i := 0 to |entries|
      invariant ids == IdsAfter(entries[..i])
      invariant inputs == MapAfter(directory, entries[..i], RegularFile, ".in")
      invariant outputs == MapAfter(directory, entries[..i], RegularFile, ".out")
      invariant inputDirs == MapAfter(directory, entries[..i], Directory, ".fin")
      invariant outputDirs == MapAfter(directory, entries[..i], Directory, ".fout")
    {
      IdsAfterStep(entries, i);
      MapAfterStep(directory, entries, i, RegularFile, ".in");
      MapAfterStep(directory, entries, i, RegularFile, ".out");
      MapAfterStep(directory, entries, i, Directory, ".fin");
      MapAfterStep(directory, entries, i, Directory, ".fout");
      var e := entries[i];
      var parsed := ParseName(e.name);
      if e.kind == RegularFile {
        if parsed.ext != ".in" && parsed.ext != ".out" {
          continue;
        }
        if parsed.stem !in ids {
          ids := ids + [parsed.stem];
        }
        if parsed.ext == ".in" {
          inputs := inputs[parsed.stem := e.text];
        }
        if parsed.ext == ".out" {
          outputs := outputs[parsed.stem := e.text];
        }
      } else if e.kind == Directory {
        if parsed.ext != ".fin" && parsed.ext != ".fout" {
          continue;
        }
        if parsed.stem !in ids {
          ids := ids + [parsed.stem];
        }
        if parsed.ext == ".fin" {
          inputDirs := inputDirs[parsed.stem := JoinPath(directory, e.name)];
        }
        if parsed.ext == ".fout" {
          outputDirs := outputDirs[parsed.stem := JoinPath(directory, e.name)];
        }
      }
    }
    assert entries[..|entries|] == entries;
    IdsAfterCorrect(entries);
    forall id
      ensures Get(inputs, id) == TextOf(entries, id, ".in")
      ensures Get(outputs, id) == TextOf(entries, id, ".out")
      ensures Get(inputDirs, id) == DirPathOf(directory, entries, id, ".fin")
      ensures Get(outputDirs, id) == DirPathOf(directory, entries, id, ".fout")
    {
      MapAfterIsLastEntry(directory, entries, RegularFile, ".in", id);
      MapAfterIsLastEntry(directory, entries, RegularFile, ".out", id);
      MapAfterIsLastEntry(directory, entries, Directory, ".fin", id);
      MapAfterIsLastEntry(directory, entries, Directory, ".fout", id);
    }
  }

  /** The case built for `id` from its entries. */
  function FixtureFor(directory: string, entries: seq<DirEntry>, id: string): Fixture {
    Fixture(id, TextOf(entries, id, ".in"), TextOf(entries, id, ".out"),
            DirPathOf(directory, entries, id, ".fin"), DirPathOf(directory, entries, id, ".fout"))
  }

  /** `[...idSet].filter(...).toSorted().map(...)`: the sorted cases, `_shared` left out. */
  method SortedFixtures(directory: string, entries: seq<DirEntry>, ids: seq<string>,
                        inputs: map<string, string>, outputs: map<string, string>,
                        inputDirs: map<string, string>, outputDirs: map<string, string>)
    returns (cases: seq<Fixture>)
    requires Distinct(ids)
    requires forall id :: id in ids <==> id in FixtureIds(entries)
    requires forall id :: Get(inputs, id) == TextOf(entries, id, ".in")
    requires forall id :: Get(outputs, id) == TextOf(entries, id, ".out")
    requires forall id :: Get(inputDirs, id) == DirPathOf(directory, entries, id, ".fin")
    requires forall id :: Get(outputDirs, id) == DirPathOf(directory, entries, id, ".fout")
    ensures StrictlySorted(Ids(cases, FixtureId))
    ensures forall id :: id in Ids(cases, FixtureId) <==> id in FixtureIds(entries) && id != SHARED_TEST_CASE_NAME
    ensures forall k :: 0 <= k < |cases| ==> cases[k] == FixtureFor(directory, entries, cases[k].id)
  {
    var kept := Without(ids, SHARED_TEST_CASE_NAME);
    var sorted := SortStrings(kept);
    SortedKeptIds(entries, ids, kept, sorted);
    cases := seq(|sorted|, k requires 0 <= k < |sorted| =>
      Fixture(sorted[k], Get(inputs, sorted[k]), Get(outputs, sorted[k]),
              Get(inputDirs, sorted[k]), Get(outputDirs, sorted[k])));
    assert Ids(cases, FixtureId) == sorted;
    forall k | 0 <= k < |cases|
      ensures cases[k] == FixtureFor(directory, entries, cases[k].id)
    {
      var id := sorted[k];
      assert cases[k] == Fixture(id, Get(inputs, id), Get(outputs, id), Get(inputDirs, id), Get(outputDirs, id));
    }
  }

  /** Sorting the ids without `_shared` gives every other contributed id once, in ascending order. */
  lemma SortedKeptIds(entries: seq<DirEntry>, ids: seq<string>, kept: seq<string>, sorted: seq<string>)
    requires Distinct(ids)
    requires forall id :: id in ids <==> id in FixtureIds(entries)
    requires kept == Without(ids, SHARED_TEST_CASE_NAME) && sorted == SortStrings(kept)
    ensures StrictlySorted(sorted)
    ensures forall id :: id in sorted <==> id in FixtureIds(entries) && id != SHARED_TEST_CASE_NAME
  {
    SortStringsCorrect(kept);
    forall id
      ensures id in sorted <==> id in kept
    {
      assert id in sorted <==> id in multiset(sorted);
      assert id in kept <==> id in multiset(kept);
    }
  }

  /**
   * `readTestCases(directory)`: nothing when the directory is missing; otherwise
   * one case per contributed id except `_shared`, ids unique and ascending, and
   * `shared` set exactly when `_shared` was seen.
   */
  method ReadFixtures(directory: string, directoryExists: bool, entries: seq<DirEntry>) returns (fixtures: Fixtures)
    ensures !directoryExists ==> fixtures == Fixtures([], None)
    ensures directoryExists ==> StrictlySorted(Ids(fixtures.cases, FixtureId))
    ensures directoryExists ==>
              forall id :: id in Ids(fixtures.cases, FixtureId) <==> id in FixtureIds(entries) && id != SHARED_TEST_CASE_NAME
    ensures directoryExists ==>
              forall k :: 0 <= k < |fixtures.cases| ==>
                fixtures.cases[k] == FixtureFor(directory, entries, fixtures.cases[k].id)
    ensures directoryExists ==>
              (fixtures.shared.Some? <==> SHARED_TEST_CASE_NAME in FixtureIds(entries))
    ensures fixtures.shared.Some? ==>
              fixtures.shared.value.fileInputPath == DirPathOf(directory, entries, SHARED_TEST_CASE_NAME, ".fin")
  {
    if !directoryExists {
      return Fixtures([], None);
    }
    var ids, inputs, outputs, inputDirs, outputDirs := CollectFixtureEntries(directory, entries);
    var cases := SortedFixtures(directory, entries, ids, inputs, outputs, inputDirs, outputDirs);
    var shared: Option<SharedFixture> := None;
    if SHARED_TEST_CASE_NAME in ids {
      shared := Some(SharedFixture(Get(inputDirs, SHARED_TEST_CASE_NAME)));
    }
    return Fixtures(cases, shared);
  }

  /** A case whose kind of entry is absent has that field undefined. */
  lemma AbsentKindIsUndefined(directory: string, entries: seq<DirEntry>, id: string)
    requires forall i :: 0 <= i < |entries| ==> entries[i].name != id + ".in"
    ensures FixtureFor(directory, entries, id).input.None?
  {
  }
}

/** The parts of Node's `path` module the fixture loaders use, over `/`-separated names. */
module PathNames {
  import opened Wrappers

  /** `path.parse(name)` restricted to a single directory entry name: `name` and `ext`. */
  datatype ParsedName = ParsedName(stem: string, ext: string)

  /** Index of the last `.` in `s`, or -1. */
  function LastDot(s: string): (k: int)
    ensures -1 <= k < |s|
    ensures k >= 0 ==> s[k] == '.'
    ensures forall j :: k < j < |s| ==> s[j] != '.'
  {
    if s == [] then -1
    else if s[|s| - 1] == '.' then |s| - 1
    else LastDot(s[..|s| - 1])
  }

  /**
   * The extension starts at the last dot, unless that dot is the first character
   * (a hidden file such as `.in`) or the name is `..`; then there is none.
   */
  function ParseName(name: string): (p: ParsedName)
    ensures p.stem + p.ext == name
    ensures p.ext == [] || (p.ext[0] == '.' && '.' !in p.ext[1..] && p.stem != [])
  {
    var k := LastDot(name);
    if k >= 1 && name != ".." then
      assert name == name[..k] + name[k..];
      ParsedName(name[..k], name[k..])
    else
      ParsedName(name, "")
  }

  /** A non-empty stem followed by an extension such as `.in` parses back into the two. */
  lemma ParseNameWithExtension(stem: string, ext: string)
    requires stem != [] && |ext| > 1 && ext[0] == '.' && '.' !in ext[1..]
    ensures ParseName(stem + ext) == ParsedName(stem, ext)
  {
    var name := stem + ext;
    var k := LastDot(name);
    assert name[|stem|] == '.';
    assert k == |stem|;
    assert |name| > 2;
    assert name[..k] == stem && name[k..] == ext;
  }

  /** What `readdir(dir, { withFileTypes: true })` reports of an entry; `text` is a file's UTF-8 contents. */
  datatype EntryKind = RegularFile | Directory | OtherKind

  datatype DirEntry = DirEntry(name: string, kind: EntryKind, text: string)

  /**
   * The last entry of the given kind named `<id><ext>`: what a map keyed by id
   * holds after a loop that sets it for every such entry of the listing.
   */
  function LastEntry(entries: seq<DirEntry>, kind: EntryKind, id: string, ext: string): (r: Option<DirEntry>)
    ensures r.Some? ==> r.value in entries && r.value.kind == kind && r.value.name == id + ext
  {
    if entries == [] then None
    else
      var last := entries[|entries| - 1];
      if last.kind == kind && ParseName(last.name) == ParsedName(id, ext) then Some(last)
      else LastEntry(entries[..|entries| - 1], kind, id, ext)
  }

  /** What one more loop iteration does to an id's entry. */
  lemma LastEntryStep(entries: seq<DirEntry>, i: nat, kind: EntryKind, id: string, ext: string)
    requires i < |entries|
    ensures LastEntry(entries[..i + 1], kind, id, ext)
            == if entries[i].kind == kind && ParseName(entries[i].name) == ParsedName(id, ext)
               then Some(entries[i]) else LastEntry(entries[..i], kind, id, ext)
  {
    assert entries[..i + 1][..i] == entries[..i];
  }

  /** In a listing with distinct names, the entry for `<id><ext>` is the one so named. */
  lemma {:induction false} LastEntryOfNamed(entries: seq<DirEntry>, kind: EntryKind, id: string, ext: string, k: nat)
    requires forall i, j :: 0 <= i < j < |entries| ==> entries[i].name != entries[j].name
    requires k < |entries| && entries[k].kind == kind && entries[k].name == id + ext
    requires id != [] && |ext| > 1 && ext[0] == '.' && '.' !in ext[1..]
    ensures LastEntry(entries, kind, id, ext) == Some(entries[k])
  {
    ParseNameWithExtension(id, ext);
    var n := |entries|;
    if k < n - 1 {
      LastEntryOfNamed(entries[..n - 1], kind, id, ext, k);
    }
  }

  /** The contents of the regular file `<id><ext>`: what a map of file texts keyed by id holds for `id`. */
  function TextOf(entries: seq<DirEntry>, id: string, ext: string): Option<string> {
    match LastEntry(entries, RegularFile, id, ext)
    case Some(e) => Some(e.text)
    case None => None
  }

  /** `cases.map((c) => c.id)`, for a loader's case records and their id field. */
  function Ids<T>(cases: seq<T>, idOf: T -> string): (r: seq<string>)
    ensures |r| == |cases|
    ensures forall k :: 0 <= k < |cases| ==> r[k] == idOf(cases[k])
  {
    if cases == [] then [] else [idOf(cases[0])] + Ids(cases[1..], idOf)
  }

  /** `Map.prototype.get`: the value under `key`, or nothing. */
  function Get(m: map<string, string>, key: string): Option<string> {
    if key in m then Some(m[key]) else None
  }

  /** `path.join(dir, name)`; normalisation of `.`, `..` and repeated separators is not modelled. */
  function JoinPath(dir: string, name: string): string {
    dir + "/" + name
  }
}

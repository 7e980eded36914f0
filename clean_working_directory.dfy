/**
 * Snapshotting a submission's working directory and later removing every
 * entry that was not there at snapshot time. The directory is the set of
 * relative paths a recursive listing returns; changed contents and deleted
 * snapshot entries are not restored.
 */
module WorkingDirectoryCleanup {

  /** `q` is `p` itself or lies below it. */
  predicate IsWithin(q: string, p: string) {
    q == p || (|p| < |q| && q[..|p|] == p && q[|p|] == '/')
  }

  /** Every parent of a listed path is listed too, as in a recursive listing. */
  ghost predicate ParentClosed(paths: set<string>) {
    forall q, p :: q in paths && IsWithin(q, p) ==> p in paths
  }

  /** The entries a cleaning with this listing and snapshot keeps. */
  ghost function Kept(listing: set<string>, snapshot: set<string>): set<string> {
    set q | q in listing && forall p :: p in listing && p !in snapshot ==> !IsWithin(q, p)
  }

  class WorkingDirectory {
    /** The relative paths a recursive `readdir` lists. */
    var entries: set<string>

    constructor (initial: set<string>)
      ensures entries == initial
    {
      entries := initial;
    }

    /** `snapshotWorkingDirectory`: the set of paths listed now. */
    method Snapshot() returns (snapshot: set<string>)
      ensures snapshot == entries
    {
      snapshot := entries;
    }

    /** `fs.promises.rm(p, { force: true, recursive: true })`: removes `p` and all below it; a missing `p` is not an error. */
    method Remove(p: string)
      modifies this
      ensures entries == set q | q in old(entries) && !IsWithin(q, p)
    {
      entries := set q | q in entries && !IsWithin(q, p);
    }

    /** `cleanWorkingDirectory`: remove every listed path that is not in the snapshot. */
    method Clean(snapshot: set<string>)
      modifies this
      ensures entries == Kept(old(entries), snapshot)
      ensures forall p :: p in old(entries) && p !in snapshot ==> p !in entries
      ensures ParentClosed(snapshot) ==> forall p :: p in old(entries) && p in snapshot ==> p in entries
    {
      ghost var listing := entries;
      var pending := entries;
      ghost var visited: set<string> := {};
      while pending != {}
        invariant pending + visited == listing && pending !! visited
        invariant entries == set q | q in listing && forall p :: p in visited && p !in snapshot ==> !IsWithin(q, p)
        decreases pending
      {
        var p :| p in pending;
        pending := pending - {p};
        visited := visited + {p};
        if p in snapshot {
          continue;
        }
        Remove(p);
      }
      assert visited == listing;
      SnapshotPathsSurvive(listing, snapshot);
    }
  }

  /** With a parent-closed snapshot, no snapshot path lies below a removed path, so none is removed. */
  lemma SnapshotPathsSurvive(listing: set<string>, snapshot: set<string>)
    ensures forall p :: p in listing && p !in snapshot ==> p !in Kept(listing, snapshot)
    ensures ParentClosed(snapshot) ==> forall p :: p in listing && p in snapshot ==> p in Kept(listing, snapshot)
  {
    assert forall p :: IsWithin(p, p);
  }

  /** Cleaning right after a snapshot removes nothing. */
  lemma CleanAfterSnapshotKeepsAll(listing: set<string>)
    ensures Kept(listing, listing) == listing
  {
  }
}

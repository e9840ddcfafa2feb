/** `cleanup_temp_files`: the filesystem is the set of paths that exist. */
module Scratch {
  import opened Paths

  /** One iteration of the loop: unlink the path if it exists. A path in
      `undeletable` makes `os.unlink` raise; the error is only logged, so
      the file stays and nothing propagates. */
  function RemoveIfPresent(fs: set<Path>, p: Path, undeletable: set<Path>): set<Path>
  {
    if p in fs && p !in undeletable then fs - {p} else fs
  }

  /** Removes every listed path that exists and can be deleted; unlisted
      paths, and listed ones whose deletion fails, are left as they were. */
  function Cleanup(fs: set<Path>, paths: seq<Path>, undeletable: set<Path>): (fs': set<Path>)
    ensures fs' <= fs
    ensures forall p :: p in paths && p !in undeletable ==> p !in fs'
    ensures forall p :: p in fs && (p !in paths || p in undeletable) ==> p in fs'
  {
    if |paths| == 0 then fs
    else
      var rest := Cleanup(RemoveIfPresent(fs, paths[0], undeletable), paths[1..], undeletable);
      assert forall p :: p in paths ==> p == paths[0] || p in paths[1..];
      rest
  }

  /** When every delete succeeds, no listed path exists afterwards and every
      other path is exactly as before. */
  lemma CleanupRemovesExactlyListed(fs: set<Path>, paths: seq<Path>)
    ensures forall p :: p in Cleanup(fs, paths, {}) <==> p in fs && p !in paths
  {
  }
}

/**
 * The search policy of ProcessFile: where the file named by a directive is
 * looked for, and which candidate wins. The file system is a map from a
 * path to the lines of the file stored there; "the file opens" is membership.
 */
module Resolver {
  import opened Wrappers
  import opened Paths
  import opened Directives

  type FileSystem = map<Path, seq<string>>

  /** The index of the first search directory holding `name`, if any. */
  function FirstIndex(fs: FileSystem, dirs: seq<Path>, name: string): (r: Option<nat>)
    ensures r.Some? ==> r.value < |dirs| && Join(dirs[r.value], name) in fs
    ensures r.Some? ==> forall j :: 0 <= j < r.value ==> Join(dirs[j], name) !in fs
    ensures r.None? ==> forall j :: 0 <= j < |dirs| ==> Join(dirs[j], name) !in fs
  {
    if dirs == [] then None
    else if Join(dirs[0], name) in fs then Some(0)
    else match FirstIndex(fs, dirs[1..], name)
      case None => None
      case Some(i) => Some(i + 1)
  }

  /**
   * The loop over `include_directories` with its `found` flag and `break`:
   * the first directory, in the given order, under which `filename` exists.
   */
  method SearchDirectories(fs: FileSystem, dirs: seq<Path>, filename: string) returns (found: bool, filePath: Path)
    ensures found <==> exists j :: 0 <= j < |dirs| && Join(dirs[j], filename) in fs
    ensures found == FirstIndex(fs, dirs, filename).Some?
    ensures found ==> filePath in fs && filePath == Join(dirs[FirstIndex(fs, dirs, filename).value], filename)
  {
    found := false;
    filePath := [];
    var i := 0;
    while i < |dirs|
      invariant 0 <= i <= |dirs|
      invariant forall j :: 0 <= j < i ==> Join(dirs[j], filename) !in fs
    {
      filePath := Join(dirs[i], filename);
      if filePath in fs {
        found := true;
        break;
      }
      i := i + 1;
    }
    if found {
      var first := FirstIndex(fs, dirs, filename);
      assert first.Some? && first.value == i;
    }
  }

  /**
   * The file a directive of the current file refers to: for a local include
   * the current directory first, then the search directories in order; for a
   * system include the search directories only. The first file that exists wins.
   */
  function Resolve(fs: FileSystem, currentDir: Path, dirs: seq<Path>, d: Directive): (r: Option<Path>)
    requires !d.Plain?
    ensures r.Some? ==> r.value in fs
  {
    if d.Local? && Join(currentDir, d.name) in fs then Some(Join(currentDir, d.name))
    else match FirstIndex(fs, dirs, d.name)
      case None => None
      case Some(i) => Some(Join(dirs[i], d.name))
  }

  /** Search directory i is the first, in the given order, under which `name` exists. */
  predicate FirstHolding(fs: FileSystem, dirs: seq<Path>, name: string, i: nat) {
    i < |dirs| && Join(dirs[i], name) in fs &&
    forall j :: 0 <= j < i ==> Join(dirs[j], name) !in fs
  }

  /**
   * The search policy: a local include prefers the current directory; failing
   * that, and always for a system include, the first search directory, in
   * the given order, that holds the file wins; nothing is found only when no
   * search directory holds it.
   */
  lemma {:induction false} ResolvePolicy(fs: FileSystem, currentDir: Path, dirs: seq<Path>, d: Directive)
    requires !d.Plain?
    ensures var r := Resolve(fs, currentDir, dirs, d);
      d.Local? && Join(currentDir, d.name) in fs ==> r == Some(Join(currentDir, d.name))
    ensures var r := Resolve(fs, currentDir, dirs, d);
      d.System? || Join(currentDir, d.name) !in fs ==>
        (r.None? <==> forall j :: 0 <= j < |dirs| ==> Join(dirs[j], d.name) !in fs)
    ensures var r := Resolve(fs, currentDir, dirs, d);
      d.System? || Join(currentDir, d.name) !in fs ==>
        forall i: nat :: FirstHolding(fs, dirs, d.name, i) ==> r == Some(Join(dirs[i], d.name))
  {
    var first := FirstIndex(fs, dirs, d.name);
    forall i: nat | FirstHolding(fs, dirs, d.name, i) ensures first == Some(i) {
    }
  }
}

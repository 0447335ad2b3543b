/**
 * Directory discovery: the `dir_and_name` filter and `get_all_dir`, which
 * keeps the walked entries the filter accepts, keyed by their path. The
 * directory walk itself is an input: the list of entries it yields.
 */
module Util {
  import opened Wrappers
  import opened StrUtil

  /** A walked entry: its path as text and whether it is a directory. */
  datatype DirEntry = DirEntry(path: string, isDir: bool)

  /** The first exclude fragment that occurs in `path` (the `find` over `exclude`). */
  function FirstExcluded(path: string, exclude: seq<string>): (r: Option<string>)
    ensures r.Some? ==> r.value in exclude && Contains(path, r.value)
    ensures r.None? <==> forall x :: x in exclude ==> !Contains(path, x)
  {
    if exclude == [] then None
    else if Contains(path, exclude[0]) then Some(exclude[0])
    else FirstExcluded(path, exclude[1..])
  }

  /** `dir_and_name`: not excluded, a directory, and its path ends with `name`. */
  predicate DirAndName(d: DirEntry, name: string, exclude: seq<string>) {
    if FirstExcluded(d.path, exclude).Some? then false
    else d.isDir && EndsWith(d.path, name)
  }

  /** The filter in one sentence: no fragment occurs, it is a directory, the name ends it. */
  lemma DirAndNameMeaning(d: DirEntry, name: string, exclude: seq<string>)
    ensures DirAndName(d, name, exclude)
        <==> (forall x :: x in exclude ==> !Contains(d.path, x)) && d.isDir && EndsWith(d.path, name)
  {
  }

  /** An empty fragment occurs in every path, so it excludes every entry. */
  lemma EmptyFragmentExcludesAll(d: DirEntry, name: string, exclude: seq<string>)
    requires "" in exclude
    ensures !DirAndName(d, name, exclude)
  {
    ContainsEmpty(d.path);
  }

  /** More exclude fragments can only turn acceptance into rejection. */
  lemma DirAndNameAntitone(d: DirEntry, name: string, fewer: seq<string>, more: seq<string>)
    requires forall x :: x in fewer ==> x in more
    ensures DirAndName(d, name, more) ==> DirAndName(d, name, fewer)
  {
  }

  /** `get_all_dir`: the accepted entries of the walk, keyed by path. */
  method GetAllDir(entries: seq<DirEntry>, name: string, exclude: seq<string>,
                   op: (DirEntry, string, seq<string>) -> bool)
    returns (dirResult: map<string, DirEntry>)
    ensures forall k :: k in dirResult <==> exists e :: e in entries && op(e, name, exclude) && e.path == k
    ensures forall k :: k in dirResult ==>
      dirResult[k] in entries && dirResult[k].path == k && op(dirResult[k], name, exclude)
  {
    dirResult := map[];
    for i := 0 to |entries|
      invariant forall k :: k in dirResult <==> exists e :: e in entries[..i] && op(e, name, exclude) && e.path == k
      invariant forall k :: k in dirResult ==>
        dirResult[k] in entries[..i] && dirResult[k].path == k && op(dirResult[k], name, exclude)
    {
      var e := entries[i];
      assert entries[..i + 1] == entries[..i] + [e];
      if op(e, name, exclude) {
        dirResult := dirResult[e.path := e];
      }
    }
    assert entries[..|entries|] == entries;
  }
}

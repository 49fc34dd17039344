/** The two `path/filepath` functions the handler uses, on slash-separated
    paths. */
module FilePath {

  /** `filepath.Join(dir, name)` for a directory and a single path element:
      empty elements are dropped and no separator is doubled at the join
      point. Go's `Join` also cleans the result lexically (doubled slashes
      inside `dir`, `.` and `..`); that is not modelled, so this agrees with
      Go for a clean `dir` and a `name` other than `.` and `..`. */
  function Join(dir: string, name: string): string
  {
    if dir == "" then name
    else if name == "" then dir
    else if dir[|dir| - 1] == '/' then dir + name
    else dir + "/" + name
  }

  function TrimTrailingSlashes(p: string): (r: string)
    ensures |r| <= |p| && r == p[..|r|]
    ensures r != "" ==> r[|r| - 1] != '/'
  {
    if p != "" && p[|p| - 1] == '/' then TrimTrailingSlashes(p[..|p| - 1]) else p
  }

  /** The part of `p` after its last slash. */
  function AfterLastSlash(p: string): (r: string)
    ensures '/' !in r
    ensures |r| <= |p| && r == p[|p| - |r|..]
  {
    if p == "" || p[|p| - 1] == '/' then ""
    else AfterLastSlash(p[..|p| - 1]) + [p[|p| - 1]]
  }

  /** `filepath.Base`: the last element of `p`, "." for the empty path and
      "/" for a path made of slashes only. */
  function Base(p: string): string
  {
    if p == "" then "."
    else
      var last := AfterLastSlash(TrimTrailingSlashes(p));
      if last == "" then "/" else last
  }

  lemma {:induction false} AfterLastSlashAppend(prefix: string, name: string)
    requires '/' !in name
    ensures AfterLastSlash(prefix + name) == AfterLastSlash(prefix) + name
    decreases |name|
  {
    if name != "" {
      var init := name[..|name| - 1];
      assert prefix + name == (prefix + init) + [name[|name| - 1]];
      assert (prefix + name)[..|prefix + name| - 1] == prefix + init;
      AfterLastSlashAppend(prefix, init);
      assert init + [name[|name| - 1]] == name;
    } else {
      assert prefix + name == prefix;
    }
  }

  /** A file joined onto a directory is found again by `Base`, provided its
      name is one non-empty path element other than `.` and `..`. */
  lemma BaseOfJoin(dir: string, name: string)
    requires name != "" && '/' !in name && name != "." && name != ".."
    ensures Base(Join(dir, name)) == name
  {
    var p := Join(dir, name);
    var prefix := if dir == "" then "" else if dir[|dir| - 1] == '/' then dir else dir + "/";
    assert p == prefix + name;
    assert p[|p| - 1] == name[|name| - 1];
    assert TrimTrailingSlashes(p) == p;
    AfterLastSlashAppend(prefix, name);
    assert prefix == "" || prefix[|prefix| - 1] == '/';
    assert AfterLastSlash(prefix) == "";
  }
}

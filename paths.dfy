/** The parts of Go's `path/filepath` used to place the configuration file
    and the account files, for slash-separated paths. */
module Paths {

  /** The index of the last '/' in `p`, or -1 when there is none. */
  function LastSlash(p: string): (i: int)
    ensures -1 <= i < |p|
    ensures i >= 0 ==> p[i] == '/'
    ensures forall k :: i < k < |p| ==> p[k] != '/'
  {
    if p == [] then -1
    else if p[|p| - 1] == '/' then |p| - 1
    else LastSlash(p[..|p| - 1])
  }

  /** No two separators in a row: the paths on which `Dir` and `Join` below
      agree with Go's lexical cleaning. */
  predicate NoRepeatedSlash(p: string)
  {
    forall i :: 0 <= i < |p| - 1 ==> !(p[i] == '/' && p[i + 1] == '/')
  }

  /** `filepath.Dir`: everything before the last separator; "." when there is
      none, "/" when the only separator is the leading one. */
  function Dir(p: string): string
  {
    var i := LastSlash(p);
    if i < 0 then "." else if i == 0 then "/" else p[..i]
  }

  /** `filepath.Base`: the last element. */
  function Base(p: string): string
  {
    if p == [] then "." else if p == "/" then "/" else p[LastSlash(p) + 1..]
  }

  /** `filepath.Join(dir, name)` for a clean `dir` and a separator-free
      `name`: an empty element is ignored, and otherwise exactly one
      separator stands between the two. */
  function Join(dir: string, name: string): (r: string)
    ensures name == [] ==> r == dir
    ensures name != [] && (dir == [] || dir == ".") ==> r == name
    ensures name != [] && dir != [] && dir != "." ==>
      && |dir| < |r| <= |dir| + 1 + |name| && |name| < |r|
      && r[..|dir|] == dir
      && r[|r| - |name|..] == name
      && r[|r| - |name| - 1] == '/'
  {
    if name == [] then dir
    else if dir == [] || dir == "." then name
    else if dir[|dir| - 1] == '/' then dir + name
    else dir + "/" + name
  }

  /** Appending "/name" makes the new separator the last one. */
  lemma {:induction false} LastSlashOfJoin(dir: string, name: string)
    requires '/' !in name
    ensures LastSlash(dir + "/" + name) == |dir|
  {
    if name != [] {
      var p := dir + "/" + name;
      assert p[..|p| - 1] == dir + "/" + name[..|name| - 1];
      LastSlashOfJoin(dir, name[..|name| - 1]);
    } else {
      assert dir + "/" + name == dir + "/";
    }
  }

  /** A separator-free name joined onto a directory is found again by
      `Dir` and `Base`. */
  lemma JoinThenSplit(dir: string, name: string)
    requires '/' !in name && name != [] && dir != [] && dir != "."
    requires dir == "/" || dir[|dir| - 1] != '/'
    ensures Base(Join(dir, name)) == name
    ensures Dir(Join(dir, name)) == dir
  {
    if dir == "/" {
      assert Join(dir, name) == [] + "/" + name;
      LastSlashOfJoin([], name);
    } else {
      LastSlashOfJoin(dir, name);
      var p := dir + "/" + name;
      assert p[..|dir|] == dir;
      assert p[|dir| + 1..] == name;
    }
  }
}

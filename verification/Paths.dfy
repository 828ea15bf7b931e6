/** Paths as strings of slash-separated names. */
module Paths {

  type Path = string

  /** The position of the last slash, or -1. */
  function LastSlash(p: Path): (r: int)
    ensures -1 <= r < |p|
    ensures r >= 0 ==> p[r] == '/'
    ensures forall i :: r < i < |p| ==> p[i] != '/'
  {
    if p == "" then -1
    else if p[|p| - 1] == '/' then |p| - 1
    else LastSlash(p[..|p| - 1])
  }

  function DirName(p: Path): Path {
    var pos := LastSlash(p);
    if pos == -1 then "" else if pos == 0 then "/" else p[..pos]
  }

  function BaseName(p: Path): Path {
    var pos := LastSlash(p);
    if pos == -1 then p else p[pos + 1..]
  }

  lemma LastSlashIs(p: Path, at: nat)
    requires at < |p| && p[at] == '/' && forall i :: at < i < |p| ==> p[i] != '/'
    ensures LastSlash(p) == at
  {
  }

  lemma JoinedNames(dir: Path, name: string)
    requires dir != "" && '/' !in name
    ensures DirName(dir + "/" + name) == dir && BaseName(dir + "/" + name) == name
  {
    var p := dir + "/" + name;
    LastSlashIs(p, |dir|);
  }
}

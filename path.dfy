/**
 * The two parts of a snapshot path that model loading checks: the part after the last '/'
 * (`basename`) and the part before it (`dirname`).
 */
module Paths {
  import opened Base

  /** The index of the last '/' in `s`, if there is one. */
  function LastSlash(s: string): (r: Option<nat>)
    ensures r.Some? ==> r.value < |s| && s[r.value] == '/'
    ensures r.Some? ==> forall j :: r.value < j < |s| ==> s[j] != '/'
    ensures r.None? <==> forall j :: 0 <= j < |s| ==> s[j] != '/'
  {
    if |s| == 0 then None
    else if s[|s| - 1] == '/' then Some(|s| - 1)
    else LastSlash(s[..|s| - 1])
  }

  function Basename(path: string): string {
    match LastSlash(path)
    case None => path
    case Some(k) => path[k + 1..]
  }

  function Dirname(path: string): string {
    match LastSlash(path)
    case None => ""
    case Some(k) => path[..k]
  }

  /** A path joined from a directory and a slash-free name splits back into the two. */
  lemma JoinThenSplit(dir: string, name: string)
    requires forall j :: 0 <= j < |name| ==> name[j] != '/'
    ensures Dirname(dir + "/" + name) == dir
    ensures Basename(dir + "/" + name) == name
  {
    var path := dir + "/" + name;
    assert path[|dir|] == '/';
    var k := LastSlash(path).value;
    assert path[..k] == dir;
    assert path[k + 1..] == name;
  }

  /** A path splits into its directory, a '/', and its base name, whenever it has a '/'. */
  lemma SplitThenJoin(path: string)
    requires exists j :: 0 <= j < |path| && path[j] == '/'
    ensures path == Dirname(path) + "/" + Basename(path)
    ensures forall j :: 0 <= j < |Basename(path)| ==> Basename(path)[j] != '/'
  {
    var k := LastSlash(path).value;
    assert path == path[..k] + "/" + path[k + 1..];
  }
}

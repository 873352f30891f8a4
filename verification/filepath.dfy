/**
 * Go's `filepath.Dir` on a Unix host ('/' is the only separator, no volume
 * names). `Clean` is modelled only as far as `Dir` exercises it on already
 * clean paths: trailing separators are removed, an empty result becomes "."
 * and a run of separators alone becomes "/".
 */
module FilePath {
  import opened Wrappers
  import opened Text

  /** `s` without its trailing run of '/'. */
  function TrimTrailingSlashes(s: string): (r: string)
    ensures |r| <= |s| && r == s[..|r|]
    ensures forall i :: |r| <= i < |s| ==> s[i] == '/'
    ensures r == [] || r[|r| - 1] != '/'
  {
    if s != [] && s[|s| - 1] == '/' then TrimTrailingSlashes(s[..|s| - 1]) else s
  }

  /**
   * From `from` on, `path` is a run of '/' followed by a last element with no
   * '/' in it: once a character other than '/' is seen, no '/' follows.
   */
  ghost predicate LastElementAfter(path: string, from: nat) {
    forall j, k :: from <= j < k < |path| && path[j] != '/' ==> path[k] != '/'
  }

  /** All but the last element of `path`: its parent directory. */
  function Dir(path: string): (d: string)
    ensures '/' !in path ==> d == "."
    ensures d != []
    ensures '/' in path ==> d == "/" || (|d| <= |path| && d == path[..|d|] && d[|d| - 1] != '/')
    ensures path != [] && (forall i :: 0 <= i < |path| ==> path[i] == '/') ==> d == "/"
  {
    match LastIndexOf(path, '/')
    case None => "."
    case Some(i) =>
      var p := TrimTrailingSlashes(path[..i + 1]);
      if p == [] then "/" else p
  }

  /**
   * What `Dir` leaves off is a run of '/' and then the last element: the
   * directory is "/" exactly for a rooted single element, and otherwise the
   * prefix up to the separators before the last element.
   */
  lemma DirDropsLastElement(path: string)
    requires '/' in path
    ensures var d := Dir(path);
      && (d == "/" ==> path[0] == '/' && LastElementAfter(path, 0))
      && (d != "/" ==> |d| < |path| && path[|d|] == '/' && LastElementAfter(path, |d|))
  {
  }

  /** `filepath.Join(parent, name)` for a clean parent and a single element name. */
  function JoinPath(parent: string, name: string): string {
    if parent == "/" then "/" + name else parent + "/" + name
  }

  /** The parent directory of `parent/name` is `parent`. */
  lemma DirOfChild(parent: string, name: string)
    requires parent != [] && (parent == "/" || parent[|parent| - 1] != '/')
    requires '/' !in name
    ensures Dir(JoinPath(parent, name)) == parent
  {
    var path := JoinPath(parent, name);
    var slash := if parent == "/" then 0 else |parent|;
    assert path[slash] == '/';
    assert path[slash + 1..] == name;
    var last := LastIndexOf(path, '/');
    assert last == Some(slash);
    assert path[..slash + 1] == if parent == "/" then "/" else parent + "/";
  }
}

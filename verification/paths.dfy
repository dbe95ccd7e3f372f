/**
 * Paths of the build tree. A path is a string relative to the build root,
 * '/'-separated, with no trailing '/' and no empty segment; the script's
 * absolute `root + ...` paths are written here without the root.
 */
module Paths {
  type Path = string

  /**
   * A path the script can clone into: not absolute, and inside a directory
   * of the tree, so that `mkdir -p <dirname>` and `cd <dirname>` have an
   * operand.
   */
  predicate Relative(p: Path) {
    p != "" && p[0] != '/' && '/' in p
  }

  /** Index of the last '/' in `p`, or -1 when `p` has none. */
  function LastSlash(p: string): (k: int)
    ensures -1 <= k < |p|
    ensures k >= 0 ==> p[k] == '/'
    ensures forall i :: k < i < |p| ==> p[i] != '/'
  {
    if p == [] then -1
    else if p[|p| - 1] == '/' then |p| - 1
    else LastSlash(p[..|p| - 1])
  }

  /** `os.path.basename`: the final '/'-separated segment of `p`. */
  function Basename(p: string): (b: string)
    ensures '/' !in b
    ensures |b| <= |p| && p[|p| - |b|..] == b
    ensures |b| < |p| ==> p[|p| - |b| - 1] == '/'
  {
    p[LastSlash(p) + 1..]
  }

  /** `os.path.dirname` of a normalised path: everything before the last '/'. */
  function Dirname(p: string): (d: string)
    ensures '/' in p ==> p == d + "/" + Basename(p)
    ensures '/' !in p ==> d == ""
  {
    var k := LastSlash(p);
    if k < 0 then "" else p[..k]
  }

  /** The path that `cd <d> && <create> <b>` names. */
  function Join(d: Path, b: string): Path {
    if d == "" then b else d + "/" + b
  }

  /** Splitting a path inside a directory and joining the halves gives the path back. */
  lemma SplitJoin(p: Path)
    requires Relative(p)
    ensures Join(Dirname(p), Basename(p)) == p
  {
    if '/' in p {
      var k := LastSlash(p);
      assert k > 0;
      assert Dirname(p) != "";
    }
  }

  /** The final segment of `d/b` is `b` and its directory is `d`, whatever `d` holds. */
  lemma SplitAfterSlash(d: string, b: string)
    requires '/' !in b
    ensures Basename(d + "/" + b) == b
    ensures Dirname(d + "/" + b) == d
  {
    var p := d + "/" + b;
    var k := LastSlash(p);
    assert p[|d|] == '/';
    assert k == |d|;
    assert p[k + 1..] == b;
    assert p[..k] == d;
  }
}

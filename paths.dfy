/**
 * The two Node `path` functions the plugin uses, on POSIX paths.
 * Assumed of every path: no `..` or `.` segments other than a lone "." and
 * no repeated slashes; file paths and names have no trailing slash, while a
 * directory may end in one, which `Join` handles. Under these assumptions
 * the normalisation Node performs reduces to the cases written out below.
 */
module Paths {

  /** Index of the last '/' of `p`, or -1 when `p` has none. */
  function LastSlash(p: string): (i: int)
    ensures -1 <= i < |p|
    ensures i >= 0 ==> p[i] == '/'
  {
    if |p| == 0 then -1
    else if p[|p| - 1] == '/' then |p| - 1
    else LastSlash(p[..|p| - 1])
  }

  /** No slash follows the one `LastSlash` finds. */
  lemma {:induction false} LastSlashIsLast(p: string, k: nat)
    requires k < |p| && p[k] == '/'
    ensures k <= LastSlash(p)
  {
    if p[|p| - 1] != '/' {
      LastSlashIsLast(p[..|p| - 1], k);
    }
  }

  /** `path.dirname`: everything before the last slash; "." when there is none. */
  function Dirname(p: string): (d: string)
    ensures d != ""
  {
    var i := LastSlash(p);
    if i == -1 then "." else if i == 0 then "/" else p[..i]
  }

  /** `path.join` of a directory and a file name relative to it. */
  function Join(dir: string, name: string): (p: string)
    ensures name != "" && dir != "" && dir != "." ==> dir < p
    ensures name != "" && (dir == "" || dir == ".") ==> p == name
  {
    if dir == "" || dir == "." then (if name == "" then "." else name)
    else if name == "" then dir
    else if dir[|dir| - 1] == '/' then dir + name
    else dir + "/" + name
  }

  /** `String.prototype.startsWith`: a purely textual prefix test. */
  predicate StartsWith(s: string, prefix: string)
  {
    prefix <= s
  }

  /** Joining a file name onto an unset or a plain directory. */
  lemma JoinExamples()
    ensures Join("", "index.js") == "index.js"
    ensures Join("tmp", "index.js") == "tmp/index.js"
  {
  }

  /** The directory of a nested file, and of a file without a directory. */
  lemma DirnameExamples()
    ensures Dirname("tmp/test/index.js") == "tmp/test"
    ensures Dirname("_test.js") == "."
  {
    LastSlashIsLast("tmp/test/index.js", 8);
    assert "tmp/test/index.js"[..9] == "tmp/test/";
    assert LastSlash("tmp/test/index.js") == 8;
  }

  /**
   * A file joined onto a directory has a dirname that starts with that
   * directory, for a non-empty name and a directory without a trailing slash
   * other than ".".
   */
  lemma {:induction false} DirnameOfJoin(dir: string, name: string)
    requires name != "" && dir != "."
    requires dir == "" || dir[|dir| - 1] != '/'
    ensures StartsWith(Dirname(Join(dir, name)), dir)
  {
    if dir != "" {
      var p := Join(dir, name);
      var k := if p == dir + name then |dir| - 1 else |dir|;
      assert p[k] == '/';
      var i := LastSlash(p);
      LastSlashIsLast(p, k);
      assert Dirname(p) == p[..i];
      assert dir <= p[..i];
    }
  }

  /** Different non-empty names join onto the same directory as different paths. */
  lemma JoinInjective(dir: string, a: string, b: string)
    requires a != "" && b != ""
    requires Join(dir, a) == Join(dir, b)
    ensures a == b
  {
    var p := Join(dir, a);
    if dir != "" && dir != "." {
      var k := if dir[|dir| - 1] == '/' then |dir| else |dir| + 1;
      assert a == p[k..] == b;
    }
  }
}

/**
 * POSIX path operations as Python's `posixpath` performs them: `join`,
 * `basename`, `dirname`, `splitext`, `normpath` and `abspath` (the current
 * directory is a parameter).
 */
module Paths {
  import opened Text

  /** `os.path.join(a, b)`: an absolute `b` replaces `a`; a '/' is inserted when needed. */
  function Join(a: string, b: string): (r: string) {
    if StartsWith(b, "/") then b
    else if a == "" || EndsWith(a, "/") then a + b
    else a + "/" + b
  }

  /** The joined path ends with `b`, and is `b` itself when `b` is absolute. */
  lemma JoinEnds(a: string, b: string)
    ensures StartsWith(b, "/") ==> Join(a, b) == b
    ensures EndsWith(Join(a, b), b)
  {
    var r := Join(a, b);
    if !StartsWith(b, "/") {
      assert r[|r| - |b|..] == b;
    }
  }

  /** `os.path.join(a, b, c)`. */
  function Join3(a: string, b: string, c: string): string {
    Join(Join(a, b), c)
  }

  /** `os.path.join(parts[0], parts[1], ...)`. */
  function JoinAll(parts: seq<string>): string
    decreases |parts|
  {
    if parts == [] then ""
    else if |parts| == 1 then parts[0]
    else Join(JoinAll(parts[..|parts| - 1]), parts[|parts| - 1])
  }

  /** `os.path.basename(p)`: what follows the last '/'. */
  function Basename(p: string): (r: string)
    ensures '/' !in r && EndsWith(p, r)
  {
    var k := RFind(p, '/') + 1;
    var r := p[k..];
    assert '/' !in r by {
      forall i | 0 <= i < |r| ensures r[i] != '/' {
        assert r[i] == p[k + i];
      }
    }
    assert |p| - |r| == k;
    r
  }

  function RStripSlashes(s: string): (r: string)
    ensures |r| <= |s| && r == s[..|r|]
  {
    if s != [] && s[|s| - 1] == '/' then RStripSlashes(s[..|s| - 1]) else s
  }

  predicate AllSlashes(s: string) {
    forall i :: 0 <= i < |s| ==> s[i] == '/'
  }

  /** `os.path.dirname(p)`: up to the last '/', trailing slashes removed unless only slashes remain. */
  function Dirname(p: string): string {
    var head := p[..RFind(p, '/') + 1];
    if head != "" && !AllSlashes(head) then RStripSlashes(head) else head
  }

  /** `os.path.splitext(p)`: the extension starts at the last '.' of the last component, unless only dots precede it. */
  function SplitExt(p: string): (r: (string, string))
    ensures r.0 + r.1 == p
    ensures r.1 == "" || (r.1[0] == '.' && '/' !in r.1)
  {
    var sep := RFind(p, '/');
    var dot := RFind(p, '.');
    if dot > sep && exists k :: sep + 1 <= k < dot && p[k] != '.' then
      assert p[..dot] + p[dot..] == p;
      assert forall j :: dot <= j < |p| ==> p[j] != '/';
      (p[..dot], p[dot..])
    else
      assert p + "" == p;
      (p, "")
  }

  /** `os.path.splitext(p)[1]`. */
  function Ext(p: string): string {
    SplitExt(p).1
  }

  /** A name component is kept unless it is the joining filler '' or '.'. */
  function NormComponents(comps: seq<string>, absolute: bool): (r: seq<string>)
    ensures forall i :: 0 <= i < |r| ==> r[i] != "" && r[i] != "."
    decreases |comps|
  {
    if comps == [] then []
    else
      var prior := NormComponents(comps[..|comps| - 1], absolute);
      var c := comps[|comps| - 1];
      if c == "" || c == "." then prior
      else if c != ".." || (!absolute && prior == []) || (prior != [] && prior[|prior| - 1] == "..") then prior + [c]
      else if prior != [] then prior[..|prior| - 1]
      else prior
  }

  /** `os.path.normpath(p)`. */
  function Normpath(p: string): (r: string)
    ensures r != ""
    ensures StartsWith(p, "/") ==> StartsWith(r, "/")
  {
    if p == "" then "."
    else
      var slashes := if StartsWith(p, "//") && !StartsWith(p, "///") then "//"
                     else if StartsWith(p, "/") then "/" else "";
      var body := Text.Join(NormComponents(Split(p, '/'), slashes != ""), "/");
      var r := slashes + body;
      if r == "" then "." else r
  }

  /** `os.path.abspath(p)` with `cwd` standing for `os.getcwd()`. */
  function Abspath(cwd: string, p: string): (r: string)
    ensures StartsWith(cwd, "/") || StartsWith(p, "/") ==> StartsWith(r, "/")
  {
    if StartsWith(p, "/") then Normpath(p) else Normpath(Join(cwd, p))
  }

  /** The last component of a joined path is the name joined on. */
  lemma BasenameOfJoin(dir: string, name: string)
    requires name != "" && '/' !in name
    ensures Basename(Join(dir, name)) == name
  {
    assert !StartsWith(name, "/") by { assert name[0] != '/'; }
    var pre := if dir == "" || EndsWith(dir, "/") then dir else dir + "/";
    assert Join(dir, name) == pre + name;
    assert pre == "" || pre[|pre| - 1] == '/' by {
      if dir != "" && EndsWith(dir, "/") {
        assert dir[|dir| - 1..][0] == dir[|dir| - 1];
      }
    }
    RFindPastSuffix(pre, name, '/');
    assert (pre + name)[|pre|..] == name;
  }

  /** The directory of a path joined from `dir` and a plain name is `dir`. */
  lemma DirnameOfJoin(dir: string, name: string)
    requires dir != "" && dir[|dir| - 1] != '/'
    requires name != "" && '/' !in name
    ensures Dirname(Join(dir, name)) == dir
  {
    assert !StartsWith(name, "/") by { assert name[0] != '/'; }
    assert !EndsWith(dir, "/");
    var j := Join(dir, name);
    assert j == dir + "/" + name;
    assert j[|dir|] == '/';
    forall i | |dir| < i < |j| ensures j[i] != '/' {
      assert j[i] == name[i - |dir| - 1];
    }
    var head := j[..RFind(j, '/') + 1];
    assert head == dir + "/";
    assert !AllSlashes(head) by { assert head[|dir| - 1] != '/'; }
    assert RStripSlashes(head) == RStripSlashes(dir);
  }
}

/**
 * The tooling helpers: directory macros in configured paths, the download
 * of platform dependencies (kept, removed or fetched according to their
 * checksum), the platform initialisation commands, and the copy of newly
 * installed site-packages entries into a build.
 */
module Pewtools {
  import opened Wrappers
  import Text
  import Paths
  import Sets
  import opened Host

  // ---------------------------------------------------------------- macros

  /** `dir_macros`: the project directory, then the tool's own root, in that order. */
  function DirMacros(projectDir: string, pewDir: string): seq<(string, string)> {
    [("PROJECT_DIR", projectDir), ("PEW_DIR", pewDir)]
  }

  /** The placeholder a macro name stands in, `${NAME}`. */
  function Placeholder(name: string): (r: string)
    ensures |r| > 0 && r[0] == '$'
  {
    "${" + name + "}"
  }

  /** `path` with every placeholder of `macros` replaced by its value, the macros taken in order. */
  function Resolved(path: string, macros: seq<(string, string)>): string {
    if macros == [] then path
    else
      var last := macros[|macros| - 1];
      Text.Replace(Resolved(path, macros[..|macros| - 1]), Placeholder(last.0), last.1)
  }

  /** `resolve_macros(path)`. */
  method ResolveMacros(path: string, macros: seq<(string, string)>) returns (output: string)
    ensures output == Resolved(path, macros)
  {
    output := path;
    var k := 0;
    while k < |macros|
      invariant 0 <= k <= |macros|
      invariant output == Resolved(path, macros[..k])
    {
      assert macros[..k + 1][..k] == macros[..k];
      output := Text.Replace(output, Placeholder(macros[k].0), macros[k].1);
      k := k + 1;
    }
    assert macros[..k] == macros;
  }

  /** A pattern starting with '$' cannot occur in text without one. */
  lemma NoDollarNoMatch(s: string, pat: string)
    requires '$' !in s && |pat| > 0 && pat[0] == '$'
    ensures !Text.Contains(s, pat)
  {
    forall i: nat | i <= |s| ensures !Text.MatchAt(s, pat, i) {
      if i + |pat| <= |s| {
        assert s[i..i + |pat|][0] == s[i];
      }
    }
  }

  /** Text without '$' holds no macro and comes back unchanged, whatever the macros' values. */
  lemma {:induction false} ResolvedWithoutDollar(path: string, macros: seq<(string, string)>)
    requires '$' !in path
    ensures Resolved(path, macros) == path
  {
    if macros != [] {
      ResolvedWithoutDollar(path, macros[..|macros| - 1]);
      NoDollarNoMatch(path, Placeholder(macros[|macros| - 1].0));
      Text.ReplaceAbsent(path, Placeholder(macros[|macros| - 1].0), macros[|macros| - 1].1);
    }
  }

  /** The two directory macros are applied one after the other. */
  lemma ResolvedByDirMacros(path: string, projectDir: string, pewDir: string)
    ensures Resolved(path, DirMacros(projectDir, pewDir))
         == Text.Replace(Text.Replace(path, "${PROJECT_DIR}", projectDir), "${PEW_DIR}", pewDir)
  {
    var macros := DirMacros(projectDir, pewDir);
    assert Placeholder("PROJECT_DIR") == "${PROJECT_DIR}";
    assert Placeholder("PEW_DIR") == "${PEW_DIR}";
    assert macros[..1][..0] == [];
    assert Resolved(path, macros[..1]) == Text.Replace(path, "${PROJECT_DIR}", projectDir);
    assert macros[..|macros| - 1] == macros[..1];
  }

  /** The only '$' of `a + pat + b` is the one opening `pat`, so that is the one occurrence replaced. */
  lemma ReplaceSoleDollar(a: string, b: string, pat: string, rep: string)
    requires '$' !in a && '$' !in b && |pat| > 0 && pat[0] == '$'
    ensures Text.Replace(a + pat + b, pat, rep) == a + rep + b
  {
    var s := a + pat + b;
    forall i: nat | i < |a| ensures !Text.MatchAt(s, pat, i) {
      if i + |pat| <= |s| {
        assert s[i..i + |pat|][0] == s[i] == a[i];
      }
    }
    NoDollarNoMatch(b, pat);
    Text.ReplaceOne(a, b, pat, rep);
  }

  /**
   * A pattern opening with '$' that differs from `pat` at some place does
   * not occur in `a + pat + b` when only `pat` holds a '$', and that at its start.
   */
  lemma OtherPlaceholderAbsent(a: string, b: string, pat: string, other: string, j: nat)
    requires '$' !in a && '$' !in b && |pat| > 0 && '$' !in pat[1..]
    requires |other| > 0 && other[0] == '$' && j < |pat| && j < |other| && pat[j] != other[j]
    ensures !Text.Contains(a + pat + b, other)
  {
    var s := a + pat + b;
    forall i: nat | i <= |s| && i + |other| <= |s| ensures !Text.MatchAt(s, other, i) {
      var w := s[i..i + |other|];
      assert w[0] == s[i];
      if i < |a| {
        assert s[i] == a[i];
      } else if i == |a| {
        assert w[j] == s[|a| + j] == pat[j];
      } else if i < |a| + |pat| {
        assert s[i] == pat[i - |a|] == pat[1..][i - |a| - 1];
      } else {
        assert s[i] == b[i - |a| - |pat|];
      }
    }
  }

  /**
   * One `${PROJECT_DIR}` in otherwise macro-free text becomes the project
   * directory; the `${PEW_DIR}` pass that follows finds nothing left to do.
   */
  lemma ResolveProjectDir(a: string, b: string, projectDir: string, pewDir: string)
    requires '$' !in a && '$' !in b && '$' !in projectDir
    ensures Resolved(a + "${PROJECT_DIR}" + b, DirMacros(projectDir, pewDir)) == a + projectDir + b
  {
    ResolvedByDirMacros(a + "${PROJECT_DIR}" + b, projectDir, pewDir);
    ReplaceSoleDollar(a, b, "${PROJECT_DIR}", projectDir);
    NoDollarNoMatch(a + projectDir + b, "${PEW_DIR}");
    Text.ReplaceAbsent(a + projectDir + b, "${PEW_DIR}", pewDir);
  }

  /** One `${PEW_DIR}` in otherwise macro-free text becomes the tool's root; the earlier pass leaves it alone. */
  lemma ResolvePewDir(a: string, b: string, projectDir: string, pewDir: string)
    requires '$' !in a && '$' !in b
    ensures Resolved(a + "${PEW_DIR}" + b, DirMacros(projectDir, pewDir)) == a + pewDir + b
  {
    ResolvedByDirMacros(a + "${PEW_DIR}" + b, projectDir, pewDir);
    var pat := "${PEW_DIR}";
    assert pat[3] == 'E' && "${PROJECT_DIR}"[3] == 'R';
    assert '$' !in pat[1..];
    OtherPlaceholderAbsent(a, b, pat, "${PROJECT_DIR}", 3);
    Text.ReplaceAbsent(a + pat + b, "${PROJECT_DIR}", projectDir);
    ReplaceSoleDollar(a, b, pat, pewDir);
  }

  // ---------------------------------------------------------------- initialize_platform

  /** `pew_cmds`: the commands that prepare a platform; only Android has one. */
  function PewCmds(): map<string, seq<seq<string>>> {
    map["android" := [["/bin/bash", "${PEW_DIR}/native/android/init.sh"]]]
  }

  /** One command with each argument macro-resolved. */
  function ResolvedArgs(cmd: seq<string>, macros: seq<(string, string)>): (r: seq<string>)
    ensures |r| == |cmd| && forall i :: 0 <= i < |cmd| ==> r[i] == Resolved(cmd[i], macros)
  {
    if cmd == [] then [] else ResolvedArgs(cmd[..|cmd| - 1], macros) + [Resolved(cmd[|cmd| - 1], macros)]
  }

  /** Every command of a platform, resolved. */
  function ResolvedCommands(cmds: seq<seq<string>>, macros: seq<(string, string)>): (r: seq<seq<string>>)
    ensures |r| == |cmds| && forall i :: 0 <= i < |cmds| ==> r[i] == ResolvedArgs(cmds[i], macros)
  {
    if cmds == [] then [] else ResolvedCommands(cmds[..|cmds| - 1], macros) + [ResolvedArgs(cmds[|cmds| - 1], macros)]
  }

  /**
   * `check_call` over `all`: `ran` is a non-empty prefix of `all` whose
   * commands all succeeded except the last, which failed.
   */
  predicate StoppedAtFailure(ran: seq<seq<string>>, all: seq<seq<string>>, status: seq<string> -> int) {
    && 0 < |ran| <= |all| && ran == all[..|ran|]
    && (forall i :: 0 <= i < |ran| - 1 ==> status(ran[i]) == 0)
    && status(ran[|ran| - 1]) != 0
  }

  /** The loop building `final_cmd`. */
  method ResolveArgs(cmd: seq<string>, macros: seq<(string, string)>) returns (finalCmd: seq<string>)
    ensures finalCmd == ResolvedArgs(cmd, macros)
  {
    finalCmd := [];
    var i := 0;
    while i < |cmd|
      invariant 0 <= i <= |cmd|
      invariant finalCmd == ResolvedArgs(cmd[..i], macros)
    {
      assert cmd[..i + 1][..i] == cmd[..i];
      var arg := ResolveMacros(cmd[i], macros);
      finalCmd := finalCmd + [arg];
      i := i + 1;
    }
    assert cmd[..i] == cmd;
  }

  /**
   * `initialize_platform(platform_name, ...)`: each configured command runs
   * with its arguments resolved, in order; `check_call` raises at the first
   * that fails, so none after it runs. A platform without commands runs
   * nothing.
   */
  method InitializePlatform(platform: string, cmds: map<string, seq<seq<string>>>, macros: seq<(string, string)>, host: Machine)
    returns (r: Result<()>)
    modifies host
    ensures platform !in cmds ==> r.Ok? && host.trace == old(host.trace)
    ensures host.files == old(host.files) && host.dirs == old(host.dirs)
    ensures Removals(host.trace) == Removals(old(host.trace))
    ensures |Commands(host.trace)| >= |Commands(old(host.trace))|
    ensures Commands(host.trace)[..|Commands(old(host.trace))|] == Commands(old(host.trace))
    ensures platform in cmds && r.Ok? ==>
      Commands(host.trace) == Commands(old(host.trace)) + ResolvedCommands(cmds[platform], macros)
      && forall i :: 0 <= i < |cmds[platform]| ==> host.status(ResolvedArgs(cmds[platform][i], macros)) == 0
    ensures platform in cmds && r.Err? ==>
      r.error.Raised? && StoppedAtFailure(Commands(host.trace)[|Commands(old(host.trace))|..], ResolvedCommands(cmds[platform], macros), host.status)
  {
    if platform !in cmds {
      return Ok(());
    }
    r := RunEach(cmds[platform], macros, host);
  }

  /** The command loop of `initialize_platform`: each command resolved and run with `check_call`, in order, until one fails. */
  method RunEach(todo: seq<seq<string>>, macros: seq<(string, string)>, host: Machine) returns (r: Result<()>)
    modifies host
    ensures host.files == old(host.files) && host.dirs == old(host.dirs)
    ensures Removals(host.trace) == Removals(old(host.trace))
    ensures r.Ok? ==>
      && Commands(host.trace) == Commands(old(host.trace)) + ResolvedCommands(todo, macros)
      && AllSucceed(ResolvedCommands(todo, macros), host.status)
    ensures r.Err? ==>
      && r.error.Raised? && |Commands(host.trace)| >= |Commands(old(host.trace))|
      && Commands(host.trace)[..|Commands(old(host.trace))|] == Commands(old(host.trace))
      && StoppedAtFailure(Commands(host.trace)[|Commands(old(host.trace))|..], ResolvedCommands(todo, macros), host.status)
  {
    ghost var before := Commands(host.trace);
    ghost var status := host.status;
    var k := 0;
    while k < |todo|
      invariant 0 <= k <= |todo|
      invariant Commands(host.trace) == before + ResolvedCommands(todo[..k], macros)
      invariant AllSucceed(ResolvedCommands(todo[..k], macros), status)
      invariant host.files == old(host.files) && host.dirs == old(host.dirs)
      invariant Removals(host.trace) == Removals(old(host.trace))
    {
      var finalCmd := ResolveArgs(todo[k], macros);
      ResolvedSnoc(todo, k, macros);
      ghost var done := ResolvedCommands(todo[..k], macros);
      var code := host.Run(finalCmd);
      assert Commands(host.trace) == before + done + [finalCmd];
      if code != 0 {
        RanUntilFailure(before, todo, k, macros, status);
        return Err(Raised("CalledProcessError"));
      }
      AllSucceedSnoc(done, finalCmd, status);
      assert before + done + [finalCmd] == before + (done + [finalCmd]);
      k := k + 1;
    }
    assert todo[..k] == todo;
    r := Ok(());
  }

  /** The resolved commands of a prefix one longer. */
  lemma ResolvedSnoc(cmds: seq<seq<string>>, k: nat, macros: seq<(string, string)>)
    requires k < |cmds|
    ensures ResolvedCommands(cmds[..k + 1], macros) == ResolvedCommands(cmds[..k], macros) + [ResolvedArgs(cmds[k], macros)]
  {
    assert cmds[..k + 1][..k] == cmds[..k];
  }

  /** The resolved commands of a prefix are that prefix of the resolved commands. */
  lemma {:induction false} ResolvedPrefix(cmds: seq<seq<string>>, n: nat, macros: seq<(string, string)>)
    requires n <= |cmds|
    ensures ResolvedCommands(cmds, macros)[..n] == ResolvedCommands(cmds[..n], macros)
    decreases |cmds|
  {
    if n < |cmds| {
      var init := cmds[..|cmds| - 1];
      ResolvedPrefix(init, n, macros);
      assert init[..n] == cmds[..n];
      var r := ResolvedCommands(cmds, macros);
      assert r[..n] == ResolvedCommands(init, macros)[..n];
    } else {
      assert cmds[..n] == cmds;
    }
  }

  /**
   * Running the resolved commands before `k`, which succeeded, and then the
   * failing `k`-th is stopping at that failure.
   */
  lemma RanUntilFailure(before: seq<seq<string>>, cmds: seq<seq<string>>, k: nat, macros: seq<(string, string)>, status: seq<string> -> int)
    requires k < |cmds| && AllSucceed(ResolvedCommands(cmds[..k], macros), status)
    requires status(ResolvedArgs(cmds[k], macros)) != 0
    ensures var ran := before + ResolvedCommands(cmds[..k], macros) + [ResolvedArgs(cmds[k], macros)];
      |ran| >= |before| && ran[..|before|] == before && StoppedAtFailure(ran[|before|..], ResolvedCommands(cmds, macros), status)
  {
    var done := ResolvedCommands(cmds[..k], macros);
    var last := ResolvedArgs(cmds[k], macros);
    var tried := done + [last];
    assert tried == ResolvedCommands(cmds[..k + 1], macros) by {
      ResolvedSnoc(cmds, k, macros);
    }
    ResolvedPrefix(cmds, k + 1, macros);
    Sets.AppendAssoc(before, done, [last]);
    Sets.DropPrefix(before, tried);
    assert forall i :: 0 <= i < k ==> tried[i] == done[i];
  }

  /** Preparing Android runs exactly its init script, below the tool's root. */
  lemma AndroidInitCommand(projectDir: string, pewDir: string)
    ensures ResolvedCommands(PewCmds()["android"], DirMacros(projectDir, pewDir)) == [["/bin/bash", pewDir + "/native/android/init.sh"]]
  {
    var macros := DirMacros(projectDir, pewDir);
    var script := "/native/android/init.sh";
    var arg := "${PEW_DIR}/native/android/init.sh";
    assert arg == "" + "${PEW_DIR}" + script;
    ResolvePewDir("", script, projectDir, pewDir);
    assert Resolved(arg, macros) == pewDir + script by {
      assert "" + pewDir + script == pewDir + script;
    }
    ResolvedWithoutDollar("/bin/bash", macros);
    ResolvedOnePair("/bin/bash", arg, macros);
    assert PewCmds()["android"] == [["/bin/bash", arg]];
  }

  /** A platform with one two-word command resolves each of its two words. */
  lemma ResolvedOnePair(a: string, b: string, macros: seq<(string, string)>)
    ensures ResolvedCommands([[a, b]], macros) == [[Resolved(a, macros), Resolved(b, macros)]]
  {
    var cmds := [[a, b]];
    assert cmds[..0] == [];
    assert ResolvedArgs([a, b], macros) == [Resolved(a, macros), Resolved(b, macros)];
  }

  // ---------------------------------------------------------------- dependencies

  /** One entry of `pew_deps`: where to download from, where to put it, and its MD5 checksum if known. */
  datatype Dep = Dep(url: string, destDir: string, checksum: Option<string>)

  /** `pew_deps`: only iOS has a dependency, the Xcode project template. */
  function PewDeps(): map<string, seq<(string, Dep)>> {
    map["ios" := [("XCodeTemplate", Dep(
      "https://github.com/kollivier/PythonistaAppTemplate/archive/master.zip",
      "${PROJECT_DIR}/native/ios",
      Some("5854ef7719b4c7bfab0b08052025e3ff")))]]
  }

  /** `url[url.rfind("/") + 1:]`: what follows the last '/', or the whole URL without one. */
  function DownloadName(url: string): (r: string)
    ensures '/' !in r && Text.EndsWith(url, r)
    ensures '/' !in url ==> r == url
  {
    var k := Text.RFind(url, '/') + 1;
    var r := url[k..];
    assert forall j :: 0 <= j < |r| ==> r[j] == url[k + j];
    assert url[|url| - |r|..] == r;
    r
  }

  /** Where a dependency is stored: its download name in its macro-resolved directory. */
  function OutputFile(dep: Dep, macros: seq<(string, string)>): string {
    Paths.Join(Resolved(dep.destDir, macros), DownloadName(dep.url))
  }

  /** The shell command `os.system` runs to unpack an archive, spaces escaped. */
  function UnzipCommand(file: string, dir: string): seq<string> {
    ["/bin/sh", "-c", "unzip -o " + Text.Replace(file, " ", "\\ ") + " -d " + Text.Replace(dir, " ", "\\ ")]
  }

  /** The file at `out` is already there and its checksum matches, so it is kept. */
  predicate KeptAsIs(dep: Dep, out: string, files: map<string, string>, md5: string -> string) {
    out in files && dep.checksum.Some? && md5(files[out]) == dep.checksum.value
  }

  /** The file at `out` is there but its checksum differs, so it is removed and fetched again. */
  predicate Stale(dep: Dep, out: string, files: map<string, string>, md5: string -> string) {
    out in files && dep.checksum.Some? && md5(files[out]) != dep.checksum.value
  }

  /**
   * Makes sure the output directory exists and settles whether the file
   * already there is kept: a checksum match keeps it, a mismatch removes it.
   * Reading a directory in the file's place raises.
   */
  method CheckExisting(dep: Dep, outDir: string, out: string, md5: string -> string, host: Machine)
    returns (r: Result<bool>)
    modifies host
    ensures r.Ok? ==> (r.value <==> !KeptAsIs(dep, out, old(host.files), md5))
    ensures KeptAsIs(dep, out, old(host.files), md5) ==> host.files == old(host.files) && Removals(host.trace) == Removals(old(host.trace))
    ensures Stale(dep, out, old(host.files), md5) ==> host.files == old(host.files) - {out} && Removals(host.trace) == Removals(old(host.trace)) + [out]
    ensures !Stale(dep, out, old(host.files), md5) ==> host.files == old(host.files) && Removals(host.trace) == Removals(old(host.trace))
    ensures r.Err? ==> out !in old(host.files) && dep.checksum.Some? && r.error == Raised("IsADirectoryError")
    ensures r.Err? ==> out in old(host.dirs) || out == outDir
    ensures host.dirs == old(host.dirs) + (if outDir in old(host.dirs) || outDir in old(host.files) then {} else {outDir})
    ensures Commands(host.trace) == Commands(old(host.trace))
  {
    if !host.Exists(outDir) {
      host.MakeDirs(outDir);
    }
    if host.Exists(out) && dep.checksum.Some? {
      if !host.IsFile(out) {
        return Err(Raised("IsADirectoryError"));
      }
      if md5(host.files[out]) == dep.checksum.value {
        return Ok(false);
      }
      host.RemoveFile(out);
    }
    r := Ok(true);
  }

  /** What `download_file` raises when the answer is not a 200 or the connection fails. */
  const DownloadFailed := Raised("Download failed")

  /**
   * The download step: only when nothing is at `out` and the file was not
   * kept; a failed download raises, a fetched file whose checksum differs
   * raises, and so does one whose dependency has no checksum to compare with.
   */
  method Download(dep: Dep, out: string, needsDownload: bool, md5: string -> string, fetch: string -> Option<string>, host: Machine)
    returns (r: Result<()>)
    modifies host
    ensures host.Exists(out) == (old(host.Exists(out)) || (needsDownload && fetch(dep.url).Some?))
    ensures old(host.Exists(out)) || !needsDownload ==> host.files == old(host.files) && host.trace == old(host.trace) && r.Ok?
    ensures !old(host.Exists(out)) && needsDownload && fetch(dep.url).None? ==>
      host.files == old(host.files) && host.trace == old(host.trace) && r == Err(DownloadFailed)
    ensures !old(host.Exists(out)) && needsDownload && fetch(dep.url).Some? ==>
      host.files == old(host.files)[out := fetch(dep.url).value]
      && (r.Ok? <==> dep.checksum.Some? && md5(fetch(dep.url).value) == dep.checksum.value)
    ensures r.Err? && dep.checksum.None? && fetch(dep.url).Some? ==> r.error == KeyError("checksum")
    ensures host.dirs == old(host.dirs)
    ensures Commands(host.trace) == Commands(old(host.trace)) && Removals(host.trace) == Removals(old(host.trace))
  {
    if !host.Exists(out) && needsDownload {
      var got := fetch(dep.url);
      if got.None? {
        return Err(DownloadFailed);
      }
      host.WriteFile(out, got.value);
      if dep.checksum.None? {
        return Err(KeyError("checksum"));
      }
      if md5(got.value) != dep.checksum.value {
        return Err(Raised("Dependency did not download correctly"));
      }
    }
    r := Ok(());
  }

  /**
   * One dependency of `get_dependencies_for_platform`, stored at `out` in
   * `outDir`: a file already present with a matching checksum is kept and
   * not fetched again; one with a differing checksum is removed and fetched
   * again; a fetched file must match the checksum. A `.zip` is unpacked in
   * its directory.
   */
  method FetchTo(dep: Dep, outDir: string, out: string, md5: string -> string, fetch: string -> Option<string>,
                 windows: bool, host: Machine) returns (r: Result<()>)
    modifies host
    ensures KeptAsIs(dep, out, old(host.files), md5) ==> r.Ok? && host.files == old(host.files) && Removals(host.trace) == Removals(old(host.trace))
    ensures Stale(dep, out, old(host.files), md5) ==> Removals(host.trace) == Removals(old(host.trace)) + [out]
    ensures Stale(dep, out, old(host.files), md5) && fetch(dep.url).Some? && out !in old(host.dirs) ==>
      host.files == (old(host.files) - {out})[out := fetch(dep.url).value]
    ensures r.Ok? && dep.checksum.Some? && out in host.files ==> md5(host.files[out]) == dep.checksum.value
    ensures r.Ok? && out in old(host.files) && dep.checksum.None? ==> host.files == old(host.files)
    ensures r.Ok? && Paths.Ext(out) == ".zip" && !windows ==> Commands(host.trace) == Commands(old(host.trace)) + [UnzipCommand(out, outDir)]
    ensures r.Err? || Paths.Ext(out) != ".zip" || windows ==> Commands(host.trace) == Commands(old(host.trace))
    ensures out !in old(host.dirs) && (out !in old(host.files) || Stale(dep, out, old(host.files), md5)) &&
            out != outDir && fetch(dep.url).None? ==>
      r == Err(DownloadFailed)
  {
    var needsDownload := CheckExisting(dep, outDir, out, md5, host);
    if needsDownload.Err? {
      return Err(needsDownload.error);
    }
    var fetched := Download(dep, out, needsDownload.value, md5, fetch, host);
    if fetched.Err? {
      return fetched;
    }
    if Paths.Ext(out) == ".zip" {
      if windows {
        host.Stage("zipfile.extractall", outDir, []);
      } else {
        var status := host.Run(UnzipCommand(out, outDir));
      }
    }
    r := Ok(());
  }

  /**
   * The dependency has to be fetched, because nothing is at its output file
   * or the file there is stale, and the fetch fails.
   */
  predicate FailsToDownload(dep: Dep, macros: seq<(string, string)>, files: map<string, string>, dirs: set<string>,
                            md5: string -> string, fetch: string -> Option<string>) {
    var out := OutputFile(dep, macros);
    && out !in dirs
    && (out !in files || Stale(dep, out, files, md5))
    && out != Resolved(dep.destDir, macros)
    && fetch(dep.url).None?
  }

  /** One dependency, stored where `OutputFile` says, with the outcomes of `FetchTo`. */
  method FetchDependency(dep: Dep, macros: seq<(string, string)>, md5: string -> string, fetch: string -> Option<string>,
                         windows: bool, host: Machine) returns (r: Result<()>)
    modifies host
    ensures KeptAsIs(dep, OutputFile(dep, macros), old(host.files), md5) ==> r.Ok? && host.files == old(host.files)
    ensures r.Ok? && dep.checksum.Some? && OutputFile(dep, macros) in host.files ==>
      md5(host.files[OutputFile(dep, macros)]) == dep.checksum.value
    ensures FailsToDownload(dep, macros, old(host.files), old(host.dirs), md5, fetch) ==> r == Err(DownloadFailed)
  {
    var outDir := ResolveMacros(dep.destDir, macros);
    var out := Paths.Join(outDir, DownloadName(dep.url));
    r := FetchTo(dep, outDir, out, md5, fetch, windows, host);
  }

  /**
   * `get_dependencies_for_platform(platform_name)`: each dependency of the
   * platform in turn, stopping at the first that raises; a platform without
   * dependencies does nothing at all.
   */
  method GetDependenciesForPlatform(platform: string, table: map<string, seq<(string, Dep)>>, macros: seq<(string, string)>,
                                    md5: string -> string, fetch: string -> Option<string>, windows: bool, host: Machine)
    returns (r: Result<()>)
    modifies host
    ensures platform !in table ==> r.Ok? && host.trace == old(host.trace) && host.files == old(host.files) && host.dirs == old(host.dirs)
    ensures platform in table && |table[platform]| == 1 ==>
      var dep := table[platform][0].1;
      KeptAsIs(dep, OutputFile(dep, macros), old(host.files), md5) ==> r.Ok? && host.files == old(host.files)
    ensures (platform in table && |table[platform]| >= 1 &&
             FailsToDownload(table[platform][0].1, macros, old(host.files), old(host.dirs), md5, fetch)) ==>
      r == Err(DownloadFailed)
  {
    if platform !in table {
      return Ok(());
    }
    var deps := table[platform];
    var k := 0;
    while k < |deps|
      invariant 0 <= k <= |deps|
      invariant |deps| == 1 && KeptAsIs(deps[0].1, OutputFile(deps[0].1, macros), old(host.files), md5) ==> host.files == old(host.files)
      invariant k == 0 ==> host.files == old(host.files) && host.dirs == old(host.dirs)
      invariant k > 0 ==> !FailsToDownload(deps[0].1, macros, old(host.files), old(host.dirs), md5, fetch)
    {
      var one := FetchDependency(deps[k].1, macros, md5, fetch, windows, host);
      if one.Err? {
        return one;
      }
      k := k + 1;
    }
    r := Ok(());
  }

  /** The Xcode template's download is named `master.zip`. */
  lemma TemplateDownloadName()
    ensures DownloadName(PewDeps()["ios"][0].1.url) == "master.zip"
  {
    var pre := "https://github.com/kollivier/PythonistaAppTemplate/archive/";
    var url := pre + "master.zip";
    assert PewDeps()["ios"][0].1.url == url;
    Text.RFindPastSuffix(pre, "master.zip", '/');
    assert Text.RFind(pre, '/') == |pre| - 1;
    assert url[|pre|..] == "master.zip";
  }

  /** The Xcode template is stored as `master.zip` in the project's `native/ios` directory. */
  lemma TemplateDestination(projectDir: string, pewDir: string)
    requires '$' !in projectDir
    ensures OutputFile(PewDeps()["ios"][0].1, DirMacros(projectDir, pewDir)) == Paths.Join(projectDir + "/native/ios", "master.zip")
  {
    TemplateDownloadName();
    TemplateDirectory(projectDir, pewDir);
  }

  /** The Xcode template's directory resolves below the project directory. */
  lemma TemplateDirectory(projectDir: string, pewDir: string)
    requires '$' !in projectDir
    ensures Resolved(PewDeps()["ios"][0].1.destDir, DirMacros(projectDir, pewDir)) == projectDir + "/native/ios"
  {
    assert PewDeps()["ios"][0].1.destDir == "" + "${PROJECT_DIR}" + "/native/ios";
    ResolveProjectDir("", "/native/ios", projectDir, pewDir);
  }

  // ---------------------------------------------------------------- copy_deps_to_build

  /** The entries of `after` that `before` does not list, in `after`'s order. */
  function NewEntries(after: seq<string>, before: seq<string>): (r: seq<string>)
    ensures |r| <= |after|
  {
    if after == [] then []
    else NewEntries(after[..|after| - 1], before) + (if after[|after| - 1] in before then [] else [after[|after| - 1]])
  }

  /** An entry is copied exactly when it is listed after the installs and was not listed before them. */
  lemma {:induction false} NewEntriesExactly(after: seq<string>, before: seq<string>, n: string)
    ensures n in NewEntries(after, before) <==> n in after && n !in before
  {
    if after != [] {
      NewEntriesExactly(after[..|after| - 1], before, n);
      assert after == after[..|after| - 1] + [after[|after| - 1]];
    }
  }

  /** The command installing one requirement into the virtual environment. */
  function PipInstall(venv: string, dep: string): seq<string> {
    [Paths.Join(Paths.Join(venv, "bin"), "pip"), "install", dep]
  }

  /** The install commands of all requirements, in order. */
  function PipInstalls(venv: string, deps: seq<string>): (r: seq<seq<string>>)
    ensures |r| == |deps|
  {
    if deps == [] then [] else PipInstalls(venv, deps[..|deps| - 1]) + [PipInstall(venv, deps[|deps| - 1])]
  }

  /** The install command at position `k` is the `k`-th requirement's own command. */
  lemma {:induction false} PipInstallsAt(venv: string, deps: seq<string>, k: nat)
    requires k < |deps|
    ensures PipInstalls(venv, deps)[k] == PipInstall(venv, deps[k])
    decreases |deps|
  {
    var init := deps[..|deps| - 1];
    if k < |deps| - 1 {
      PipInstallsAt(venv, init, k);
      assert init[k] == deps[k];
    }
  }


  /** The `(source, destination)` pairs of the copies recorded in `t`, in order. */
  function Copies(t: seq<Event>): seq<(string, string)> {
    if t == [] then []
    else
      var e := t[|t| - 1];
      Copies(t[..|t| - 1]) + (if e.CopiedFile? || e.CopiedTree? then [(e.src, e.dst)] else [])
  }

  lemma CopiesSnoc(t: seq<Event>, e: Event)
    ensures Copies(t + [e]) == Copies(t) + (if e.CopiedFile? || e.CopiedTree? then [(e.src, e.dst)] else [])
  {
    assert (t + [e])[..|t|] == t;
  }

  /** The copy of each named entry from `site` to `dest`. */
  function CopyPairs(site: string, dest: string, names: seq<string>): (r: seq<(string, string)>)
    ensures |r| == |names| && forall i :: 0 <= i < |names| ==> r[i] == (Paths.Join(site, names[i]), Paths.Join(dest, names[i]))
  {
    if names == [] then [] else CopyPairs(site, dest, names[..|names| - 1]) + [(Paths.Join(site, names[|names| - 1]), Paths.Join(dest, names[|names| - 1]))]
  }

  /** One install command. */
  method RunInstall(venv: string, dep: string, host: Machine) returns (code: int)
    modifies host
    ensures code == host.status(PipInstall(venv, dep))
    ensures host.files == old(host.files) && host.dirs == old(host.dirs)
    ensures Commands(host.trace) == Commands(old(host.trace)) + [PipInstall(venv, dep)]
    ensures Removals(host.trace) == Removals(old(host.trace)) && Copies(host.trace) == Copies(old(host.trace))
    ensures old(host.trace) <= host.trace
  {
    CopiesSnoc(host.trace, Ran(PipInstall(venv, dep)));
    code := host.Run(PipInstall(venv, dep));
  }

  /** The commands `after` adds to `before` are the installs of the first few requirements, in order. */
  predicate InstallsBegun(before: seq<seq<string>>, after: seq<seq<string>>, venv: string, deps: seq<string>) {
    exists k :: 0 <= k <= |deps| && after == before + PipInstalls(venv, deps[..k])
  }

  /** No command added is the empty beginning of the installs. */
  lemma NoInstallsBegun(cmds: seq<seq<string>>, venv: string, deps: seq<string>)
    ensures InstallsBegun(cmds, cmds, venv, deps)
  {
    assert deps[..0] == [] && cmds + PipInstalls(venv, deps[..0]) == cmds;
  }

  /** The installs, in order, stopping at the first that fails. */
  method InstallAll(venv: string, deps: seq<string>, host: Machine) returns (r: Result<()>)
    modifies host
    ensures host.files == old(host.files) && host.dirs == old(host.dirs)
    ensures Removals(host.trace) == Removals(old(host.trace)) && Copies(host.trace) == Copies(old(host.trace))
    ensures InstallsBegun(Commands(old(host.trace)), Commands(host.trace), venv, deps)
    ensures r.Ok? ==> Commands(host.trace) == Commands(old(host.trace)) + PipInstalls(venv, deps)
    ensures r.Ok? <==> forall i :: 0 <= i < |deps| ==> host.status(PipInstall(venv, deps[i])) == 0
    ensures r.Err? ==> r.error.Raised?
    ensures old(host.trace) <= host.trace
  {
    ghost var cmds0 := Commands(host.trace);
    ghost var removals0 := Removals(host.trace);
    ghost var copies0 := Copies(host.trace);
    ghost var status := host.status;
    var k := 0;
    while k < |deps|
      invariant 0 <= k <= |deps|
      invariant Commands(host.trace) == cmds0 + PipInstalls(venv, deps[..k])
      invariant AllSucceed(PipInstalls(venv, deps[..k]), status)
      invariant host.files == old(host.files) && host.dirs == old(host.dirs)
      invariant Removals(host.trace) == removals0 && Copies(host.trace) == copies0
      invariant old(host.trace) <= host.trace
    {
      InstallsSnoc(venv, deps, k);
      var code := RunInstall(venv, deps[k], host);
      if code != 0 {
        assert Commands(host.trace) == cmds0 + PipInstalls(venv, deps[..k + 1]);
        return Err(Raised("PackageInstallationException"));
      }
      AllSucceedSnoc(PipInstalls(venv, deps[..k]), PipInstall(venv, deps[k]), status);
      k := k + 1;
    }
    assert deps[..k] == deps;
    assert Commands(host.trace) == cmds0 + PipInstalls(venv, deps[..|deps|]);
    forall i | 0 <= i < |deps| ensures status(PipInstall(venv, deps[i])) == 0 {
      PipInstallsAt(venv, deps, i);
    }
    r := Ok(());
  }

  /** Every command of the list exits with status 0. */
  predicate AllSucceed(cmds: seq<seq<string>>, status: seq<string> -> int) {
    forall i :: 0 <= i < |cmds| ==> status(cmds[i]) == 0
  }

  lemma AllSucceedSnoc(cmds: seq<seq<string>>, c: seq<string>, status: seq<string> -> int)
    requires AllSucceed(cmds, status) && status(c) == 0
    ensures AllSucceed(cmds + [c], status)
  {
    assert forall i :: 0 <= i < |cmds| ==> (cmds + [c])[i] == cmds[i];
  }

  /** The install commands of a prefix one longer. */
  lemma InstallsSnoc(venv: string, deps: seq<string>, k: nat)
    requires k < |deps|
    ensures PipInstalls(venv, deps[..k + 1]) == PipInstalls(venv, deps[..k]) + [PipInstall(venv, deps[k])]
  {
    assert deps[..k + 1][..k] == deps[..k];
  }

  /** The files and directories after one entry is copied: a file with `copy2`, anything else with `copytree`. */
  function CopyEntryState(files: map<string, string>, dirs: set<string>, full: string, out: string): (map<string, string>, set<string>) {
    if full in files then (files[out := files[full]], dirs)
    else (files + Rebased(files, full, out), dirs + {out})
  }

  /** The files and directories after the named entries are copied from `site` to `dest`, one after another. */
  function CopiedState(files: map<string, string>, dirs: set<string>, site: string, dest: string, names: seq<string>): (map<string, string>, set<string>) {
    if names == [] then (files, dirs)
    else
      var st := CopiedState(files, dirs, site, dest, names[..|names| - 1]);
      var n := names[|names| - 1];
      CopyEntryState(st.0, st.1, Paths.Join(site, n), Paths.Join(dest, n))
  }

  /** One entry copied, as a file or as a tree according to what is at `full`. */
  method CopyEntry(full: string, out: string, host: Machine)
    modifies host
    ensures (host.files, host.dirs) == CopyEntryState(old(host.files), old(host.dirs), full, out)
    ensures Copies(host.trace) == Copies(old(host.trace)) + [(full, out)]
    ensures Commands(host.trace) == Commands(old(host.trace)) && Removals(host.trace) == Removals(old(host.trace))
    ensures old(host.trace) <= host.trace
  {
    if host.IsFile(full) {
      CopiesSnoc(host.trace, CopiedFile(full, out));
      host.CopyFile(full, out);
    } else {
      CopiesSnoc(host.trace, CopiedTree(full, out));
      host.CopyTree(full, out);
    }
  }

  /** The copy loop: every entry new since the listing before the installs goes to `dest`. */
  method CopyNew(site: string, dest: string, after: seq<string>, before: seq<string>, host: Machine)
    modifies host
    ensures Copies(host.trace) == Copies(old(host.trace)) + CopyPairs(site, dest, NewEntries(after, before))
    ensures (host.files, host.dirs) == CopiedState(old(host.files), old(host.dirs), site, dest, NewEntries(after, before))
    ensures Commands(host.trace) == Commands(old(host.trace)) && Removals(host.trace) == Removals(old(host.trace))
    ensures old(host.trace) <= host.trace
  {
    var k := 0;
    while k < |after|
      invariant 0 <= k <= |after|
      invariant Copies(host.trace) == Copies(old(host.trace)) + CopyPairs(site, dest, NewEntries(after[..k], before))
      invariant (host.files, host.dirs) == CopiedState(old(host.files), old(host.dirs), site, dest, NewEntries(after[..k], before))
      invariant Commands(host.trace) == Commands(old(host.trace)) && Removals(host.trace) == Removals(old(host.trace))
      invariant old(host.trace) <= host.trace
    {
      NewEntriesSnoc(after, k, before);
      CopyIfNew(site, dest, after[k], before, NewEntries(after[..k], before), old(host.files), old(host.dirs), old(host.trace), host);
      k := k + 1;
    }
    assert after[..k] == after;
  }

  /** One step of the copy loop: `path` is copied unless it was listed before the installs. */
  method CopyIfNew(site: string, dest: string, path: string, before: seq<string>, ghost done: seq<string>,
                   ghost files: map<string, string>, ghost dirs: set<string>, ghost trace: seq<Event>, host: Machine)
    requires Copies(host.trace) == Copies(trace) + CopyPairs(site, dest, done)
    requires (host.files, host.dirs) == CopiedState(files, dirs, site, dest, done)
    modifies host
    ensures var next := done + (if path in before then [] else [path]);
      Copies(host.trace) == Copies(trace) + CopyPairs(site, dest, next) &&
      (host.files, host.dirs) == CopiedState(files, dirs, site, dest, next)
    ensures Commands(host.trace) == Commands(old(host.trace)) && Removals(host.trace) == Removals(old(host.trace))
    ensures old(host.trace) <= host.trace
  {
    if path !in before {
      var full := Paths.Join(site, path);
      var out := Paths.Join(dest, path);
      CopyStepSnoc(site, dest, done, path, files, dirs);
      CopyEntry(full, out, host);
      Sets.AppendAssoc(Copies(trace), CopyPairs(site, dest, done), [(full, out)]);
    } else {
      assert done + [] == done;
    }
  }

  lemma NewEntriesSnoc(after: seq<string>, k: nat, before: seq<string>)
    requires k < |after|
    ensures NewEntries(after[..k + 1], before) == NewEntries(after[..k], before) + (if after[k] in before then [] else [after[k]])
  {
    assert after[..k + 1][..k] == after[..k];
  }

  /** Copying one more name adds its pair to the copies and its entry to the state. */
  lemma CopyStepSnoc(site: string, dest: string, done: seq<string>, path: string, files: map<string, string>, dirs: set<string>)
    ensures CopyPairs(site, dest, done + [path]) == CopyPairs(site, dest, done) + [(Paths.Join(site, path), Paths.Join(dest, path))]
    ensures var st := CopiedState(files, dirs, site, dest, done);
      CopiedState(files, dirs, site, dest, done + [path]) == CopyEntryState(st.0, st.1, Paths.Join(site, path), Paths.Join(dest, path))
  {
    assert (done + [path])[..|done|] == done;
  }

  /**
   * `copy_deps_to_build(deps, build_dir, dest_dir)`: the site-packages
   * directory of the build's virtual environment is listed, the
   * requirements are installed, and only the entries that were not listed
   * before the installs are copied to `dest_dir`. `sites` is what the glob
   * for the site-packages directory finds; `before` and `after` are the
   * directory listings around the installs. With no site-packages
   * directory, indexing the empty glob raises before anything is installed.
   */
  method CopyDepsToBuild(deps: seq<string>, buildDir: string, destDir: string, sites: seq<string>,
                         before: seq<string>, after: seq<string>, host: Machine) returns (r: Result<()>)
    modifies host
    ensures sites == [] ==> r.Err? && host.trace == old(host.trace) && host.files == old(host.files)
    ensures r.Ok? ==> sites != [] && Copies(host.trace) == Copies(old(host.trace)) + CopyPairs(sites[0], destDir, NewEntries(after, before))
    ensures r.Ok? ==> (host.files, host.dirs) == CopiedState(old(host.files), old(host.dirs), sites[0], destDir, NewEntries(after, before))
    ensures r.Ok? ==> Commands(host.trace) == Commands(old(host.trace)) + PipInstalls(Paths.Join(buildDir, "venv"), deps)
    ensures sites != [] ==> (r.Ok? <==> forall i :: 0 <= i < |deps| ==> host.status(PipInstall(Paths.Join(buildDir, "venv"), deps[i])) == 0)
    ensures r.Err? ==> Copies(host.trace) == Copies(old(host.trace)) && host.files == old(host.files)
    ensures Removals(host.trace) == Removals(old(host.trace))
    ensures InstallsBegun(Commands(old(host.trace)), Commands(host.trace), Paths.Join(buildDir, "venv"), deps)
    ensures r.Err? ==> r.error.Raised?
    ensures old(host.trace) <= host.trace
  {
    var venv := Paths.Join(buildDir, "venv");
    if sites == [] {
      assert deps[..0] == [];
      return Err(Raised("IndexError: list index out of range"));
    }
    var site := sites[0];
    var installed := InstallAll(venv, deps, host);
    if installed.Err? {
      return installed;
    }
    CopyNew(site, destDir, after, before, host);
    r := Ok(());
  }
}

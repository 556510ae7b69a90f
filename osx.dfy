/**
 * The macOS build controller: a py2app build through distutils, then (when
 * the descriptor asks for it) the removal of the bundled Python sources and
 * code signing of the bundle's inner items before the bundle itself; `dist`
 * packs the signed bundle into a dmg with `dmgbuild`.
 */
module Osx {
  import opened Wrappers
  import opened Json
  import Text
  import Paths
  import opened Host
  import opened Base
  import opened Sets
  import Utils

  /** `app_ext` of the macOS controller. */
  const AppExt: string := ".app"

  /** Where the controller's own files (the dmg settings template) are installed. */
  datatype OsxWorld = OsxWorld(filesDir: string)

  // ---------------------------------------------------------------- codesign

  /** The signing command of `codesign_mac`. */
  function SignCommand(path: string, identity: string): seq<string> {
    ["codesign", "--force", "-vvv", "--verbose=4", "--sign", identity, path]
  }

  /** The verification command of `codesign_mac`. */
  function VerifyCommand(path: string): seq<string> {
    ["codesign", "--verify", "--deep", "--verbose=4", path]
  }

  /** The commands `codesign_mac(path, identity)` starts: the verification only after a successful signing. */
  function Attempt(path: string, identity: string, status: seq<string> -> int): seq<seq<string>> {
    [SignCommand(path, identity)] + (if status(SignCommand(path, identity)) == 0 then [VerifyCommand(path)] else [])
  }

  /** The last two commands of `cmds` signed `path` and verified the signature. */
  predicate EndsSigning(cmds: seq<seq<string>>, path: string, identity: string) {
    |cmds| >= 2 && cmds[|cmds| - 2] == SignCommand(path, identity) && cmds[|cmds| - 1] == VerifyCommand(path)
  }

  /** `path` is signed and the signature verifies. */
  predicate Signed(path: string, identity: string, status: seq<string> -> int) {
    status(SignCommand(path, identity)) == 0 && status(VerifyCommand(path)) == 0
  }

  /**
   * `codesign_mac(path, identity)`: a failed signing exits before the
   * verification runs; a failed verification exits too.
   */
  method CodesignMac(path: string, identity: string, host: Machine) returns (r: Result<()>)
    modifies host
    ensures host.dirs == old(host.dirs) && host.files == old(host.files)
    ensures Commands(host.trace) == Commands(old(host.trace)) + Attempt(path, identity, host.status)
    ensures Removals(host.trace) == Removals(old(host.trace))
    ensures r.Ok? <==> Signed(path, identity, host.status)
    ensures r.Err? ==> r.error == SystemExit(1)
    ensures SignedPaths(Commands(host.trace)) == SignedPaths(Commands(old(host.trace))) + [path]
    ensures r.Ok? ==> EndsSigning(Commands(host.trace), path, identity)
  {
    SignedPathsAppend(Commands(host.trace), Attempt(path, identity, host.status));
    SignedOfAttempt(path, identity, host.status);
    var code := host.Run(SignCommand(path, identity));
    if code != 0 {
      return Err(SystemExit(1));
    }
    var verified := host.Run(VerifyCommand(path));
    if verified != 0 {
      return Err(SystemExit(1));
    }
    return Ok(());
  }

  /** The signing (not verifying) commands of `codesign_mac`. */
  predicate IsSignCommand(argv: seq<string>) {
    |argv| == 7 && argv[0] == "codesign" && argv[1] == "--force"
  }

  /** The paths the signing commands in `cmds` sign, in order. */
  function SignedPaths(cmds: seq<seq<string>>): seq<string> {
    if cmds == [] then []
    else
      var last := cmds[|cmds| - 1];
      SignedPaths(cmds[..|cmds| - 1]) + (if IsSignCommand(last) then [last[6]] else [])
  }

  lemma {:induction false} SignedPathsAppend(a: seq<seq<string>>, b: seq<seq<string>>)
    ensures SignedPaths(a + b) == SignedPaths(a) + SignedPaths(b)
    decreases |b|
  {
    if b == [] {
      assert a + b == a;
    } else {
      assert (a + b)[..|a + b| - 1] == a + b[..|b| - 1];
      SignedPathsAppend(a, b[..|b| - 1]);
    }
  }

  /** One call of `codesign_mac` signs exactly its path. */
  lemma SignedOfAttempt(path: string, identity: string, status: seq<string> -> int)
    ensures SignedPaths(Attempt(path, identity, status)) == [path]
  {
    var a := Attempt(path, identity, status);
    assert a[..1] == [SignCommand(path, identity)];
    assert SignedPaths(a[..1]) == [path] by {
      assert a[..1][..0] == [];
    }
  }

  /**
   * The state of the signing loop after `n` paths: the signing commands
   * since `earlier` name `paths[..n]`, each of them signed and verified,
   * and the last two commands signed and verified `paths[n - 1]`.
   */
  predicate Progress(cmds: seq<seq<string>>, signedNow: seq<string>, earlier: seq<string>, paths: seq<string>, n: nat, identity: string, status: seq<string> -> int)
    requires n <= |paths|
  {
    && signedNow == earlier + paths[..n]
    && (forall i :: 0 <= i < n ==> Signed(paths[i], identity, status))
    && (n > 0 ==> EndsSigning(cmds, paths[n - 1], identity))
  }

  /** One successful `codesign_mac` of `paths[n]` advances the loop by one path. */
  lemma ProgressStep(pre: seq<seq<string>>, post: seq<seq<string>>, signedPre: seq<string>, earlier: seq<string>, paths: seq<string>, n: nat, identity: string, status: seq<string> -> int)
    requires n < |paths| && Progress(pre, signedPre, earlier, paths, n, identity, status)
    requires Signed(paths[n], identity, status)
    requires |post| >= 2 && post[|post| - 2] == SignCommand(paths[n], identity) && post[|post| - 1] == VerifyCommand(paths[n])
    ensures Progress(post, signedPre + [paths[n]], earlier, paths, n + 1, identity, status)
  {
    assert paths[..n + 1] == paths[..n] + [paths[n]];
  }

  lemma PrefixStep(earlier: seq<string>, paths: seq<string>, n: nat, before: seq<string>, after: seq<string>)
    requires n < |paths| && before == earlier + paths[..n] && after == before + [paths[n]]
    ensures after == earlier + paths[..n + 1]
  {
    assert paths[..n + 1] == paths[..n] + [paths[n]];
  }

  /**
   * How the signing loop over `paths` ends: `signed`, the paths it tried,
   * is a prefix of `paths`; every path but the last tried was signed and
   * verified; the loop succeeds exactly when the last tried one was too,
   * and then it tried them all.
   */
  predicate SignedInOrder(signed: seq<string>, paths: seq<string>, identity: string, status: seq<string> -> int, ok: bool) {
    && signed <= paths && (|paths| > 0 ==> |signed| > 0)
    && (ok ==> signed == paths)
    && (forall i :: 0 <= i < |signed| - 1 ==> Signed(signed[i], identity, status))
    && (|signed| > 0 ==> (ok <==> Signed(signed[|signed| - 1], identity, status)))
  }

  /**
   * The loop succeeds exactly when every path signs and verifies; when it
   * fails, the path it stopped at is the first that does not.
   */
  lemma SignedInOrderMeans(signed: seq<string>, paths: seq<string>, identity: string, status: seq<string> -> int, ok: bool)
    requires |paths| > 0 && SignedInOrder(signed, paths, identity, status, ok)
    ensures ok <==> forall i :: 0 <= i < |paths| ==> Signed(paths[i], identity, status)
    ensures !ok ==> var k := |signed| - 1;
      k < |paths| && !Signed(paths[k], identity, status) && forall i :: 0 <= i < k ==> Signed(paths[i], identity, status)
  {
    var k := |signed| - 1;
    assert paths[k] == signed[k];
    forall i | 0 <= i < k ensures paths[i] == signed[i] {
    }
  }

  /**
   * The signing loop of `build()`: each path is signed in order; the first
   * failure exits, so the paths after it are never signed. `signed` is the
   * prefix of `paths` that was tried: all of it when every signing and
   * verification succeeded, otherwise ending with the one that failed.
   */
  method SignAll(paths: seq<string>, identity: string, host: Machine) returns (r: Result<()>, signed: seq<string>)
    modifies host
    ensures SignedInOrder(signed, paths, identity, host.status, r.Ok?)
    ensures SignedPaths(Commands(host.trace)) == SignedPaths(Commands(old(host.trace))) + signed
    ensures r.Err? ==> r.error == SystemExit(1)
    ensures r.Ok? && |paths| > 0 ==> EndsSigning(Commands(host.trace), paths[|paths| - 1], identity)
    ensures host.dirs == old(host.dirs) && host.files == old(host.files)
    ensures Removals(host.trace) == Removals(old(host.trace))
  {
    ghost var earlier := SignedPaths(Commands(host.trace));
    var n := 0;
    while n < |paths|
      invariant n <= |paths|
      invariant Progress(Commands(host.trace), SignedPaths(Commands(host.trace)), earlier, paths, n, identity, host.status)
      invariant host.dirs == old(host.dirs) && host.files == old(host.files)
      invariant Removals(host.trace) == Removals(old(host.trace))
    {
      ghost var pre := Commands(host.trace);
      ghost var signedPre := SignedPaths(pre);
      var one := CodesignMac(paths[n], identity, host);
      if one.Err? {
        PrefixStep(earlier, paths, n, signedPre, SignedPaths(Commands(host.trace)));
        return one, paths[..n + 1];
      }
      ProgressStep(pre, Commands(host.trace), signedPre, earlier, paths, n, identity, host.status);
      n := n + 1;
    }
    assert paths[..n] == paths;
    return Ok(()), paths;
  }

  // ---------------------------------------------------------------- the bundle

  /** `os.path.join(base_path, "Contents", "Frameworks")`. */
  function FrameworksDir(app: string): string {
    Paths.Join(Paths.Join(app, "Contents"), "Frameworks")
  }

  /** `os.path.join(base_path, 'Contents', 'MacOS', 'Python')`. */
  function PythonExe(app: string): string {
    Paths.Join(Paths.Join(Paths.Join(app, "Contents"), "MacOS"), "Python")
  }

  /** `os.path.join(base_path, "Contents", "Resources", "lib", "python2.7")`. */
  function LibDir(app: string): string {
    Paths.Join(Paths.Join(Paths.Join(Paths.Join(app, "Contents"), "Resources"), "lib"), "python2.7")
  }

  /**
   * `sign_paths`: the frameworks, then the dynamic libraries, then the Python
   * executable, and the bundle itself last.
   */
  function SignPaths(app: string, frameworks: seq<string>, dylibs: seq<string>): seq<string> {
    frameworks + dylibs + [PythonExe(app), app]
  }

  /**
   * The bundle is signed last and only then: every earlier entry lies inside
   * the bundle's `Contents` directory, so none of them is the bundle.
   */
  lemma BundleSignedLast(app: string, frameworks: seq<string>, dylibs: seq<string>)
    requires forall i :: 0 <= i < |frameworks| ==> GlobMatch(frameworks[i], FrameworksDir(app), ".framework")
    requires forall i :: 0 <= i < |dylibs| ==> GlobMatch(dylibs[i], FrameworksDir(app), ".dylib")
    ensures var s := SignPaths(app, frameworks, dylibs);
      s[|s| - 1] == app && forall i :: 0 <= i < |s| - 1 ==> s[i] != app
  {
    var s := SignPaths(app, frameworks, dylibs);
    var fw := FrameworksDir(app);
    JoinLonger(app, "Contents");
    JoinLonger(Paths.Join(app, "Contents"), "Frameworks");
    JoinLonger(Paths.Join(app, "Contents"), "MacOS");
    JoinLonger(Paths.Join(Paths.Join(app, "Contents"), "MacOS"), "Python");
    forall i | 0 <= i < |s| - 1 ensures |s[i]| > |app| {
      if i < |frameworks| {
        assert s[i] == frameworks[i];
      } else if i < |frameworks| + |dylibs| {
        assert s[i] == dylibs[i - |frameworks|];
      }
    }
  }

  /** Joining a relative name makes a path longer. */
  lemma JoinLonger(a: string, b: string)
    requires b != "" && b[0] != '/'
    ensures |Paths.Join(a, b)| > |a|
  {
    assert !Text.StartsWith(b, "/");
  }

  // ---------------------------------------------------------------- sources

  /** The files the removal loop deletes: extension `.py` or `.pyo`. */
  predicate IsPySource(p: string) {
    Paths.Ext(p) == ".py" || Paths.Ext(p) == ".pyo"
  }

  /** `os.path.join(root, afile)` for every file of one walked directory, in listing order. */
  function FullPaths(w: WalkDir): (r: seq<string>)
    ensures |r| == |w.names|
  {
    seq(|w.names|, j requires 0 <= j < |w.names| => Paths.Join(w.root, w.names[j]))
  }

  /** The paths of `xs` that `pick` selects, in order (the removal loop picks with `IsPySource`). */
  function Picked(xs: seq<string>, pick: string -> bool): seq<string> {
    if xs == [] then []
    else Picked(xs[..|xs| - 1], pick) + (if pick(xs[|xs| - 1]) then [xs[|xs| - 1]] else [])
  }

  /** The picked files of a whole walk, directory by directory. */
  function StrippedFiles(ws: seq<WalkDir>, pick: string -> bool): seq<string> {
    if ws == [] then [] else StrippedFiles(ws[..|ws| - 1], pick) + Picked(FullPaths(ws[|ws| - 1]), pick)
  }

  /** A path is picked exactly when it is listed and selected. */
  lemma {:induction false} PickedExactly(xs: seq<string>, pick: string -> bool, p: string)
    ensures p in Picked(xs, pick) <==> pick(p) && p in xs
  {
    if xs != [] {
      PickedExactly(xs[..|xs| - 1], pick, p);
      assert xs == xs[..|xs| - 1] + [xs[|xs| - 1]];
    }
  }

  /**
   * The removal loop of `build()` deletes exactly the files the walk lists
   * that `pick` selects (the `.py` and `.pyo` files), and nothing else.
   */
  lemma {:induction false} StrippedExactly(ws: seq<WalkDir>, pick: string -> bool, p: string)
    ensures p in StrippedFiles(ws, pick) <==> pick(p) && exists i :: 0 <= i < |ws| && p in FullPaths(ws[i])
  {
    if p in StrippedFiles(ws, pick) {
      var i := StrippedFrom(ws, pick, p);
    }
    if pick(p) && exists i :: 0 <= i < |ws| && p in FullPaths(ws[i]) {
      var i :| 0 <= i < |ws| && p in FullPaths(ws[i]);
      StrippedAll(ws, pick, p, i);
    }
  }

  /** A removed file was picked from one of the walked directories. */
  lemma {:induction false} StrippedFrom(ws: seq<WalkDir>, pick: string -> bool, p: string) returns (i: nat)
    requires p in StrippedFiles(ws, pick)
    ensures pick(p) && i < |ws| && p in FullPaths(ws[i])
  {
    var init := ws[..|ws| - 1];
    var last := FullPaths(ws[|ws| - 1]);
    assert StrippedFiles(ws, pick) == StrippedFiles(init, pick) + Picked(last, pick);
    if p in StrippedFiles(init, pick) {
      i := StrippedFrom(init, pick, p);
      assert ws[i] == init[i];
    } else {
      PickedExactly(last, pick, p);
      i := |ws| - 1;
    }
  }

  /** Every picked file of every walked directory is removed. */
  lemma {:induction false} StrippedAll(ws: seq<WalkDir>, pick: string -> bool, p: string, i: nat)
    requires i < |ws| && p in FullPaths(ws[i]) && pick(p)
    ensures p in StrippedFiles(ws, pick)
  {
    var init := ws[..|ws| - 1];
    var last := FullPaths(ws[|ws| - 1]);
    assert StrippedFiles(ws, pick) == StrippedFiles(init, pick) + Picked(last, pick);
    if i < |init| {
      assert init[i] == ws[i];
      StrippedAll(init, pick, p, i);
    } else {
      PickedExactly(last, pick, p);
    }
  }

  /** `os.remove` of every picked path of `xs`, in order. */
  method RemovePicked(xs: seq<string>, pick: string -> bool, host: Machine)
    modifies host
    ensures host.dirs == old(host.dirs) && host.files == Without(old(host.files), Picked(xs, pick))
    ensures Removals(host.trace) == Removals(old(host.trace)) + Picked(xs, pick)
    ensures Commands(host.trace) == Commands(old(host.trace))
  {
    var j := 0;
    while j < |xs|
      invariant 0 <= j <= |xs|
      invariant host.dirs == old(host.dirs) && host.files == Without(old(host.files), Picked(xs[..j], pick))
      invariant Removals(host.trace) == Removals(old(host.trace)) + Picked(xs[..j], pick)
      invariant Commands(host.trace) == Commands(old(host.trace))
    {
      assert xs[..j + 1][..j] == xs[..j];
      ghost var done := Picked(xs[..j], pick);
      if pick(xs[j]) {
        assert Picked(xs[..j + 1], pick) == done + [xs[j]];
        host.RemoveFile(xs[j]);
        RemovedOneMore(old(host.files), done, xs[j]);
        AppendAssoc(Removals(old(host.trace)), done, [xs[j]]);
      } else {
        assert Picked(xs[..j + 1], pick) == done;
      }
      j := j + 1;
    }
    assert xs[..j] == xs;
  }

  /** `m` with every path of `xs` removed. */
  function Without(m: map<string, string>, xs: seq<string>): map<string, string> {
    m - (set p | p in xs)
  }

  lemma RemovedOneMore(m: map<string, string>, a: seq<string>, x: string)
    ensures Without(m, a) - {x} == Without(m, a + [x])
  {
  }

  lemma RemovedMore(m: map<string, string>, a: seq<string>, b: seq<string>)
    ensures Without(Without(m, a), b) == Without(m, a + b)
  {
  }

  /** The removal loop of `build()` over the walk of the bundled standard library. */
  method StripSources(ws: seq<WalkDir>, pick: string -> bool, host: Machine)
    modifies host
    ensures host.dirs == old(host.dirs) && host.files == Without(old(host.files), StrippedFiles(ws, pick))
    ensures Removals(host.trace) == Removals(old(host.trace)) + StrippedFiles(ws, pick)
    ensures Commands(host.trace) == Commands(old(host.trace))
  {
    var i := 0;
    while i < |ws|
      invariant 0 <= i <= |ws|
      invariant host.dirs == old(host.dirs) && host.files == Without(old(host.files), StrippedFiles(ws[..i], pick))
      invariant Removals(host.trace) == Removals(old(host.trace)) + StrippedFiles(ws[..i], pick)
      invariant Commands(host.trace) == Commands(old(host.trace))
    {
      assert ws[..i + 1][..i] == ws[..i];
      ghost var done := StrippedFiles(ws[..i], pick);
      ghost var more := Picked(FullPaths(ws[i]), pick);
      assert StrippedFiles(ws[..i + 1], pick) == done + more;
      RemovePicked(FullPaths(ws[i]), pick, host);
      RemovedMore(old(host.files), done, more);
      AppendAssoc(Removals(old(host.trace)), done, more);
      i := i + 1;
    }
    assert ws[..i] == ws;
  }

  // ---------------------------------------------------------------- build

  /** `project_info["codesign"]["osx"]["identity"]`, which must be a string to reach the command line. */
  function Identity(info: Utils.Info): (r: Result<string>)
    requires "codesign" in info
  {
    var osx :- Subscript(info["codesign"], Str("osx"));
    var id :- Subscript(osx, Str("identity"));
    if id.Str? then Ok(id.s) else Err(TypeError("expected str, bytes or os.PathLike object"))
  }

  /** The keys of the py2app options differ from one another. */
  lemma Py2appKeysDiffer()
    ensures "dist_dir" != "excludes"
    ensures "dist_dir" != "includes"
    ensures "dist_dir" != "plist"
    ensures "dist_dir" != "packages"
    ensures "dist_dir" != "site_packages"
    ensures "dist_dir" != "strip"
    ensures "excludes" != "includes"
    ensures "excludes" != "plist"
    ensures "excludes" != "packages"
    ensures "excludes" != "site_packages"
    ensures "excludes" != "strip"
    ensures "includes" != "plist"
    ensures "includes" != "packages"
    ensures "includes" != "site_packages"
    ensures "includes" != "strip"
    ensures "plist" != "packages"
    ensures "plist" != "site_packages"
    ensures "plist" != "strip"
    ensures "packages" != "site_packages"
    ensures "packages" != "strip"
    ensures "site_packages" != "strip"
  {
    assert "dist_dir"[0] != "excludes"[0];
    assert "dist_dir"[0] != "includes"[0];
    assert |"dist_dir"| != |"plist"|;
    assert "dist_dir"[0] != "packages"[0];
    assert |"dist_dir"| != |"site_packages"|;
    assert |"dist_dir"| != |"strip"|;
    assert "excludes"[0] != "includes"[0];
    assert |"excludes"| != |"plist"|;
    assert "excludes"[0] != "packages"[0];
    assert |"excludes"| != |"site_packages"|;
    assert |"excludes"| != |"strip"|;
    assert |"includes"| != |"plist"|;
    assert "includes"[0] != "packages"[0];
    assert |"includes"| != |"site_packages"|;
    assert |"includes"| != |"strip"|;
    assert |"plist"| != |"packages"|;
    assert |"plist"| != |"site_packages"|;
    assert "plist"[0] != "strip"[0];
    assert |"packages"| != |"site_packages"|;
    assert |"packages"| != |"strip"|;
    assert |"site_packages"| != |"strip"|;
  }

  /** The `plist` of the py2app options: the bundle identifier, and localhost pages allowed over plain HTTP. */
  function Plist(identifier: string): (r: Value)
    ensures r.Obj? && "CFBundleIdentifier" in r.fields && r.fields["CFBundleIdentifier"] == Str(identifier)
    ensures "NSAppTransportSecurity" in r.fields && r.fields["NSAppTransportSecurity"].Obj?
    ensures var ats := r.fields["NSAppTransportSecurity"].fields;
      && "NSAllowsArbitraryLoads" in ats && ats["NSAllowsArbitraryLoads"] == Bool(true)
      && "NSExceptionDomains" in ats && ats["NSExceptionDomains"].Obj?
      && "localhost" in ats["NSExceptionDomains"].fields
      && ats["NSExceptionDomains"].fields["localhost"].Obj?
      && "NSExceptionAllowsInsecureHTTPLoads" in ats["NSExceptionDomains"].fields["localhost"].fields
      && ats["NSExceptionDomains"].fields["localhost"].fields["NSExceptionAllowsInsecureHTTPLoads"] == Bool(true)
  {
    var localhost := Obj(map["NSExceptionAllowsInsecureHTTPLoads" := Bool(true)]);
    var security := Obj(map["NSAllowsArbitraryLoads" := Bool(true), "NSExceptionDomains" := Obj(map["localhost" := localhost])]);
    assert "CFBundleIdentifier" != "NSAppTransportSecurity";
    assert "NSAllowsArbitraryLoads" != "NSExceptionDomains";
    Obj(map["CFBundleIdentifier" := Str(identifier), "NSAppTransportSecurity" := security])
  }

  /** The py2app options: the common lists passed through, site packages kept, stripping off. */
  function Py2appFields(distDir: string, common: CommonOptions, plist: Value): (o: map<string, Value>)
    ensures "strip" in o && o["strip"] == Bool(false)
    ensures "site_packages" in o && o["site_packages"] == Bool(true)
    ensures "dist_dir" in o && o["dist_dir"] == Str(distDir)
    ensures "plist" in o && o["plist"] == plist
    ensures "packages" in o && o["packages"] == Arr(common.packages)
    ensures "includes" in o && o["includes"] == Arr(common.includes)
    ensures "excludes" in o && o["excludes"] == Arr(common.excludes)
  {
    Py2appKeysDiffer();
    map[
      "dist_dir" := Str(distDir),
      "excludes" := Arr(common.excludes),
      "includes" := Arr(common.includes),
      "plist" := plist,
      "packages" := Arr(common.packages),
      "site_packages" := Bool(true),
      "strip" := Bool(false)]
  }

  /**
   * `get_build_options(common_options)`: py2app options whose plist carries
   * the project identifier, with stripping turned off.
   */
  function BuildOptions(c: Controller, common: CommonOptions): (r: Value)
    requires c.Valid()
    ensures r.Obj? && "py2app" in r.fields && r.fields["py2app"].Obj?
    ensures var o := r.fields["py2app"].fields;
      && "strip" in o && o["strip"] == Bool(false)
      && "dist_dir" in o && o["dist_dir"] == Str(PlatformDirPath(c, "dist"))
      && "packages" in o && o["packages"] == Arr(common.packages)
      && "includes" in o && o["includes"] == Arr(common.includes)
      && "excludes" in o && o["excludes"] == Arr(common.excludes)
      && "plist" in o && o["plist"].Obj? && "CFBundleIdentifier" in o["plist"].fields
      && o["plist"].fields["CFBundleIdentifier"] == Str(c.Identifier())
  {
    Obj(map["py2app" := Obj(Py2appFields(PlatformDirPath(c, "dist"), common, Plist(c.Identifier())))])
  }

  /**
   * What `build()` does before signing: the Python sources below the
   * bundle's standard library are removed, then the frameworks and dynamic
   * libraries are listed. Nothing is run.
   */
  method PrepareSigning(c: Controller, world: World, host: Machine) returns (app: string, frameworks: seq<string>, dylibs: seq<string>)
    requires c.Valid() && host.Exists(PlatformDirPath(c, "dist"))
    modifies host
    ensures app == AppPath(c)
    ensures Removals(host.trace) == Removals(old(host.trace)) + StrippedFiles(world.walk(LibDir(app)), IsPySource)
    ensures host.files == Without(old(host.files), StrippedFiles(world.walk(LibDir(app)), IsPySource))
    ensures host.dirs == old(host.dirs) && Commands(host.trace) == Commands(old(host.trace))
    ensures Listing(frameworks, GlobEntries(host.files, host.dirs, FrameworksDir(app), ".framework"))
    ensures Listing(dylibs, GlobEntries(host.files, host.dirs, FrameworksDir(app), ".dylib"))
  {
    app := GetAppPath(c, host);
    StripSources(world.walk(LibDir(app)), IsPySource, host);
    frameworks := Glob(FrameworksDir(app), ".framework", host);
    dylibs := Glob(FrameworksDir(app), ".dylib", host);
  }

  /** The loop over `sign_paths` for one identity; the bundle comes last. */
  method SignApp(app: string, frameworks: seq<string>, dylibs: seq<string>, identity: string, host: Machine) returns (r: Result<()>, signed: seq<string>)
    modifies host
    ensures host.dirs == old(host.dirs) && host.files == old(host.files)
    ensures Removals(host.trace) == Removals(old(host.trace))
    ensures SignedInOrder(signed, SignPaths(app, frameworks, dylibs), identity, host.status, r.Ok?)
    ensures SignedPaths(Commands(host.trace)) == SignedPaths(Commands(old(host.trace))) + signed
    ensures r.Err? ==> r.error == SystemExit(1)
    ensures r.Ok? ==> EndsSigning(Commands(host.trace), app, identity)
  {
    var paths := SignPaths(app, frameworks, dylibs);
    assert paths[|paths| - 1] == app;
    r, signed := SignAll(paths, identity, host);
  }

  /**
   * The loop over `sign_paths` with the identity the descriptor gives; the
   * identity is looked up before the first `codesign_mac`, so a descriptor
   * without one fails before anything is signed.
   */
  method SignWith(c: Controller, app: string, frameworks: seq<string>, dylibs: seq<string>, host: Machine) returns (r: Result<()>, signed: seq<string>)
    requires c.Valid() && "codesign" in c.info
    modifies host
    ensures host.dirs == old(host.dirs) && host.files == old(host.files)
    ensures Removals(host.trace) == Removals(old(host.trace))
    ensures Identity(c.info).Err? ==> r == Err(Identity(c.info).error) && signed == [] && Commands(host.trace) == Commands(old(host.trace))
    ensures Identity(c.info).Ok? ==> SignedInOrder(signed, SignPaths(app, frameworks, dylibs), Identity(c.info).value, host.status, r.Ok?)
    ensures r.Ok? ==> Identity(c.info).Ok?
    ensures Identity(c.info).Ok? && r.Err? ==> r.error == SystemExit(1)
    ensures SignedPaths(Commands(host.trace)) == SignedPaths(Commands(old(host.trace))) + signed
    ensures r.Ok? ==> EndsSigning(Commands(host.trace), app, Identity(c.info).value)
  {
    var identity := Identity(c.info);
    if identity.Err? {
      return Err(identity.error), [];
    }
    r, signed := SignApp(app, frameworks, dylibs, identity.value, host);
  }

  /**
   * The signing part of `build()`, once the bundle exists: the sources are
   * removed, the inner items are found, and everything is signed in
   * `SignPaths` order. `signed` is the part of that order that was tried.
   */
  method SignBundle(c: Controller, world: World, host: Machine) returns (r: Result<()>, frameworks: seq<string>, dylibs: seq<string>, signed: seq<string>)
    requires c.Valid() && "codesign" in c.info
    requires host.Exists(PlatformDirPath(c, "dist"))
    modifies host
    ensures Removals(host.trace) == Removals(old(host.trace)) + StrippedFiles(world.walk(LibDir(AppPath(c))), IsPySource)
    ensures Listing(frameworks, GlobEntries(host.files, host.dirs, FrameworksDir(AppPath(c)), ".framework"))
    ensures Listing(dylibs, GlobEntries(host.files, host.dirs, FrameworksDir(AppPath(c)), ".dylib"))
    ensures Identity(c.info).Err? ==> r == Err(Identity(c.info).error) && signed == [] && Commands(host.trace) == Commands(old(host.trace))
    ensures Identity(c.info).Ok? ==> SignedInOrder(signed, SignPaths(AppPath(c), frameworks, dylibs), Identity(c.info).value, host.status, r.Ok?)
    ensures r.Ok? ==> Identity(c.info).Ok?
    ensures Identity(c.info).Ok? && r.Err? ==> r.error == SystemExit(1)
    ensures SignedPaths(Commands(host.trace)) == SignedPaths(Commands(old(host.trace))) + signed
    ensures r.Ok? ==> EndsSigning(Commands(host.trace), AppPath(c), Identity(c.info).value)
  {
    var app;
    app, frameworks, dylibs := PrepareSigning(c, world, host);
    r, signed := SignWith(c, app, frameworks, dylibs, host);
  }

  /** The part of `build()` after the project info is written: `setup()`, then the signing when asked for. */
  method SetupAndSign(c: Controller, world: World, common: CommonOptions, host: Machine) returns (r: Result<int>, frameworks: seq<string>, dylibs: seq<string>, signed: seq<string>)
    requires c.Valid() && host.Exists(PlatformDirPath(c, "dist"))
    modifies host
    ensures r.Ok? ==> r.value == 0
    ensures "codesign" !in c.info ==> r == Ok(0) && signed == [] && Commands(host.trace) == Commands(old(host.trace)) && Removals(host.trace) == Removals(old(host.trace))
    ensures "codesign" in c.info ==>
      && Removals(host.trace) == Removals(old(host.trace)) + StrippedFiles(world.walk(LibDir(AppPath(c))), IsPySource)
      && Listing(frameworks, GlobEntries(host.files, host.dirs, FrameworksDir(AppPath(c)), ".framework"))
      && Listing(dylibs, GlobEntries(host.files, host.dirs, FrameworksDir(AppPath(c)), ".dylib"))
      && SignedPaths(Commands(host.trace)) == SignedPaths(Commands(old(host.trace))) + signed
      && (r.Ok? ==> Identity(c.info).Ok?)
      && (Identity(c.info).Ok? ==> SignedInOrder(signed, SignPaths(AppPath(c), frameworks, dylibs), Identity(c.info).value, host.status, r.Ok?))
  {
    frameworks, dylibs, signed := [], [], [];
    var code := DistutilsSetup(c, world, [], BuildOptions(c, common), host);
    if "codesign" in c.info {
      var done;
      done, frameworks, dylibs, signed := SignBundle(c, world, host);
      if done.Err? {
        return Err(done.error), frameworks, dylibs, signed;
      }
    }
    r := Ok(code);
  }

  /**
   * `build(settings)`: the distutils build, then, only when the descriptor
   * has a `codesign` entry, source removal and signing. The result is the
   * distutils return code.
   */
  method Build(c: Controller, s: Settings, world: World, host: Machine) returns (r: Result<int>, frameworks: seq<string>, dylibs: seq<string>, signed: seq<string>)
    requires c.Valid()
    modifies host
    ensures r.Ok? ==> r.value == 0
    ensures DistutilsCommonOptions(c, world.pythonMajor).Err? ==> r == Err(DistutilsCommonOptions(c, world.pythonMajor).error)
    ensures "codesign" !in c.info ==> Commands(host.trace) == Commands(old(host.trace)) && Removals(host.trace) == Removals(old(host.trace))
    ensures "codesign" !in c.info ==> (r.Ok? <==> DistutilsCommonOptions(c, world.pythonMajor).Ok?)
    ensures "codesign" !in c.info || DistutilsCommonOptions(c, world.pythonMajor).Err? ==> signed == [] && SignedPaths(Commands(host.trace)) == SignedPaths(Commands(old(host.trace)))
    ensures "codesign" in c.info && DistutilsCommonOptions(c, world.pythonMajor).Ok? ==>
      && Removals(host.trace) == Removals(old(host.trace)) + StrippedFiles(world.walk(LibDir(AppPath(c))), IsPySource)
      && Listing(frameworks, GlobEntries(host.files, host.dirs, FrameworksDir(AppPath(c)), ".framework"))
      && Listing(dylibs, GlobEntries(host.files, host.dirs, FrameworksDir(AppPath(c)), ".dylib"))
      && SignedPaths(Commands(host.trace)) == SignedPaths(Commands(old(host.trace))) + signed
      && (r.Ok? ==> Identity(c.info).Ok?)
      && (Identity(c.info).Ok? ==> SignedInOrder(signed, SignPaths(AppPath(c), frameworks, dylibs), Identity(c.info).value, host.status, r.Ok?))
  {
    frameworks, dylibs, signed := [], [], [];
    var common := DistutilsPrepare(c, world, host);
    if common.Err? {
      return Err(common.error), frameworks, dylibs, signed;
    }
    r, frameworks, dylibs, signed := SetupAndSign(c, world, common.value, host);
  }

  // ---------------------------------------------------------------- dist

  /** Where the dmg settings template is installed. */
  function TemplatePath(ow: OsxWorld): string {
    Paths.Join(ow.filesDir, "dmgbuild_settings_template.py")
  }

  /** Where `_create_dmgbuild_settings_file()` writes the settings. */
  function SettingsPath(c: Controller): string {
    Paths.Join(PlatformDirPath(c, "build"), "dmgbuild_settings.py")
  }

  /** The placeholder the settings template holds for the bundle's path. */
  const AppPathKey: string := "{app_path}"

  /** Every `{key}` of the template replaced by its value, key by key. */
  function Substituted(text: string, values: seq<(string, string)>): string {
    if values == [] then text
    else
      var (key, value) := values[|values| - 1];
      Text.Replace(Substituted(text, values[..|values| - 1]), "{" + key + "}", value)
  }

  /** The loop of `_create_dmgbuild_settings_file()` over its values. */
  method Substitute(text: string, values: seq<(string, string)>) returns (settings: string)
    ensures settings == Substituted(text, values)
  {
    settings := text;
    var k := 0;
    while k < |values|
      invariant 0 <= k <= |values|
      invariant settings == Substituted(text, values[..k])
    {
      assert values[..k + 1][..k] == values[..k];
      var (key, value) := values[k];
      settings := Text.Replace(settings, "{" + key + "}", value);
      k := k + 1;
    }
    assert values[..k] == values;
  }

  /** With one value, the text gets that one placeholder replaced. */
  lemma SubstitutedOne(text: string, key: string, value: string)
    ensures Substituted(text, [(key, value)]) == Text.Replace(text, "{" + key + "}", value)
  {
    assert [(key, value)][..0] == [];
  }

  /** The settings text for an app path: the template with `{app_path}` replaced. */
  function DmgSettings(template: string, app: string): string {
    Substituted(template, [("app_path", app)])
  }

  /** A template without the placeholder is written unchanged. */
  lemma DmgSettingsWithoutPlaceholder(template: string, app: string)
    requires !Text.Contains(template, AppPathKey)
    ensures DmgSettings(template, app) == template
  {
    SubstitutedOne(template, "app_path", app);
    assert "{" + "app_path" + "}" == AppPathKey;
    Text.ReplaceAbsent(template, AppPathKey, app);
  }

  /** The placeholder, as the shipped template holds it once, becomes the app path. */
  lemma DmgSettingsFillsPlaceholder(a: string, b: string, app: string)
    requires '{' !in a && !Text.Contains(b, AppPathKey)
    ensures DmgSettings(a + AppPathKey + b, app) == a + app + b
  {
    SubstitutedOne(a + AppPathKey + b, "app_path", app);
    assert "{" + "app_path" + "}" == AppPathKey;
    forall i: nat | i < |a| ensures !Text.MatchAt(a + AppPathKey + b, AppPathKey, i) {
      assert (a + AppPathKey + b)[i] == a[i];
    }
    Text.ReplaceOne(a, b, AppPathKey, app);
  }

  /**
   * `_create_dmgbuild_settings_file()`: the template is read, its
   * placeholder filled in with the app path, and the result written into
   * the build directory; a missing template raises.
   */
  method CreateDmgbuildSettingsFile(c: Controller, ow: OsxWorld, host: Machine) returns (r: Result<string>)
    requires c.Valid()
    modifies host
    ensures r.Ok? <==> TemplatePath(ow) in old(host.files)
    ensures r.Err? ==> host.files == old(host.files)
    ensures r.Ok? ==> r.value == SettingsPath(c)
    ensures r.Ok? ==> host.files == old(host.files)[SettingsPath(c) := DmgSettings(old(host.files)[TemplatePath(ow)], AppPath(c))]
    ensures Commands(host.trace) == Commands(old(host.trace)) && Removals(host.trace) == Removals(old(host.trace))
  {
    var app := GetAppPath(c, host);
    if TemplatePath(ow) !in host.files {
      return Err(Raised("IOError: the dmg settings template is missing"));
    }
    var settings := Substitute(host.files[TemplatePath(ow)], [("app_path", app)]);
    var build := GetBuildDir(c, host);
    var output := Paths.Join(build, "dmgbuild_settings.py");
    host.WriteFile(output, settings);
    r := Ok(output);
  }

  /** The dmg `dist()` writes into the package directory. */
  function DmgPath(c: Controller): string
    requires c.Valid()
  {
    Paths.Join(PlatformDirPath(c, "package"), PackageStem(c) + ".dmg")
  }

  /** The dmgbuild invocation of `dist()`. */
  function DmgbuildCommand(c: Controller): seq<string>
    requires c.Valid()
  {
    ["dmgbuild", "-s", SettingsPath(c), FullAppName(c), DmgPath(c)]
  }

  /** The settings file and the dmg never coincide: one ends in `.py`, the other in `.dmg`. */
  lemma SettingsNotDmg(c: Controller)
    requires c.Valid()
    ensures SettingsPath(c) != DmgPath(c)
  {
    var s := SettingsPath(c);
    var d := DmgPath(c);
    assert Text.EndsWith(s, "dmgbuild_settings.py");
    assert Text.EndsWith(d, PackageStem(c) + ".dmg");
    assert s[|s| - 1] == 'y';
    assert d[|d| - 1] == 'g';
  }

  /**
   * The dmg of an earlier `dist()` is removed before `dmgbuild` runs; a
   * directory in its place makes `os.remove` raise.
   */
  method RemoveOldDmg(c: Controller, host: Machine) returns (r: Result<()>)
    requires c.Valid()
    modifies host
    ensures Commands(host.trace) == Commands(old(host.trace))
    ensures r.Err? ==> host.files == old(host.files) && DmgPath(c) in host.dirs
    ensures r.Ok? ==> Removals(host.trace) == Removals(old(host.trace)) + (if DmgPath(c) in old(host.files) then [DmgPath(c)] else [])
    ensures r.Ok? ==> host.files == old(host.files) - {DmgPath(c)}
  {
    var package := GetPackageDir(c, host);
    var output := Paths.Join(package, PackageStem(c) + ".dmg");
    assert output == DmgPath(c);
    if !host.Exists(output) {
      assert host.files - {output} == host.files;
      return Ok(());
    }
    if output !in host.files {
      return Err(Raised("IsADirectoryError: the dmg path is a directory"));
    }
    host.RemoveFile(output);
    r := Ok(());
  }

  /**
   * The end of `dist()`, once the settings file is written: an existing dmg
   * of the same name is removed, then `dmgbuild` runs once (its exit status
   * is not looked at).
   */
  method BuildDmg(c: Controller, settingsFile: string, host: Machine) returns (r: Result<()>)
    requires c.Valid()
    modifies host
    ensures r.Err? ==> Commands(host.trace) == Commands(old(host.trace)) && host.files == old(host.files)
    ensures r.Ok? ==> Commands(host.trace) == Commands(old(host.trace)) + [["dmgbuild", "-s", settingsFile, FullAppName(c), DmgPath(c)]]
    ensures r.Ok? ==> Removals(host.trace) == Removals(old(host.trace)) + (if DmgPath(c) in old(host.files) then [DmgPath(c)] else [])
    ensures r.Ok? ==> host.files == old(host.files) - {DmgPath(c)}
  {
    r := RemoveOldDmg(c, host);
    if r.Err? {
      return;
    }
    var _ := RunCmd(["dmgbuild", "-s", settingsFile, FullAppName(c), DmgPath(c)], host);
  }

  /**
   * `os.path.exists(self.get_app_path())`, which creates the dist directory
   * on the way; unless the bundle path is the dist directory itself, that
   * does not make the bundle appear.
   */
  method AppExists(c: Controller, host: Machine) returns (built: bool)
    requires c.Valid()
    modifies host
    ensures built == host.Exists(AppPath(c))
    ensures !old(host.Exists(AppPath(c))) && AppPath(c) != PlatformDirPath(c, "dist") ==> !built
    ensures host.files == old(host.files)
    ensures Commands(host.trace) == Commands(old(host.trace)) && Removals(host.trace) == Removals(old(host.trace))
  {
    var app := GetAppPath(c, host);
    built := host.Exists(app);
  }

  /**
   * `dist()`: a missing bundle exits before anything is written or run;
   * otherwise the settings file is written into the build directory and the
   * dmg built from it, replacing an earlier dmg of the same name.
   */
  method Dist(c: Controller, ow: OsxWorld, host: Machine) returns (r: Result<()>)
    requires c.Valid()
    modifies host
    ensures !old(host.Exists(AppPath(c))) && AppPath(c) != PlatformDirPath(c, "dist") ==>
      r == Err(SystemExit(1)) && host.files == old(host.files)
    ensures r.Err? ==> Commands(host.trace) == Commands(old(host.trace))
    ensures r.Ok? ==> Commands(host.trace) == Commands(old(host.trace)) + [DmgbuildCommand(c)]
    ensures r.Ok? ==> Removals(host.trace) == Removals(old(host.trace)) + (if DmgPath(c) in old(host.files) then [DmgPath(c)] else [])
    ensures r.Ok? ==> TemplatePath(ow) in old(host.files) && SettingsPath(c) in host.files
    ensures r.Ok? ==> host.files[SettingsPath(c)] == DmgSettings(old(host.files)[TemplatePath(ow)], AppPath(c))
    ensures r.Ok? ==> DmgPath(c) !in host.files
  {
    var built := AppExists(c, host);
    if !built {
      return Err(SystemExit(1));
    }
    ghost var before := host.files;
    var settingsFile := CreateDmgbuildSettingsFile(c, ow, host);
    if settingsFile.Err? {
      return Err(settingsFile.error);
    }
    SettingsNotDmg(c);
    assert DmgPath(c) in host.files <==> DmgPath(c) in before;
    r := BuildDmg(c, settingsFile.value, host);
  }
}

/**
 * The Windows build controller: the app path with its `main.exe` fallback,
 * the py2exe options (system DLLs left out, the cefpython modules of other
 * Python versions excluded), the build-tool dispatch, and `dist`, which
 * writes an Inno Setup script and runs the installed Inno Setup compiler.
 */
module Win {
  import opened Wrappers
  import opened Json
  import Text
  import Paths
  import opened Host
  import opened Base
  import opened Utils
  import Sets

  /** `app_ext` of the Windows controller. */
  const AppExt: string := ".exe"

  /**
   * What the Windows controller reads besides the project: where its own
   * files (the installer template) are installed, the directory of an
   * importable `cefpython3` (None when the import fails), and the minor
   * version of the running Python (its major version is `World.pythonMajor`).
   */
  datatype WinWorld = WinWorld(filesDir: string, cefDir: Option<string>, pythonMinor: nat)

  // ---------------------------------------------------------------- app path

  /** `dist/main.exe`, what a PyInstaller-free build may leave. */
  function MainExe(c: Controller): string {
    Paths.Join(PlatformDirPath(c, "dist"), "main" + AppExt)
  }

  /** `dist/<name>/<name>.exe`, the fallback. */
  function NamedExe(c: Controller): string
    requires c.Valid()
  {
    Paths.Join(Paths.Join(PlatformDirPath(c, "dist"), c.Name()), c.Name() + AppExt)
  }

  /** The app `get_app_path()` names, given whether `dist/main.exe` exists. */
  function WinAppPath(c: Controller, mainBuilt: bool): string
    requires c.Valid()
  {
    if mainBuilt then MainExe(c) else NamedExe(c)
  }

  /** Joining a relative name onto a directory gives a longer path. */
  lemma JoinLonger(a: string, b: string)
    requires b != "" && b[0] != '/'
    ensures |Paths.Join(a, b)| > |a|
  {
    assert !Text.StartsWith(b, "/") by { assert b[..1] == [b[0]]; }
  }

  /** `dist/main.exe` is not the dist directory itself, so creating that does not make it appear. */
  lemma MainBelowDist(c: Controller)
    ensures MainExe(c) != PlatformDirPath(c, "dist")
  {
    JoinLonger(PlatformDirPath(c, "dist"), "main" + AppExt);
  }

  /**
   * Joining the same relative component onto two directories that agree on a
   * trailing '/' keeps their length difference and that agreement.
   */
  lemma JoinShift(a: string, a2: string, b: string, k: nat)
    requires a != "" && a2 != "" && |a2| == |a| + k
    requires Text.EndsWith(a, "/") <==> Text.EndsWith(a2, "/")
    requires !Text.StartsWith(b, "/")
    ensures Paths.Join(a, b) != "" && Paths.Join(a2, b) != ""
    ensures |Paths.Join(a2, b)| == |Paths.Join(a, b)| + k
    ensures Text.EndsWith(Paths.Join(a, b), "/") <==> Text.EndsWith(Paths.Join(a2, b), "/")
  {
    var j, j2 := Paths.Join(a, b), Paths.Join(a2, b);
    if b == "" {
      if Text.EndsWith(a, "/") {
        assert j == a && j2 == a2;
      } else {
        assert j == a + "/" && j2 == a2 + "/";
        assert j[|j| - 1..] == "/" && j2[|j2| - 1..] == "/";
      }
    } else {
      assert j[|j| - 1] == b[|b| - 1] && j2[|j2| - 1] == b[|b| - 1];
      assert j[|j| - 1..] == [b[|b| - 1]] && j2[|j2| - 1..] == [b[|b| - 1]];
    }
  }

  /** `root/package` is three characters longer than `root/dist`, and neither ends in '/'. */
  lemma KindDirs(root: string)
    ensures Paths.Join(root, "dist") != "" && |Paths.Join(root, "package")| == |Paths.Join(root, "dist")| + 3
    ensures !Text.EndsWith(Paths.Join(root, "dist"), "/") && !Text.EndsWith(Paths.Join(root, "package"), "/")
  {
    var d, p := Paths.Join(root, "dist"), Paths.Join(root, "package");
    assert !Text.StartsWith("dist", "/") by { assert "dist"[..1] == "d"; }
    assert !Text.StartsWith("package", "/") by { assert "package"[..1] == "p"; }
    assert d[|d| - 1..] == "t" && p[|p| - 1..] == "e";
  }

  /** The package directory is the dist directory or three characters longer. */
  lemma PackageBesideDist(c: Controller)
    ensures var d, p := PlatformDirPath(c, "dist"), PlatformDirPath(c, "package");
      p == d || |p| == |d| + 3
  {
    var root, plat := c.root, c.Platform();
    KindDirs(root);
    var r1, r2 := Paths.Join(root, "dist"), Paths.Join(root, "package");
    if Text.StartsWith(plat, "/") {
      assert Paths.Join3(root, "dist", plat) == Paths.Join3(root, "package", plat);
    } else {
      JoinShift(r1, r2, plat, 3);
      if HasConfig(c.args) && !Text.StartsWith(c.args.config.value, "/") {
        JoinShift(Paths.Join(r1, plat), Paths.Join(r2, plat), c.args.config.value, 3);
      }
    }
  }

  /** Nor is it the package directory, so creating that does not make it appear either. */
  lemma MainBesidePackage(c: Controller)
    ensures MainExe(c) != PlatformDirPath(c, "package")
  {
    var d := PlatformDirPath(c, "dist");
    PackageBesideDist(c);
    assert !Text.StartsWith("main.exe", "/") by { assert "main.exe"[..1] == "m"; }
    assert |MainExe(c)| >= |d| + 8;
  }

  /** Nor is the fallback, unless the project name is an absolute path. */
  lemma NamedBelowDist(c: Controller)
    requires c.Valid() && !Text.StartsWith(c.Name(), "/")
    ensures NamedExe(c) != PlatformDirPath(c, "dist")
  {
    var dist := PlatformDirPath(c, "dist");
    var n := c.Name() + AppExt;
    assert n[0] != '/' by {
      if c.Name() != "" { assert c.Name()[..1] == [c.Name()[0]] && n[0] == c.Name()[0]; }
    }
    if c.Name() == "" {
      assert !Text.StartsWith("", "/");
      assert Paths.Join(dist, "") == dist || Paths.Join(dist, "") == dist + "/";
      JoinLonger(Paths.Join(dist, ""), n);
    } else {
      JoinLonger(dist, c.Name());
      JoinLonger(Paths.Join(dist, c.Name()), n);
    }
  }

  /**
   * `get_app_path()`: `dist/main.exe` when it exists, else
   * `dist/<name>/<name>.exe`; the dist directory is created on the way.
   */
  method GetAppPath(c: Controller, host: Machine) returns (path: string)
    requires c.Valid()
    modifies host
    ensures path == WinAppPath(c, old(host.Exists(MainExe(c))))
    ensures host.Exists(PlatformDirPath(c, "dist")) && host.files == old(host.files)
    ensures old(host.dirs) <= host.dirs <= old(host.dirs) + {PlatformDirPath(c, "dist")}
    ensures Commands(host.trace) == Commands(old(host.trace)) && Removals(host.trace) == Removals(old(host.trace))
  {
    MainBelowDist(c);
    var dist := GetDistDir(c, host);
    path := Paths.Join(dist, "main" + AppExt);
    if !host.Exists(path) {
      path := Paths.Join(Paths.Join(dist, c.Name()), c.Name() + AppExt);
    }
  }

  // ---------------------------------------------------------------- installer generator

  /** Where Inno Setup 6 installs its compiler. */
  const Inno6: string := "C:\\Program Files (x86)\\Inno Setup 6\\iscc.exe"

  /** Where Inno Setup 5 installs its compiler. */
  const Inno5: string := "C:\\Program Files (x86)\\Inno Setup 5\\iscc.exe"

  /** The two compiler paths differ in the version digit. */
  lemma InnoPathsDiffer()
    ensures Inno6 != Inno5
    ensures '/' !in Inno6 && '/' !in Inno5
  {
    assert Inno6[34] == '6' && Inno5[34] == '5';
  }

  /**
   * `get_install_generator_path()`: the Inno Setup 6 compiler when it is
   * installed, else the Inno Setup 5 one, else None.
   */
  function InstallGeneratorPath(host: Machine): (r: Option<string>)
    reads host
    ensures r == Some(Inno6) <==> host.Exists(Inno6)
    ensures r == Some(Inno5) <==> !host.Exists(Inno6) && host.Exists(Inno5)
    ensures r.None? <==> !host.Exists(Inno6) && !host.Exists(Inno5)
  {
    InnoPathsDiffer();
    if host.Exists(Inno6) then Some(Inno6)
    else if host.Exists(Inno5) then Some(Inno5)
    else None
  }

  // ---------------------------------------------------------------- py2exe options

  /** `get_dll_excludes()`: the system DLLs py2exe is not to bundle (with its duplicates). */
  const DllExcludes: seq<Value> := [
    Str("combase.dll"), Str("credui.dll"), Str("crypt32.dll"), Str("cryptui.dll"), Str("d3d11.dll"),
    Str("d3d9.dll"), Str("dbghelp.dll"), Str("dhcpcsvc.dll"), Str("dwmapi.dll"), Str("dwrite.dll"),
    Str("dxgi.dll"), Str("dxva2.dll"), Str("fontsub.dll"), Str("iertutil.dll"), Str("iphlpapi.dll"),
    Str("mpr.dll"), Str("msvcp90.dll"), Str("ncrypt.dll"), Str("nsi.dll"), Str("oleacc.dll"),
    Str("oleacc.dll"), Str("powrprof.dll"), Str("psapi.dll"), Str("psapi.dll"), Str("secur32.dll"),
    Str("setupapi.dll"), Str("setupapi.dll"), Str("urlmon.dll"), Str("userenv.dll"), Str("userenv.dll"),
    Str("usp10.dll"), Str("webio.dll"), Str("winhttp.dll"), Str("wininet.dll"), Str("winnsi.dll"),
    Str("wintrust.dll"), Str("wtsapi.dll"), Str("wtsapi32.dll")]

  /** The keys of the py2exe options differ from one another. */
  lemma Py2exeKeysDiffer()
    ensures "dist_dir" != "dll_excludes" && "dist_dir" != "packages" && "dist_dir" != "excludes" && "dist_dir" != "includes"
    ensures "dll_excludes" != "packages" && "dll_excludes" != "excludes" && "dll_excludes" != "includes"
    ensures "packages" != "excludes" && "packages" != "includes" && "excludes" != "includes"
  {
    assert "dist_dir"[1] != "dll_excludes"[1];
    assert "dist_dir"[0] != "packages"[0] && "dist_dir"[0] != "excludes"[0] && "dist_dir"[0] != "includes"[0];
    assert "dll_excludes"[0] != "packages"[0] && "dll_excludes"[0] != "excludes"[0] && "dll_excludes"[0] != "includes"[0];
    assert "packages"[0] != "excludes"[0] && "packages"[0] != "includes"[0] && "excludes"[0] != "includes"[0];
  }

  /** The py2exe options of `get_build_options`. */
  function Py2exeFields(distDir: string, common: CommonOptions, cefExcludes: seq<string>): (o: map<string, Value>)
    ensures "dist_dir" in o && o["dist_dir"] == Str(distDir)
    ensures "dll_excludes" in o && o["dll_excludes"] == Arr(DllExcludes)
    ensures "packages" in o && o["packages"] == Arr(common.packages)
    ensures "excludes" in o && o["excludes"] == Arr(common.excludes + Strs(cefExcludes))
    ensures "includes" in o && o["includes"] == Arr(common.includes)
  {
    Py2exeKeysDiffer();
    map[
      "dist_dir" := Str(distDir),
      "dll_excludes" := Arr(DllExcludes),
      "packages" := Arr(common.packages),
      "excludes" := Arr(common.excludes + Strs(cefExcludes)),
      "includes" := Arr(common.includes)]
  }

  /**
   * `get_build_options(common_options)`: py2exe options that keep the
   * system DLLs out and exclude, after the common excludes, the cefpython
   * modules collected so far.
   */
  function BuildOptions(c: Controller, common: CommonOptions, cefExcludes: seq<string>): (r: Value)
    ensures r.Obj? && "py2exe" in r.fields && r.fields["py2exe"].Obj?
    ensures var o := r.fields["py2exe"].fields;
      && "dist_dir" in o && o["dist_dir"] == Str(PlatformDirPath(c, "dist"))
      && "dll_excludes" in o && o["dll_excludes"] == Arr(DllExcludes)
      && "packages" in o && o["packages"] == Arr(common.packages)
      && "includes" in o && o["includes"] == Arr(common.includes)
      && "excludes" in o && o["excludes"] == Arr(common.excludes + Strs(cefExcludes))
  {
    Obj(map["py2exe" := Obj(Py2exeFields(PlatformDirPath(c, "dist"), common, cefExcludes))])
  }

  // ---------------------------------------------------------------- cefpython data files

  /**
   * The class attribute `cefpython_excludes`: one list shared by every
   * Windows controller of the process, which `get_platform_data_files()`
   * extends on each call.
   */
  class CefExcludes {
    var names: seq<string>

    constructor ()
      ensures names == []
    {
      names := [];
    }
  }

  /** `p` is what `glob(join(dir, "cefpython_py*.pyd"))` yields. */
  predicate PydMatch(p: string, dir: string) {
    GlobMatch(p, dir, ".pyd") && Text.StartsWith(p[|dir| + 1..], "cefpython_py")
  }

  /** The entries the cefpython module glob matches. */
  function PydEntries(files: map<string, string>, dirs: set<string>, dir: string): set<string> {
    (set p | p in files && PydMatch(p, dir)) + (set d | d in dirs && PydMatch(d, dir))
  }

  /** `glob.glob(join(dir, "cefpython_py*.pyd"))`, in the order the directory lists them. */
  method GlobPyds(dir: string, host: Machine) returns (entries: seq<string>)
    ensures Sets.Listing(entries, PydEntries(host.files, host.dirs, dir))
  {
    entries := Sets.ListMembers(PydEntries(host.files, host.dirs, dir));
  }

  /** `"{}{}.pyd".format(major, minor)`: how the module built for the running Python ends. */
  function VersionSuffix(major: int, minor: nat): string {
    Text.IntToString(major) + Text.NatToString(minor) + ".pyd"
  }

  /** `'cefpython3.' + basename(pyd).replace('.pyd', '')`. */
  function ModuleName(pyd: string): (r: string)
    ensures Text.StartsWith(r, "cefpython3.")
  {
    var r := "cefpython3." + Text.Replace(Paths.Basename(pyd), ".pyd", "");
    assert r[..|"cefpython3."|] == "cefpython3.";
    r
  }

  /** The module names excluded for the globbed modules: those not built for the running Python, in order. */
  function ExcludedModules(pyds: seq<string>, suffix: string): seq<string> {
    if pyds == [] then []
    else
      var last := pyds[|pyds| - 1];
      ExcludedModules(pyds[..|pyds| - 1], suffix) + (if Text.EndsWith(last, suffix) then [] else [ModuleName(last)])
  }

  /** Every excluded name is that of a globbed module not built for the running Python. */
  lemma {:induction false} ExcludedSound(pyds: seq<string>, suffix: string, m: string)
    requires m in ExcludedModules(pyds, suffix)
    ensures exists i :: 0 <= i < |pyds| && !Text.EndsWith(pyds[i], suffix) && m == ModuleName(pyds[i])
    decreases |pyds|
  {
    var n := |pyds| - 1;
    var init := pyds[..n];
    if m in ExcludedModules(init, suffix) {
      ExcludedSound(init, suffix, m);
      var i :| 0 <= i < |init| && !Text.EndsWith(init[i], suffix) && m == ModuleName(init[i]);
      assert init[i] == pyds[i];
    } else {
      assert !Text.EndsWith(pyds[n], suffix) && m == ModuleName(pyds[n]);
    }
  }

  /** Every globbed module not built for the running Python has its name excluded. */
  lemma {:induction false} ExcludedComplete(pyds: seq<string>, suffix: string, i: nat)
    requires i < |pyds| && !Text.EndsWith(pyds[i], suffix)
    ensures ModuleName(pyds[i]) in ExcludedModules(pyds, suffix)
    decreases |pyds|
  {
    var n := |pyds| - 1;
    var init := pyds[..n];
    var last := if Text.EndsWith(pyds[n], suffix) then [] else [ModuleName(pyds[n])];
    assert ExcludedModules(pyds, suffix) == ExcludedModules(init, suffix) + last;
    if i < n {
      assert ModuleName(pyds[i]) in ExcludedModules(init, suffix) by {
        assert init[i] == pyds[i];
        ExcludedComplete(init, suffix, i);
      }
    } else {
      assert ModuleName(pyds[i]) in last;
    }
  }

  /** The loop of `get_platform_data_files()` over the globbed modules. */
  method ExcludeOtherVersions(pyds: seq<string>, suffix: string, cef: CefExcludes)
    modifies cef
    ensures cef.names == old(cef.names) + ExcludedModules(pyds, suffix)
  {
    var k := 0;
    while k < |pyds|
      invariant 0 <= k <= |pyds|
      invariant cef.names == old(cef.names) + ExcludedModules(pyds[..k], suffix)
    {
      assert pyds[..k + 1][..k] == pyds[..k];
      if !Text.EndsWith(pyds[k], suffix) {
        cef.names := cef.names + [ModuleName(pyds[k])];
      }
      k := k + 1;
    }
    assert pyds[..k] == pyds;
  }

  /** The files of the first cefpython data entry: `icudtl.dat`, then the executables, DLLs, paks and bins. */
  function CefFiles(dir: string, exes: seq<string>, dlls: seq<string>, paks: seq<string>, bins: seq<string>): seq<string> {
    [dir + "/icudtl.dat"] + exes + dlls + paks + bins
  }

  /** The entries the four cefpython file globs match, in this order. */
  predicate CefGlobbed(host: Machine, dir: string, exes: seq<string>, dlls: seq<string>, paks: seq<string>, bins: seq<string>)
    reads host
  {
    && Sets.Listing(exes, GlobEntries(host.files, host.dirs, dir, ".exe"))
    && Sets.Listing(dlls, GlobEntries(host.files, host.dirs, dir, ".dll"))
    && Sets.Listing(paks, GlobEntries(host.files, host.dirs, dir, ".pak"))
    && Sets.Listing(bins, GlobEntries(host.files, host.dirs, dir, ".bin"))
  }

  /**
   * What `get_platform_data_files()` finds for cefpython installed in `dir`:
   * its runtime files at the top of the app and its English locale under
   * `locales`, the module files globbed, and the exclude list going from
   * `before` to `after` by the modules built for other Python versions.
   */
  ghost predicate CefData(host: Machine, dir: string, suffix: string, before: seq<string>, after: seq<string>,
    data: seq<DataFile>, exes: seq<string>, dlls: seq<string>, paks: seq<string>, bins: seq<string>, pyds: seq<string>)
    reads host
  {
    && data == [DataFile("", CefFiles(dir, exes, dlls, paks, bins)), DataFile("locales", [dir + "/locales/en-US.pak"])]
    && CefGlobbed(host, dir, exes, dlls, paks, bins)
    && Sets.Listing(pyds, PydEntries(host.files, host.dirs, dir))
    && after == before + ExcludedModules(pyds, suffix)
  }

  /**
   * `get_platform_data_files()`: nothing when `cefpython3` cannot be
   * imported; otherwise its runtime files at the top of the app and its
   * English locale under `locales`, and every cefpython module not built for
   * the running Python is added to the shared exclude list.
   */
  method PlatformDataFiles(ww: WinWorld, pythonMajor: int, host: Machine, cef: CefExcludes)
    returns (data: seq<DataFile>, exes: seq<string>, dlls: seq<string>, paks: seq<string>, bins: seq<string>, pyds: seq<string>)
    modifies cef
    ensures ww.cefDir.None? ==> data == [] && cef.names == old(cef.names)
    ensures ww.cefDir.Some? ==>
      CefData(host, ww.cefDir.value, VersionSuffix(pythonMajor, ww.pythonMinor), old(cef.names), cef.names, data, exes, dlls, paks, bins, pyds)
    ensures |cef.names| >= |old(cef.names)| && cef.names[..|old(cef.names)|] == old(cef.names)
  {
    data, exes, dlls, paks, bins, pyds := [], [], [], [], [], [];
    if ww.cefDir.None? {
      return;
    }
    var dir := ww.cefDir.value;
    exes := Glob(dir, ".exe", host);
    dlls := Glob(dir, ".dll", host);
    paks := Glob(dir, ".pak", host);
    bins := Glob(dir, ".bin", host);
    data := [DataFile("", CefFiles(dir, exes, dlls, paks, bins)), DataFile("locales", [dir + "/locales/en-US.pak"])];
    pyds := GlobPyds(dir, host);
    ExcludeOtherVersions(pyds, VersionSuffix(pythonMajor, ww.pythonMinor), cef);
  }

  // ---------------------------------------------------------------- build

  /** `get_value_for_platform('build_tool', 'win', 'py2exe')`. */
  function BuildTool(c: Controller): Result<Value> {
    ValueForPlatform(c.shared, "build_tool", "win", Str("py2exe"))
  }

  /** Which builder `build()` handed the app to (Python returns None either way). */
  datatype Builder = PyInstaller(args: seq<string>) | Py2exe

  /**
   * The distutils branch of `build()`: the common lists, the platform data
   * files (which extend the shared exclude list), then `setup()` with the
   * py2exe options, whose excludes end with that list.
   */
  method DistutilsBuild(c: Controller, world: World, ww: WinWorld, host: Machine, cef: CefExcludes) returns (r: Result<()>)
    requires c.Valid()
    modifies host, cef
    ensures r.Ok? <==> DistutilsCommonOptions(c, world.pythonMajor).Ok?
    ensures r.Err? ==> r.error == DistutilsCommonOptions(c, world.pythonMajor).error && cef.names == old(cef.names)
    ensures Commands(host.trace) == Commands(old(host.trace)) && Removals(host.trace) == Removals(old(host.trace))
    ensures r.Ok? ==> |host.trace| > 0 && host.trace[|host.trace| - 1].SetUp?
    ensures r.Ok? ==>
      var e := host.trace[|host.trace| - 1];
      && e.command == SetupCommand(c) && e.name == c.Name() && e.version == c.Version() && e.script == MainScriptPath(c)
      && e.options == BuildOptions(c, DistutilsCommonOptions(c, world.pythonMajor).value, cef.names)
    ensures r.Ok? ==> |cef.names| >= |old(cef.names)| && cef.names[..|old(cef.names)|] == old(cef.names)
  {
    var common := DistutilsPrepare(c, world, host);
    if common.Err? {
      return Err(common.error);
    }
    var platformData, exes, dlls, paks, bins, pyds := PlatformDataFiles(ww, world.pythonMajor, host, cef);
    var _ := DistutilsSetup(c, world, platformData, BuildOptions(c, common.value, cef.names), host);
    r := Ok(());
  }

  /**
   * `build(settings)`: PyInstaller when `build_tool` resolves to
   * `"pyinstaller"`, otherwise (including the default `"py2exe"`) the
   * distutils build; a lookup that raises builds nothing.
   */
  method Build(c: Controller, s: Settings, world: World, ww: WinWorld, host: Machine, cef: CefExcludes) returns (r: Result<Builder>)
    requires c.Valid()
    modifies host, cef
    ensures BuildTool(c).Err? ==> r == Err(BuildTool(c).error) && host.trace == old(host.trace) && cef.names == old(cef.names)
    ensures r.Ok? ==> (r.value.PyInstaller? <==> BuildTool(c) == Ok(Str("pyinstaller")))
    ensures BuildTool(c) == Ok(Str("pyinstaller")) ==> cef.names == old(cef.names)
    ensures r.Ok? && r.value.PyInstaller? ==> Commands(host.trace) == Commands(old(host.trace)) + [["PyInstaller"] + r.value.args]
    ensures r.Ok? && r.value.PyInstaller? ==> |r.value.args| >= 7 && r.value.args[..6] == ["-D", "-n", c.Name(), "--distpath", PlatformDirPath(c, "dist"), "--noconsole"]
    ensures BuildTool(c).Ok? && BuildTool(c).value != Str("pyinstaller") ==>
      && Commands(host.trace) == Commands(old(host.trace)) && Removals(host.trace) == Removals(old(host.trace))
      && (r.Ok? <==> DistutilsCommonOptions(c, world.pythonMajor).Ok?)
      && (r.Ok? ==> r.value == Py2exe && |host.trace| > 0 && host.trace[|host.trace| - 1].SetUp?)
      && (r.Ok? ==> host.trace[|host.trace| - 1].options == BuildOptions(c, DistutilsCommonOptions(c, world.pythonMajor).value, cef.names))
  {
    var tool := BuildTool(c);
    if tool.Err? {
      return Err(tool.error);
    }
    if tool.value == Str("pyinstaller") {
      var args := PyInstallerBuild(c, world, host);
      if args.Err? {
        return Err(args.error);
      }
      return Ok(PyInstaller(args.value));
    }
    var done := DistutilsBuild(c, world, ww, host, cef);
    if done.Err? {
      return Err(done.error);
    }
    r := Ok(Py2exe);
  }

  // ---------------------------------------------------------------- the installer script

  /**
   * Python's `template % values` for a mapping: each `%(key)s` is replaced
   * by the value of `key` and `%%` by `%`; a key the mapping lacks raises
   * `KeyError`; any other conversion is outside the model.
   */
  function PercentFormat(t: string, values: map<string, string>): (r: Result<string>)
    decreases |t|
  {
    if t == "" then Ok("")
    else if t[0] != '%' then
      var rest :- PercentFormat(t[1..], values);
      Ok([t[0]] + rest)
    else if |t| >= 2 && t[1] == '%' then
      var rest :- PercentFormat(t[2..], values);
      Ok("%" + rest)
    else if |t| >= 2 && t[1] == '(' && ')' in t[2..] then
      var close := 2 + Text.IndexOf(t[2..], ')');
      var key := t[2..close];
      if key !in values then Err(KeyError(key))
      else if close + 1 < |t| && t[close + 1] == 's' then
        var rest :- PercentFormat(t[close + 2..], values);
        Ok(values[key] + rest)
      else Err(Unsupported("a conversion other than %(key)s"))
    else if |t| >= 2 && t[1] == '(' then Err(ValueError("incomplete format key"))
    else Err(Unsupported("a conversion other than %(key)s"))
  }

  /** A template without `%` comes out as written. */
  lemma {:induction false} PercentFormatPlain(t: string, values: map<string, string>)
    requires '%' !in t
    ensures PercentFormat(t, values) == Ok(t)
    decreases |t|
  {
    if t != "" {
      assert t[0] != '%';
      PercentFormatPlain(t[1..], values);
      assert [t[0]] + t[1..] == t;
    }
  }

  /**
   * Text without `%` before a `%(key)s` passes through; the placeholder
   * becomes the value and the rest of the template is formatted on.
   */
  lemma {:induction false} PercentFormatFills(a: string, key: string, b: string, values: map<string, string>)
    requires '%' !in a && ')' !in key && key in values
    ensures PercentFormat(a + "%(" + key + ")s" + b, values).Ok? <==> PercentFormat(b, values).Ok?
    ensures PercentFormat(b, values).Ok? ==>
      PercentFormat(a + "%(" + key + ")s" + b, values).value == a + values[key] + PercentFormat(b, values).value
    decreases |a|
  {
    if a == "" {
      assert a + "%(" + key + ")s" + b == "%(" + key + ")s" + b;
      PlaceholderFirst(key, b, values);
    } else {
      var rest := a[1..] + "%(" + key + ")s" + b;
      assert a + "%(" + key + ")s" + b == [a[0]] + rest by {
        assert a == [a[0]] + a[1..];
      }
      LiteralFirst(a[0], rest, values);
      PercentFormatFills(a[1..], key, b, values);
      if PercentFormat(b, values).Ok? {
        assert [a[0]] + (a[1..] + values[key] + PercentFormat(b, values).value) == a + values[key] + PercentFormat(b, values).value by {
          assert a == [a[0]] + a[1..];
        }
      }
    }
  }

  /** A character other than `%` is copied and the rest formatted on. */
  lemma LiteralFirst(c: char, s: string, values: map<string, string>)
    requires c != '%'
    ensures PercentFormat([c] + s, values).Ok? <==> PercentFormat(s, values).Ok?
    ensures PercentFormat(s, values).Ok? ==> PercentFormat([c] + s, values).value == [c] + PercentFormat(s, values).value
  {
    assert ([c] + s)[1..] == s;
  }

  /** A leading `%(key)s` becomes the key's value and the rest is formatted on. */
  lemma PlaceholderFirst(key: string, b: string, values: map<string, string>)
    requires ')' !in key && key in values
    ensures PercentFormat("%(" + key + ")s" + b, values).Ok? <==> PercentFormat(b, values).Ok?
    ensures PercentFormat(b, values).Ok? ==>
      PercentFormat("%(" + key + ")s" + b, values).value == values[key] + PercentFormat(b, values).value
  {
    var t := "%(" + key + ")s" + b;
    var u := t[2..];
    assert u == key + (")s" + b);
    Text.IndexOfFirst(key, ")s" + b, ')');
    var close := 2 + Text.IndexOf(u, ')');
    assert close == 2 + |key|;
    assert t[2..close] == key;
    assert t[close + 1] == 's';
    assert t[close + 2..] == b;
  }

  /** The values the installer template is filled with. */
  datatype InstallerValues = InstallerValues(
    id: string, appPath: string, appName: string, appVersion: string,
    exeName: string, outputDir: string, outputFilename: string)
  {
    /** The mapping the template is formatted with. */
    function AsMap(): map<string, string> {
      map[
        "id" := id,
        "app_path" := appPath,
        "app_name" := appName,
        "app_version" := appVersion,
        "exe_name" := exeName,
        "output_dir" := outputDir,
        "output_filename" := outputFilename]
    }
  }

  /**
   * The values of `_create_innosetup_install_script(output)`: the project
   * `id` as `str()` renders it, the app's directory and file name, the
   * project name and version, and the installer's directory and stem.
   */
  function InstallValues(c: Controller, app: string, output: string): (r: Result<InstallerValues>)
    requires c.Valid() && "id" in c.info
    ensures r.Ok? <==> PyStr(c.info["id"]).Ok?
    ensures r.Ok? ==> r.value.id == PyStr(c.info["id"]).value && r.value.appName == c.Name() && r.value.appVersion == c.Version()
  {
    var id :- PyStr(c.info["id"]);
    Ok(InstallerValues(id, Paths.Dirname(app), c.Name(), c.Version(), Paths.Basename(app),
      Paths.Dirname(output), Paths.SplitExt(Paths.Basename(output)).0))
  }

  /** The app directory and exe name of the values put the app path back together. */
  lemma InstallValuesRejoin(c: Controller, mainBuilt: bool)
    requires c.Valid() && "id" in c.info && PyStr(c.info["id"]).Ok?
    requires var d := PlatformDirPath(c, "dist"); d != "" && d[|d| - 1] != '/'
    requires c.Name() != "" && '/' !in c.Name()
    ensures var v := InstallValues(c, WinAppPath(c, mainBuilt), InstallerPath(c)).value;
      Paths.Join(v.appPath, v.exeName) == WinAppPath(c, mainBuilt)
  {
    var dist := PlatformDirPath(c, "dist");
    var exe := if mainBuilt then "main" + AppExt else c.Name() + AppExt;
    var dir := if mainBuilt then dist else Paths.Join(dist, c.Name());
    assert exe[0] != '/' && '/' !in exe;
    if !mainBuilt {
      assert !Text.StartsWith(c.Name(), "/") by { assert c.Name()[..1] == [c.Name()[0]]; }
      assert !Text.EndsWith(dist, "/");
      assert dir == dist + "/" + c.Name();
      assert dir[|dir| - 1] == c.Name()[|c.Name()| - 1];
    }
    assert WinAppPath(c, mainBuilt) == Paths.Join(dir, exe);
    Paths.DirnameOfJoin(dir, exe);
    Paths.BasenameOfJoin(dir, exe);
  }

  /** The installer `dist()` asks Inno Setup for: `<stem>.exe` in the package directory. */
  function InstallerPath(c: Controller): string
    requires c.Valid()
  {
    Paths.Join(PlatformDirPath(c, "package"), PackageStem(c) + ".exe")
  }

  /** The package stem keeps the '-' between name and version. */
  lemma StemHasDash(c: Controller)
    requires c.Valid()
    ensures '-' in PackageStem(c)
  {
    var full := FullAppName(c);
    assert full[|c.Name()|] == '-';
    Text.ReplaceKeeps(full, ' ', "_", '-');
    var spaced := Text.Replace(full, " ", "_");
    var i :| 0 <= i < |spaced| && spaced[i] == '-';
    assert PackageStem(c)[i] == Text.ToLowerChar(spaced[i]);
  }

  /** The directory and stem of `<dir>/<stem>.exe` are `dir` and `stem`. */
  lemma ExeOutputParts(dir: string, stem: string, k: nat)
    requires dir != "" && dir[|dir| - 1] != '/'
    requires '/' !in stem && k < |stem| && stem[k] != '.'
    ensures Paths.Dirname(Paths.Join(dir, stem + ".exe")) == dir
    ensures Paths.SplitExt(Paths.Basename(Paths.Join(dir, stem + ".exe"))).0 == stem
  {
    var name := stem + ".exe";
    assert name[0] != '/' by {
      assert name[0] == stem[0];
    }
    assert '/' !in name;
    Paths.DirnameOfJoin(dir, name);
    Paths.BasenameOfJoin(dir, name);
    StemOfExe(stem, k);
  }

  /** The output values name the package directory and the package stem. */
  lemma InstallValuesOutput(c: Controller, app: string)
    requires c.Valid() && "id" in c.info && PyStr(c.info["id"]).Ok?
    requires var d := PlatformDirPath(c, "package"); d != "" && d[|d| - 1] != '/'
    requires '/' !in PackageStem(c)
    ensures var v := InstallValues(c, app, InstallerPath(c)).value;
      v.outputDir == PlatformDirPath(c, "package") && v.outputFilename == PackageStem(c)
  {
    var dir, stem := PlatformDirPath(c, "package"), PackageStem(c);
    var output := InstallerPath(c);
    assert Paths.Dirname(output) == dir && Paths.SplitExt(Paths.Basename(output)).0 == stem by {
      StemHasDash(c);
      var k :| 0 <= k < |stem| && stem[k] == '-';
      ExeOutputParts(dir, stem, k);
    }
  }

  /** `splitext(stem + ".exe")` splits off the extension when the stem holds a character other than '.'. */
  lemma StemOfExe(stem: string, k: nat)
    requires '/' !in stem && k < |stem| && stem[k] != '.'
    ensures Paths.SplitExt(stem + ".exe").0 == stem
  {
    var p := stem + ".exe";
    Text.RFindPastSuffix(stem + ".", "exe", '.');
    assert p == (stem + ".") + "exe";
    assert (stem + ".")[|stem|] == '.';
    Text.RFindPastSuffix(stem, ".exe", '/');
    Text.RFindPastSuffix(stem + ".", "exe", '/');
    assert p[k] == stem[k];
    assert p[..|stem|] == stem;
  }

  /** The installer script text: the shipped template filled with the values. */
  function InstallScript(c: Controller, template: string, app: string, output: string): Result<string>
    requires c.Valid() && "id" in c.info
  {
    var values :- InstallValues(c, app, output);
    PercentFormat(template, values.AsMap())
  }

  /** Where the installer template is installed. */
  function TemplatePath(ww: WinWorld): string {
    Paths.Join(ww.filesDir, "win_innosetup_template.iss")
  }

  /** Where `_create_innosetup_install_script()` writes the script. */
  function ScriptPath(c: Controller): string {
    Paths.Join(PlatformDirPath(c, "build"), "innosetup_install_script.iss")
  }

  /**
   * The filled-in template: the app path is looked up (creating the dist
   * directory on the way), the values are gathered and the template read.
   */
  method FillTemplate(c: Controller, ww: WinWorld, output: string, host: Machine) returns (r: Result<string>)
    requires c.Valid() && "id" in c.info
    modifies host
    ensures r.Ok? ==> TemplatePath(ww) in old(host.files)
    ensures r.Ok? ==> Ok(r.value) == InstallScript(c, old(host.files)[TemplatePath(ww)], WinAppPath(c, old(host.Exists(MainExe(c)))), output)
    ensures host.files == old(host.files)
    ensures old(host.dirs) <= host.dirs <= old(host.dirs) + {PlatformDirPath(c, "dist")}
    ensures Commands(host.trace) == Commands(old(host.trace)) && Removals(host.trace) == Removals(old(host.trace))
  {
    var app := GetAppPath(c, host);
    var values := InstallValues(c, app, output);
    if values.Err? {
      return Err(values.error);
    }
    if TemplatePath(ww) !in host.files {
      return Err(Raised("FileNotFoundError: the installer template is missing"));
    }
    r := PercentFormat(host.files[TemplatePath(ww)], values.value.AsMap());
  }

  /**
   * `_create_innosetup_install_script(output_path)`: a project without an
   * `id` exits before anything else happens; otherwise the template is
   * filled in and written into the build directory.
   */
  method CreateInstallScript(c: Controller, ww: WinWorld, output: string, host: Machine) returns (r: Result<string>)
    requires c.Valid()
    modifies host
    ensures "id" !in c.info ==> r == Err(SystemExit(1)) && host.trace == old(host.trace) && host.dirs == old(host.dirs)
    ensures r.Ok? ==> "id" in c.info && TemplatePath(ww) in old(host.files)
    ensures r.Ok? ==> r.value == ScriptPath(c)
    ensures r.Ok? ==> var text := InstallScript(c, old(host.files)[TemplatePath(ww)], WinAppPath(c, old(host.Exists(MainExe(c)))), output);
      text.Ok? && host.files == old(host.files)[ScriptPath(c) := text.value]
    ensures r.Err? ==> host.files == old(host.files)
    ensures old(host.dirs) <= host.dirs && host.dirs - old(host.dirs) <= {PlatformDirPath(c, "dist"), PlatformDirPath(c, "build")}
    ensures Commands(host.trace) == Commands(old(host.trace)) && Removals(host.trace) == Removals(old(host.trace))
  {
    if "id" !in c.info {
      return Err(SystemExit(1));
    }
    ghost var dirs0 := host.dirs;
    var text := FillTemplate(c, ww, output, host);
    if text.Err? {
      return Err(text.error);
    }
    ghost var dirs1 := host.dirs;
    var build := GetBuildDir(c, host);
    assert host.dirs <= dirs1 + {build};
    assert host.dirs - dirs0 <= {PlatformDirPath(c, "dist"), build};
    var output := Paths.Join(build, "innosetup_install_script.iss");
    host.WriteFile(output, text.value);
    r := Ok(output);
  }

  // ---------------------------------------------------------------- dist

  /** A joined path below a non-empty directory holds a '/'. */
  lemma JoinHasSlash(a: string, b: string)
    requires a != ""
    ensures '/' in Paths.Join(a, b)
  {
    var j := Paths.Join(a, b);
    if Text.StartsWith(b, "/") {
      assert b[..1] == "/" && j[0] == '/';
    } else if Text.EndsWith(a, "/") {
      assert j == a + b && j[|a| - 1] == a[|a| - 1];
      assert a[|a| - 1..] == "/";
    } else {
      assert j == a + "/" + b && j[|a|] == '/';
    }
  }

  /** Every platform directory holds a '/', so none is a compiler path. */
  lemma PlatformDirHasSlash(c: Controller, kind: string)
    requires kind != ""
    ensures '/' in PlatformDirPath(c, kind)
  {
    var p := Paths.Join(c.root, kind);
    assert p != "" by {
      if Text.StartsWith(kind, "/") {
      } else {
        assert Text.EndsWith(p, kind);
      }
    }
    JoinHasSlash(p, c.Platform());
    if HasConfig(c.args) {
      JoinHasSlash(Paths.Join3(c.root, kind, c.Platform()), c.args.config.value);
    }
  }

  /**
   * `os.path.exists(get_app_path())`, which creates the dist directory on
   * the way: an app that was there is found, and unless the project name is
   * an absolute path, a missing one stays missing.
   */
  method AppExists(c: Controller, host: Machine) returns (built: bool)
    requires c.Valid()
    modifies host
    ensures old(host.Exists(MainExe(c))) || old(host.Exists(NamedExe(c))) ==> built
    ensures !old(host.Exists(MainExe(c))) && !old(host.Exists(NamedExe(c))) && !Text.StartsWith(c.Name(), "/") ==> !built
    ensures old(host.dirs) <= host.dirs <= old(host.dirs) + {PlatformDirPath(c, "dist")} && host.files == old(host.files)
    ensures Commands(host.trace) == Commands(old(host.trace)) && Removals(host.trace) == Removals(old(host.trace))
  {
    MainBelowDist(c);
    if !Text.StartsWith(c.Name(), "/") {
      NamedBelowDist(c);
    }
    var app := GetAppPath(c, host);
    built := host.Exists(app);
  }

  /** Neither compiler path is a directory or file that `dist()` creates: those all hold a '/'. */
  lemma InnoNotCreated(c: Controller)
    ensures Inno6 !in {PlatformDirPath(c, "dist"), PlatformDirPath(c, "package"), PlatformDirPath(c, "build")}
    ensures Inno5 !in {PlatformDirPath(c, "dist"), PlatformDirPath(c, "package"), PlatformDirPath(c, "build")}
    ensures Inno6 != ScriptPath(c) && Inno5 != ScriptPath(c)
  {
    InnoPathsDiffer();
    PlatformDirHasSlash(c, "dist");
    PlatformDirHasSlash(c, "package");
    PlatformDirHasSlash(c, "build");
    JoinHasSlash(PlatformDirPath(c, "build"), "innosetup_install_script.iss");
  }

  /** Creating directories other than the compiler paths and writing the script leaves the compiler lookup as it was. */
  lemma GeneratorUnchanged(c: Controller, dirs0: set<string>, files0: map<string, string>, dirs1: set<string>, files1: map<string, string>, added: set<string>)
    requires dirs0 <= dirs1 <= dirs0 + added
    requires Inno6 !in added && Inno5 !in added
    requires files0.Keys <= files1.Keys <= files0.Keys + {ScriptPath(c)}
    requires Inno6 != ScriptPath(c) && Inno5 != ScriptPath(c)
    ensures Inno6 in dirs1 || Inno6 in files1 <==> Inno6 in dirs0 || Inno6 in files0
    ensures Inno5 in dirs1 || Inno5 in files1 <==> Inno5 in dirs0 || Inno5 in files0
  {
  }

  /**
   * The first steps of `dist()` after the app check: the package directory
   * is made and the install script written; no command runs and the
   * compiler lookup is not disturbed.
   */
  method WriteInstallScript(c: Controller, ww: WinWorld, host: Machine) returns (r: Result<string>)
    requires c.Valid()
    modifies host
    ensures "id" !in c.info ==> r == Err(SystemExit(1)) && host.files == old(host.files)
    ensures InstallGeneratorPath(host) == old(InstallGeneratorPath(host))
    ensures r.Ok? ==> r.value == ScriptPath(c) && "id" in c.info && TemplatePath(ww) in old(host.files)
    ensures r.Ok? ==> ScriptPath(c) in host.files
    ensures r.Ok? ==> InstallScript(c, old(host.files)[TemplatePath(ww)], WinAppPath(c, old(host.Exists(MainExe(c)))), InstallerPath(c)) == Ok(host.files[ScriptPath(c)])
    ensures Commands(host.trace) == Commands(old(host.trace)) && Removals(host.trace) == Removals(old(host.trace))
  {
    ghost var dirs0, files0 := host.dirs, host.files;
    ghost var mainBuilt := host.Exists(MainExe(c));
    var package := GetPackageDir(c, host);
    var output := InstallerPath(c);
    InnoNotCreated(c);
    MainBesidePackage(c);
    ghost var dirs1 := host.dirs;
    assert host.Exists(MainExe(c)) == mainBuilt;
    GeneratorUnchanged(c, dirs0, files0, dirs1, files0, {PlatformDirPath(c, "package")});
    r := CreateInstallScript(c, ww, output, host);
    GeneratorUnchanged(c, dirs1, files0, host.dirs, host.files, {PlatformDirPath(c, "dist"), PlatformDirPath(c, "build")});
  }

  /**
   * The part of `dist()` after the app check: the script is written and,
   * only when an Inno Setup compiler is installed, it is compiled into the
   * installer; its exit status is the result.
   */
  method CompileInstaller(c: Controller, ww: WinWorld, host: Machine) returns (r: Result<int>)
    requires c.Valid()
    modifies host
    ensures "id" !in c.info ==> r == Err(SystemExit(1)) && host.files == old(host.files)
    ensures r.Err? ==> Commands(host.trace) == Commands(old(host.trace))
    ensures old(InstallGeneratorPath(host)).None? ==> r.Err?
    ensures r.Ok? ==> old(InstallGeneratorPath(host)).Some?
    ensures r.Ok? ==> Commands(host.trace) == Commands(old(host.trace)) + [[old(InstallGeneratorPath(host)).value, ScriptPath(c)]]
    ensures r.Ok? ==> r.value == host.status([old(InstallGeneratorPath(host)).value, ScriptPath(c)])
    ensures r.Ok? ==> ScriptPath(c) in host.files && "id" in c.info && TemplatePath(ww) in old(host.files)
    ensures r.Ok? ==> InstallScript(c, old(host.files)[TemplatePath(ww)], WinAppPath(c, old(host.Exists(MainExe(c)))), InstallerPath(c)) == Ok(host.files[ScriptPath(c)])
    ensures Removals(host.trace) == Removals(old(host.trace))
  {
    var script := WriteInstallScript(c, ww, host);
    if script.Err? {
      return Err(script.error);
    }
    var generator := InstallGeneratorPath(host);
    if generator.None? {
      return Err(SystemExit(1));
    }
    ghost var files1 := host.files;
    var code := RunCmd([generator.value, script.value], host);
    assert host.files == files1;
    r := Ok(code);
  }

  /**
   * `dist()`: a missing app exits before anything is written; otherwise the
   * installer is compiled as `CompileInstaller` says, for the app the check
   * found.
   */
  method Dist(c: Controller, ww: WinWorld, host: Machine) returns (r: Result<int>)
    requires c.Valid()
    modifies host
    ensures !old(host.Exists(MainExe(c))) && !old(host.Exists(NamedExe(c))) && !Text.StartsWith(c.Name(), "/") ==>
      r == Err(SystemExit(1)) && host.files == old(host.files)
    ensures "id" !in c.info ==> r == Err(SystemExit(1)) && host.files == old(host.files)
    ensures r.Err? ==> Commands(host.trace) == Commands(old(host.trace))
    ensures old(InstallGeneratorPath(host)).None? ==> r.Err?
    ensures r.Ok? ==> old(InstallGeneratorPath(host)).Some?
    ensures r.Ok? ==> Commands(host.trace) == Commands(old(host.trace)) + [[old(InstallGeneratorPath(host)).value, ScriptPath(c)]]
    ensures r.Ok? ==> r.value == host.status([old(InstallGeneratorPath(host)).value, ScriptPath(c)])
    ensures r.Ok? ==> ScriptPath(c) in host.files && "id" in c.info && TemplatePath(ww) in old(host.files)
    ensures r.Ok? ==> InstallScript(c, old(host.files)[TemplatePath(ww)], WinAppPath(c, old(host.Exists(MainExe(c)))), InstallerPath(c)) == Ok(host.files[ScriptPath(c)])
    ensures Removals(host.trace) == Removals(old(host.trace))
  {
    ghost var dirs0, files0 := host.dirs, host.files;
    ghost var mainBuilt := host.Exists(MainExe(c));
    var built := AppExists(c, host);
    if !built {
      return Err(SystemExit(1));
    }
    InnoNotCreated(c);
    MainBelowDist(c);
    GeneratorUnchanged(c, dirs0, files0, host.dirs, host.files, {PlatformDirPath(c, "dist")});
    assert host.Exists(MainExe(c)) == mainBuilt;
    r := CompileInstaller(c, ww, host);
  }
}

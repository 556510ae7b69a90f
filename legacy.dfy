/**
 * The older single-file build tool: the filtered copy of the sources into a
 * build tree, the bundled `pew` module copy, the Android `setup.sh` writer,
 * the Android build through `build.sh`, and the macOS signing pass. The
 * descriptor lookups, `copy_config_file` and the requirement and ignore-path
 * computations are the same code as the newer command line's and are shared
 * with it.
 */
module Legacy {
  import opened Wrappers
  import opened Json
  import Text
  import Paths
  import opened Utils
  import opened Host
  import Base
  import Sets
  import Osx
  import Android
  import Cli
  import Pewtools

  // ---------------------------------------------------------------- copy_files

  /** Some ignore string occurs in `path`. */
  predicate Ignored(ignorePaths: seq<string>, path: string) {
    exists i :: 0 <= i < |ignorePaths| && Text.Contains(path, ignorePaths[i])
  }

  /**
   * The `ignore` callback `_logpath(path, names)` that `copy_files` hands to
   * `copytree`: every name of the directory when an ignore string occurs in
   * the directory's path, none otherwise.
   */
  method LogPath(ignorePaths: seq<string>, path: string, names: seq<string>) returns (skipped: seq<string>)
    ensures Ignored(ignorePaths, path) ==> skipped == names
    ensures !Ignored(ignorePaths, path) ==> skipped == []
  {
    var k := 0;
    while k < |ignorePaths|
      invariant 0 <= k <= |ignorePaths|
      invariant forall j :: 0 <= j < k ==> !Text.Contains(path, ignorePaths[j])
    {
      if Text.Contains(path, ignorePaths[k]) {
        return names;
      }
      k := k + 1;
    }
    return [];
  }

  /** An ignored directory's subdirectories are ignored too: their paths extend its path. */
  lemma IgnoredBelow(ignorePaths: seq<string>, dir: string, rest: string)
    requires Ignored(ignorePaths, dir)
    ensures Ignored(ignorePaths, dir + rest)
  {
    var i :| 0 <= i < |ignorePaths| && Text.Contains(dir, ignorePaths[i]);
    var pat := ignorePaths[i];
    var j: nat :| j <= |dir| && Text.MatchAt(dir, pat, j);
    assert (dir + rest)[j..j + |pat|] == dir[j..j + |pat|];
    assert Text.MatchAt(dir + rest, pat, j);
  }

  /** The directory a file was listed in: its path up to the last '/'. */
  function Parent(f: string): (r: string)
    ensures Text.StartsWith(f, r)
  {
    var k := Text.RFind(f, '/');
    if k < 0 then "" else f[..k]
  }

  /**
   * `copytree` only descends into directories whose listing was not
   * skipped, and skipping is inherited by subdirectories, so a file is
   * copied exactly when the directory it sits in is not ignored: no
   * directory on the way down is ignored unless its own one is.
   */
  lemma ParentDecides(ignorePaths: seq<string>, f: string, d: string)
    requires Text.StartsWith(Parent(f), d) && Ignored(ignorePaths, d)
    ensures Ignored(ignorePaths, Parent(f))
  {
    var p := Parent(f);
    assert p == d + p[|d|..];
    IgnoredBelow(ignorePaths, d, p[|d|..]);
  }

  /** The files the filtered `copytree` copies: those whose directory is not ignored. */
  function Keep(ignorePaths: seq<string>): string -> bool {
    f => !Ignored(ignorePaths, Parent(f))
  }

  /** The files after `copytree(src, dst, ignore=_logpath)`. */
  function TreeCopied(files: map<string, string>, src: string, dst: string, ignorePaths: seq<string>): map<string, string> {
    files + Rebased(Only(files, Keep(ignorePaths)), src, dst)
  }

  /** A file below `src` whose directory is not ignored reappears below `dst` with the same text. */
  lemma CopiedUnlessIgnored(files: map<string, string>, src: string, dst: string, ignorePaths: seq<string>, f: string)
    requires f in files && Under(f, src) && !Ignored(ignorePaths, Parent(f))
    ensures dst + f[|src|..] in TreeCopied(files, src, dst, ignorePaths)
    ensures TreeCopied(files, src, dst, ignorePaths)[dst + f[|src|..]] == files[f]
  {
    var kept := Only(files, Keep(ignorePaths));
    assert Keep(ignorePaths)(f);
    assert f in kept;
    RebasedHas(kept, src, dst, f);
  }

  /** Every file the copy brings in comes from a file below `src` whose directory is not ignored. */
  lemma CopiedOnlyKept(files: map<string, string>, src: string, dst: string, ignorePaths: seq<string>, q: string)
    requires q in Rebased(Only(files, Keep(ignorePaths)), src, dst)
    ensures |q| >= |dst| && src + q[|dst|..] in files
    ensures !Ignored(ignorePaths, Parent(src + q[|dst|..]))
    ensures TreeCopied(files, src, dst, ignorePaths)[q] == files[src + q[|dst|..]]
  {
    var kept := Only(files, Keep(ignorePaths));
    assert src + q[|dst|..] in kept;
    assert Keep(ignorePaths)(src + q[|dst|..]);
  }

  /** The files after `shutil.rmtree(p)` when `p` exists, unchanged otherwise. */
  function Cleared(files: map<string, string>, p: string, exists_: bool): map<string, string> {
    if exists_ then map f | f in files && !Under(f, p) :: files[f] else files
  }

  /** `os.path.join(cwd, "project_info.json")`. */
  function InfoFile(cwd: string): string {
    Paths.Join(cwd, "project_info.json")
  }

  /** The first two steps of `copy_files`: the old tree goes, the filtered copy comes. */
  method CopyTreeFresh(srcDir: string, buildDir: string, ignorePaths: seq<string>, host: Machine)
    modifies host
    ensures host.files == TreeCopied(Cleared(old(host.files), buildDir, old(host.Exists(buildDir))), srcDir, buildDir, ignorePaths)
    ensures old(host.Exists(buildDir)) ==> Removals(host.trace) == Removals(old(host.trace)) + [buildDir]
    ensures !old(host.Exists(buildDir)) ==> Removals(host.trace) == Removals(old(host.trace))
    ensures Commands(host.trace) == Commands(old(host.trace))
  {
    if host.Exists(buildDir) {
      host.RemoveTree(buildDir);
    }
    host.CopyTreeSome(srcDir, buildDir, Keep(ignorePaths));
  }

  /**
   * `copy_files(src_dir, build_dir, ignore_paths)`: an existing build tree
   * is removed, the sources are copied without the ignored directories,
   * and the project descriptor is copied into the tree; a missing
   * descriptor raises after the copy.
   */
  method CopyFiles(srcDir: string, buildDir: string, ignorePaths: seq<string>, cwd: string, host: Machine) returns (r: Result<()>)
    modifies host
    ensures old(host.Exists(buildDir)) ==> Removals(host.trace) == Removals(old(host.trace)) + [buildDir]
    ensures !old(host.Exists(buildDir)) ==> Removals(host.trace) == Removals(old(host.trace))
    ensures Commands(host.trace) == Commands(old(host.trace))
    ensures var staged := TreeCopied(Cleared(old(host.files), buildDir, old(host.Exists(buildDir))), srcDir, buildDir, ignorePaths);
      && (InfoFile(cwd) in staged ==> r.Ok? && host.files == staged[Paths.Join(buildDir, "project_info.json") := staged[InfoFile(cwd)]])
      && (InfoFile(cwd) !in staged ==> r.Err? && host.files == staged)
  {
    CopyTreeFresh(srcDir, buildDir, ignorePaths, host);
    var info := InfoFile(cwd);
    if !host.IsFile(info) {
      return Err(Raised(if host.Exists(info) then "IsADirectoryError" else "FileNotFoundError"));
    }
    // `copy2` into a directory keeps the file's own name
    host.CopyFile(info, Paths.Join(buildDir, "project_info.json"));
    r := Ok(());
  }

  /** The tool's own `pew` package and where `copy_pew_module` puts it. */
  function PewSource(thisdir: string): string {
    Paths.Join(Paths.Join(thisdir, "src"), "pew")
  }

  function PewDest(buildDir: string): string {
    Paths.Join(buildDir, "pew")
  }

  /** `copy_pew_module(build_dir)`: the bundled module is copied unless the project brings its own. */
  method CopyPewModule(buildDir: string, thisdir: string, host: Machine)
    modifies host
    ensures old(host.Exists(PewDest(buildDir))) ==> host.files == old(host.files) && host.dirs == old(host.dirs) && host.trace == old(host.trace)
    ensures !old(host.Exists(PewDest(buildDir))) ==>
      host.files == old(host.files) + Rebased(old(host.files), PewSource(thisdir), PewDest(buildDir))
      && host.dirs == old(host.dirs) + {PewDest(buildDir)}
    ensures Commands(host.trace) == Commands(old(host.trace)) && Removals(host.trace) == Removals(old(host.trace))
  {
    if !host.Exists(PewDest(buildDir)) {
      host.CopyTree(PewSource(thisdir), PewDest(buildDir));
    }
  }

  // ---------------------------------------------------------------- setup.sh

  const DefaultSdk: string := "19"
  const DefaultBuildTools: string := "23.0.3"

  /**
   * The Android API level and build-tools version `create_android_setup_sh`
   * writes: "19" and "23.0.3" unless `sdks.android` names others. Both are
   * formatted with `str()`.
   */
  function SdkSettings(info: Info): (r: Result<(string, string)>)
    ensures "sdks" !in info ==> r == Ok((DefaultSdk, DefaultBuildTools))
  {
    if "sdks" !in info then Ok((DefaultSdk, DefaultBuildTools))
    else
      var sdks := info["sdks"];
      var hasAndroid :- In(Str("android"), sdks);
      if !hasAndroid then Ok((DefaultSdk, DefaultBuildTools))
      else
        var android :- Subscript(sdks, Str("android"));
        var sdk :- Setting(android, "target_sdk", DefaultSdk);
        var tools :- Setting(android, "build_tools", DefaultBuildTools);
        Ok((sdk, tools))
  }

  /** `str(v[key])` when `key in v`, else `default`. */
  function Setting(v: Value, key: string, default: string): (r: Result<string>)
    ensures v.Obj? && key !in v.fields ==> r == Ok(default)
    ensures v.Obj? && key in v.fields ==> r == PyStr(v.fields[key])
  {
    var has :- In(Str(key), v);
    if !has then Ok(default)
    else
      var x :- Subscript(v, Str(key));
      PyStr(x)
  }

  /** The two lines of `setup.sh` that matter. */
  function ApiLine(sdk: string): string {
    "export ANDROIDAPI=" + sdk
  }

  function ToolsLine(tools: string): string {
    "export ANDROIDBUILDTOOLSVER=" + tools
  }

  /** The text of `setup.sh`. */
  function SetupShText(sdk: string, tools: string): string {
    "\n" + ApiLine(sdk) + "\n" + ToolsLine(tools) + "\n"
  }

  /** `setup.sh` is a blank line, the two exports, and a final newline: its lines give the values back. */
  lemma SetupShLines(sdk: string, tools: string)
    requires '\n' !in sdk && '\n' !in tools
    ensures Text.Split(SetupShText(sdk, tools), '\n') == ["", ApiLine(sdk), ToolsLine(tools), ""]
  {
    var parts := ["", ApiLine(sdk), ToolsLine(tools), ""];
    SetupShJoined(sdk, tools);
    ExportsOneLine(sdk, tools);
    Text.SplitJoin(parts, '\n');
  }

  /** The text is the four lines joined by newlines. */
  lemma SetupShJoined(sdk: string, tools: string)
    ensures SetupShText(sdk, tools) == Text.Join(["", ApiLine(sdk), ToolsLine(tools), ""], "\n")
  {
    var a, b := ApiLine(sdk), ToolsLine(tools);
    var parts := ["", a, b, ""];
    assert parts[1..] == [a, b, ""] && [a, b, ""][1..] == [b, ""] && [b, ""][1..] == [""];
    assert Text.Join([b, ""], "\n") == b + "\n" + "";
    assert Text.Join([a, b, ""], "\n") == a + "\n" + (b + "\n" + "");
  }

  /** Neither export spans a line break. */
  lemma ExportsOneLine(sdk: string, tools: string)
    requires '\n' !in sdk && '\n' !in tools
    ensures '\n' !in ApiLine(sdk) && '\n' !in ToolsLine(tools)
  {
    assert '\n' !in "export ANDROIDAPI=";
    assert '\n' !in "export ANDROIDBUILDTOOLSVER=";
  }

  /** An integer API level and a string build-tools version under `sdks.android` are written as given. */
  lemma SdkOverride(info: Info, level: int, tools: string)
    requires "sdks" in info && info["sdks"].Obj? && "android" in info["sdks"].fields
    requires var a := info["sdks"].fields["android"];
      a.Obj? && "target_sdk" in a.fields && a.fields["target_sdk"] == Int(level)
      && "build_tools" in a.fields && a.fields["build_tools"] == Str(tools)
    ensures SdkSettings(info) == Ok((Text.IntToString(level), tools))
  {
    var a := info["sdks"].fields["android"];
    assert Setting(a, "target_sdk", DefaultSdk) == Ok(Text.IntToString(level));
    assert Setting(a, "build_tools", DefaultBuildTools) == Ok(tools);
  }

  /** `os.path.join(cwd, "native", "android")`. */
  function AndroidNativeDir(cwd: string): string {
    Paths.Join(Paths.Join(cwd, "native"), "android")
  }

  /**
   * `create_android_setup_sh(info_json)`: the native Android directory is
   * made when missing and `setup.sh` is written in it.
   */
  method CreateAndroidSetupSh(info: Info, cwd: string, host: Machine) returns (r: Result<()>)
    modifies host
    ensures SdkSettings(info).Err? ==> r.Err? && host.files == old(host.files) && host.trace == old(host.trace)
    ensures SdkSettings(info).Ok? && AndroidNativeDir(cwd) !in old(host.files) ==>
      var s := SdkSettings(info).value;
      r.Ok? && host.files == old(host.files)[Paths.Join(AndroidNativeDir(cwd), "setup.sh") := SetupShText(s.0, s.1)]
    ensures AndroidNativeDir(cwd) in old(host.files) ==> r.Err? && host.files == old(host.files)
    ensures SdkSettings(info).Ok? ==>
      host.dirs == old(host.dirs) + (if old(host.Exists(AndroidNativeDir(cwd))) then {} else {AndroidNativeDir(cwd)})
    ensures Commands(host.trace) == Commands(old(host.trace)) && Removals(host.trace) == Removals(old(host.trace))
  {
    var settings := SdkSettings(info);
    if settings.Err? {
      return Err(settings.error);
    }
    var dir := AndroidNativeDir(cwd);
    if !host.Exists(dir) {
      host.MakeDirs(dir);
    }
    if host.IsFile(dir) {
      return Err(Raised("NotADirectoryError"));
    }
    host.WriteFile(Paths.Join(dir, "setup.sh"), SetupShText(settings.value.0, settings.value.1));
    r := Ok(());
  }

  // ---------------------------------------------------------------- the Android build

  /** What `build` works out for `build.sh` before it touches the file system. */
  datatype AndroidSettings = AndroidSettings(
    filename: string, buildDir: string, icon: string, launch: string, whitelist: string,
    orientation: Value, requirements: string, buildType: string, intentFilters: string,
    keystore: string, keyalias: Value, keypasswd: Value)

  /** The ignore paths and the Android settings. */
  datatype Plan = Plan(ignorePaths: seq<string>, settings: AndroidSettings)

  /** A platform lookup for Android whose result must be a string (it is joined into a path). */
  function PathSetting(info: Info, key: string): (r: Result<string>)
    ensures key !in info ==> r == Ok("fakefile")
  {
    var v :- ValueForPlatform(info, key, "android", Str("fakefile"));
    if v.Str? then Ok(v.s) else Err(TypeError("expected str, bytes or os.PathLike object"))
  }

  /** The release signing: build type, keystore, key alias and key password; all blank for a debug build. */
  datatype Signing = Signing(buildType: string, keystore: string, keyalias: Value, keypasswd: Value)

  /**
   * The signing entries of a release build: `codesign.android` must hold a
   * `keystore` path and an `alias`; without a `passwd` entry the password
   * typed at the prompt (`password`) is used.
   */
  function SigningOf(info: Info, release: bool, password: string, cwd: string): (r: Result<Signing>)
    ensures !release ==> r == Ok(Signing("", "", Str(""), Str("")))
    ensures release && r.Ok? ==> r.value.buildType == "release"
  {
    if !release then Ok(Signing("", "", Str(""), Str("")))
    else
      var signing :- ValueForPlatform(info, "codesign", "android", Str(""));
      var store :- Subscript(signing, Str("keystore"));
      if !store.Str? then Err(TypeError("expected str, bytes or os.PathLike object"))
      else
        var alias :- Subscript(signing, Str("alias"));
        // `signing` is a mapping once both subscripts succeeded
        var passwd := if "passwd" in signing.fields then signing.fields["passwd"] else Str(password);
        Ok(Signing("release", Paths.Abspath(cwd, store.s), alias, passwd))
  }

  /** A release build with a `passwd` entry signs with it; without one, with the typed password. */
  lemma ReleasePassword(info: Info, password: string, cwd: string, store: string, alias: Value)
    requires "codesign" in info && info["codesign"].Obj? && "android" in info["codesign"].fields
    requires var s := info["codesign"].fields["android"];
      s.Obj? && "keystore" in s.fields && s.fields["keystore"] == Str(store) && "alias" in s.fields && s.fields["alias"] == alias
    ensures var s := info["codesign"].fields["android"].fields;
      SigningOf(info, true, password, cwd)
        == Ok(Signing("release", Paths.Abspath(cwd, store), alias, if "passwd" in s then s["passwd"] else Str(password)))
  {
    var signing := info["codesign"].fields["android"];
    assert ValueForPlatform(info, "codesign", "android", Str("")) == Ok(signing);
  }

  /** `",".join(requirements)` when there are any, else the empty string. */
  function JoinedRequirements(reqs: Value): (r: Result<string>)
    ensures reqs.Arr? && reqs.items == [] ==> r == Ok("")
    ensures reqs.Arr? && reqs.items != [] ==> r == JoinStrs(reqs.items, ",")
  {
    var items :- Iter(reqs);
    if |items| > 0 then JoinStrs(items, ",") else Ok("")
  }

  /** The joined requirements split back into the names given, when no name holds a comma. */
  lemma RequirementsRoundTrip(names: seq<string>)
    requires names != [] && forall i :: 0 <= i < |names| ==> ',' !in names[i]
    ensures JoinedRequirements(Arr(Strs(names))).Ok?
    ensures Text.Split(JoinedRequirements(Arr(Strs(names))).value, ',') == names
  {
    var v := Arr(Strs(names));
    assert IsStrList(v);
    var r := JoinStrs(v.items, ",");
    assert StrItems(v) == names by {
      StrsInjective(StrItems(v), names);
    }
    Text.SplitJoin(names, ',');
  }

  /** Two lists of strings with the same `Str` images are the same list. */
  lemma StrsInjective(a: seq<string>, b: seq<string>)
    requires Strs(a) == Strs(b)
    ensures a == b
  {
    assert |a| == |b|;
    forall i | 0 <= i < |a| ensures a[i] == b[i] {
      assert Strs(a)[i] == Str(a[i]) && Strs(b)[i] == Str(b[i]);
    }
  }

  /** `os.path.join(cwd, "build", "android")`, with `config` below it when a non-blank config is named. */
  function AndroidBuildDir(cwd: string, config: Option<string>): string {
    var base := Paths.Join(Paths.Join(cwd, "build"), "android");
    if config.Some? && Text.Strip(config.value) != "" then Paths.Join(base, config.value) else base
  }

  /**
   * The Android settings of `build`, in the order the source evaluates
   * them: the file name (the project name without spaces), then the icon,
   * the whitelist, the launch images, the orientation (default "sensor"),
   * the intent filters and the release signing, each looked up for the
   * "android" platform, and last the joined requirements.
   */
  function SettingsOf(info: Info, config: Option<string>, release: bool, password: string, cwd: string, reqs: Value): (r: Result<AndroidSettings>)
    ensures r.Ok? ==> ' ' !in r.value.filename && r.value.buildDir == AndroidBuildDir(cwd, config)
  {
    var name :- Subscript(Obj(info), Str("name"));
    if !name.Str? then Err(TypeError("replace() of a non-string"))
    else
      var icon :- PathSetting(info, "icons");
      var whitelist :- PathSetting(info, "whitelist_file");
      var launch :- PathSetting(info, "launch_images");
      var orientation :- ValueForPlatform(info, "orientation", "android", Str("sensor"));
      var intents :- PathSetting(info, "intent_filters");
      var signing :- SigningOf(info, release, password, cwd);
      var joined :- JoinedRequirements(reqs);
      Ok(AndroidSettings(
        Cli.SafeName(name.s), AndroidBuildDir(cwd, config),
        Paths.Join(Paths.Join(Paths.Join(cwd, "icons"), "android"), icon),
        Paths.Abspath(cwd, launch), Paths.Abspath(cwd, whitelist), orientation, joined,
        signing.buildType, Paths.Abspath(cwd, intents), signing.keystore, signing.keyalias, signing.keypasswd))
  }

  /**
   * A descriptor with a string name and none of the optional Android
   * entries gives the "fakefile" placeholders, the "sensor" orientation
   * and, for a debug build, no signing.
   */
  lemma AndroidDefaults(info: Info, config: Option<string>, password: string, cwd: string, reqs: seq<string>)
    requires "name" in info && info["name"].Str?
    requires "icons" !in info && "whitelist_file" !in info && "launch_images" !in info
    requires "orientation" !in info && "intent_filters" !in info
    requires reqs != []
    ensures var r := SettingsOf(info, config, false, password, cwd, Arr(Strs(reqs)));
      && r.Ok?
      && r.value.icon == Paths.Join(Paths.Join(Paths.Join(cwd, "icons"), "android"), "fakefile")
      && r.value.whitelist == Paths.Abspath(cwd, "fakefile")
      && r.value.orientation == Str("sensor")
      && r.value.buildType == "" && r.value.keystore == ""
      && r.value.requirements == Text.Join(reqs, ",")
  {
    var v := Arr(Strs(reqs));
    assert IsStrList(v);
    StrsInjective(StrItems(v), reqs);
  }

  /**
   * What `build` settles before the build tree is touched: the requirement
   * list (platform, then "common"), the ignore paths, and the Android
   * settings.
   */
  function PlanOf(info: Info, config: Option<string>, release: bool, password: string, cwd: string): Result<Plan> {
    var reqs :- Cli.Requirements(info, "android");
    var ignore :- Cli.IgnorePaths(info, Cli.ConfigArg(config), cwd);
    var settings :- SettingsOf(info, config, release, password, cwd, reqs);
    Ok(Plan(ignore, settings))
  }

  /** `os.path.join(thisdir, "native", "android")`. */
  function AndroidToolDir(thisdir: string): string {
    Paths.Join(Paths.Join(thisdir, "native"), "android")
  }

  /** The `build.sh` command as built, before `subprocess` checks that every argument is a string. */
  function BuildShValues(script: string, s: AndroidSettings, identifier: Value, version: Value): seq<Value>
  {
    [Str("bash"), Str(script), identifier, Str(s.filename), version,
     Str(s.buildDir), Str(s.icon), Str(s.launch), Str(s.whitelist), s.orientation, Str(s.requirements),
     Str(s.buildType), Str(s.intentFilters), Str(s.keystore), s.keyalias, s.keypasswd]
  }

  /** The positions `build.sh` reads its arguments from. */
  lemma BuildShPositions(script: string, s: AndroidSettings, identifier: Value, version: Value)
    ensures var r := BuildShValues(script, s, identifier, version);
      && |r| == 16 && r[0] == Str("bash") && r[1] == Str(script) && r[2] == identifier && r[3] == Str(s.filename) && r[4] == version
      && r[5] == Str(s.buildDir) && r[9] == s.orientation && r[10] == Str(s.requirements) && r[11] == Str(s.buildType)
  {
  }

  /** The `build.sh` command line run at the end of the Android build. */
  function BuildShCommand(info: Info, thisdir: string, s: AndroidSettings): Result<seq<string>> {
    var identifier :- Subscript(Obj(info), Str("identifier"));
    var version :- Subscript(Obj(info), Str("version"));
    Android.Argv(BuildShValues(Paths.Join(AndroidToolDir(thisdir), "build.sh"), s, identifier, version))
  }

  /** The requirements installed into the build's virtual environment: `info_json["packages"]`, a list of strings. */
  function Packages(info: Info): Result<seq<string>> {
    var v :- Subscript(Obj(info), Str("packages"));
    if IsStrList(v) then Ok(StrItems(v)) else Err(TypeError("packages must be a list of strings"))
  }

  /** The old build tree is removed and its parent directory made when missing. */
  method PrepareBuildDir(buildDir: string, host: Machine)
    modifies host
    ensures host.files == Cleared(old(host.files), buildDir, old(host.Exists(buildDir)))
    ensures Removals(host.trace) == Removals(old(host.trace)) + (if old(host.Exists(buildDir)) then [buildDir] else [])
    ensures Commands(host.trace) == Commands(old(host.trace))
  {
    if host.Exists(buildDir) {
      host.RemoveTree(buildDir);
    }
    var parent := Paths.Dirname(buildDir);
    if !host.Exists(parent) {
      host.MakeDirs(parent);
    }
  }

  /** `os.path.join(build_dir, "venv")`, the virtual environment the requirements are installed into. */
  function VenvDir(buildDir: string): string {
    Paths.Join(buildDir, "venv")
  }

  /**
   * The dependency steps: the virtual environment directory is made, the
   * requirements are installed and the new site-packages entries copied
   * into the build tree, the `pew` module is copied, and the virtual
   * environment is removed again. `copy_deps_to_build` is handed the
   * environment directory as its build directory, so its own environment
   * lies one level further down.
   */
  method StageDeps(deps: seq<string>, buildDir: string, thisdir: string, sites: seq<string>, before: seq<string>, after: seq<string>, host: Machine)
    returns (r: Result<()>)
    modifies host
    ensures r.Ok? ==> Commands(host.trace) == Commands(old(host.trace)) + Pewtools.PipInstalls(VenvDir(VenvDir(buildDir)), deps)
    ensures r.Ok? ==> Removals(host.trace) == Removals(old(host.trace)) + [VenvDir(buildDir)]
    ensures r.Err? ==> Removals(host.trace) == Removals(old(host.trace))
    ensures sites == [] ==> r.Err? && Commands(host.trace) == Commands(old(host.trace))
  {
    var venv := VenvDir(buildDir);
    if !host.Exists(venv) {
      host.MakeDirs(venv);
    }
    r := Pewtools.CopyDepsToBuild(deps, venv, buildDir, sites, before, after, host);
    if r.Err? {
      return;
    }
    CopyPewModule(buildDir, thisdir, host);
    host.RemoveTree(venv);
  }

  /** The build tree made afresh from the sources: `PrepareBuildDir`, then `CopyFiles`. No command runs. */
  method FreshTree(buildDir: string, ignorePaths: seq<string>, cwd: string, host: Machine) returns (r: Result<()>)
    modifies host
    ensures Commands(host.trace) == Commands(old(host.trace))
    ensures r.Ok? ==> Paths.Join(buildDir, "project_info.json") in host.files
  {
    PrepareBuildDir(buildDir, host);
    r := CopyFiles(Paths.Join(cwd, "src"), buildDir, ignorePaths, cwd, host);
  }

  /**
   * What a successful Android build has done: the requirements were
   * installed, one after the other, and then `build.sh` ran, its status
   * being the result; the last tree removed was the virtual environment.
   * `before` and `after` are the commands run before and after the build.
   */
  ghost predicate BuiltWith(info: Info, thisdir: string, s: AndroidSettings, before: seq<seq<string>>, after: seq<seq<string>>,
                            removals: seq<string>, status: seq<string> -> int, r: Result<int>)
  {
    r.Ok? ==>
      && Packages(info).Ok? && BuildShCommand(info, thisdir, s).Ok?
      && after == before + Pewtools.PipInstalls(VenvDir(VenvDir(s.buildDir)), Packages(info).value)
           + [BuildShCommand(info, thisdir, s).value]
      && r.value == status(BuildShCommand(info, thisdir, s).value)
      && |removals| > 0 && removals[|removals| - 1] == VenvDir(s.buildDir)
  }

  /**
   * The build once the plan is settled: the build tree is made afresh from
   * the sources, the dependencies are staged, and `build.sh` runs.
   */
  method BuildFromPlan(info: Info, s: AndroidSettings, ignorePaths: seq<string>, cwd: string, thisdir: string,
                       sites: seq<string>, before: seq<string>, after: seq<string>, host: Machine) returns (r: Result<int>)
    modifies host
    ensures BuiltWith(info, thisdir, s, Commands(old(host.trace)), Commands(host.trace), Removals(host.trace), host.status, r)
  {
    var files := FreshTree(s.buildDir, ignorePaths, cwd, host);
    if files.Err? {
      return Err(files.error);
    }
    var deps := Packages(info);
    if deps.Err? {
      return Err(deps.error);
    }
    ghost var commands := Commands(host.trace);
    var staged := StageDeps(deps.value, s.buildDir, thisdir, sites, before, after, host);
    if staged.Err? {
      return Err(staged.error);
    }
    var argv := BuildShCommand(info, thisdir, s);
    if argv.Err? {
      return Err(argv.error);
    }
    var code := host.Run(argv.value);
    r := Ok(code);
  }

  /**
   * `build(args)` for the "android" platform: the config file is put in
   * place, the plan is settled, and the build proceeds from it; the status
   * of `build.sh` is the result. A plan that cannot be settled stops the
   * build before any directory is made or command run.
   */
  method BuildAndroid(info: Info, config: Option<string>, release: bool, password: string, cwd: string, thisdir: string,
                      sites: seq<string>, before: seq<string>, after: seq<string>, host: Machine) returns (r: Result<int>)
    modifies host
    ensures PlanOf(info, config, release, password, cwd).Err? ==>
      r.Err? && Commands(host.trace) == Commands(old(host.trace)) && host.dirs == old(host.dirs)
    ensures r.Ok? ==> PlanOf(info, config, release, password, cwd).Ok?
    ensures PlanOf(info, config, release, password, cwd).Ok? ==>
      BuiltWith(info, thisdir, PlanOf(info, config, release, password, cwd).value.settings,
                Commands(old(host.trace)), Commands(host.trace), Removals(host.trace), host.status, r)
  {
    ghost var commands := Commands(host.trace);
    var copied := Cli.CopyConfigFile(config, cwd, host);
    assert Commands(host.trace) == commands;
    if copied.Err? {
      return Err(copied.error);
    }
    var plan := PlanOf(info, config, release, password, cwd);
    if plan.Err? {
      return Err(plan.error);
    }
    r := BuildFromPlan(info, plan.value.settings, plan.value.ignorePaths, cwd, thisdir, sites, before, after, host);
  }

  // ---------------------------------------------------------------- macOS signing

  /** `os.path.join(dist_dir, "%s.app" % info_json["name"])`. */
  function AppBundle(info: Info, distDir: string): Result<string> {
    var name :- Subscript(Obj(info), Str("name"));
    var text :- PyStr(name);
    Ok(Paths.Join(distDir, text + ".app"))
  }

  /**
   * The signing pass at the end of the desktop `build` on macOS, when the
   * descriptor has a `codesign` entry: `.py` and `.pyo` files are removed
   * from the bundle's library directory (`walk` stands for `os.walk`), the
   * frameworks and dynamic libraries are found, and everything is signed in
   * `Osx.SignPaths` order, the bundle last. The identity is looked up when
   * the first path is signed, so a descriptor without one fails before any
   * signing. Elsewhere, or without `codesign`, nothing happens.
   */
  method SignMac(info: Info, darwin: bool, distDir: string, walk: string -> seq<Base.WalkDir>, host: Machine)
    returns (r: Result<()>, frameworks: seq<string>, dylibs: seq<string>, signed: seq<string>)
    modifies host
    ensures !darwin || "codesign" !in info ==> r.Ok? && host.trace == old(host.trace) && host.files == old(host.files) && signed == []
    ensures darwin && "codesign" in info && AppBundle(info, distDir).Err? ==> r.Err? && host.trace == old(host.trace)
    ensures darwin && "codesign" in info && AppBundle(info, distDir).Ok? ==>
      var app := AppBundle(info, distDir).value;
      && Removals(host.trace) == Removals(old(host.trace)) + Osx.StrippedFiles(walk(Osx.LibDir(app)), Osx.IsPySource)
      && Sets.Listing(frameworks, Base.GlobEntries(host.files, host.dirs, Osx.FrameworksDir(app), ".framework"))
      && Sets.Listing(dylibs, Base.GlobEntries(host.files, host.dirs, Osx.FrameworksDir(app), ".dylib"))
      && Osx.SignedPaths(Commands(host.trace)) == Osx.SignedPaths(Commands(old(host.trace))) + signed
      && (Osx.Identity(info).Err? ==> r.Err? && signed == [])
      && (Osx.Identity(info).Ok? ==> Osx.SignedInOrder(signed, Osx.SignPaths(app, frameworks, dylibs), Osx.Identity(info).value, host.status, r.Ok?))
      && (r.Ok? ==> Osx.EndsSigning(Commands(host.trace), app, Osx.Identity(info).value))
  {
    frameworks, dylibs, signed := [], [], [];
    if !darwin || "codesign" !in info {
      return Ok(()), frameworks, dylibs, signed;
    }
    var app := AppBundle(info, distDir);
    if app.Err? {
      return Err(app.error), frameworks, dylibs, signed;
    }
    Osx.StripSources(walk(Osx.LibDir(app.value)), Osx.IsPySource, host);
    frameworks := Base.Glob(Osx.FrameworksDir(app.value), ".framework", host);
    dylibs := Base.Glob(Osx.FrameworksDir(app.value), ".dylib", host);
    var identity := Osx.Identity(info);
    if identity.Err? {
      return Err(identity.error), frameworks, dylibs, signed;
    }
    r, signed := Osx.SignApp(app.value, frameworks, dylibs, identity.value, host);
  }
}

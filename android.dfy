/**
 * `AndroidBuildController`: the python-for-android (`p4a`) command of an
 * Android build, the checks that stop the build before anything is removed
 * or run, the staging steps, the tool environment and the distribution
 * command.
 */
module Android {
  import opened Wrappers
  import opened Json
  import Text
  import Paths
  import opened Utils
  import opened Host
  import opened Base
  import opened Sets
  import Pewtools

  const DefaultSdk := "29"
  const DefaultBuildTools := "29.0.2"
  const DefaultArch := "armeabi-v7a"
  const DefaultRequirements: seq<string> := ["openssl", "python3", "pyjnius", "genericndkbuild"]
  const NdkVersion := "r21"
  const AntVersion := "1.9.9"
  const Bootstrap := "webview"
  const AndroidName := "android"
  /** The permissions every build asks for. */
  const ForcedPermissions: seq<Value> := [Str("WRITE_EXTERNAL_STORAGE"), Str("ACCESS_NETWORK_STATE")]


  /**
   * What the Android controller reads from its surroundings: the directory
   * of its bundled Java sources, the native-tools root, whether the host is
   * a Mac, the process environment, the password typed at the prompt, and
   * for `copy_deps_to_build` the site-packages directories the glob finds
   * and that directory's listings before and after the installs.
   */
  datatype AndroidWorld = AndroidWorld(filesDir: string, androidRoot: string, darwin: bool, environ: map<string, string>, password: string,
                                       sites: seq<string>, sitesBefore: seq<string>, sitesAfter: seq<string>)

  // ---------------------------------------------------------------- small helpers

  /** `get_arch()`: 64-bit ARM exactly when `64bit` is among the extra arguments. */
  function GetArch(c: Controller): (r: string)
    ensures r == "arm64-v8a" <==> "64bit" in c.args.extraArgs
    ensures r != "arm64-v8a" ==> r == DefaultArch
  {
    if "64bit" in c.args.extraArgs then "arm64-v8a" else DefaultArch
  }

  /** `get_dist_name()`: the app name without spaces, then `_dist`. */
  function DistName(c: Controller): (r: string)
    requires c.Valid()
    ensures ' ' !in r && Text.EndsWith(r, "_dist")
    ensures |r| >= 5 && r[..|r| - 5] == Text.Replace(c.Name(), " ", "")
  {
    Text.ReplaceCharGone(c.Name(), ' ', "");
    var n := Text.Replace(c.Name(), " ", "");
    var r := n + "_dist";
    assert r[|n|..] == "_dist" && r[..|n|] == n;
    r
  }

  /** The `sdks.android` mapping of the descriptor, when both levels are mappings. */
  function AndroidSdkBlock(info: Info): Option<map<string, Value>> {
    if "sdks" in info && info["sdks"].Obj? && "android" in info["sdks"].fields && info["sdks"].fields["android"].Obj?
    then Some(info["sdks"].fields["android"].fields)
    else None
  }

  /**
   * `get_android_sdk_info()`: the target SDK (as `str()` spells it) and the
   * build-tools version, each defaulting when the descriptor does not set it.
   */
  function SdkInfo(info: Info): (r: Result<(string, Value)>)
    ensures "sdks" !in info ==> r == Ok((DefaultSdk, Str(DefaultBuildTools)))
    ensures "sdks" in info && info["sdks"].Obj? && "android" !in info["sdks"].fields ==> r == Ok((DefaultSdk, Str(DefaultBuildTools)))
    ensures AndroidSdkBlock(info).Some? ==>
      var b := AndroidSdkBlock(info).value;
      && ("target_sdk" !in b ==> r.Ok? && r.value.0 == DefaultSdk)
      && ("target_sdk" in b && b["target_sdk"].Int? ==> r.Ok? && r.value.0 == Text.IntToString(b["target_sdk"].i))
      && ("target_sdk" in b && b["target_sdk"].Str? ==> r.Ok? && r.value.0 == b["target_sdk"].s)
      && (r.Ok? ==> r.value.1 == Get(b, "build_tools", Str(DefaultBuildTools)))
    ensures r.Err? ==> !r.error.SystemExit?
  {
    if "sdks" !in info then Ok((DefaultSdk, Str(DefaultBuildTools)))
    else
      var entry :- Member(info["sdks"], "android");
      if entry.None? then Ok((DefaultSdk, Str(DefaultBuildTools)))
      else
        var target :- Member(entry.value, "target_sdk");
        var sdk :- if target.Some? then PyStr(target.value) else Ok(DefaultSdk);
        var tools :- Member(entry.value, "build_tools");
        Ok((sdk, if tools.Some? then tools.value else Str(DefaultBuildTools)))
  }

  function SdkPlatform(aw: AndroidWorld): string { if aw.darwin then "macosx" else "linux" }
  function SdkDir(aw: AndroidWorld): string { aw.androidRoot + "/android-sdk-" + SdkPlatform(aw) }
  function NdkDir(aw: AndroidWorld): string { aw.androidRoot + "/android-ndk-" + NdkVersion }
  function AntHome(aw: AndroidWorld): string { aw.androidRoot + "/apache-ant-" + AntVersion }

  /** The directories `get_env` puts after the inherited search path, in order. */
  function ToolPaths(aw: AndroidWorld): seq<string> {
    [NdkDir(aw), "~/.local/bin", SdkDir(aw) + "/platform-tools", SdkDir(aw) + "/tools", AntHome(aw) + "/bin"]
  }

  /**
   * `get_env()`: the process environment with the SDK, NDK and Ant settings
   * added and the tool directories appended to `PATH`; a missing `PATH` is a
   * `KeyError`, and a build-tools value that is not a string makes the later
   * `subprocess` call fail (reported here).
   */
  function GetEnv(info: Info, aw: AndroidWorld): (r: Result<map<string, string>>)
    ensures r.Ok? <==> SdkInfo(info).Ok? && SdkInfo(info).value.1.Str? && "PATH" in aw.environ
    ensures r.Ok? ==> EnvKeys <= r.value.Keys
    ensures r.Err? ==> !r.error.SystemExit?
    ensures r.Ok? ==> r.value["ANDROIDAPI"] == SdkInfo(info).value.0 && r.value["ANDROIDBUILDTOOLSVER"] == SdkInfo(info).value.1.s
    ensures r.Ok? ==> r.value["ANDROIDSDK"] == SdkDir(aw) && r.value["ANDROIDNDK"] == NdkDir(aw) && r.value["ANT_HOME"] == AntHome(aw)
    ensures r.Ok? ==> r.value["PATH"] == aw.environ["PATH"] + ":" + Text.Join(ToolPaths(aw), ":")
    ensures r.Ok? ==> forall k :: k in aw.environ && k !in EnvKeys ==> k in r.value && r.value[k] == aw.environ[k]
  {
    var (sdk, tools) :- SdkInfo(info);
    if !tools.Str? then Err(TypeError("environment values must be str"))
    else if "PATH" !in aw.environ then Err(KeyError("PATH"))
    else
      Ok(aw.environ
        ["ANDROIDAPI" := sdk]
        ["ANDROIDBUILDTOOLSVER" := tools.s]
        ["ANDROID_ROOT" := aw.androidRoot]
        ["ANDROIDSDK" := SdkDir(aw)]
        ["ANDROIDNDKVER" := NdkVersion]
        ["ANDROIDNDK" := NdkDir(aw)]
        ["ANT_VERSION" := AntVersion]
        ["ANT_HOME" := AntHome(aw)]
        ["PATH" := aw.environ["PATH"] + ":" + Text.Join(ToolPaths(aw), ":")])
  }

  /** The variables `get_env` sets. */
  const EnvKeys := {"ANDROIDAPI", "ANDROIDBUILDTOOLSVER", "ANDROID_ROOT", "ANDROIDSDK", "ANDROIDNDKVER", "ANDROIDNDK", "ANT_VERSION", "ANT_HOME", "PATH"}

  /**
   * The search path `get_env` builds keeps every inherited entry in order
   * and then lists the NDK, `~/.local/bin`, the SDK tool directories and
   * Ant's `bin`.
   */
  lemma {:induction false} EnvPathOrder(info: Info, aw: AndroidWorld)
    requires GetEnv(info, aw).Ok?
    requires ':' !in aw.androidRoot
    ensures Text.Split(GetEnv(info, aw).value["PATH"], ':') == Text.Split(aw.environ["PATH"], ':') + ToolPaths(aw)
  {
    var tp := ToolPaths(aw);
    assert ':' !in SdkPlatform(aw);
    assert ':' !in "/android-sdk-" && ':' !in "/android-ndk-" && ':' !in NdkVersion && ':' !in "/apache-ant-" && ':' !in AntVersion;
    assert ':' !in "/platform-tools" && ':' !in "/tools" && ':' !in "/bin" && ':' !in "~/.local/bin";
    assert forall i :: 0 <= i < |tp| ==> ':' !in tp[i];
    Text.SplitAppendJoin(aw.environ["PATH"], tp, ':');
  }

  // ---------------------------------------------------------------- command pieces

  /** A value Python can put in a set. */
  predicate Hashable(v: Value) {
    !v.Arr? && !v.Obj?
  }

  /**
   * `set(extra_permissions + [the two forced permissions])`: a list is
   * needed, and every item must be hashable.
   */
  function PermissionSet(extra: map<string, Value>): (r: Result<set<Value>>)
    ensures r.Ok? ==> Get(extra, "extra_permissions", Arr([])).Arr?
    ensures r.Ok? ==> forall p :: p in r.value <==> p in ForcedPermissions || p in Get(extra, "extra_permissions", Arr([])).items
    ensures !Get(extra, "extra_permissions", Arr([])).Arr? ==> r.Err? && r.error.TypeError?
  {
    var listed :- PyAdd(Get(extra, "extra_permissions", Arr([])), Arr(ForcedPermissions));
    if exists i :: 0 <= i < |listed.items| && !Hashable(listed.items[i]) then Err(TypeError("unhashable type"))
    else Ok(set x | x in listed.items)
  }

  /** `flag, v` for every `v`, in order: what `cmd.extend([flag, v])` in a loop adds. */
  function Pairs(flag: string, vs: seq<Value>): (r: seq<Value>)
    ensures |r| == 2 * |vs|
    ensures forall i :: 0 <= i < |vs| ==> r[2 * i] == Str(flag) && r[2 * i + 1] == vs[i]
  {
    seq(2 * |vs|, k requires 0 <= k < 2 * |vs| => if k % 2 == 0 then Str(flag) else vs[k / 2])
  }

  lemma PairsSnoc(flag: string, vs: seq<Value>, v: Value)
    ensures Pairs(flag, vs + [v]) == Pairs(flag, vs) + [Str(flag), v]
  {
    var l := Pairs(flag, vs + [v]);
    var r := Pairs(flag, vs) + [Str(flag), v];
    assert |l| == |r|;
    forall k | 0 <= k < |l| ensures l[k] == r[k] {
      if k < 2 * |vs| {
        assert l[k] == (if k % 2 == 0 then Str(flag) else (vs + [v])[k / 2]);
      } else if k == 2 * |vs| {
        assert k % 2 == 0;
      } else {
        assert k % 2 == 1 && k / 2 == |vs|;
      }
    }
  }

  /** `--minsdk m --ndk-api m` when the stringified `minsdk` is non-empty. */
  function MinSdkArgs(minsdk: string): (r: seq<Value>)
    ensures minsdk == "" <==> r == []
    ensures minsdk != "" ==> r == [Str("--minsdk"), Str(minsdk), Str("--ndk-api"), Str(minsdk)]
  {
    if minsdk != "" then [Str("--minsdk"), Str(minsdk), Str("--ndk-api"), Str(minsdk)] else []
  }

  /** `--android-api <sdk>` for a non-empty `sdk` text, which must have been rendered. */
  function SdkArgs(sdk: string): (r: seq<Value>)
    ensures sdk == "" <==> r == []
    ensures sdk != "" ==> r == [Str("--android-api"), Str(sdk)]
  {
    if sdk != "" then [Str("--android-api"), Str(sdk)] else []
  }

  /** `--fileprovider-paths <source>/<file>` for a truthy filename, which must be a string. */
  function FileProviderArgs(srcDir: string, v: Value): (r: Result<seq<Value>>)
    ensures !Truthy(v) ==> r == Ok([])
    ensures Truthy(v) ==> (r.Ok? <==> v.Str?)
    ensures r.Ok? && Truthy(v) ==> r.value == [Str("--fileprovider-paths"), Str(Paths.Join(srcDir, v.s))]
  {
    if !Truthy(v) then Ok([])
    else if v.Str? then Ok([Str("--fileprovider-paths"), Str(Paths.Join(srcDir, v.s))])
    else Err(TypeError("join() argument must be str"))
  }

  /** The `--requirements` value: the given list joined by commas, or the defaults when it is empty. */
  function RequirementsArg(reqs: seq<Value>): (r: Result<string>)
    ensures |reqs| == 0 ==> r == Ok(Text.Join(DefaultRequirements, ","))
    ensures |reqs| > 0 ==> (r.Ok? <==> IsStrList(Arr(reqs)))
    ensures |reqs| > 0 && r.Ok? ==> r.value == Text.Join(StrItems(Arr(reqs)), ",")
  {
    if |reqs| > 0 then JoinStrs(reqs, ",") else Ok(Text.Join(DefaultRequirements, ","))
  }

  /** The comma-joined requirements split back into the list given (comma-free names). */
  lemma RequirementsListed(reqs: seq<Value>)
    requires |reqs| > 0 && IsStrList(Arr(reqs))
    requires forall i :: 0 <= i < |reqs| ==> ',' !in reqs[i].s
    ensures Text.Split(RequirementsArg(reqs).value, ',') == StrItems(Arr(reqs))
  {
    var names := StrItems(Arr(reqs));
    assert Strs(names) == reqs;
    assert forall i :: 0 <= i < |names| ==> names[i] == reqs[i].s;
    Text.SplitJoin(names, ',');
  }

  /** An empty requirement list stands for the four default requirements. */
  lemma DefaultRequirementsListed()
    ensures Text.Split(RequirementsArg([]).value, ',') == DefaultRequirements
  {
    var d := DefaultRequirements;
    assert ',' !in d[0] && ',' !in d[1] && ',' !in d[2] && ',' !in d[3];
    Text.SplitJoin(d, ',');
  }

  /** `int(project_info['build_number'])` succeeds. */
  predicate BuildNumberOk(info: Info) {
    "build_number" in info && IntOf(info["build_number"]).Some?
  }

  /**
   * The `--numeric-version` value as written: the descriptor's value itself,
   * whatever its type.
   */
  function NumericVersionAsWritten(info: Info): (r: Value)
    requires "build_number" in info
    ensures r == info["build_number"]
  {
    info["build_number"]
  }

  /**
   * The `--numeric-version` value as intended: a string `build_number` goes
   * into the command as written; any other value that passed the check is
   * passed as the text of its integer.
   */
  function NumericVersion(info: Info): (r: Value)
    requires BuildNumberOk(info)
    ensures r.Str? && IntOf(r) == IntOf(info["build_number"])
    ensures info["build_number"].Str? ==> r == info["build_number"]
    ensures !info["build_number"].Str? ==> r == Str(Text.IntToString(IntOf(info["build_number"]).value))
  {
    var v := info["build_number"];
    if v.Str? then v
    else
      var n := IntOf(v).value;
      IntOfStr(n);
      Str(Text.IntToString(n))
  }

  /** `subprocess.call(cmd)` converts its arguments: every one must be a string. */
  function Argv(cmd: seq<Value>): (r: Result<seq<string>>)
    ensures r.Ok? <==> IsStrList(Arr(cmd))
    ensures r.Ok? ==> Strs(r.value) == cmd
  {
    if IsStrList(Arr(cmd)) then Ok(StrItems(Arr(cmd)))
    else Err(TypeError("expected str, bytes or os.PathLike object"))
  }

  /**
   * As written, an integer `build_number` passes the `int()` check, yet the
   * raw integer then reaches the argument list, which `subprocess` refuses;
   * the intended string form is accepted.
   */
  lemma IntegerBuildNumberRejected(info: Info, n: int)
    requires "build_number" in info && info["build_number"] == Int(n)
    ensures BuildNumberOk(info)
    ensures Argv([Str("--numeric-version"), NumericVersionAsWritten(info)]).Err?
    ensures Argv([Str("--numeric-version"), NumericVersion(info)]) == Ok(["--numeric-version", Text.IntToString(n)])
  {
    var a := [Str("--numeric-version"), NumericVersionAsWritten(info)];
    assert !a[1].Str?;
    var b := [Str("--numeric-version"), NumericVersion(info)];
    assert IsStrList(Arr(b));
    assert Strs(["--numeric-version", Text.IntToString(n)]) == b;
    StrsInjective(Argv(b).value, ["--numeric-version", Text.IntToString(n)]);
  }

  /** A string `build_number` that passes the check reaches p4a exactly as written, "012" included. */
  lemma StringBuildNumberAsWritten(info: Info)
    requires BuildNumberOk(info) && info["build_number"].Str?
    ensures NumericVersion(info) == NumericVersionAsWritten(info)
    ensures Argv([Str("--numeric-version"), NumericVersion(info)]) == Ok(["--numeric-version", info["build_number"].s])
  {
    var b := [Str("--numeric-version"), NumericVersion(info)];
    assert Strs(["--numeric-version", info["build_number"].s]) == b;
    StrsInjective(Argv(b).value, ["--numeric-version", info["build_number"].s]);
  }

  lemma StrsInjective(a: seq<string>, b: seq<string>)
    requires Strs(a) == Strs(b)
    ensures a == b
  {
    assert |a| == |b|;
    forall i | 0 <= i < |a| ensures a[i] == b[i] {
      assert Strs(a)[i] == Str(a[i]) && Strs(b)[i] == Str(b[i]);
    }
  }

  /** Where an icon given by file name only is looked for: `<cwd>/icons/android/<name>`. */
  function IconFallback(cwd: string, name: string): string {
    Paths.Join(Paths.Join3(cwd, "icons", AndroidName), name)
  }

  /** The icon lookup names a file that is neither at its absolute path nor in `icons/android`. */
  predicate IconMissing(shared: Info, cwd: string, present: set<string>) {
    var l := ValueForPlatform(shared, "icons", AndroidName, Null);
    && l.Ok? && l.value.Str? && Truthy(l.value)
    && Paths.Abspath(cwd, l.value.s) !in present && IconFallback(cwd, l.value.s) !in present
  }

  /**
   * The icon arguments: nothing for a falsy lookup; otherwise the icon made
   * absolute, or failing that the file of that name in `icons/android`; a
   * build whose icon exists at neither place exits with status 1.
   */
  function IconArgs(shared: Info, cwd: string, present: set<string>): (r: Result<seq<Value>>)
    ensures r.Ok? ==> r.value == [] || (|r.value| == 2 && r.value[0] == Str("--icon") && r.value[1].Str? && r.value[1].s in present)
    ensures IconMissing(shared, cwd, present) ==> r == Err(SystemExit(1))
    ensures var l := ValueForPlatform(shared, "icons", AndroidName, Null);
      l.Ok? && l.value.Str? && Truthy(l.value) ==>
        && (Paths.Abspath(cwd, l.value.s) in present ==> r == Ok([Str("--icon"), Str(Paths.Abspath(cwd, l.value.s))]))
        && (Paths.Abspath(cwd, l.value.s) !in present && IconFallback(cwd, l.value.s) in present ==>
              r == Ok([Str("--icon"), Str(IconFallback(cwd, l.value.s))]))
    ensures var l := ValueForPlatform(shared, "icons", AndroidName, Null);
      && (l.Err? ==> r == Err(l.error))
      && (l.Ok? && Truthy(l.value) && !l.value.Str? ==> r.Err? && !r.error.SystemExit?)
    ensures ValueForPlatform(shared, "icons", AndroidName, Null).Ok? && !Truthy(ValueForPlatform(shared, "icons", AndroidName, Null).value) ==> r == Ok([])
    ensures r.Err? && r.error.SystemExit? ==> (
      && ValueForPlatform(shared, "icons", AndroidName, Null).Ok?
      && var v := ValueForPlatform(shared, "icons", AndroidName, Null).value;
        v.Str? && Paths.Abspath(cwd, v.s) !in present && Paths.Join(Paths.Join3(cwd, "icons", AndroidName), v.s) !in present)
  {
    var v :- ValueForPlatform(shared, "icons", AndroidName, Null);
    if !Truthy(v) then Ok([])
    else if !v.Str? then Err(TypeError("expected str, bytes or os.PathLike object"))
    else
      var first := Paths.Abspath(cwd, v.s);
      var icon := if first in present then first else IconFallback(cwd, v.s);
      if icon !in present then Err(SystemExit(1))
      else Ok([Str("--icon"), Str(icon)])
  }

  /**
   * `flag <absolute path>` for a truthy lookup of `key` that names an existing
   * path; nothing otherwise.
   */
  function PathArgs(shared: Info, cwd: string, present: set<string>, key: string, flag: string): (r: Result<seq<Value>>)
    ensures r.Ok? ==> r.value == [] || (|r.value| == 2 && r.value[0] == Str(flag) && r.value[1].Str? && r.value[1].s in present)
    ensures ValueForPlatform(shared, key, AndroidName, Null).Ok? && !Truthy(ValueForPlatform(shared, key, AndroidName, Null).value) ==> r == Ok([])
    ensures r.Err? ==> ValueForPlatform(shared, key, AndroidName, Null).Err? || !ValueForPlatform(shared, key, AndroidName, Null).value.Str?
    ensures var l := ValueForPlatform(shared, key, AndroidName, Null);
      l.Ok? && l.value.Str? && Truthy(l.value) ==>
        && (Paths.Abspath(cwd, l.value.s) in present ==> r == Ok([Str(flag), Str(Paths.Abspath(cwd, l.value.s))]))
        && (Paths.Abspath(cwd, l.value.s) !in present ==> r == Ok([]))
  {
    var v :- ValueForPlatform(shared, key, AndroidName, Null);
    if !Truthy(v) then Ok([])
    else if !v.Str? then Err(Unsupported("os.path.exists() of a value that is not a string"))
    else if Paths.Abspath(cwd, v.s) !in present then Ok([])
    else Ok([Str(flag), Str(Paths.Abspath(cwd, v.s))])
  }

  /** `--orientation <value>`, the value defaulting to `sensor`. */
  function OrientationArgs(shared: Info): (r: Result<seq<Value>>)
    ensures "orientation" !in shared ==> r == Ok([Str("--orientation"), Str("sensor")])
    ensures r.Ok? ==> r.value == [] || (|r.value| == 2 && r.value[0] == Str("--orientation") && Truthy(r.value[1]))
    ensures var l := ValueForPlatform(shared, "orientation", AndroidName, Str("sensor"));
      && (l.Err? ==> r == Err(l.error))
      && (l.Ok? && Truthy(l.value) ==> r == Ok([Str("--orientation"), l.value]))
      && (l.Ok? && !Truthy(l.value) ==> r == Ok([]))
  {
    var v :- ValueForPlatform(shared, "orientation", AndroidName, Str("sensor"));
    Ok(if Truthy(v) then [Str("--orientation"), v] else [])
  }

  /**
   * The release arguments: nothing for a debug build; for a release build
   * the keystore (made absolute), alias and password when a signing entry
   * resolves, and `--release` last.
   */
  function SigningArgs(c: Controller, shared: Info, cwd: string, password: string): (r: Result<seq<Value>>)
    ensures !c.args.release ==> r == Ok([])
    ensures r.Ok? && c.args.release ==> |r.value| >= 1 && r.value[|r.value| - 1] == Str("--release")
    ensures r.Ok? && c.args.release ==> (
      && ValueForPlatform(shared, "codesign", AndroidName, Null).Ok?
      && var signing := ValueForPlatform(shared, "codesign", AndroidName, Null).value;
        && (Truthy(signing) <==> |r.value| == 7)
        && (Truthy(signing) ==> r.value[0] == Str("--keystore") && r.value[2] == Str("--signkey") && r.value[4] == Str("--keystorepw")))
    ensures r.Ok? && c.args.release && Truthy(ValueForPlatform(shared, "codesign", AndroidName, Null).value) ==>
      var signing := ValueForPlatform(shared, "codesign", AndroidName, Null).value;
      && signing.Obj? && "keystore" in signing.fields && signing.fields["keystore"].Str? && "alias" in signing.fields
      && r.value[1] == Str(Paths.Abspath(cwd, signing.fields["keystore"].s))
      && r.value[3] == signing.fields["alias"]
      && r.value[5] == (if "passwd" in signing.fields then signing.fields["passwd"] else Str(password))
    ensures c.args.release ==>
      var l := ValueForPlatform(shared, "codesign", AndroidName, Null);
      && (l.Err? ==> r == Err(l.error))
      && (l.Ok? && Truthy(l.value) && l.value.Obj? ==>
            (r.Ok? <==> "keystore" in l.value.fields && l.value.fields["keystore"].Str? && "alias" in l.value.fields))
  {
    if !c.args.release then Ok([])
    else
      var signing :- ValueForPlatform(shared, "codesign", AndroidName, Null);
      if !Truthy(signing) then Ok([Str("--release")])
      else
        match signing
        case Obj(f) =>
          if "keystore" !in f then Err(KeyError("keystore"))
          else if !f["keystore"].Str? then Err(TypeError("expected str, bytes or os.PathLike object"))
          else if "alias" !in f then Err(KeyError("alias"))
          else
            var passwd := if "passwd" in f then f["passwd"] else Str(password);
            Ok([Str("--keystore"), Str(Paths.Abspath(cwd, f["keystore"].s)), Str("--signkey"), f["alias"],
                Str("--keystorepw"), passwd, Str("--release")])
        case _ => Err(TypeError("object is not subscriptable"))
  }

  /** The private directory: the build directory, joined once more with a non-blank config. */
  function AndroidBuildDir(c: Controller): (r: string)
    ensures !HasConfig(c.args) ==> r == PlatformDirPath(c, "build")
  {
    var b := PlatformDirPath(c, "build");
    if c.args.config.Some? && Text.Strip(c.args.config.value) != "" then Paths.Join(b, c.args.config.value) else b
  }

  /** The fixed start of the `p4a apk` command. */
  function P4aHead(c: Controller, buildDir: string, aw: AndroidWorld): (r: seq<Value>)
    requires c.Valid()
    ensures |r| == 19 && r[0] == Str("p4a") && r[1] == Str("apk")
    ensures r[13] == Str("--private") && r[14] == Str(buildDir) && r[15] == Str("--arch") && r[16] == Str(GetArch(c))
  {
    HeadOf(c.info["identifier"], Text.Replace(c.Name(), " ", ""), DistName(c), c.info["version"], buildDir, GetArch(c),
      Paths.Join(Paths.Join3(aw.filesDir, "org", "kosoftworks"), "pyeverywhere"))
  }

  /** The fixed leading arguments of `p4a apk`, from the values they carry. */
  function HeadOf(identifier: Value, name: string, distName: string, version: Value, buildDir: string, arch: string, source: string): (r: seq<Value>)
    ensures |r| == 19 && r[0] == Str("p4a") && r[1] == Str("apk")
    ensures r[13] == Str("--private") && r[14] == Str(buildDir) && r[15] == Str("--arch") && r[16] == Str(arch)
  {
    [Str("p4a"), Str("apk"), Str("--window"), Str("--bootstrap"), Str(Bootstrap),
     Str("--package"), identifier, Str("--name"), Str(name),
     Str("--dist_name"), Str(distName), Str("--version"), version,
     Str("--private"), Str(buildDir), Str("--arch"), Str(arch),
     Str("--add-source"), Str(source)]
  }

  /** The `p4a apk` command in its consecutive parts. */
  datatype P4aParts = P4aParts(
    head: seq<Value>, minsdk: seq<Value>, sdk: seq<Value>, services: seq<Value>, fileprovider: seq<Value>,
    permissions: seq<Value>, requirements: seq<Value>, numericVersion: seq<Value>, icon: seq<Value>,
    whitelist: seq<Value>, presplash: seq<Value>, orientation: seq<Value>, intentFilters: seq<Value>,
    release: seq<Value>)
  {
    /** Everything between the head and the release arguments. */
    function Middle(): seq<Value> {
      minsdk + sdk + services + fileprovider + permissions + requirements + numericVersion
        + icon + whitelist + presplash + orientation + intentFilters
    }

    function Flat(): seq<Value> {
      head + (Middle() + release)
    }
  }

  /** Every argument group `build()` assembles before the icon is usable, and `build_number` passes its check. */
  predicate ArgsBeforeIconOk(c: Controller, s: Settings)
    requires c.Valid()
  {
    && PermissionSet(s.extra).Ok? && PyStr(Get(s.extra, "minsdk", Str(""))).Ok? && PyStr(Get(s.extra, "sdk", Str(""))).Ok?
    && Iter(Get(s.extra, "services", Arr([]))).Ok?
    && FileProviderArgs(SourceDir(c), Get(s.extra, "fileprovider_paths_filename", Null)).Ok?
    && RequirementsArg(s.requirements).Ok? && BuildNumberOk(c.info)
  }

  /**
   * The `p4a apk` command of `build()`, the permissions listed in `order`:
   * failures come in the order the source evaluates them, with the
   * `build_number` check after the requirements and before the icon.
   */
  function P4aCommand(c: Controller, s: Settings, cwd: string, aw: AndroidWorld, present: set<string>, order: seq<Value>): (r: Result<P4aParts>)
    requires c.Valid()
    ensures !BuildNumberOk(c.info) ==> r.Err?
    ensures r.Ok? ==> BuildNumberOk(c.info) && r.value.numericVersion == [Str("--numeric-version"), NumericVersion(c.info)]
    ensures r.Ok? ==> r.value.head == P4aHead(c, AndroidBuildDir(c), aw)
    ensures r.Ok? ==> PermissionSet(s.extra).Ok? && r.value.permissions == Pairs("--permission", order)
    ensures r.Ok? ==> RequirementsArg(s.requirements).Ok? && r.value.requirements == [Str("--requirements"), Str(RequirementsArg(s.requirements).value)]
    ensures r.Ok? ==> Iter(Get(s.extra, "services", Arr([]))).Ok? && r.value.services == Pairs("--service", Iter(Get(s.extra, "services", Arr([]))).value)
    ensures r.Ok? ==> PyStr(Get(s.extra, "minsdk", Str(""))).Ok? && r.value.minsdk == MinSdkArgs(PyStr(Get(s.extra, "minsdk", Str(""))).value)
    ensures r.Ok? ==> SigningArgs(c, c.shared, cwd, aw.password) == Ok(r.value.release)
    ensures r.Ok? ==> IconArgs(c.shared, cwd, present) == Ok(r.value.icon)
    ensures r.Ok? ==> PyStr(Get(s.extra, "sdk", Str(""))).Ok? && r.value.sdk == SdkArgs(PyStr(Get(s.extra, "sdk", Str(""))).value)
    ensures r.Ok? ==> FileProviderArgs(SourceDir(c), Get(s.extra, "fileprovider_paths_filename", Null)) == Ok(r.value.fileprovider)
    ensures r.Ok? ==> PathArgs(c.shared, cwd, present, "whitelist_file", "--whitelist") == Ok(r.value.whitelist)
    ensures r.Ok? ==> PathArgs(c.shared, cwd, present, "launch_images", "--presplash") == Ok(r.value.presplash)
    ensures r.Ok? ==> OrientationArgs(c.shared) == Ok(r.value.orientation)
    ensures r.Ok? ==> PathArgs(c.shared, cwd, present, "intent_filters", "--intent-filters") == Ok(r.value.intentFilters)
    ensures r.Ok? <==>
      && PermissionSet(s.extra).Ok? && PyStr(Get(s.extra, "minsdk", Str(""))).Ok? && PyStr(Get(s.extra, "sdk", Str(""))).Ok?
      && Iter(Get(s.extra, "services", Arr([]))).Ok?
      && FileProviderArgs(SourceDir(c), Get(s.extra, "fileprovider_paths_filename", Null)).Ok?
      && RequirementsArg(s.requirements).Ok? && BuildNumberOk(c.info) && IconArgs(c.shared, cwd, present).Ok?
      && PathArgs(c.shared, cwd, present, "whitelist_file", "--whitelist").Ok?
      && PathArgs(c.shared, cwd, present, "launch_images", "--presplash").Ok?
      && OrientationArgs(c.shared).Ok?
      && PathArgs(c.shared, cwd, present, "intent_filters", "--intent-filters").Ok?
      && SigningArgs(c, c.shared, cwd, aw.password).Ok?
  {
    var perms :- PermissionSet(s.extra);
    var minsdk :- PyStr(Get(s.extra, "minsdk", Str("")));
    var sdk :- PyStr(Get(s.extra, "sdk", Str("")));
    var services :- Iter(Get(s.extra, "services", Arr([])));
    var fileprovider :- FileProviderArgs(SourceDir(c), Get(s.extra, "fileprovider_paths_filename", Null));
    var reqs :- RequirementsArg(s.requirements);
    if !BuildNumberOk(c.info) then Err(SystemExit(1))
    else
      var icon :- IconArgs(c.shared, cwd, present);
      var whitelist :- PathArgs(c.shared, cwd, present, "whitelist_file", "--whitelist");
      var presplash :- PathArgs(c.shared, cwd, present, "launch_images", "--presplash");
      var orientation :- OrientationArgs(c.shared);
      var intents :- PathArgs(c.shared, cwd, present, "intent_filters", "--intent-filters");
      var release :- SigningArgs(c, c.shared, cwd, aw.password);
      Ok(P4aParts(P4aHead(c, AndroidBuildDir(c), aw), MinSdkArgs(minsdk), SdkArgs(sdk),
        Pairs("--service", services), fileprovider, Pairs("--permission", order),
        [Str("--requirements"), Str(reqs)], [Str("--numeric-version"), NumericVersion(c.info)],
        icon, whitelist, presplash, orientation, intents, release))
  }

  /**
   * Once the argument groups before the icon are assembled and `build_number`
   * passes, a failing icon lookup is the command's failure: a missing icon
   * exits with status 1.
   */
  lemma IconFailureStops(c: Controller, s: Settings, cwd: string, aw: AndroidWorld, present: set<string>, order: seq<Value>)
    requires c.Valid() && ArgsBeforeIconOk(c, s)
    ensures IconArgs(c.shared, cwd, present).Err? ==>
      P4aCommand(c, s, cwd, aw, present, order) == Err(IconArgs(c.shared, cwd, present).error)
    ensures IconMissing(c.shared, cwd, present) ==> P4aCommand(c, s, cwd, aw, present, order) == Err(SystemExit(1))
  {
  }

  /** A release build's command ends in `--release`. */
  lemma ReleaseLast(c: Controller, s: Settings, cwd: string, aw: AndroidWorld, present: set<string>, order: seq<Value>)
    requires c.Valid() && c.args.release
    requires P4aCommand(c, s, cwd, aw, present, order).Ok?
    ensures var cmd := P4aCommand(c, s, cwd, aw, present, order).value.Flat();
      |cmd| >= 1 && cmd[|cmd| - 1] == Str("--release")
  {
    var p := P4aCommand(c, s, cwd, aw, present, order).value;
    var cmd := p.Flat();
    assert (p.Middle() + p.release)[|p.Middle() + p.release| - 1] == p.release[|p.release| - 1];
  }

  /** The command starts with the fixed `p4a apk` head. */
  lemma HeadFirst(c: Controller, s: Settings, cwd: string, aw: AndroidWorld, present: set<string>, order: seq<Value>)
    requires c.Valid()
    requires P4aCommand(c, s, cwd, aw, present, order).Ok?
    ensures var cmd := P4aCommand(c, s, cwd, aw, present, order).value.Flat();
      && |cmd| >= 19 && cmd[..19] == P4aHead(c, AndroidBuildDir(c), aw)
      && cmd[0] == Str("p4a") && cmd[1] == Str("apk") && cmd[14] == Str(AndroidBuildDir(c)) && cmd[16] == Str(GetArch(c))
  {
    var p := P4aCommand(c, s, cwd, aw, present, order).value;
    var cmd := p.Flat();
    assert cmd[..|p.head|] == p.head;
    assert forall i :: 0 <= i < 19 ==> cmd[i] == p.head[i];
  }

  // ---------------------------------------------------------------- the build


  /** `cmd.extend([flag, v])` for every `v` of `vs`. */
  method ExtendPairs(cmd: seq<Value>, flag: string, vs: seq<Value>) returns (r: seq<Value>)
    ensures r == cmd + Pairs(flag, vs)
  {
    r := cmd;
    var i := 0;
    while i < |vs|
      invariant 0 <= i <= |vs|
      invariant r == cmd + Pairs(flag, vs[..i])
    {
      assert vs[..i + 1] == vs[..i] + [vs[i]];
      PairsSnoc(flag, vs[..i], vs[i]);
      AppendAssoc(cmd, Pairs(flag, vs[..i]), [Str(flag), vs[i]]);
      r := r + [Str(flag), vs[i]];
      i := i + 1;
    }
    assert vs[..i] == vs;
  }

  /**
   * The command-building part of `build()`: the command grows piece by
   * piece; the permissions come out in the order the set yields them.
   */
  method BuildCommand(c: Controller, s: Settings, cwd: string, aw: AndroidWorld, present: set<string>) returns (r: Result<seq<Value>>, order: seq<Value>)
    requires c.Valid()
    ensures PermissionSet(s.extra).Ok? ==> Listing(order, PermissionSet(s.extra).value)
    ensures r.Ok? <==> P4aCommand(c, s, cwd, aw, present, order).Ok?
    ensures r.Ok? ==> r.value == P4aCommand(c, s, cwd, aw, present, order).value.Flat()
    ensures r.Err? ==> r.error == P4aCommand(c, s, cwd, aw, present, order).error
  {
    order := [];
    var permsR := PermissionSet(s.extra);
    if permsR.Err? { return Err(permsR.error), order; }
    order := ListMembers(permsR.value);
    var parts := P4aCommand(c, s, cwd, aw, present, order);
    if parts.Err? { return Err(parts.error), order; }
    var p := parts.value;
    var services := Iter(Get(s.extra, "services", Arr([]))).value;
    var cmd := p.minsdk + p.sdk;
    cmd := ExtendPairs(cmd, "--service", services);
    cmd := cmd + p.fileprovider;
    cmd := ExtendPairs(cmd, "--permission", order);
    cmd := cmd + p.requirements + p.numericVersion + p.icon + p.whitelist + p.presplash + p.orientation + p.intentFilters;
    assert cmd == p.Middle();
    r := Ok(p.head + (cmd + p.release));
  }

  /**
   * `run_cmd(cmd)`: the environment is computed and the arguments converted
   * before the command starts; a failure starts nothing.
   */
  method RunCmd(c: Controller, aw: AndroidWorld, cmd: seq<Value>, host: Machine) returns (r: Result<int>)
    modifies host
    ensures host.dirs == old(host.dirs) && host.files == old(host.files)
    ensures r.Ok? <==> GetEnv(c.info, aw).Ok? && Argv(cmd).Ok?
    ensures r.Ok? ==> host.trace == old(host.trace) + [Ran(Argv(cmd).value)] && r.value == host.status(Argv(cmd).value)
    ensures r.Err? ==> host.trace == old(host.trace) && !r.error.SystemExit?
    ensures r.Ok? ==> Commands(host.trace) == Commands(old(host.trace)) + [Argv(cmd).value]
    ensures Removals(host.trace) == Removals(old(host.trace))
  {
    if c.args.verbose && !IsStrList(Arr(cmd)) {
      return Err(TypeError("sequence item: expected str instance"));
    }
    var env := GetEnv(c.info, aw);
    if env.Err? {
      return Err(env.error);
    }
    var argv := Argv(cmd);
    if argv.Err? {
      return Err(argv.error);
    }
    var code := host.Run(argv.value);
    r := Ok(code);
  }

  /**
   * `build(settings)`: the build directory is made, the command assembled
   * (exiting on a bad `build_number` or a missing icon before anything is
   * removed or run), the private directory restaged with the descriptor's
   * `packages` installed and copied, p4a run once and the apks moved into
   * the dist directory.
   */
  method Build(c: Controller, s: Settings, world: World, aw: AndroidWorld, host: Machine) returns (r: Result<int>, order: seq<Value>)
    requires c.Valid()
    modifies host
    ensures Packages(c.info).Err? ==> r.Err? && Commands(host.trace) == Commands(old(host.trace))
    ensures r.Err? && Packages(c.info).Ok? ==>
      Pewtools.InstallsBegun(Commands(old(host.trace)), Commands(host.trace), DepsVenv(AndroidBuildDir(c)), Packages(c.info).value)
    ensures r.Err? && r.error.SystemExit? ==> Removals(host.trace) == Removals(old(host.trace))
    ensures !BuildNumberOk(c.info) ==> r.Err? && Removals(host.trace) == Removals(old(host.trace))
    ensures var present := old(host.dirs) + {PlatformDirPath(c, "build")} + old(host.files).Keys;
      var cmd := P4aCommand(c, s, world.cwd, aw, present, order);
      cmd.Err? ==> r == Err(cmd.error) && Commands(host.trace) == Commands(old(host.trace)) && Removals(host.trace) == Removals(old(host.trace))
    ensures var present := old(host.dirs) + {PlatformDirPath(c, "build")} + old(host.files).Keys;
      ArgsBeforeIconOk(c, s) && IconMissing(c.shared, world.cwd, present) ==>
        r == Err(SystemExit(1)) && Commands(host.trace) == Commands(old(host.trace)) && Removals(host.trace) == Removals(old(host.trace))
    ensures r.Ok? ==>
      var present := old(host.dirs) + {PlatformDirPath(c, "build")} + old(host.files).Keys;
      var cmd := P4aCommand(c, s, world.cwd, aw, present, order);
      && PermissionSet(s.extra).Ok? && Listing(order, PermissionSet(s.extra).value)
      && cmd.Ok? && Argv(cmd.value.Flat()).Ok? && Packages(c.info).Ok?
      && Commands(host.trace) == Commands(old(host.trace)) + Pewtools.PipInstalls(DepsVenv(AndroidBuildDir(c)), Packages(c.info).value) + [Argv(cmd.value.Flat()).value]
      && r.value == host.status(Argv(cmd.value.Flat()).value)
      && Removals(host.trace) == Removals(old(host.trace))
           + (if AndroidBuildDir(c) in present then [AndroidBuildDir(c)] else [])
           + [Paths.Join(AndroidBuildDir(c), "venv")]
  {
    var buildDir, cmd;
    buildDir, cmd, order := PrepareBuild(c, s, world, aw, host);
    if ArgsBeforeIconOk(c, s) {
      IconFailureStops(c, s, world.cwd, aw, host.dirs + host.files.Keys, order);
    }
    if cmd.Err? {
      if Packages(c.info).Ok? {
        Pewtools.NoInstallsBegun(Commands(host.trace), DepsVenv(buildDir), Packages(c.info).value);
      }
      return Err(cmd.error), order;
    }
    r := StageAndRun(c, s, world, aw, buildDir, cmd.value, host);
  }

  /** The rest of `build()` once the command is assembled: the restaging, the p4a run and the apk moves. */
  method StageAndRun(c: Controller, s: Settings, world: World, aw: AndroidWorld, buildDir: string, cmd: seq<Value>, host: Machine)
    returns (r: Result<int>)
    modifies host
    ensures Packages(c.info).Err? ==> r.Err? && Commands(host.trace) == Commands(old(host.trace))
    ensures r.Err? && Packages(c.info).Ok? ==>
      Pewtools.InstallsBegun(Commands(old(host.trace)), Commands(host.trace), DepsVenv(buildDir), Packages(c.info).value)
    ensures r.Err? ==> !r.error.SystemExit?
    ensures r.Ok? ==>
      && Argv(cmd).Ok? && Packages(c.info).Ok?
      && Commands(host.trace) == Commands(old(host.trace)) + Pewtools.PipInstalls(DepsVenv(buildDir), Packages(c.info).value) + [Argv(cmd).value]
      && r.value == host.status(Argv(cmd).value)
      && Removals(host.trace) == Removals(old(host.trace))
           + (if old(host.Exists(buildDir)) then [buildDir] else []) + [Paths.Join(buildDir, "venv")]
  {
    var staged := Restage(c, aw, buildDir, s.ignorePaths, host);
    if staged.Err? {
      return Err(staged.error);
    }
    ghost var cmds1 := Commands(host.trace);
    ghost var removals1 := Removals(host.trace);
    var code := RunCmd(c, aw, cmd, host);
    if code.Err? {
      return Err(code.error);
    }
    var _ := MoveApks(c, world.cwd, host);
    assert Commands(host.trace) == cmds1 + [Argv(cmd).value];
    assert Removals(host.trace) == removals1;
    r := Ok(code.value);
  }

  /**
   * The start of `build()`: the build directory is made (and looked up again
   * when a configuration is named), then the command assembled against the
   * paths present at that point; nothing is run or removed.
   */
  method PrepareBuild(c: Controller, s: Settings, world: World, aw: AndroidWorld, host: Machine)
      returns (buildDir: string, cmd: Result<seq<Value>>, order: seq<Value>)
    requires c.Valid()
    modifies host
    ensures buildDir == AndroidBuildDir(c)
    ensures host.files == old(host.files)
    ensures host.dirs + host.files.Keys == old(host.dirs) + {PlatformDirPath(c, "build")} + old(host.files).Keys
    ensures Commands(host.trace) == Commands(old(host.trace)) && Removals(host.trace) == Removals(old(host.trace))
    ensures PermissionSet(s.extra).Ok? ==> Listing(order, PermissionSet(s.extra).value)
    ensures
      var p := P4aCommand(c, s, world.cwd, aw, host.dirs + host.files.Keys, order);
      && (cmd.Ok? <==> p.Ok?)
      && (cmd.Ok? ==> cmd.value == p.value.Flat())
      && (cmd.Err? ==> cmd.error == p.error)
  {
    buildDir := GetBuildDir(c, host);
    if c.args.config.Some? && Text.Strip(c.args.config.value) != "" {
      buildDir := GetBuildDir(c, host);
      buildDir := Paths.Join(buildDir, c.args.config.value);
    }
    cmd, order := BuildCommand(c, s, world.cwd, aw, host.dirs + host.files.Keys);
  }

  /**
   * `copy_deps_to_build` for the descriptor's `packages`, when it names
   * any: they are installed in a virtual environment inside the temporary
   * `venv` and the new site-packages entries copied into the build
   * directory. Nothing is removed.
   */
  method InstallPackages(c: Controller, aw: AndroidWorld, buildDir: string, host: Machine) returns (r: Result<()>)
    modifies host
    ensures Removals(host.trace) == Removals(old(host.trace))
    ensures Packages(c.info).Err? ==> r.Err? && Commands(host.trace) == Commands(old(host.trace))
    ensures Packages(c.info).Ok? ==> Pewtools.InstallsBegun(Commands(old(host.trace)), Commands(host.trace), DepsVenv(buildDir), Packages(c.info).value)
    ensures r.Ok? ==> Packages(c.info).Ok? && Commands(host.trace) == Commands(old(host.trace)) + Pewtools.PipInstalls(DepsVenv(buildDir), Packages(c.info).value)
    ensures "packages" in c.info && aw.sites == [] ==> r.Err?
    ensures r.Err? ==> !r.error.SystemExit?
  {
    if "packages" !in c.info {
      Pewtools.NoInstallsBegun(Commands(host.trace), DepsVenv(buildDir), []);
      return Ok(());
    }
    var packages := Packages(c.info);
    if packages.Err? {
      return Err(packages.error);
    }
    r := Pewtools.CopyDepsToBuild(packages.value, Paths.Join(buildDir, "venv"), buildDir, aw.sites, aw.sitesBefore, aw.sitesAfter, host);
  }

  /** The descriptor's `packages`, which the Android build installs (none when it names none). */
  function Packages(info: Info): (r: Result<seq<string>>)
    ensures "packages" !in info ==> r == Ok([])
    ensures "packages" in info ==> (r.Ok? <==> IsStrList(info["packages"]))
    ensures r.Ok? && "packages" in info ==> Strs(r.value) == info["packages"].items
  {
    if "packages" !in info then Ok([])
    else if IsStrList(info["packages"]) then Ok(StrItems(info["packages"]))
    else Err(TypeError("package is not a string"))
  }

  /** The virtual environment `copy_deps_to_build` makes inside the build's temporary `venv`. */
  function DepsVenv(buildDir: string): string {
    Paths.Join(Paths.Join(buildDir, "venv"), "venv")
  }

  /**
   * The staging part of `build()`: the old private directory is removed,
   * its parent made, sources and data files staged, the descriptor's
   * `packages` installed in a virtual environment inside the temporary
   * `venv` and the new site-packages entries copied, the pew module staged,
   * and the temporary `venv` removed again. A failure while the packages
   * are handled leaves `venv` in place.
   */
  method Restage(c: Controller, aw: AndroidWorld, buildDir: string, ignore: seq<string>, host: Machine) returns (r: Result<()>)
    modifies host
    ensures Removals(host.trace) == Removals(old(host.trace))
      + (if old(host.Exists(buildDir)) then [buildDir] else []) + (if r.Ok? then [Paths.Join(buildDir, "venv")] else [])
    ensures Packages(c.info).Err? ==> r.Err? && Commands(host.trace) == Commands(old(host.trace))
    ensures Packages(c.info).Ok? ==> Pewtools.InstallsBegun(Commands(old(host.trace)), Commands(host.trace), DepsVenv(buildDir), Packages(c.info).value)
    ensures r.Ok? ==> Packages(c.info).Ok? && Commands(host.trace) == Commands(old(host.trace)) + Pewtools.PipInstalls(DepsVenv(buildDir), Packages(c.info).value)
    ensures "packages" in c.info && aw.sites == [] ==> r.Err?
    ensures r.Err? ==> !r.error.SystemExit?
  {
    ClearBuildDir(buildDir, ignore, host);
    ghost var removals1 := Removals(host.trace);
    ghost var cmds1 := Commands(host.trace);
    r := InstallPackages(c, aw, buildDir, host);
    if r.Err? {
      return;
    }
    ghost var cmds2 := Commands(host.trace);
    host.Stage("copy_pew_module", buildDir, []);
    host.RemoveTree(Paths.Join(buildDir, "venv"));
    assert Commands(host.trace) == cmds2;
    assert Removals(host.trace) == removals1 + [Paths.Join(buildDir, "venv")];
    r := Ok(());
  }

  /**
   * The start of the staging: the old private directory is removed, its
   * parent made, sources and data files staged and the temporary `venv`
   * made; nothing is run.
   */
  method ClearBuildDir(buildDir: string, ignore: seq<string>, host: Machine)
    modifies host
    ensures Commands(host.trace) == Commands(old(host.trace))
    ensures Removals(host.trace) == Removals(old(host.trace)) + (if old(host.Exists(buildDir)) then [buildDir] else [])
  {
    var existed := host.Exists(buildDir);
    if existed {
      host.RemoveTree(buildDir);
    }
    var parent := Paths.Dirname(buildDir);
    if !host.Exists(parent) {
      host.MakeDirs(parent);
    }
    host.Stage("copy_files", buildDir, ignore);
    host.Stage("copy_data_files", buildDir, []);
    var venv := Paths.Join(buildDir, "venv");
    if !host.Exists(venv) {
      host.MakeDirs(venv);
    }
  }

  // ---------------------------------------------------------------- apks

  /** `p` is an `*.apk` entry directly inside `dir`, as `glob` matches it (no leading dot). */
  predicate IsApkIn(p: string, dir: string) {
    && Text.StartsWith(p, dir + "/")
    && var name := p[|dir| + 1..];
      '/' !in name && !Text.StartsWith(name, ".") && Text.EndsWith(name, ".apk")
  }

  /** The apk files directly inside `dir`. */
  function Apks(files: map<string, string>, dir: string): set<string> {
    set p | p in files && IsApkIn(p, dir)
  }

  /** The moves recorded in a trace, in order. */
  function MovesOf(t: seq<Event>): seq<Event> {
    if t == [] then []
    else MovesOf(t[..|t| - 1]) + (if t[|t| - 1].Moved? then [t[|t| - 1]] else [])
  }

  lemma MovesSnoc(t: seq<Event>, e: Event)
    ensures MovesOf(t + [e]) == MovesOf(t) + (if e.Moved? then [e] else [])
  {
    assert (t + [e])[..|t|] == t;
  }

  /** The move of every apk into `dist` under its own name. */
  function ApkMoves(apks: seq<string>, dist: string): (r: seq<Event>)
    ensures |r| == |apks|
    ensures forall i :: 0 <= i < |apks| ==> r[i] == Moved(apks[i], Paths.Join(dist, Paths.Basename(apks[i])))
  {
    seq(|apks|, i requires 0 <= i < |apks| => Moved(apks[i], Paths.Join(dist, Paths.Basename(apks[i]))))
  }

  lemma ApkMovesSnoc(apks: seq<string>, k: int, dist: string)
    requires 0 <= k < |apks|
    ensures ApkMoves(apks[..k + 1], dist) == ApkMoves(apks[..k], dist) + [Moved(apks[k], Paths.Join(dist, Paths.Basename(apks[k])))]
  {
    assert apks[..k + 1] == apks[..k] + [apks[k]];
  }

  /**
   * The apk loop of `build()`: every apk found in the working directory is
   * moved once into the dist directory under its own name, in the order the
   * directory listing yields them; nothing is run or removed.
   */
  method MoveApks(c: Controller, cwd: string, host: Machine) returns (moved: seq<string>)
    modifies host
    ensures Listing(moved, Apks(old(host.files), cwd))
    ensures MovesOf(host.trace) == MovesOf(old(host.trace)) + ApkMoves(moved, PlatformDirPath(c, "dist"))
    ensures Commands(host.trace) == Commands(old(host.trace)) && Removals(host.trace) == Removals(old(host.trace))
  {
    var apks := Apks(host.files, cwd);
    moved := MoveAll(c, apks, host);
  }

  /** The loop of `MoveApks` over the files `glob` found, in the order it lists them. */
  method MoveAll(c: Controller, apks: set<string>, host: Machine) returns (moved: seq<string>)
    requires forall a :: a in apks ==> a in host.files
    modifies host
    ensures Listing(moved, apks)
    ensures MovesOf(host.trace) == MovesOf(old(host.trace)) + ApkMoves(moved, PlatformDirPath(c, "dist"))
    ensures Commands(host.trace) == Commands(old(host.trace)) && Removals(host.trace) == Removals(old(host.trace))
  {
    moved := ListMembers(apks);
    MoveEach(c, moved, host);
  }

  /** `os.rename` of every listed apk into the dist directory, in order. */
  method MoveEach(c: Controller, apks: seq<string>, host: Machine)
    requires Distinct(apks) && forall i :: 0 <= i < |apks| ==> apks[i] in host.files
    modifies host
    ensures MovesOf(host.trace) == MovesOf(old(host.trace)) + ApkMoves(apks, PlatformDirPath(c, "dist"))
    ensures Commands(host.trace) == Commands(old(host.trace)) && Removals(host.trace) == Removals(old(host.trace))
  {
    var dist := PlatformDirPath(c, "dist");
    ghost var m0 := MovesOf(host.trace);
    var k := 0;
    while k < |apks|
      invariant 0 <= k <= |apks|
      invariant forall i :: k <= i < |apks| ==> apks[i] in host.files
      invariant MovesOf(host.trace) == m0 + ApkMoves(apks[..k], dist)
      invariant Commands(host.trace) == Commands(old(host.trace)) && Removals(host.trace) == Removals(old(host.trace))
    {
      ghost var before, moves := host.files, MovesOf(host.trace);
      MoveOne(c, apks[k], host);
      ghost var move := Moved(apks[k], Paths.Join(dist, Paths.Basename(apks[k])));
      StillPresent(apks, k, before, move.dst, host.files);
      ApkMovesSnoc(apks, k, dist);
      assert MovesOf(host.trace) == m0 + ApkMoves(apks[..k + 1], dist) by {
        assert MovesOf(host.trace) == moves + [move] && moves == m0 + ApkMoves(apks[..k], dist);
      }
      k := k + 1;
    }
    assert apks[..k] == apks;
  }

  /** Moving one listed file away leaves the later ones in place. */
  lemma StillPresent(apks: seq<string>, k: int, before: map<string, string>, dest: string, after: map<string, string>)
    requires Distinct(apks) && 0 <= k < |apks|
    requires forall i :: k <= i < |apks| ==> apks[i] in before
    requires after == (before - {apks[k]})[dest := before[apks[k]]]
    ensures forall i :: k < i < |apks| ==> apks[i] in after
  {
    forall i | k < i < |apks| ensures apks[i] in after {
      assert apks[i] != apks[k];
    }
  }

  /** One turn of the apk loop: `os.rename(apk, join(get_dist_dir(), basename(apk)))`. */
  method MoveOne(c: Controller, a: string, host: Machine)
    requires a in host.files
    modifies host
    ensures host.files == (old(host.files) - {a})[Paths.Join(PlatformDirPath(c, "dist"), Paths.Basename(a)) := old(host.files)[a]]
    ensures MovesOf(host.trace) == MovesOf(old(host.trace)) + [Moved(a, Paths.Join(PlatformDirPath(c, "dist"), Paths.Basename(a)))]
    ensures Commands(host.trace) == Commands(old(host.trace)) && Removals(host.trace) == Removals(old(host.trace))
  {
    ghost var t1 := host.trace;
    var d := GetDistDir(c, host);
    MovesSnoc(t1, MadeDirs(d));
    ghost var t2 := host.trace;
    var dest := Paths.Join(d, Paths.Basename(a));
    host.Move(a, dest);
    MovesSnoc(t2, Moved(a, dest));
  }

  // ---------------------------------------------------------------- distribution

  /** The fixed start of `p4a create`. */
  function CreateHead(c: Controller): (r: seq<string>)
    requires c.Valid()
    ensures |r| == 8 && r[0] == "p4a" && r[1] == "create"
  {
    CreateHeadOf(GetArch(c), DistName(c))
  }

  function CreateHeadOf(arch: string, distName: string): (r: seq<string>)
    ensures |r| == 8 && r[0] == "p4a" && r[1] == "create"
  {
    ["p4a", "create", "--arch", arch, "--dist_name", distName, "--bootstrap", Bootstrap]
  }

  /** The platform's requirements for `p4a create`, iterated (the four defaults when the descriptor names none). */
  function CreateRequirements(c: Controller): (r: Result<seq<Value>>)
    ensures "requirements" !in c.shared ==> r == Ok(Strs(DefaultRequirements))
  {
    var reqs :- ValueForPlatform(c.shared, "requirements", AndroidName, Arr(Strs(DefaultRequirements)));
    Iter(reqs)
  }

  /**
   * The `p4a create` command: the fixed head, then the platform's
   * requirements joined by commas, omitted when that list is empty.
   */
  function CreateCommand(c: Controller): (r: Result<seq<Value>>)
    requires c.Valid()
    ensures r.Ok? <==>
      CreateRequirements(c).Ok? && (|CreateRequirements(c).value| > 0 ==> IsStrList(Arr(CreateRequirements(c).value)))
    ensures r.Ok? ==> |r.value| >= 8 && r.value[..8] == Strs(CreateHead(c))
    ensures r.Ok? ==> (|r.value| == 10 <==> |CreateRequirements(c).value| > 0) && (|r.value| == 8 || |r.value| == 10)
    ensures r.Ok? && |r.value| == 10 ==>
      r.value[8] == Str("--requirements") && r.value[9] == Str(Text.Join(StrItems(Arr(CreateRequirements(c).value)), ","))
  {
    var items :- CreateRequirements(c);
    var tail :- if |items| > 0 then
        var joined :- JoinStrs(items, ",");
        Ok([Str("--requirements"), Str(joined)])
      else Ok([]);
    assert (Strs(CreateHead(c)) + tail)[..8] == Strs(CreateHead(c));
    Ok(Strs(CreateHead(c)) + tail)
  }

  /** With no `requirements` in the descriptor, the four defaults are passed. */
  lemma CreateDefaults(c: Controller)
    requires c.Valid() && "requirements" !in c.shared
    ensures CreateCommand(c) == Ok(Strs(CreateHead(c) + ["--requirements", Text.Join(DefaultRequirements, ",")]))
  {
    assert StrItems(Arr(Strs(DefaultRequirements))) == DefaultRequirements by {
      StrsInjective(StrItems(Arr(Strs(DefaultRequirements))), DefaultRequirements);
    }
    assert CreateRequirements(c) == Ok(Strs(DefaultRequirements));
    var tail := ["--requirements", Text.Join(DefaultRequirements, ",")];
    assert Strs(tail) == [Str(tail[0]), Str(tail[1])];
    StrsAppend(CreateHead(c), tail);
  }

  /** The `--requirements` value of `p4a create` splits on commas into the platform's requirements (comma-free names). */
  lemma CreateRequirementsListed(c: Controller)
    requires c.Valid() && CreateRequirements(c).Ok?
    requires var items := CreateRequirements(c).value;
      |items| > 0 && IsStrList(Arr(items)) && forall i :: 0 <= i < |items| ==> ',' !in items[i].s
    ensures CreateCommand(c).Ok? && |CreateCommand(c).value| == 10
    ensures Text.Split(CreateCommand(c).value[9].s, ',') == StrItems(Arr(CreateRequirements(c).value))
  {
    var items := CreateRequirements(c).value;
    var names := StrItems(Arr(items));
    assert forall i :: 0 <= i < |names| ==> names[i] == items[i].s;
    Text.SplitJoin(names, ',');
  }

  /** A list of strings converts back to itself. */
  lemma ArgvStrs(xs: seq<string>)
    ensures Argv(Strs(xs)) == Ok(xs)
  {
    StrsInjective(Argv(Strs(xs)).value, xs);
  }

  lemma StrsAppend(a: seq<string>, b: seq<string>)
    ensures Strs(a + b) == Strs(a) + Strs(b)
  {
    assert |Strs(a + b)| == |Strs(a) + Strs(b)|;
    forall i | 0 <= i < |a + b| ensures Strs(a + b)[i] == (Strs(a) + Strs(b))[i] {
      if i < |a| {
        assert (a + b)[i] == a[i];
      } else {
        assert (a + b)[i] == b[i - |a|];
      }
    }
  }

  /**
   * `create_distribution()`: the `p4a create` command is run once, and a
   * failure to assemble it starts nothing.
   */
  method CreateDistribution(c: Controller, aw: AndroidWorld, host: Machine) returns (r: Result<int>)
    requires c.Valid()
    modifies host
    ensures r.Ok? <==> CreateCommand(c).Ok? && GetEnv(c.info, aw).Ok? && Argv(CreateCommand(c).value).Ok?
    ensures r.Ok? ==> Commands(host.trace) == Commands(old(host.trace)) + [Argv(CreateCommand(c).value).value]
    ensures r.Err? ==> Commands(host.trace) == Commands(old(host.trace))
    ensures Removals(host.trace) == Removals(old(host.trace))
  {
    var cmd := CreateCommand(c);
    if cmd.Err? {
      return Err(cmd.error);
    }
    r := RunCmd(c, aw, cmd.value, host);
  }
}

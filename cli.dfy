/**
 * The command-line front end (`pew`): the settings `build` hands to the
 * controllers (requirements, ignore paths, data files), the query string
 * `run browser` appends to the page URL, the default platform, project
 * creation, the `local_config.py` overlay and the PNG header reader used
 * for launch images.
 */
module Cli {
  import opened Wrappers
  import opened Json
  import Text
  import Paths
  import opened Utils
  import opened Host
  import Base

  // ---------------------------------------------------------------- default platform

  /**
   * `get_default_platform()`: `win` for a Windows `sys.platform`, `osx` for
   * a Darwin one, and `linux` for anything else.
   */
  function DefaultPlatform(sysPlatform: string): (r: string)
    ensures r == "win" <==> Text.StartsWith(sysPlatform, "win")
    ensures r == "osx" <==> !Text.StartsWith(sysPlatform, "win") && Text.StartsWith(sysPlatform, "darwin")
    ensures r == "linux" <==> !Text.StartsWith(sysPlatform, "win") && !Text.StartsWith(sysPlatform, "darwin")
  {
    if Text.StartsWith(sysPlatform, "win") then "win"
    else if Text.StartsWith(sysPlatform, "darwin") then "osx"
    else "linux"
  }

  // ---------------------------------------------------------------- PNG header

  type byte = b: int | 0 <= b < 256

  /** The eight signature bytes every PNG file starts with (ISO/IEC 15948, section 5.2). */
  const PngSignature: seq<byte> := [137, 80, 78, 71, 13, 10, 26, 10]

  /** The chunk type of the image header chunk, `IHDR` (ISO/IEC 15948, section 11.2.2). */
  const IhdrType: seq<byte> := [73, 72, 68, 82]

  /**
   * `is_png(data)`: the data starts with the PNG signature and bytes 12 to
   * 16 spell `IHDR`, the type of the first chunk. Slices of data too short
   * for either test compare unequal.
   */
  predicate IsPng(data: seq<byte>) {
    |data| >= 16 && data[..8] == PngSignature && data[12..16] == IhdrType
  }

  /** The unsigned big-endian number in four bytes (`struct.unpack('>L', ...)`). */
  function BigEndian32(b: seq<byte>): (r: nat)
    requires |b| == 4
    ensures r < 0x1_0000_0000
  {
    ((b[0] as int * 256 + b[1]) * 256 + b[2]) * 256 + b[3]
  }

  /** The four big-endian bytes of a 32-bit number. */
  function Bytes32(n: nat): (r: seq<byte>)
    requires n < 0x1_0000_0000
    ensures |r| == 4
  {
    [n / 0x100_0000, (n / 0x1_0000) % 256, (n / 256) % 256, n % 256]
  }

  /** Encoding a 32-bit number in four bytes and reading it back gives the number. */
  lemma BigEndianRoundTrip(n: nat)
    requires n < 0x1_0000_0000
    ensures BigEndian32(Bytes32(n)) == n
  {
    var b := Bytes32(n);
    assert (n / 0x100_0000) * 256 + (n / 0x1_0000) % 256 == n / 0x1_0000;
    assert (n / 0x1_0000) * 256 + (n / 256) % 256 == n / 256;
    assert (n / 256) * 256 + n % 256 == n;
  }

  /**
   * `get_image_info(filename)` on the file's bytes: the first 25 bytes are
   * read; a PNG yields the width and height of its header chunk (bytes 16
   * to 20 and 20 to 24); anything else raises "not a png image", and a PNG
   * cut short before byte 24 makes `struct.unpack` raise.
   */
  function ImageInfo(file: seq<byte>): (r: Result<(nat, nat)>)
    ensures r.Ok? <==> IsPng(file[..if |file| < 25 then |file| else 25]) && |file| >= 24
    ensures r.Ok? ==> r.value == (BigEndian32(file[16..20]), BigEndian32(file[20..24]))
  {
    var data := file[..if |file| < 25 then |file| else 25];
    if !IsPng(data) then Err(Raised("not a png image"))
    else if |data| < 24 then Err(Raised("struct.error: unpack requires a buffer of 8 bytes"))
    else Ok((BigEndian32(data[16..20]), BigEndian32(data[20..24])))
  }

  /** The first 24 bytes of a PNG file whose header chunk gives `width` and `height`. */
  function PngHead(width: nat, height: nat): (r: seq<byte>)
    requires width < 0x1_0000_0000 && height < 0x1_0000_0000
    ensures |r| == 24
  {
    PngSignature + [0, 0, 0, 13] + IhdrType + Bytes32(width) + Bytes32(height)
  }

  /** Whatever follows the header, reading a PNG file gives back the size written into it. */
  lemma ImageInfoOfPng(width: nat, height: nat, rest: seq<byte>)
    requires width < 0x1_0000_0000 && height < 0x1_0000_0000
    ensures ImageInfo(PngHead(width, height) + rest) == Ok((width, height))
  {
    var head := PngHead(width, height);
    var file := head + rest;
    var data := file[..if |file| < 25 then |file| else 25];
    assert data[..24] == head;
    assert head[..8] == PngSignature;
    assert head[12..16] == IhdrType;
    assert head[16..20] == Bytes32(width);
    assert head[20..24] == Bytes32(height);
    assert data[..8] == head[..8] && data[12..16] == head[12..16];
    assert data[16..20] == head[16..20] && data[20..24] == head[20..24];
    BigEndianRoundTrip(width);
    BigEndianRoundTrip(height);
  }

  /** A file whose first byte is not the signature's is refused as not a PNG. */
  lemma NotPngRefused(file: seq<byte>)
    requires |file| > 0 && file[0] != 137
    ensures ImageInfo(file) == Err(Raised("not a png image"))
  {
  }

  // ---------------------------------------------------------------- run browser

  /** `arg.replace('--', '')` for an argument that starts with `--`; other arguments as they are. */
  function Undashed(arg: string): string {
    if Text.StartsWith(arg, "--") then Text.Replace(arg, "--", "") else arg
  }

  /** The non-empty arguments, each with its dashes removed, in order. */
  function QueryArgs(args: seq<string>): (r: seq<string>)
  {
    if args == [] then []
    else QueryArgs(args[..|args| - 1]) + (if args[|args| - 1] == "" then [] else [Undashed(args[|args| - 1])])
  }

  /**
   * The query string that `run browser` builds: nothing when every argument
   * is empty, else '?' followed by the kept arguments joined by '&'.
   */
  function UrlQuery(args: seq<string>): string {
    var kept := QueryArgs(args);
    if kept == [] then "" else "?" + Text.Join(kept, "&")
  }

  /** `run browser`'s loop building `url_args` from the command-line arguments. */
  method UrlArgs(args: seq<string>) returns (url: string)
    ensures url == UrlQuery(args)
  {
    url := "";
    var i := 0;
    while i < |args|
      invariant 0 <= i <= |args|
      invariant url == UrlQuery(args[..i])
    {
      var arg := args[i];
      UrlQuerySnoc(args, i);
      if |arg| > 0 {
        var sep := if |url| == 0 then "?" else "&";
        if Text.StartsWith(arg, "--") {
          arg := Text.Replace(arg, "--", "");
        }
        url := url + sep + arg;
      }
      i := i + 1;
    }
    assert args[..i] == args;
  }

  /** One more argument: an empty one adds nothing, any other adds '?' or '&' and the argument undashed. */
  lemma UrlQuerySnoc(args: seq<string>, i: nat)
    requires i < |args|
    ensures var before := UrlQuery(args[..i]);
      UrlQuery(args[..i + 1]) ==
        if args[i] == "" then before
        else before + (if before == "" then "?" else "&") + Undashed(args[i])
  {
    assert args[..i + 1][..i] == args[..i];
    var kept := QueryArgs(args[..i]);
    var arg := Undashed(args[i]);
    if args[i] != "" {
      assert QueryArgs(args[..i + 1]) == kept + [arg];
      if kept != [] {
        Text.JoinAppend(kept, [arg], "&");
        assert "?" + Text.Join(kept + [arg], "&") == "?" + Text.Join(kept, "&") + "&" + arg;
      } else {
        assert kept + [arg] == [arg];
      }
    } else {
      assert QueryArgs(args[..i + 1]) == kept + [];
      assert kept + [] == kept;
    }
  }

  /** The query is empty exactly when every argument is, and otherwise opens with '?'. */
  lemma {:induction false} UrlQueryShape(args: seq<string>)
    ensures UrlQuery(args) == "" <==> forall i :: 0 <= i < |args| ==> args[i] == ""
    ensures UrlQuery(args) != "" ==> UrlQuery(args)[0] == '?'
  {
    QueryArgsEmpty(args);
  }

  lemma {:induction false} QueryArgsEmpty(args: seq<string>)
    ensures QueryArgs(args) == [] <==> forall i :: 0 <= i < |args| ==> args[i] == ""
  {
    if args != [] {
      var init := args[..|args| - 1];
      QueryArgsEmpty(init);
      assert forall i :: 0 <= i < |init| ==> init[i] == args[i];
    }
  }

  /** A lone argument gives '?' and that argument, dashes removed. */
  lemma OneArgument(arg: string)
    requires arg != ""
    ensures UrlQuery([arg]) == "?" + Undashed(arg)
  {
    assert [arg][..0] == [];
    assert QueryArgs([arg]) == [] + [Undashed(arg)];
  }

  // ---------------------------------------------------------------- local config

  /** Where the chosen config file is copied to, `<cwd>/src/local_config.py`. */
  function LocalConfig(cwd: string): string {
    Paths.Join(Paths.Join(cwd, "src"), "local_config.py")
  }

  /** The config file `--config name` selects, `configs/<name>.py` made absolute. */
  function ConfigPath(cwd: string, name: string): string {
    Paths.Abspath(cwd, Paths.Join("configs", name + ".py"))
  }

  /** The path exists but is a directory, so removing or copying it as a file raises. */
  predicate IsDir(host: Machine, p: string)
    reads host
  {
    host.Exists(p) && !host.IsFile(p)
  }

  /**
   * `copy_config_file(args)`: any old `local_config.py` goes first; then a
   * named config file is copied in its place, or the tool exits when that
   * file is missing.
   */
  method CopyConfigFile(config: Option<string>, cwd: string, host: Machine) returns (r: Result<()>)
    modifies host
    ensures old(IsDir(host, LocalConfig(cwd))) ==> r.Err? && host.trace == old(host.trace)
    ensures old(host.IsFile(LocalConfig(cwd))) ==> Removals(host.trace) == Removals(old(host.trace)) + [LocalConfig(cwd)]
    ensures !old(host.Exists(LocalConfig(cwd))) ==> Removals(host.trace) == Removals(old(host.trace))
    ensures r.Ok? && (config.None? || config.value == "") ==> host.files == old(host.files) - {LocalConfig(cwd)}
    ensures r.Ok? && config.Some? && config.value != "" ==>
      var src := ConfigPath(cwd, config.value);
      src in old(host.files) - {LocalConfig(cwd)} && host.files == (old(host.files) - {LocalConfig(cwd)})[LocalConfig(cwd) := old(host.files)[src]]
    ensures (config.Some? && config.value != "" && !old(IsDir(host, LocalConfig(cwd)))
             && !old(host.Exists(ConfigPath(cwd, config.value)))) ==> r == Err(SystemExit(1))
    ensures (config.None? || config.value == "") && !old(IsDir(host, LocalConfig(cwd))) ==> r.Ok?
    ensures host.dirs == old(host.dirs) && Commands(host.trace) == Commands(old(host.trace))
  {
    var local := LocalConfig(cwd);
    if host.Exists(local) {
      if !host.IsFile(local) {
        return Err(Raised("IsADirectoryError"));
      }
      host.RemoveFile(local);
    }
    if config.Some? && config.value != "" {
      var path := ConfigPath(cwd, config.value);
      if !host.Exists(path) {
        return Err(SystemExit(1));
      }
      if !host.IsFile(path) {
        return Err(Raised("IsADirectoryError"));
      }
      host.CopyFile(path, local);
    }
    r := Ok(());
  }

  // ---------------------------------------------------------------- build settings

  /** The settings `build` passes on: requirements, ignore paths and data files. */
  datatype BuildSettings = BuildSettings(requirements: Value, ignorePaths: seq<string>, dataFiles: seq<DataFile>)

  /** The platform's requirements followed by the "common" ones. */
  function Requirements(info: Info, platform: string): Result<Value> {
    var own :- ValueForPlatform(info, "requirements", platform, Arr([]));
    var common :- ValueForPlatform(info, "requirements", "common", Arr([]));
    PyAdd(own, common)
  }

  /**
   * With requirement lists for the platform and for "common", the platform's
   * come first and the common ones follow, nothing dropped or repeated; a
   * platform without an entry of its own (and no "default") contributes
   * nothing.
   */
  lemma RequirementsOrder(info: Info, platform: string, own: seq<Value>, common: seq<Value>)
    requires "requirements" in info && info["requirements"].Obj?
    requires var m := info["requirements"].fields;
      (if platform in m then m[platform] else if DefaultKey in m then m[DefaultKey] else Arr([])) == Arr(own)
    requires var m := info["requirements"].fields;
      (if "common" in m then m["common"] else if DefaultKey in m then m[DefaultKey] else Arr([])) == Arr(common)
    ensures Requirements(info, platform) == Ok(Arr(own + common))
  {
  }

  /**
   * Requirements written as a plain list, rather than a mapping from
   * platforms, are silently dropped: neither lookup finds its name in the
   * list, so both fall back to the empty default.
   */
  lemma RequirementsPlainListIgnored(info: Info, platform: string)
    requires "requirements" in info && info["requirements"].Arr?
    requires var items := info["requirements"].items;
      Str(platform) !in items && Str("common") !in items && Str(DefaultKey) !in items
    ensures Requirements(info, platform) == Ok(Arr([]))
  {
    PlatformLookupOnList(info, "requirements", platform, Arr([]));
    PlatformLookupOnList(info, "requirements", "common", Arr([]));
    var none: seq<Value> := [];
    assert none + none == none;
  }

  /** Each ignore entry made absolute against `cwd`; a non-string entry makes `abspath` raise. */
  function AbsPaths(items: seq<Value>, cwd: string): (r: Result<seq<string>>)
    ensures r.Ok? ==> |r.value| == |items|
    ensures r.Ok? ==> forall i :: 0 <= i < |items| ==> items[i].Str? && r.value[i] == Paths.Abspath(cwd, items[i].s)
    ensures r.Err? <==> exists i :: 0 <= i < |items| && !items[i].Str?
  {
    if items == [] then Ok([])
    else
      var init := AbsPaths(items[..|items| - 1], cwd);
      var last := items[|items| - 1];
      if init.Err? then
        var i :| 0 <= i < |items[..|items| - 1]| && !items[..|items| - 1][i].Str?;
        assert !items[i].Str?;
        init
      else if !last.Str? then Err(TypeError("expected str, bytes or os.PathLike object"))
      else
        assert forall i :: 0 <= i < |items| - 1 ==> items[..|items| - 1][i] == items[i];
        Ok(init.value + [Paths.Abspath(cwd, last.s)])
  }

  /**
   * The ignore paths: only when `--config` is not the empty string, the
   * config's (or the default) `ignore_dirs` entries, each made absolute;
   * nothing when the lookup is falsy.
   */
  function IgnorePaths(info: Info, config: Value, cwd: string): Result<seq<string>>
    requires IsKey(config)
  {
    if config == Str("") then Ok([])
    else
      var dirs :- ValueForConfig(info, "ignore_dirs", config, Null);
      IgnoreEntries(dirs, cwd)
  }

  /** The entries of a looked-up `ignore_dirs` value, made absolute; a falsy value ignores nothing. */
  function IgnoreEntries(dirs: Value, cwd: string): Result<seq<string>> {
    if !Truthy(dirs) then Ok([])
    else
      var items :- Iter(dirs);
      AbsPaths(items, cwd)
  }

  /**
   * When the lookup for the config (its own entry or the "default" one)
   * lists directories, exactly those are ignored, each made absolute.
   */
  lemma IgnoredConfigDirs(info: Info, config: string, cwd: string, dirs: seq<string>)
    requires config != ""
    requires ValueForConfig(info, "ignore_dirs", Str(config), Null) == Ok(Arr(Strs(dirs)))
    ensures IgnorePaths(info, Str(config), cwd).Ok?
    ensures var r := IgnorePaths(info, Str(config), cwd).value;
      |r| == |dirs| && forall i :: 0 <= i < |dirs| ==> r[i] == Paths.Abspath(cwd, dirs[i])
  {
    IgnorePathsOfLookup(info, config, cwd, Arr(Strs(dirs)));
    IgnoreEntriesOfStrings(dirs, cwd);
  }

  lemma IgnorePathsOfLookup(info: Info, config: string, cwd: string, found: Value)
    requires config != ""
    requires ValueForConfig(info, "ignore_dirs", Str(config), Null) == Ok(found)
    ensures IgnorePaths(info, Str(config), cwd) == IgnoreEntries(found, cwd)
  {
  }

  lemma IgnoreEntriesOfStrings(dirs: seq<string>, cwd: string)
    ensures IgnoreEntries(Arr(Strs(dirs)), cwd).Ok?
    ensures var r := IgnoreEntries(Arr(Strs(dirs)), cwd).value;
      |r| == |dirs| && forall i :: 0 <= i < |dirs| ==> r[i] == Paths.Abspath(cwd, dirs[i])
  {
    if dirs != [] {
      assert Truthy(Arr(Strs(dirs)));
      assert Iter(Arr(Strs(dirs))) == Ok(Strs(dirs));
      AbsPathsOfStrings(dirs, cwd);
    }
  }

  lemma AbsPathsOfStrings(dirs: seq<string>, cwd: string)
    ensures AbsPaths(Strs(dirs), cwd).Ok?
    ensures var r := AbsPaths(Strs(dirs), cwd).value;
      |r| == |dirs| && forall i :: 0 <= i < |dirs| ==> r[i] == Paths.Abspath(cwd, dirs[i])
  {
    var items := Strs(dirs);
    assert forall i :: 0 <= i < |items| ==> items[i].Str?;
    assert !(exists i :: 0 <= i < |items| && !items[i].Str?);
  }

  /** The asset directories `build` walks: `asset_dirs`, else `src/files`. */
  function CliAssetDirs(info: Info): Value {
    if "asset_dirs" in info then info["asset_dirs"] else Arr([Str("src/files")])
  }

  /** The data files of the walked asset directories, in order; a non-string directory raises. */
  function AssetEntries(dirs: seq<Value>, walk: string -> seq<Base.WalkDir>): Result<seq<DataFile>> {
    if dirs == [] then Ok([])
    else
      var init :- AssetEntries(dirs[..|dirs| - 1], walk);
      var last := dirs[|dirs| - 1];
      if !last.Str? then Err(TypeError("expected str, bytes or os.PathLike object"))
      else Ok(init + Base.WalkEntries(walk(last.s), "src"))
  }

  /** The data-file manifest: the project descriptor first, then the asset entries. */
  function DataFiles(info: Info, cwd: string, walk: string -> seq<Base.WalkDir>): Result<seq<DataFile>> {
    var dirs :- Iter(CliAssetDirs(info));
    var entries :- AssetEntries(dirs, walk);
    Ok([DataFile(".", [Paths.Join(cwd, "project_info.json")])] + entries)
  }

  /** Every entry after the descriptor names a walked directory with at least one visible file. */
  lemma {:induction false} AssetEntriesNonEmpty(dirs: seq<Value>, walk: string -> seq<Base.WalkDir>)
    requires AssetEntries(dirs, walk).Ok?
    ensures forall i :: 0 <= i < |AssetEntries(dirs, walk).value| ==> |AssetEntries(dirs, walk).value[i].files| > 0
  {
    if dirs != [] {
      AssetEntriesNonEmpty(dirs[..|dirs| - 1], walk);
    }
  }

  /** The loop over the asset directories of `build`. */
  method CollectAssets(dirs: seq<Value>, walk: string -> seq<Base.WalkDir>) returns (r: Result<seq<DataFile>>)
    ensures r == AssetEntries(dirs, walk)
  {
    var data: seq<DataFile> := [];
    var k := 0;
    while k < |dirs|
      invariant 0 <= k <= |dirs|
      invariant AssetEntries(dirs[..k], walk) == Ok(data)
    {
      assert dirs[..k + 1][..k] == dirs[..k];
      if !dirs[k].Str? {
        AssetEntriesErrExtends(dirs, k + 1, walk);
        return Err(TypeError("expected str, bytes or os.PathLike object"));
      }
      var entries := Base.CollectWalk(walk(dirs[k].s), "src");
      data := data + entries;
      k := k + 1;
    }
    assert dirs[..k] == dirs;
    r := Ok(data);
  }

  /** Once a prefix of the directories fails, the whole list fails the same way. */
  lemma {:induction false} AssetEntriesErrExtends(dirs: seq<Value>, n: nat, walk: string -> seq<Base.WalkDir>)
    requires n <= |dirs| && AssetEntries(dirs[..n], walk).Err?
    ensures AssetEntries(dirs, walk) == AssetEntries(dirs[..n], walk)
    decreases |dirs| - n
  {
    if n < |dirs| {
      assert dirs[..n + 1][..n] == dirs[..n];
      AssetEntriesErrExtends(dirs, n + 1, walk);
    } else {
      assert dirs[..n] == dirs;
    }
  }

  /** The loop making the `ignore_dirs` entries absolute. */
  method CollectIgnored(items: seq<Value>, cwd: string) returns (r: Result<seq<string>>)
    ensures r == AbsPaths(items, cwd)
  {
    var paths: seq<string> := [];
    var k := 0;
    while k < |items|
      invariant 0 <= k <= |items|
      invariant AbsPaths(items[..k], cwd) == Ok(paths)
    {
      assert items[..k + 1][..k] == items[..k];
      if !items[k].Str? {
        assert AbsPaths(items[..k + 1], cwd).Err?;
        AbsPathsErrExtends(items, k + 1, cwd);
        return Err(TypeError("expected str, bytes or os.PathLike object"));
      }
      paths := paths + [Paths.Abspath(cwd, items[k].s)];
      k := k + 1;
    }
    assert items[..k] == items;
    r := Ok(paths);
  }

  /** A non-string entry anywhere in a prefix fails the whole list too. */
  lemma AbsPathsErrExtends(items: seq<Value>, n: nat, cwd: string)
    requires n <= |items| && AbsPaths(items[..n], cwd).Err?
    ensures AbsPaths(items, cwd) == Err(TypeError("expected str, bytes or os.PathLike object"))
  {
    var i :| 0 <= i < n && !items[..n][i].Str?;
    assert !items[i].Str?;
    AbsPathsErrIs(items, cwd);
  }

  lemma {:induction false} AbsPathsErrIs(items: seq<Value>, cwd: string)
    ensures AbsPaths(items, cwd).Err? ==> AbsPaths(items, cwd) == Err(TypeError("expected str, bytes or os.PathLike object"))
  {
    if items != [] {
      AbsPathsErrIs(items[..|items| - 1], cwd);
    }
  }

  /**
   * The settings part of `build(args)`: after the config overlay, the
   * requirements, ignore paths and data files are gathered in that order;
   * the first step that raises or exits ends the command.
   */
  method GatherSettings(info: Info, platform: string, config: Option<string>, world: Base.World, host: Machine)
    returns (r: Result<BuildSettings>)
    modifies host
    ensures r.Ok? ==> Requirements(info, platform) == Ok(r.value.requirements)
    ensures r.Ok? ==> IgnorePaths(info, ConfigArg(config), world.cwd) == Ok(r.value.ignorePaths)
    ensures r.Ok? ==> DataFiles(info, world.cwd, world.walk) == Ok(r.value.dataFiles)
    ensures (Requirements(info, platform).Err? || IgnorePaths(info, ConfigArg(config), world.cwd).Err?
             || DataFiles(info, world.cwd, world.walk).Err?) ==> r.Err?
    ensures host.dirs == old(host.dirs) && Commands(host.trace) == Commands(old(host.trace))
  {
    var copied := CopyConfigFile(config, world.cwd, host);
    if copied.Err? {
      return Err(copied.error);
    }
    var requirements := Requirements(info, platform);
    if requirements.Err? {
      return Err(requirements.error);
    }
    var ignorePaths: seq<string> := [];
    var configValue := ConfigArg(config);
    if configValue != Str("") {
      var dirs := ValueForConfig(info, "ignore_dirs", configValue, Null);
      if dirs.Err? {
        return Err(dirs.error);
      }
      if Truthy(dirs.value) {
        var items := Iter(dirs.value);
        if items.Err? {
          return Err(items.error);
        }
        var abs := CollectIgnored(items.value, world.cwd);
        if abs.Err? {
          return Err(abs.error);
        }
        ignorePaths := abs.value;
      }
    }
    var dirs := Iter(CliAssetDirs(info));
    if dirs.Err? {
      return Err(dirs.error);
    }
    var entries := CollectAssets(dirs.value, world.walk);
    if entries.Err? {
      return Err(entries.error);
    }
    var dataFiles := [DataFile(".", [Paths.Join(world.cwd, "project_info.json")])] + entries.value;
    r := Ok(BuildSettings(requirements.value, ignorePaths, dataFiles));
  }

  /** `args.config` as the lookup receives it. */
  function ConfigArg(config: Option<string>): (r: Value)
    ensures IsKey(r)
  {
    if config.Some? then Str(config.value) else Null
  }

  // ---------------------------------------------------------------- create

  /** `create`'s project directory name: the name with every space removed. */
  function SafeName(name: string): (r: string)
    ensures ' ' !in r
  {
    Text.ReplaceCharGone(name, ' ', "");
    Text.Replace(name, " ", "")
  }

  /** The placeholder bundle identifier `create` writes, `com.yourdomain.<safe name>`. */
  function PlaceholderIdentifier(name: string): (r: string)
    ensures Text.StartsWith(r, "com.yourdomain.") && ' ' !in r
  {
    var r := "com.yourdomain." + SafeName(name);
    assert r[..15] == "com.yourdomain.";
    r
  }

  /** The descriptor `create` writes: the template's, with the name and identifier filled in. */
  function CreatedInfo(template: map<string, Value>, name: string): (r: map<string, Value>)
    ensures r.Keys == template.Keys + {"name", "identifier"}
    ensures r["name"] == Str(name) && r["identifier"] == Str(PlaceholderIdentifier(name))
    ensures forall k :: k in template && k != "name" && k != "identifier" ==> r[k] == template[k]
  {
    template["name" := Str(name)]["identifier" := Str(PlaceholderIdentifier(name))]
  }

  /** The template directory `create` copies, `<rootdir>/src/templates/<template>`. */
  function TemplateDir(rootDir: string, template: string): string {
    Paths.Join(Paths.Join3(rootDir, "src", "templates"), template)
  }

  /**
   * `create(args)`: for a non-empty name, an existing project directory
   * exits before anything is copied; otherwise the template is copied
   * there and its descriptor rewritten with the name and identifier.
   */
  method Create(name: string, template: string, cwd: string, rootDir: string,
                loads: string -> Result<Value>, dumps: Value -> string, host: Machine) returns (r: Result<()>)
    modifies host
    ensures name == "" ==> r == Ok(()) && host.trace == old(host.trace) && host.files == old(host.files)
    ensures name != "" && old(host.Exists(Paths.Join(cwd, SafeName(name)))) ==>
      r == Err(SystemExit(1)) && host.trace == old(host.trace) && host.files == old(host.files)
    ensures r.Ok? && name != "" ==>
      var dir := Paths.Join(cwd, SafeName(name));
      var file := Paths.Join(dir, "project_info.json");
      var copied := old(host.files) + Rebased(old(host.files), TemplateDir(rootDir, template), dir);
      !old(host.Exists(dir)) && dir in host.dirs && file in copied
      && loads(copied[file]).Ok? && loads(copied[file]).value.Obj?
      && host.files == copied[file := dumps(Obj(CreatedInfo(loads(copied[file]).value.fields, name)))]
    ensures Commands(host.trace) == Commands(old(host.trace)) && Removals(host.trace) == Removals(old(host.trace))
  {
    if name == "" {
      return Ok(());
    }
    var safe := SafeName(name);
    var dir := Paths.Join(cwd, safe);
    if host.Exists(dir) {
      return Err(SystemExit(1));
    }
    host.CopyTree(TemplateDir(rootDir, template), dir);
    var file := Paths.Join(dir, "project_info.json");
    if file !in host.files {
      return Err(Raised("FileNotFoundError"));
    }
    var loaded := loads(host.files[file]);
    if loaded.Err? {
      return Err(loaded.error);
    }
    if !loaded.value.Obj? {
      return Err(TypeError("the template descriptor is not a mapping"));
    }
    host.WriteFile(file, dumps(Obj(CreatedInfo(loaded.value.fields, name))));
    r := Ok(());
  }
}

/**
 * `BaseBuildController`: the path getters every platform controller shares,
 * idempotent creation of the per-platform directories, the data-file
 * manifest, the distutils option lists and the PyInstaller argument list.
 */
module Base {
  import opened Wrappers
  import opened Json
  import Text
  import Paths
  import opened Utils
  import opened Host
  import Sets

  /** The parsed command line as the controllers read it. */
  datatype Args = Args(platform: string, config: Option<string>, release: bool, verbose: bool, extraArgs: seq<string>)

  /** `args.config` as a Python value: the string, or `None`. */
  function ConfigValue(a: Args): (r: Value)
    ensures IsKey(r)
  {
    match a.config
    case Some(s) => Str(s)
    case None => Null
  }

  /** `args.config` is truthy. */
  predicate HasConfig(a: Args) {
    a.config.Some? && a.config.value != ""
  }

  /**
   * The descriptor fields the controllers read without checking their type:
   * Python raises `KeyError`/`TypeError` on a descriptor that breaks these.
   */
  predicate Described(info: Info) {
    && "name" in info && info["name"].Str?
    && "version" in info && info["version"].Str?
    && "identifier" in info && info["identifier"].Str?
    && ("source_dir" in info ==> info["source_dir"].Str?)
    && ("import_hooks_file" in info ==> info["import_hooks_file"].Str?)
    && ("asset_dirs" in info ==> IsStrList(info["asset_dirs"]))
  }

  /**
   * A build controller: the project root (the directory of the descriptor
   * file), its own expanded descriptor, the shared descriptor that the
   * module-level lookups read, the command line and the app extension of
   * the platform subclass.
   */
  datatype Controller = Controller(root: string, info: Info, shared: Info, args: Args, appExt: string) {
    predicate Valid() { Described(info) }
    function Platform(): string { args.platform }
    function Name(): string requires Valid() { info["name"].s }
    function Version(): string requires Valid() { info["version"].s }
    function Identifier(): string requires Valid() { info["identifier"].s }
  }

  /**
   * The settings the command line hands to `build`: ignore paths, data
   * files, requirements and the `extra_build_options` mapping.
   */
  datatype Settings = Settings(ignorePaths: seq<string>, dataFiles: seq<DataFile>, requirements: seq<Value>, extra: map<string, Value>)

  /** What the build reads from its surroundings besides the filesystem. */
  datatype World = World(
    cwd: string,
    /** `os.walk(top)`: each visited directory with the names of its files, in visiting order. */
    walk: string -> seq<WalkDir>,
    /** `json.dumps(info, indent=4, ensure_ascii=False)`. */
    dumps: Info -> string,
    windows: bool,
    /** The hook directory that an importable `cefpython3` contributes, if any. */
    cefHooks: Option<string>,
    pythonMajor: int)

  datatype WalkDir = WalkDir(root: string, names: seq<string>)


  function Sep(w: World): string { if w.windows then "\\" else "/" }
  function PathSep(w: World): string { if w.windows then ";" else ":" }

  // ---------------------------------------------------------------- paths

  /** `_get_platform_dir(kind)`: `root/kind/platform`, then `/config` when a config is given. */
  function PlatformDirPath(c: Controller, kind: string): (r: string)
    ensures HasConfig(c.args) ==> r == Paths.Join(Paths.Join3(c.root, kind, c.Platform()), c.args.config.value)
    ensures !HasConfig(c.args) ==> r == Paths.Join3(c.root, kind, c.Platform())
  {
    var p := Paths.Join3(c.root, kind, c.Platform());
    if HasConfig(c.args) then Paths.Join(p, c.args.config.value) else p
  }

  /**
   * `_get_platform_dir(kind)`: the directory exists afterwards; it is created
   * only if nothing was there, so a repeated call changes nothing.
   */
  method GetPlatformDir(c: Controller, kind: string, host: Machine) returns (path: string)
    modifies host
    ensures path == PlatformDirPath(c, kind)
    ensures host.Exists(path) && host.files == old(host.files)
    ensures old(host.Exists(path)) ==> host.dirs == old(host.dirs) && host.trace == old(host.trace)
    ensures !old(host.Exists(path)) ==> host.dirs == old(host.dirs) + {path} && host.trace == old(host.trace) + [MadeDirs(path)]
    ensures Commands(host.trace) == Commands(old(host.trace)) && Removals(host.trace) == Removals(old(host.trace))
  {
    path := PlatformDirPath(c, kind);
    if !host.Exists(path) {
      host.MakeDirs(path);
    }
  }

  method GetBuildDir(c: Controller, host: Machine) returns (path: string)
    modifies host
    ensures path == PlatformDirPath(c, "build")
    ensures host.Exists(path) && host.files == old(host.files)
    ensures old(host.Exists(path)) ==> host.dirs == old(host.dirs) && host.trace == old(host.trace)
    ensures !old(host.Exists(path)) ==> host.dirs == old(host.dirs) + {path} && host.trace == old(host.trace) + [MadeDirs(path)]
    ensures Commands(host.trace) == Commands(old(host.trace)) && Removals(host.trace) == Removals(old(host.trace))
  {
    path := GetPlatformDir(c, "build", host);
  }

  method GetDistDir(c: Controller, host: Machine) returns (path: string)
    modifies host
    ensures path == PlatformDirPath(c, "dist")
    ensures host.Exists(path) && host.files == old(host.files)
    ensures old(host.Exists(path)) ==> host.dirs == old(host.dirs) && host.trace == old(host.trace)
    ensures !old(host.Exists(path)) ==> host.dirs == old(host.dirs) + {path} && host.trace == old(host.trace) + [MadeDirs(path)]
    ensures Commands(host.trace) == Commands(old(host.trace)) && Removals(host.trace) == Removals(old(host.trace))
  {
    path := GetPlatformDir(c, "dist", host);
  }

  method GetPackageDir(c: Controller, host: Machine) returns (path: string)
    modifies host
    ensures path == PlatformDirPath(c, "package")
    ensures host.Exists(path) && host.files == old(host.files)
    ensures old(host.Exists(path)) ==> host.dirs == old(host.dirs) && host.trace == old(host.trace)
    ensures !old(host.Exists(path)) ==> host.dirs == old(host.dirs) + {path} && host.trace == old(host.trace) + [MadeDirs(path)]
    ensures Commands(host.trace) == Commands(old(host.trace)) && Removals(host.trace) == Removals(old(host.trace))
  {
    path := GetPlatformDir(c, "package", host);
  }

  lemma JoinPlain(a: string, b: string)
    requires a != "" && a[|a| - 1] != '/' && b != "" && b[0] != '/'
    ensures Paths.Join(a, b) == a + "/" + b
  {
    assert !Text.StartsWith(b, "/") by { assert b[..1][0] == b[0]; }
    assert !Text.EndsWith(a, "/") by { assert a[|a| - 1..][0] == a[|a| - 1]; }
  }

  /** `x` spells the segment `k` followed by '/' from offset `at`. */
  predicate SegmentAt(x: string, at: nat, k: string) {
    && at + |k| < |x|
    && (forall i :: 0 <= i < |k| ==> x[at + i] == k[i])
    && x[at + |k|] == '/'
  }

  /** Two paths that spell different plain segments at the same offset differ. */
  lemma SegmentsDiffer(x: string, y: string, at: nat, k1: string, k2: string)
    requires '/' !in k1 && '/' !in k2 && k1 != k2
    requires SegmentAt(x, at, k1) && SegmentAt(y, at, k2)
    ensures x != y
  {
    if |k1| == |k2| {
      var i :| 0 <= i < |k1| && k1[i] != k2[i];
      assert x[at + i] != y[at + i];
    } else if |k1| < |k2| {
      assert x[at + |k1|] == '/' && y[at + |k1|] == k2[|k1|];
    } else {
      assert y[at + |k2|] == '/' && x[at + |k2|] == k1[|k2|];
    }
  }

  /** A path spelled `pre`, `k`, '/' and more holds the segment `k` right after `pre`. */
  lemma SegmentSpelled(pre: string, k: string, t: string)
    ensures SegmentAt(pre + (k + ("/" + t)), |pre|, k)
  {
    var x := pre + (k + ("/" + t));
    forall i | 0 <= i < |k| ensures x[|pre| + i] == k[i] {
      assert x[|pre| + i] == (k + ("/" + t))[i];
    }
    assert x[|pre| + |k|] == (k + ("/" + t))[|k|] == ("/" + t)[0];
  }

  /** Below a plain root, the platform directory of `kind` spells `root/kind/`. */
  lemma PlatformDirSpelling(c: Controller, kind: string, x: string)
    requires c.root != "" && c.root[|c.root| - 1] != '/'
    requires kind != "" && '/' !in kind
    requires c.Platform() != "" && '/' !in c.Platform()
    requires HasConfig(c.args) ==> c.args.config.value[0] != '/'
    requires x == PlatformDirPath(c, kind)
    ensures SegmentAt(x, |c.root| + 1, kind)
  {
    PlainEnds(kind);
    PlainEnds(c.Platform());
    PlatformDirShape(c, kind);
    SegmentSpelled(c.root + "/", kind, PlatformTail(c));
  }

  lemma PlainEnds(s: string)
    requires s != "" && '/' !in s
    ensures s[0] != '/' && s[|s| - 1] != '/'
  {
    assert s[0] in s && s[|s| - 1] in s;
  }

  /** What follows the kind segment: the platform, then the config when one is given. */
  function PlatformTail(c: Controller): string {
    if HasConfig(c.args) then c.Platform() + "/" + c.args.config.value else c.Platform()
  }

  lemma Regroup(r: string, k: string, t: string)
    ensures r + "/" + k + "/" + t == (r + "/") + (k + ("/" + t))
  {
  }

  lemma PlatformDirShape(c: Controller, kind: string)
    requires c.root != "" && c.root[|c.root| - 1] != '/'
    requires kind != "" && kind[0] != '/' && kind[|kind| - 1] != '/'
    requires c.Platform() != "" && c.Platform()[0] != '/' && c.Platform()[|c.Platform()| - 1] != '/'
    requires HasConfig(c.args) ==> c.args.config.value[0] != '/'
    ensures PlatformDirPath(c, kind) == (c.root + "/") + (kind + ("/" + PlatformTail(c)))
  {
    var p := c.Platform();
    var a := c.root + "/" + kind;
    JoinPlain(c.root, kind);
    JoinPlain(a, p);
    var b := a + "/" + p;
    if HasConfig(c.args) {
      JoinPlain(b, c.args.config.value);
      Regroup(c.root, kind, p + "/" + c.args.config.value);
      assert b + "/" + c.args.config.value == c.root + "/" + kind + "/" + (p + "/" + c.args.config.value);
    } else {
      Regroup(c.root, kind, p);
    }
  }

  /**
   * The build, dist and package directories are distinct: below a plain
   * project root they differ in the kind segment.
   */
  lemma PlatformDirsDistinct(c: Controller, k1: string, k2: string)
    requires c.root != "" && c.root[|c.root| - 1] != '/'
    requires k1 != "" && k2 != "" && '/' !in k1 && '/' !in k2 && k1 != k2
    requires c.Platform() != "" && '/' !in c.Platform()
    requires HasConfig(c.args) ==> c.args.config.value[0] != '/'
    ensures PlatformDirPath(c, k1) != PlatformDirPath(c, k2)
  {
    var x1 := PlatformDirPath(c, k1);
    var x2 := PlatformDirPath(c, k2);
    PlatformDirSpelling(c, k1, x1);
    PlatformDirSpelling(c, k2, x2);
    SegmentsDiffer(x1, x2, |c.root| + 1, k1, k2);
  }

  /** `get_app_path()`: the app inside the dist directory, which need not exist. */
  function AppPath(c: Controller): (r: string)
    requires c.Valid()
    ensures r == Paths.Join(PlatformDirPath(c, "dist"), c.Name() + c.appExt)
  {
    Paths.Join(PlatformDirPath(c, "dist"), c.Name() + c.appExt)
  }

  /**
   * Below a plain project root, platform and configuration, the app path
   * names the app file `name + extension` and its directory is the dist
   * platform directory.
   */
  lemma AppPathParts(c: Controller)
    requires c.Valid()
    requires c.root != "" && c.root[|c.root| - 1] != '/'
    requires c.Platform() != "" && c.Platform()[0] != '/' && c.Platform()[|c.Platform()| - 1] != '/'
    requires HasConfig(c.args) ==> c.args.config.value[0] != '/' && c.args.config.value[|c.args.config.value| - 1] != '/'
    requires c.Name() + c.appExt != "" && '/' !in c.Name() + c.appExt
    ensures Paths.Basename(AppPath(c)) == c.Name() + c.appExt
    ensures Paths.Dirname(AppPath(c)) == PlatformDirPath(c, "dist")
  {
    var dist := PlatformDirPath(c, "dist");
    PlatformDirShape(c, "dist");
    var tail := PlatformTail(c);
    assert tail != "" && tail[|tail| - 1] != '/';
    assert dist[|dist| - 1] == tail[|tail| - 1];
    Paths.BasenameOfJoin(dist, c.Name() + c.appExt);
    Paths.DirnameOfJoin(dist, c.Name() + c.appExt);
  }

  /** `get_app_path()`, which creates the dist directory on the way. */
  method GetAppPath(c: Controller, host: Machine) returns (path: string)
    requires c.Valid()
    modifies host
    ensures path == AppPath(c)
    ensures host.Exists(PlatformDirPath(c, "dist")) && host.files == old(host.files)
    ensures old(host.Exists(PlatformDirPath(c, "dist"))) ==> host.dirs == old(host.dirs) && host.trace == old(host.trace)
    ensures !old(host.Exists(PlatformDirPath(c, "dist"))) ==> host.trace == old(host.trace) + [MadeDirs(PlatformDirPath(c, "dist"))]
    ensures !old(host.Exists(PlatformDirPath(c, "dist"))) ==> host.dirs == old(host.dirs) + {PlatformDirPath(c, "dist")}
  {
    var dist := GetDistDir(c, host);
    path := Paths.Join(dist, c.Name() + c.appExt);
  }

  /** `'{}-{}'.format(name, version)`, the application name `dist()` shows. */
  function FullAppName(c: Controller): string
    requires c.Valid()
  {
    c.Name() + "-" + c.Version()
  }

  /**
   * The file stem of the package `dist()` writes on macOS and Windows: the
   * full application name with spaces turned into underscores, lower-cased.
   * It holds no space and no upper-case ASCII letter.
   */
  function PackageStem(c: Controller): (r: string)
    requires c.Valid()
    ensures ' ' !in r
    ensures forall i :: 0 <= i < |r| ==> !('A' <= r[i] <= 'Z')
  {
    var spaced := Text.Replace(FullAppName(c), " ", "_");
    Text.ReplaceCharGone(FullAppName(c), ' ', "_");
    var r := Text.Lower(spaced);
    assert forall i :: 0 <= i < |r| ==> r[i] == Text.ToLowerChar(spaced[i]) && spaced[i] != ' ';
    r
  }

  /** `get_source_dir_relative()`: `source_dir` from the descriptor, else "src". */
  function SourceDirRelative(c: Controller): (r: string)
    requires c.Valid()
    ensures "source_dir" in c.info ==> r == c.info["source_dir"].s
    ensures "source_dir" !in c.info ==> r == "src"
  {
    if "source_dir" in c.info then c.info["source_dir"].s else "src"
  }

  /** `get_source_dir()`. */
  function SourceDir(c: Controller): string
    requires c.Valid()
  {
    Paths.Join(c.root, SourceDirRelative(c))
  }

  /** `get_main_script_path()`: `main.py` in the relative source directory. */
  function MainScriptPath(c: Controller): (r: string)
    requires c.Valid()
    ensures Paths.Basename(r) == "main.py"
  {
    Paths.BasenameOfJoin(SourceDirRelative(c), "main.py");
    Paths.Join(SourceDirRelative(c), "main.py")
  }

  /** `get_import_hooks_script_path()`: `None` unless `import_hooks_file` is given. */
  function ImportHooksPath(c: Controller): (r: Option<string>)
    requires c.Valid()
    ensures r.Some? <==> "import_hooks_file" in c.info
    ensures r.Some? ==> r.value == Paths.Join(SourceDirRelative(c), c.info["import_hooks_file"].s)
  {
    if "import_hooks_file" in c.info then Some(Paths.Join(SourceDirRelative(c), c.info["import_hooks_file"].s))
    else None
  }

  // ---------------------------------------------------------------- data files

  /** The asset directories: `asset_dirs`, else `<source>/files`. */
  function AssetDirs(c: Controller): (r: seq<string>)
    requires c.Valid()
    ensures "asset_dirs" in c.info ==> Strs(r) == c.info["asset_dirs"].items
    ensures "asset_dirs" !in c.info ==> r == [Paths.Join(SourceDirRelative(c), "files")]
  {
    if "asset_dirs" in c.info then StrItems(c.info["asset_dirs"])
    else [Paths.Join(SourceDirRelative(c), "files")]
  }

  /** The paths of the files of a directory whose name does not start with '.'. */
  function VisiblePaths(root: string, names: seq<string>): (r: seq<string>)
    ensures |r| <= |names|
  {
    if names == [] then []
    else
      var rest := VisiblePaths(root, names[1..]);
      if Text.StartsWith(names[0], ".") then rest
      else [Paths.Join(root, names[0])] + rest
  }

  /** A directory contributes no file exactly when every name in it is hidden. */
  lemma {:induction false} VisibleEmpty(root: string, names: seq<string>)
    ensures VisiblePaths(root, names) == [] <==> forall j :: 0 <= j < |names| ==> Text.StartsWith(names[j], ".")
  {
    if names != [] {
      VisibleEmpty(root, names[1..]);
      assert forall j :: 0 <= j < |names[1..]| ==> names[1..][j] == names[j + 1];
      if forall j :: 0 <= j < |names| ==> Text.StartsWith(names[j], ".") {
        assert Text.StartsWith(names[0], ".");
      }
    }
  }

  /** Every contributed path joins the directory with one of its visible names. */
  lemma {:induction false} VisibleFrom(root: string, names: seq<string>, i: nat)
    requires i < |VisiblePaths(root, names)|
    ensures exists j :: 0 <= j < |names| && !Text.StartsWith(names[j], ".") && VisiblePaths(root, names)[i] == Paths.Join(root, names[j])
  {
    var rest := VisiblePaths(root, names[1..]);
    if Text.StartsWith(names[0], ".") {
      VisibleFrom(root, names[1..], i);
      var j :| 0 <= j < |names[1..]| && !Text.StartsWith(names[1..][j], ".") && rest[i] == Paths.Join(root, names[1..][j]);
      assert names[1..][j] == names[j + 1];
    } else if i > 0 {
      VisibleFrom(root, names[1..], i - 1);
      var j :| 0 <= j < |names[1..]| && !Text.StartsWith(names[1..][j], ".") && rest[i - 1] == Paths.Join(root, names[1..][j]);
      assert names[1..][j] == names[j + 1];
    }
  }

  /**
   * The entry a walked directory contributes: its visible files with the
   * directory as destination, every `<source>/` in it removed; nothing when
   * it has no visible file.
   */
  function DirEntry(w: WalkDir, sourceName: string): (r: Option<DataFile>)
    ensures r.Some? <==> exists j :: 0 <= j < |w.names| && !Text.StartsWith(w.names[j], ".")
    ensures r.Some? ==> |r.value.files| > 0 && r.value.files == VisiblePaths(w.root, w.names)
    ensures r.Some? ==> r.value.dest == Text.Replace(w.root, sourceName + "/", "")
  {
    var files := VisiblePaths(w.root, w.names);
    VisibleEmpty(w.root, w.names);
    if files == [] then None
    else Some(DataFile(Text.Replace(w.root, sourceName + "/", ""), files))
  }

  /** The entries of a walk, in walking order. */
  function WalkEntries(ws: seq<WalkDir>, sourceName: string): (r: seq<DataFile>)
    ensures |r| <= |ws|
    ensures forall i :: 0 <= i < |r| ==> |r[i].files| > 0
  {
    if ws == [] then []
    else
      var rest := WalkEntries(ws[1..], sourceName);
      match DirEntry(ws[0], sourceName)
      case Some(e) => [e] + rest
      case None => rest
  }

  /** `get_app_data_files()` as a value: the walk entries of every asset directory, in order. */
  function AppDataFilesOf(dirs: seq<string>, walk: string -> seq<WalkDir>, sourceName: string): (r: seq<DataFile>)
    ensures forall i :: 0 <= i < |r| ==> |r[i].files| > 0
  {
    if dirs == [] then []
    else AppDataFilesOf(dirs[..|dirs| - 1], walk, sourceName) + WalkEntries(walk(dirs[|dirs| - 1]), sourceName)
  }

  /** A walked directory with no visible file contributes nothing. */
  lemma {:induction false} HiddenOnlyDirsSkipped(a: seq<WalkDir>, w: WalkDir, b: seq<WalkDir>, sourceName: string)
    requires forall j :: 0 <= j < |w.names| ==> Text.StartsWith(w.names[j], ".")
    ensures WalkEntries(a + [w] + b, sourceName) == WalkEntries(a + b, sourceName)
    decreases |a|
  {
    if a == [] {
      assert a + [w] + b == [w] + b;
      assert ([w] + b)[1..] == b;
      assert a + b == b;
    } else {
      assert (a + [w] + b)[0] == a[0] && (a + [w] + b)[1..] == a[1..] + [w] + b;
      assert (a + b)[0] == a[0] && (a + b)[1..] == a[1..] + b;
      HiddenOnlyDirsSkipped(a[1..], w, b, sourceName);
    }
  }

  /** The inner loop of `get_app_data_files`: the visible files of one walked directory. */
  method CollectVisible(w: WalkDir) returns (files: seq<string>)
    ensures files == VisiblePaths(w.root, w.names)
  {
    files := [];
    var j := 0;
    while j < |w.names|
      invariant 0 <= j <= |w.names|
      invariant files + VisiblePaths(w.root, w.names[j..]) == VisiblePaths(w.root, w.names)
    {
      VisibleStep(w.root, w.names, j);
      var one := if Text.StartsWith(w.names[j], ".") then [] else [Paths.Join(w.root, w.names[j])];
      Sets.AppendAssoc(files, one, VisiblePaths(w.root, w.names[j + 1..]));
      files := files + one;
      j := j + 1;
    }
  }

  /** One name further into the listing. */
  lemma VisibleStep(root: string, names: seq<string>, j: nat)
    requires j < |names|
    ensures VisiblePaths(root, names[j..])
      == (if Text.StartsWith(names[j], ".") then [] else [Paths.Join(root, names[j])]) + VisiblePaths(root, names[j + 1..])
  {
    assert names[j..][1..] == names[j + 1..];
  }

  /** The middle loop of `get_app_data_files`: the entries of one asset directory's walk. */
  method CollectWalk(ws: seq<WalkDir>, sourceName: string) returns (entries: seq<DataFile>)
    ensures entries == WalkEntries(ws, sourceName)
  {
    entries := [];
    var i := 0;
    while i < |ws|
      invariant 0 <= i <= |ws|
      invariant entries + WalkEntries(ws[i..], sourceName) == WalkEntries(ws, sourceName)
    {
      assert ws[i..][1..] == ws[i + 1..];
      var filesInDir := CollectVisible(ws[i]);
      if |filesInDir| > 0 {
        entries := entries + [DataFile(Text.Replace(ws[i].root, sourceName + "/", ""), filesInDir)];
      }
      i := i + 1;
    }
  }

  /**
   * `get_app_data_files()`: for every asset directory, every walked
   * directory with a visible file yields one `(dest, files)` entry.
   */
  method GetAppDataFiles(c: Controller, world: World) returns (data: seq<DataFile>)
    requires c.Valid()
    ensures data == AppDataFilesOf(AssetDirs(c), world.walk, SourceDirRelative(c))
  {
    var dirs := AssetDirs(c);
    var sourceName := SourceDirRelative(c);
    data := [];
    var k := 0;
    while k < |dirs|
      invariant 0 <= k <= |dirs|
      invariant data == AppDataFilesOf(dirs[..k], world.walk, sourceName)
    {
      var entries := CollectWalk(world.walk(dirs[k]), sourceName);
      assert dirs[..k + 1][..k] == dirs[..k];
      data := data + entries;
      k := k + 1;
    }
    assert dirs[..k] == dirs;
  }

  /** `generate_project_info_file()`: the resolved descriptor is written into the build directory. */
  method GenerateProjectInfoFile(c: Controller, world: World, host: Machine) returns (path: string)
    modifies host
    ensures path == Paths.Join(PlatformDirPath(c, "build"), "project_info.json")
    ensures host.files == old(host.files)[path := world.dumps(c.info)]
    ensures host.trace == old(host.trace) + (if old(host.Exists(PlatformDirPath(c, "build"))) then [] else [MadeDirs(PlatformDirPath(c, "build"))]) + [Wrote(path, world.dumps(c.info))]
    ensures Commands(host.trace) == Commands(old(host.trace)) && Removals(host.trace) == Removals(old(host.trace))
  {
    ghost var t0 := host.trace;
    ghost var made := if host.Exists(PlatformDirPath(c, "build")) then [] else [MadeDirs(PlatformDirPath(c, "build"))];
    var build := GetBuildDir(c, host);
    assert host.trace == t0 + made;
    path := Paths.Join(build, "project_info.json");
    host.WriteFile(path, world.dumps(c.info));
  }

  /** `get_data_files()`: the generated descriptor first, then the app data files. */
  method GetDataFiles(c: Controller, world: World, host: Machine) returns (data: seq<DataFile>)
    requires c.Valid()
    modifies host
    ensures |data| >= 1 && data[0] == DataFile(".", [Paths.Join(PlatformDirPath(c, "build"), "project_info.json")])
    ensures data[1..] == AppDataFilesOf(AssetDirs(c), world.walk, SourceDirRelative(c))
    ensures host.files == old(host.files)[data[0].files[0] := world.dumps(c.info)]
    ensures Commands(host.trace) == Commands(old(host.trace)) && Removals(host.trace) == Removals(old(host.trace))
  {
    var info := GenerateProjectInfoFile(c, world, host);
    var rest := GetAppDataFiles(c, world);
    data := [DataFile(".", [info])] + rest;
  }

  /**
   * `run_cmd(cmd)`: the command runs once in the inherited environment and
   * its exit status is returned.
   */
  method RunCmd(cmd: seq<string>, host: Machine) returns (code: int)
    modifies host
    ensures host.dirs == old(host.dirs) && host.files == old(host.files)
    ensures host.trace == old(host.trace) + [Ran(cmd)] && code == host.status(cmd)
    ensures Commands(host.trace) == Commands(old(host.trace)) + [cmd] && Removals(host.trace) == Removals(old(host.trace))
  {
    code := host.Run(cmd);
  }

  // ---------------------------------------------------------------- glob

  /** `p` is what `glob(join(dir, "*" + suffix))` yields: a direct entry of `dir`, not hidden, ending in `suffix`. */
  predicate GlobMatch(p: string, dir: string, suffix: string) {
    && Text.StartsWith(p, dir + "/")
    && var name := p[|dir| + 1..];
      name != "" && '/' !in name && name[0] != '.' && Text.EndsWith(name, suffix)
  }

  /** The files and directories the glob matches. */
  function GlobEntries(files: map<string, string>, dirs: set<string>, dir: string, suffix: string): set<string> {
    (set p | p in files && GlobMatch(p, dir, suffix)) + (set d | d in dirs && GlobMatch(d, dir, suffix))
  }

  /** `glob.glob(join(dir, "*" + suffix))`, in the order the directory lists them. */
  method Glob(dir: string, suffix: string, host: Machine) returns (entries: seq<string>)
    ensures Sets.Listing(entries, GlobEntries(host.files, host.dirs, dir, suffix))
  {
    entries := Sets.ListMembers(GlobEntries(host.files, host.dirs, dir, suffix));
  }

  // ---------------------------------------------------------------- distutils

  /** The `packages`/`excludes`/`includes` lists handed to `get_build_options`. */
  datatype CommonOptions = CommonOptions(packages: seq<Value>, excludes: seq<Value>, includes: seq<Value>)

  /**
   * A list the platform lookup resolves for `key` when the descriptor has
   * that key; `list.extend` needs a list here (strings and mappings are
   * outside the model).
   */
  function ResolvedList(c: Controller, key: string): (r: Result<seq<Value>>)
    ensures key !in c.info ==> r == Ok([])
    ensures r.Ok? && key in c.info ==> ValueForPlatform(c.shared, key, c.Platform(), Arr([])) == Ok(Arr(r.value))
  {
    if key !in c.info then Ok([])
    else
      var v :- ValueForPlatform(c.shared, key, c.Platform(), Arr([]));
      if v.Arr? then Ok(v.items)
      else Err(Unsupported("extend() with a value other than a list"))
  }

  /**
   * The common options of `distutils_build`: the platform-resolved lists,
   * then `urllib`/`SimpleHTTPServer` included under Python 2 or
   * `six.moves.urllib.parse` excluded under Python 3, and `tkinter` excluded
   * last.
   */
  function DistutilsCommonOptions(c: Controller, pythonMajor: int): (r: Result<CommonOptions>)
    ensures r.Ok? ==> |r.value.excludes| >= 1 && r.value.excludes[|r.value.excludes| - 1] == Str("tkinter")
    ensures r.Ok? && pythonMajor == 2 ==> |r.value.includes| >= 2 && r.value.includes[|r.value.includes| - 2..] == [Str("urllib"), Str("SimpleHTTPServer")]
    ensures r.Ok? && pythonMajor != 2 ==> |r.value.excludes| >= 2 && r.value.excludes[|r.value.excludes| - 2..] == [Str("six.moves.urllib.parse"), Str("tkinter")]
    ensures r.Ok? <==> ResolvedList(c, "packages").Ok? && ResolvedList(c, "includes").Ok? && ResolvedList(c, "excludes").Ok?
    ensures r.Ok? ==>
      var includes, excludes := ResolvedList(c, "includes").value, ResolvedList(c, "excludes").value;
      && r.value.packages == ResolvedList(c, "packages").value
      && |r.value.includes| == |includes| + (if pythonMajor == 2 then 2 else 0)
      && r.value.includes[..|includes|] == includes
      && |r.value.excludes| == |excludes| + (if pythonMajor == 2 then 1 else 2)
      && r.value.excludes[..|excludes|] == excludes
    ensures ResolvedList(c, "packages").Err? ==> r == Err(ResolvedList(c, "packages").error)
    ensures ResolvedList(c, "packages").Ok? && ResolvedList(c, "includes").Err? ==> r == Err(ResolvedList(c, "includes").error)
    ensures ResolvedList(c, "packages").Ok? && ResolvedList(c, "includes").Ok? && ResolvedList(c, "excludes").Err? ==>
      r == Err(ResolvedList(c, "excludes").error)
  {
    var packages :- ResolvedList(c, "packages");
    var includes :- ResolvedList(c, "includes");
    var excludes :- ResolvedList(c, "excludes");
    if pythonMajor == 2 then
      Ok(CommonOptions(packages, excludes + [Str("tkinter")], includes + [Str("urllib"), Str("SimpleHTTPServer")]))
    else
      Ok(CommonOptions(packages, excludes + [Str("six.moves.urllib.parse"), Str("tkinter")], includes))
  }

  /** The distutils command `distutils_build()` puts into `sys.argv`. */
  function SetupCommand(c: Controller): (r: string)
    ensures r == "py2app" <==> c.Platform() == "osx"
    ensures r != "py2app" ==> r == "py2exe"
  {
    if c.Platform() == "osx" then "py2app" else "py2exe"
  }

  /** Where `generate_project_info_file()` writes the resolved descriptor. */
  function ProjectInfoPath(c: Controller): string {
    Paths.Join(PlatformDirPath(c, "build"), "project_info.json")
  }

  /**
   * The first part of `distutils_build()`: the descriptor is written into the
   * build directory before the lists are resolved, and the dist directory is
   * created only when they resolve. Nothing is run or removed.
   */
  method DistutilsPrepare(c: Controller, world: World, host: Machine) returns (r: Result<CommonOptions>)
    modifies host
    ensures r == DistutilsCommonOptions(c, world.pythonMajor)
    ensures host.files == old(host.files)[ProjectInfoPath(c) := world.dumps(c.info)]
    ensures r.Ok? ==> host.Exists(PlatformDirPath(c, "dist"))
    ensures r.Err? ==> host.trace == old(host.trace) + (if old(host.Exists(PlatformDirPath(c, "build"))) then [] else [MadeDirs(PlatformDirPath(c, "build"))]) + [Wrote(ProjectInfoPath(c), world.dumps(c.info))]
    ensures Commands(host.trace) == Commands(old(host.trace)) && Removals(host.trace) == Removals(old(host.trace))
  {
    var info := GenerateProjectInfoFile(c, world, host);
    r := DistutilsCommonOptions(c, world.pythonMajor);
    if r.Err? {
      return;
    }
    var dist := GetDistDir(c, host);
  }

  /**
   * The `setup(...)` call that ends `distutils_build()`: the generated
   * descriptor, then the app data files, then the platform's own data files;
   * the build returns 0 whatever the builder did.
   */
  method DistutilsSetup(c: Controller, world: World, platformData: seq<DataFile>, options: Value, host: Machine) returns (code: int)
    requires c.Valid()
    modifies host
    ensures code == 0
    ensures host.dirs == old(host.dirs) && host.files == old(host.files)
    ensures host.trace == old(host.trace) + [SetUp(SetupCommand(c), c.Name(), c.Version(), options, MainScriptPath(c),
      [DataFile(".", [ProjectInfoPath(c)])] + AppDataFilesOf(AssetDirs(c), world.walk, SourceDirRelative(c)) + platformData)]
    ensures Commands(host.trace) == Commands(old(host.trace)) && Removals(host.trace) == Removals(old(host.trace))
  {
    var app := GetAppDataFiles(c, world);
    var data := [DataFile(".", [ProjectInfoPath(c)])] + app + platformData;
    host.Setup(SetupCommand(c), c.Name(), c.Version(), options, MainScriptPath(c), data);
    code := 0;
  }

  // ---------------------------------------------------------------- PyInstaller

  /** The strings a `for x in value` loop would visit, for a list of strings or a string. */
  function IterStrings(v: Value): (r: Result<seq<string>>)
    ensures v.Arr? && IsStrList(v) ==> r == Ok(StrItems(v))
  {
    if v.Arr? then
      if IsStrList(v) then Ok(StrItems(v)) else Err(Unsupported("format() of a non-string item"))
    else if v.Str? then Ok(Chars(v.s))
    else if v.Obj? then Err(Unsupported("iteration over a mapping"))
    else Err(TypeError("object is not iterable"))
  }

  function Chars(s: string): (r: seq<string>)
    ensures |r| == |s| && forall i :: 0 <= i < |s| ==> r[i] == [s[i]]
  {
    if s == [] then [] else [[s[0]]] + Chars(s[1..])
  }

  /** `prefix + x` for every `x`, in order. */
  function Prefixed(prefix: string, xs: seq<string>): (r: seq<string>)
    ensures |r| == |xs| && forall i :: 0 <= i < |xs| ==> r[i] == prefix + xs[i]
  {
    if xs == [] then [] else [prefix + xs[0]] + Prefixed(prefix, xs[1..])
  }

  /** The `--add-data=` arguments of one data entry: every file, separators adapted, then the destination. */
  function AddDataArgs(e: DataFile, sep: string, pathSep: string): (r: seq<string>)
    ensures |r| == |e.files|
    ensures forall i :: 0 <= i < |r| ==> r[i] == "--add-data=" + Text.Replace(e.files[i], "/", sep) + pathSep + e.dest
    decreases |e.files|
  {
    if e.files == [] then []
    else ["--add-data=" + Text.Replace(e.files[0], "/", sep) + pathSep + e.dest] + AddDataArgs(DataFile(e.dest, e.files[1..]), sep, pathSep)
  }

  function AllAddDataArgs(data: seq<DataFile>, sep: string, pathSep: string): (r: seq<string>)
    ensures |r| == TotalFiles(data)
  {
    if data == [] then [] else AddDataArgs(data[0], sep, pathSep) + AllAddDataArgs(data[1..], sep, pathSep)
  }

  function TotalFiles(data: seq<DataFile>): nat {
    if data == [] then 0 else |data[0].files| + TotalFiles(data[1..])
  }

  /**
   * The options of the PyInstaller argument list: `--icon=` when there is
   * an icon, a `--hidden-import=` per hidden module, an `--exclude-module=`
   * per excluded one, and `--additional-hooks-dir=` when there is a hooks
   * directory, in that order and nothing else.
   */
  function PyInstallerOptions(icon: Option<string>, hidden: seq<string>, excludes: seq<string>, hooks: Option<string>): (r: seq<string>)
    ensures var i := if icon.Some? then 1 else 0;
      |r| == i + |hidden| + |excludes| + (if hooks.Some? then 1 else 0)
    ensures icon.Some? ==> r[0] == "--icon=" + icon.value
    ensures var i := if icon.Some? then 1 else 0;
      && r[i..i + |hidden|] == Prefixed("--hidden-import=", hidden)
      && r[i + |hidden|..i + |hidden| + |excludes|] == Prefixed("--exclude-module=", excludes)
      && (hooks.Some? ==> r[i + |hidden| + |excludes|] == "--additional-hooks-dir=" + hooks.value)
  {
    var iconArg := if icon.Some? then ["--icon=" + icon.value] else [];
    var imports := Prefixed("--hidden-import=", hidden);
    var omitted := Prefixed("--exclude-module=", excludes);
    var hooksArg := if hooks.Some? then ["--additional-hooks-dir=" + hooks.value] else [];
    var front := iconArg + imports;
    var body := front + omitted;
    assert (body + hooksArg)[|iconArg|..|front|] == body[|iconArg|..|front|] == front[|iconArg|..] == imports;
    assert (body + hooksArg)[|front|..|body|] == body[|front|..] == omitted;
    body + hooksArg
  }

  /**
   * The PyInstaller argument list for the given resolved parts: the fixed
   * start, the options, the `--add-data=` arguments, the main script and
   * the import-hooks script when there is one.
   */
  function PyInstallerArgs(name: string, dist: string, icon: Option<string>, hidden: seq<string>,
                           excludes: seq<string>, hooks: Option<string>, addData: seq<string>,
                           main: string, importHooks: Option<string>): (r: seq<string>)
    ensures |r| >= 7 + |addData|
    ensures r[..6] == ["-D", "-n", name, "--distpath", dist, "--noconsole"]
    ensures var n := |PyInstallerOptions(icon, hidden, excludes, hooks)|;
      |r| == 6 + n + |addData| + (if importHooks.Some? then 2 else 1) && r[6..6 + n] == PyInstallerOptions(icon, hidden, excludes, hooks)
    ensures importHooks.None? ==> r[|r| - 1] == main && r[|r| - 1 - |addData|..|r| - 1] == addData
    ensures importHooks.Some? ==> r[|r| - 2..] == [main, importHooks.value] && r[|r| - 2 - |addData|..|r| - 2] == addData
  {
    var fixed := ["-D", "-n", name, "--distpath", dist, "--noconsole"];
    var head := fixed + PyInstallerOptions(icon, hidden, excludes, hooks);
    var tail := if importHooks.Some? then [main, importHooks.value] else [main];
    ThreeParts(head, addData, tail);
    assert head[..|fixed|] == fixed && head[|fixed|..] == PyInstallerOptions(icon, hidden, excludes, hooks);
    head + (addData + tail)
  }

  lemma ThreeParts<T>(a: seq<T>, b: seq<T>, c: seq<T>)
    ensures (a + (b + c))[..|a|] == a
    ensures (a + (b + c))[|a|..|a| + |b|] == b
    ensures (a + (b + c))[|a| + |b|..] == c
  {
  }

  /** The strings of `info[key]` when the descriptor has the key. */
  function RawStrings(c: Controller, key: string): Result<seq<string>> {
    if key in c.info then IterStrings(c.info[key]) else Ok([])
  }

  /** The data entries `pyinstaller_build` passes: the descriptor file, then the app's data files. */
  function PyInstallerData(c: Controller, world: World): (r: seq<DataFile>)
    requires c.Valid()
    ensures |r| == 1 + |AppDataFilesOf(AssetDirs(c), world.walk, SourceDirRelative(c))|
    ensures r[0] == DataFile(".", [Paths.Join(PlatformDirPath(c, "build"), "project_info.json")])
  {
    [DataFile(".", [Paths.Join(PlatformDirPath(c, "build"), "project_info.json")])]
      + AppDataFilesOf(AssetDirs(c), world.walk, SourceDirRelative(c))
  }

  /** The dist directory of `pyinstaller_build`, made if missing and then removed, and made again. */
  method ClearDistDir(c: Controller, host: Machine) returns (dist: string)
    modifies host
    ensures dist == PlatformDirPath(c, "dist")
    ensures Removals(host.trace) == Removals(old(host.trace)) + [dist]
    ensures Commands(host.trace) == Commands(old(host.trace))
  {
    dist := GetDistDir(c, host);
    if host.Exists(dist) {
      host.RemoveTree(dist);
    }
    dist := GetDistDir(c, host);
  }

  /**
   * `pyinstaller_build()`: the dist directory is removed (always: the call
   * that asks whether it exists makes it first), the
   * argument list is assembled from the resolved parts, the data entries
   * and the import-hooks script when it exists, and PyInstaller is invoked,
   * recorded as the one command "PyInstaller"; a failure starts no command.
   */
  method PyInstallerBuild(c: Controller, world: World, host: Machine) returns (r: Result<seq<string>>)
    requires c.Valid()
    modifies host
    ensures Removals(host.trace) == Removals(old(host.trace)) + [PlatformDirPath(c, "dist")]
    ensures r.Ok? <==> PyInstallerParts(c, world.cwd).Ok?
    ensures r.Ok? ==> Commands(host.trace) == Commands(old(host.trace)) + [["PyInstaller"] + r.value]
    ensures r.Ok? ==>
      var hooks := ImportHooksPath(c);
      var (icon, hidden, excludes) := PyInstallerParts(c, world.cwd).value;
      r.value == PyInstallerArgs(c.Name(), PlatformDirPath(c, "dist"), icon, hidden, excludes, world.cefHooks,
        AllAddDataArgs(PyInstallerData(c, world), Sep(world), PathSep(world)), MainScriptPath(c),
        if hooks.Some? && host.Exists(hooks.value) then hooks else None)
    ensures r.Err? ==> Commands(host.trace) == Commands(old(host.trace))
  {
    var dist := ClearDistDir(c, host);
    var parts := PyInstallerParts(c, world.cwd);
    if parts.Err? {
      return Err(parts.error);
    }
    var (icon, hidden, excludes) := parts.value;
    var args := RunPyInstaller(c, world, dist, icon, hidden, excludes, host);
    r := Ok(args);
  }

  /** A list of entries is its first entry followed by the rest. */
  lemma HeadAndRest(data: seq<DataFile>, first: DataFile, rest: seq<DataFile>)
    requires |data| >= 1 && data[0] == first && data[1..] == rest
    ensures data == [first] + rest
  {
    assert data == [data[0]] + data[1..];
  }

  /** The data files written, the argument list assembled and PyInstaller invoked, for resolved parts. */
  method RunPyInstaller(c: Controller, world: World, dist: string, icon: Option<string>, hidden: seq<string>,
                        excludes: seq<string>, host: Machine) returns (args: seq<string>)
    requires c.Valid()
    modifies host
    ensures var hooks := ImportHooksPath(c);
      args == PyInstallerArgs(c.Name(), dist, icon, hidden, excludes, world.cefHooks,
        AllAddDataArgs(PyInstallerData(c, world), Sep(world), PathSep(world)), MainScriptPath(c),
        if hooks.Some? && host.Exists(hooks.value) then hooks else None)
    ensures Commands(host.trace) == Commands(old(host.trace)) + [["PyInstaller"] + args]
    ensures Removals(host.trace) == Removals(old(host.trace))
  {
    var data := GetDataFiles(c, world, host);
    HeadAndRest(data, DataFile(".", [Paths.Join(PlatformDirPath(c, "build"), "project_info.json")]),
                AppDataFilesOf(AssetDirs(c), world.walk, SourceDirRelative(c)));
    var addData := AllAddDataArgs(data, Sep(world), PathSep(world));
    var hooks := ImportHooksPath(c);
    var importHooks: Option<string> := None;
    if hooks.Some? && host.Exists(hooks.value) {
      importHooks := hooks;
    }
    args := PyInstallerArgs(c.Name(), dist, icon, hidden, excludes, world.cefHooks, addData, MainScriptPath(c), importHooks);
    ghost var files, dirs := host.files, host.dirs;
    var _ := host.Run(["PyInstaller"] + args);
    assert host.files == files && host.dirs == dirs;
  }

  /**
   * The icon (made absolute) and the hidden-import and exclude-module names
   * of `pyinstaller_build`: the icon comes from the platform lookup and is
   * used only when truthy and not a mapping; the lists are iterated raw.
   */
  function PyInstallerParts(c: Controller, cwd: string): (r: Result<(Option<string>, seq<string>, seq<string>)>)
    ensures r.Ok? ==> ValueForPlatform(c.shared, "icons", c.Platform(), Null).Ok?
    ensures r.Ok? && r.value.0.Some? ==>
      var v := ValueForPlatform(c.shared, "icons", c.Platform(), Null).value;
      v.Str? && v.s != "" && r.value.0.value == Paths.Abspath(cwd, v.s)
    ensures r.Ok? && r.value.0.None? ==>
      var v := ValueForPlatform(c.shared, "icons", c.Platform(), Null).value;
      !Truthy(v) || v.Obj?
    ensures r.Ok? ==>
      && RawStrings(c, "packages").Ok? && RawStrings(c, "includes").Ok? && RawStrings(c, "excludes").Ok?
      && r.value.1 == RawStrings(c, "packages").value + RawStrings(c, "includes").value
      && r.value.2 == RawStrings(c, "excludes").value
  {
    var iconValue :- ValueForPlatform(c.shared, "icons", c.Platform(), Null);
    var icon :- if Truthy(iconValue) && !iconValue.Obj? then
                  if iconValue.Str? then Ok(Some(Paths.Abspath(cwd, iconValue.s)))
                  else Err(TypeError("expected str, bytes or os.PathLike object"))
                else Ok(None);
    var packages :- RawStrings(c, "packages");
    var includes :- RawStrings(c, "includes");
    var excludes :- RawStrings(c, "excludes");
    Ok((icon, packages + includes, excludes))
  }
}

/**
 * The machine the build tool runs on, reduced to what the model needs: the
 * set of existing directories, the files and their text, and a trace of what
 * the tool did (external commands, removals, copies, writes). External
 * programs are not run; their exit status comes from `status`.
 */
module Host {
  import opened Text
  import Json

  /** One `(dest, [files])` entry of a `data_files` list. */
  datatype DataFile = DataFile(dest: string, files: seq<string>)

  /** One observable effect of the build tool, in the order it happened. */
  datatype Event =
    | Ran(argv: seq<string>)
    | MadeDirs(path: string)
    | RemovedTree(path: string)
    | RemovedFile(path: string)
    | CopiedFile(src: string, dst: string)
    | CopiedTree(src: string, dst: string)
    | Moved(src: string, dst: string)
    | Wrote(path: string, text: string)
    /** A staging step whose implementation is not part of this model, with the paths it was told to ignore. */
    | Staged(step: string, dst: string, ignore: seq<string>)
    /**
     * An Xcode project file saved by the `pbxproj` library after the listed
     * `(operation, argument)` edits; the text it writes is not modelled.
     */
    | ProjectSaved(path: string, edits: seq<(string, Json.Value)>)
    /** A distutils `setup()` call for the builder `command` (`py2app` or `py2exe`). */
    | SetUp(command: string, name: string, version: string, options: Json.Value, script: string, dataFiles: seq<DataFile>)

  /** `p` is `root` itself or lies below it. */
  predicate Under(p: string, root: string) {
    p == root || StartsWith(p, root + "/")
  }

  /** The external commands started in `t`, in order. */
  function Commands(t: seq<Event>): seq<seq<string>> {
    if t == [] then []
    else Commands(t[..|t| - 1]) + (if t[|t| - 1].Ran? then [t[|t| - 1].argv] else [])
  }

  /** The paths removed in `t` (trees and single files), in order. */
  function Removals(t: seq<Event>): seq<string> {
    if t == [] then []
    else
      var e := t[|t| - 1];
      Removals(t[..|t| - 1]) + (if e.RemovedTree? || e.RemovedFile? then [e.path] else [])
  }

  lemma Snoc(t: seq<Event>, e: Event)
    ensures Commands(t + [e]) == Commands(t) + (if e.Ran? then [e.argv] else [])
    ensures Removals(t + [e]) == Removals(t) + (if e.RemovedTree? || e.RemovedFile? then [e.path] else [])
  {
    assert (t + [e])[..|t|] == t;
  }

  /** The files below `src`, each moved to the same place below `dst`. */
  function Rebased(files: map<string, string>, src: string, dst: string): map<string, string> {
    map q | q in (set f | f in files && Under(f, src) :: dst + f[|src|..])
              && |q| >= |dst| && src + q[|dst|..] in files
      :: files[src + q[|dst|..]]
  }

  /** A file below `src` reappears below `dst` with the same text. */
  lemma RebasedHas(files: map<string, string>, src: string, dst: string, f: string)
    requires f in files && Under(f, src)
    ensures dst + f[|src|..] in Rebased(files, src, dst)
    ensures Rebased(files, src, dst)[dst + f[|src|..]] == files[f]
  {
    var q := dst + f[|src|..];
    assert q[|dst|..] == f[|src|..];
    assert f[..|src|] == src;
    assert src + q[|dst|..] == f;
  }

  /** The files that `keep` selects. */
  function Only(files: map<string, string>, keep: string -> bool): (r: map<string, string>)
    ensures forall f :: f in r <==> f in files && keep(f)
  {
    map f | f in files && keep(f) :: files[f]
  }

  class Machine {
    var dirs: set<string>
    var files: map<string, string>
    var trace: seq<Event>
    /** The exit status an external command returns. */
    const status: seq<string> -> int

    constructor (dirs0: set<string>, files0: map<string, string>, status0: seq<string> -> int)
      ensures dirs == dirs0 && files == files0 && trace == [] && status == status0
    {
      dirs := dirs0;
      files := files0;
      trace := [];
      status := status0;
    }

    /** `os.path.exists(p)`. */
    predicate Exists(p: string)
      reads this
    {
      p in dirs || p in files
    }

    /** `os.path.isfile(p)`. */
    predicate IsFile(p: string)
      reads this
    {
      p in files
    }

    /** `os.makedirs(p)`. */
    method MakeDirs(p: string)
      modifies this
      ensures dirs == old(dirs) + {p} && files == old(files)
      ensures trace == old(trace) + [MadeDirs(p)]
      ensures Commands(trace) == Commands(old(trace)) && Removals(trace) == Removals(old(trace))
    {
      dirs := dirs + {p};
      Snoc(trace, MadeDirs(p));
      trace := trace + [MadeDirs(p)];
    }

    /** `shutil.rmtree(p)`: `p` and everything below it disappear. */
    method RemoveTree(p: string)
      modifies this
      ensures dirs == set d | d in old(dirs) && !Under(d, p)
      ensures files == map f | f in old(files) && !Under(f, p) :: old(files)[f]
      ensures trace == old(trace) + [RemovedTree(p)]
      ensures Commands(trace) == Commands(old(trace)) && Removals(trace) == Removals(old(trace)) + [p]
    {
      dirs := set d | d in dirs && !Under(d, p);
      files := map f | f in files && !Under(f, p) :: files[f];
      Snoc(trace, RemovedTree(p));
      trace := trace + [RemovedTree(p)];
    }

    /** `os.remove(p)`. */
    method RemoveFile(p: string)
      modifies this
      ensures dirs == old(dirs) && files == old(files) - {p}
      ensures trace == old(trace) + [RemovedFile(p)]
      ensures Commands(trace) == Commands(old(trace)) && Removals(trace) == Removals(old(trace)) + [p]
    {
      files := files - {p};
      Snoc(trace, RemovedFile(p));
      trace := trace + [RemovedFile(p)];
    }

    /** `shutil.copy2(src, dst)` of an existing file. */
    method CopyFile(src: string, dst: string)
      requires src in files
      modifies this
      ensures dirs == old(dirs) && files == old(files)[dst := old(files)[src]]
      ensures trace == old(trace) + [CopiedFile(src, dst)]
      ensures Commands(trace) == Commands(old(trace)) && Removals(trace) == Removals(old(trace))
    {
      files := files[dst := files[src]];
      Snoc(trace, CopiedFile(src, dst));
      trace := trace + [CopiedFile(src, dst)];
    }

    /**
     * `shutil.copytree(src, dst)`: the destination directory comes into
     * being, holding a copy of every file below `src` at the same place
     * below `dst` (the subdirectories themselves are not tracked).
     */
    method CopyTree(src: string, dst: string)
      modifies this
      ensures dirs == old(dirs) + {dst} && files == old(files) + Rebased(old(files), src, dst)
      ensures trace == old(trace) + [CopiedTree(src, dst)]
      ensures Commands(trace) == Commands(old(trace)) && Removals(trace) == Removals(old(trace))
    {
      dirs := dirs + {dst};
      files := files + Rebased(files, src, dst);
      Snoc(trace, CopiedTree(src, dst));
      trace := trace + [CopiedTree(src, dst)];
    }

    /**
     * `shutil.copytree(src, dst, ignore=...)`: as `CopyTree`, but only the
     * files that `keep` selects are copied.
     */
    method CopyTreeSome(src: string, dst: string, keep: string -> bool)
      modifies this
      ensures dirs == old(dirs) + {dst} && files == old(files) + Rebased(Only(old(files), keep), src, dst)
      ensures trace == old(trace) + [CopiedTree(src, dst)]
      ensures Commands(trace) == Commands(old(trace)) && Removals(trace) == Removals(old(trace))
    {
      dirs := dirs + {dst};
      files := files + Rebased(Only(files, keep), src, dst);
      Snoc(trace, CopiedTree(src, dst));
      trace := trace + [CopiedTree(src, dst)];
    }

    /** `os.rename(src, dst)` of an existing file. */
    method Move(src: string, dst: string)
      requires src in files
      modifies this
      ensures dirs == old(dirs) && files == (old(files) - {src})[dst := old(files)[src]]
      ensures trace == old(trace) + [Moved(src, dst)]
      ensures Commands(trace) == Commands(old(trace)) && Removals(trace) == Removals(old(trace))
    {
      files := (files - {src})[dst := files[src]];
      Snoc(trace, Moved(src, dst));
      trace := trace + [Moved(src, dst)];
    }

    /** `open(p, 'w').write(text)`. */
    method WriteFile(p: string, text: string)
      modifies this
      ensures dirs == old(dirs) && files == old(files)[p := text]
      ensures trace == old(trace) + [Wrote(p, text)]
      ensures Commands(trace) == Commands(old(trace)) && Removals(trace) == Removals(old(trace))
    {
      files := files[p := text];
      Snoc(trace, Wrote(p, text));
      trace := trace + [Wrote(p, text)];
    }

    /** A staging step (copying sources, data files or modules into `dst`). */
    method Stage(step: string, dst: string, ignore: seq<string>)
      modifies this
      ensures dirs == old(dirs) + {dst} && files == old(files)
      ensures trace == old(trace) + [Staged(step, dst, ignore)]
      ensures Commands(trace) == Commands(old(trace)) && Removals(trace) == Removals(old(trace))
    {
      dirs := dirs + {dst};
      Snoc(trace, Staged(step, dst, ignore));
      trace := trace + [Staged(step, dst, ignore)];
    }

    /** `project.save()` of an Xcode project loaded from `p` and edited by `edits`. */
    method SaveProject(p: string, edits: seq<(string, Json.Value)>)
      modifies this
      ensures dirs == old(dirs) && files == old(files)
      ensures trace == old(trace) + [ProjectSaved(p, edits)]
      ensures Commands(trace) == Commands(old(trace)) && Removals(trace) == Removals(old(trace))
    {
      Snoc(trace, ProjectSaved(p, edits));
      trace := trace + [ProjectSaved(p, edits)];
    }

    /** distutils `setup(...)`: the bundle is produced by code outside the model; only the call is recorded. */
    method Setup(command: string, name: string, version: string, options: Json.Value, script: string, dataFiles: seq<DataFile>)
      modifies this
      ensures dirs == old(dirs) && files == old(files)
      ensures trace == old(trace) + [SetUp(command, name, version, options, script, dataFiles)]
      ensures Commands(trace) == Commands(old(trace)) && Removals(trace) == Removals(old(trace))
    {
      Snoc(trace, SetUp(command, name, version, options, script, dataFiles));
      trace := trace + [SetUp(command, name, version, options, script, dataFiles)];
    }

    /** `subprocess.call(argv)`: the command is recorded and its status returned. */
    method Run(argv: seq<string>) returns (code: int)
      modifies this
      ensures dirs == old(dirs) && files == old(files)
      ensures trace == old(trace) + [Ran(argv)]
      ensures code == status(argv)
      ensures Commands(trace) == Commands(old(trace)) + [argv] && Removals(trace) == Removals(old(trace))
    {
      Snoc(trace, Ran(argv));
      trace := trace + [Ran(argv)];
      code := status(argv);
    }
  }
}

/**
 * The application's persistent cache: a dictionary loaded once from a
 * pickle file and handed out as the same object on every later request,
 * always holding a "characters" entry when first created. The file system
 * and `pickle` are represented by whether the file exists and what it
 * unpickles to; saving appends to a trace of what was written where.
 */
module Cache {
  import opened Wrappers
  import opened Json
  import Paths

  const BaseFilename: string := "app_data"
  const CharactersKey: string := "characters"

  /** Test mode: "--test" on the command line, or `PEW_RUN_TESTS=1` in the environment. */
  predicate TestMode(argv: seq<string>, env: map<string, string>) {
    "--test" in argv || ("PEW_RUN_TESTS" in env && env["PEW_RUN_TESTS"] == "1")
  }

  /** The module's initial `cache_filename`: "app_data", with "_test" in test mode. */
  function InitialFilename(testMode: bool): (r: string)
    ensures '/' !in r && |r| > 0
    ensures testMode <==> r != BaseFilename
  {
    if testMode then BaseFilename + "_test" else BaseFilename
  }

  /** `set_cache_dir`'s new file name: the current file's name placed in `dir`. */
  function InDir(dir: string, filename: string): (r: string) {
    Paths.Join(dir, Paths.Basename(filename))
  }

  /** Moving the cache into a directory keeps its file name, so doing it twice is doing it once. */
  lemma InDirKeepsName(dir: string, filename: string)
    requires Paths.Basename(filename) != ""
    ensures Paths.Basename(InDir(dir, filename)) == Paths.Basename(filename)
    ensures InDir(dir, InDir(dir, filename)) == InDir(dir, filename)
  {
    Paths.BasenameOfJoin(dir, Paths.Basename(filename));
  }

  /**
   * The dictionary a first `get_cache()` creates: what the file unpickles
   * to (`{}` when there is no file or it holds `None`), with an empty
   * "characters" mapping added when missing.
   */
  function Initial(fileExists: bool, unpickled: Option<map<string, Value>>): (r: map<string, Value>)
    ensures CharactersKey in r
    ensures !fileExists || unpickled.None? ==> r == map[CharactersKey := Obj(map[])]
    ensures fileExists && unpickled.Some? ==>
      r.Keys == unpickled.value.Keys + {CharactersKey} &&
      forall k :: k in unpickled.value ==> r[k] == unpickled.value[k]
  {
    var loaded := if fileExists && unpickled.Some? then unpickled.value else map[];
    if CharactersKey in loaded then loaded else loaded[CharactersKey := Obj(map[])]
  }

  /** A Python dict shared by reference. */
  class Dict {
    var entries: map<string, Value>

    constructor (m: map<string, Value>)
      ensures entries == m
    {
      entries := m;
    }
  }

  /** The module globals `cache_filename` and `cache`, and the pickle files written. */
  class Store {
    var filename: string
    var cache: Dict?
    var saved: seq<(string, Option<map<string, Value>>)>

    /** The module as imported: no cache yet. */
    constructor (testMode: bool)
      ensures filename == InitialFilename(testMode) && cache == null && saved == []
    {
      filename := InitialFilename(testMode);
      cache := null;
      saved := [];
    }

    /** `set_cache_dir(dir)`. */
    method SetCacheDir(dir: string)
      modifies this
      ensures filename == InDir(dir, old(filename))
      ensures cache == old(cache) && saved == old(saved)
    {
      filename := Paths.Join(dir, Paths.Basename(filename));
    }

    /**
     * `get_cache()`: the first call creates the dictionary; every later call
     * returns that same object, untouched.
     */
    method GetCache(fileExists: bool, unpickled: Option<map<string, Value>>) returns (d: Dict)
      modifies this
      ensures cache == d && filename == old(filename) && saved == old(saved)
      ensures old(cache) != null ==> d == old(cache) && d.entries == old(d.entries)
      ensures old(cache) == null ==> fresh(d) && d.entries == Initial(fileExists, unpickled)
    {
      if cache == null {
        var m := if fileExists && unpickled.Some? then unpickled.value else map[];
        if CharactersKey !in m {
          m := m[CharactersKey := Obj(map[])];
        }
        cache := new Dict(m);
      }
      d := cache;
    }

    /** `save_cache()`: pickles the current cache (`None` before any) to the current file. */
    method SaveCache()
      modifies this
      ensures saved == old(saved) + [(filename, if cache == null then None else Some(cache.entries))]
      ensures filename == old(filename) && cache == old(cache)
    {
      saved := saved + [(filename, if cache == null then None else Some(cache.entries))];
    }
  }
}

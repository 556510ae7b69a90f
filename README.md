# pyeverywhere, modelled in Dafny

pyeverywhere (`pew`) builds one Python web-view application for Android,
iOS, macOS, Windows and Linux from a single `project_info.json`. This
project models the parts of it that decide *what* happens: how the
project description is loaded and looked up, how each platform's build
controller lays out directories, stages files and assembles the command
lines it hands to external tools, how the command-line tool and the older
single-file tool drive those builds, how dependencies are fetched and
copied, and how the Python side and the page side of the web bridge encode
and decode the messages they exchange. The small stateful stores beside
them are modelled as well: the menu containers, the memoised cache and
the REST client's request construction and answer handling.

## How the model is organised

One Dafny module per source file, plus a few shared foundations:

| module | file | models |
|---|---|---|
| `Wrappers` | `wrappers.dfy` | `Option`, `Result` and the Python exceptions that end an operation (`KeyError`, `TypeError`, `ValueError`, `SystemExit`, ...) |
| `Json` | `json.dfy` | JSON-like values and Python's `in`, `[]`, `+`, `str()` and iteration on them |
| `Text`, `Paths`, `Sets` | `text.dfy`, `paths.dfy`, `sets.dfy` | string splitting and joining, `os.path` (join, basename, splitext, normpath, abspath), ordered listing of sets |
| `Host` | `host.dfy` | the machine a build runs on: a class with the existing files and directories and a trace of the commands run, the trees removed and the files copied |
| `Utils`, `Config` | `utils.dfy`, `config.dfy` | `src/pew/controllers/utils.py`, `src/pew/config.py` |
| `Base`, `Android`, `Ios`, `Osx`, `Win` | `base.dfy` ... `win.dfy` | `src/pew/controllers/*.py` |
| `Cli`, `Legacy` | `cli.dfy`, `legacy.dfy` | `src/pew/cli/tool.py`, `src/pew/tool.py` |
| `Pewtools` | `pewtools.dfy` | `src/pewtools/__init__.py` |
| `Bridge`, `Ui`, `Menus`, `Cache`, `Rest` | `bridge.dfy`, `ui.dfy`, `menus.dfy`, `cache.dfy`, `rest.dfy` | `src/pew/__init__.py`, `src/pew/ui.py`, `src/pew/menus.py`, `src/pew/cache.py`, `src/pew/rest_client.py` |
| `JsBridge` | `jsbridge.dfy` | `src/templates/default/src/files/web/lib/nativebridge.js` |
| `MobilePy` | `mobilepy.dfy` | `src/mobilepy/ui/__init__.py` |

Conventions:

- Code that changes things step by step is modelled by methods on
  classes. This covers the build controllers, the tools' `build` steps,
  the message handler, the web view, the menus, the cache and the REST
  client. Each method's postcondition ties the new state to a
  specification function of the old state. The properties the source
  promises are then proved about those functions.
- Effects on the file system are recorded on a `Host.Machine`. This
  covers `makedirs`, `rmtree`, `copytree`, `copy`, `move`, writing a file,
  `subprocess` calls and distutils `setup()`. What the outside world
  answers is an input: exit codes come from a function parameter, and
  directory walks and `glob` results are given as sequences. So "fails
  before any external command" is a statement about the trace.
- Python's exceptions are `Err` results, and a call to `sys.exit()` is
  `Err(SystemExit(...))`. Error branches are modelled as branches. The
  exceptions are listed under "## Left out": a project descriptor without
  string `name`, `version` and `identifier` entries (`Base.Described`),
  and a `copytree` that cannot fail (`Host.Machine.CopyTree`).
- Library code whose behaviour is not part of this repository is a
  parameter. This covers `urlparse`, `unquote`, `json.loads`,
  `JSON.parse`, base64, md5, the downloader, `pickle` and `os.walk`.
- Where the source is Python 2 code (`basestring`, `httplib`,
  `urlparse`), strings and bytes are one type, as in Python 2.
- `get_value_for_platform` neither merges a `"common"` entry nor returns
  the raw mapping when neither the platform nor `"default"` is present.
  Callers concatenate `"common"` themselves (src/pew/cli/tool.py:254-255),
  and the lookup returns the caller's default
  (src/pew/controllers/utils.py:30-36).

## Model

| member | source | states |
|---|---|---|
| Utils.ValueForPlatform | src/pew/controllers/utils.py:28-36 | an absent key gives the caller's default; for a mapping the platform entry wins over "default", which wins over the caller's default |
| Utils.ValueForConfig | src/pew/controllers/utils.py:39-46 | an absent key gives the default; `configs[config]` wins when present, else "default", else the caller's default |
| Utils.PlatformLookupNeverRaw | src/pew/controllers/utils.py:30-36 | a successful lookup is the caller's default or an entry of the key's mapping, never the mapping or a raw list/string |
| Utils.PlatformLookupOnList | src/pew/controllers/utils.py:31-34 | a list under the key gives the default unless it holds the platform name or "default", then `TypeError` |
| Utils.PlatformLookupOnString | src/pew/controllers/utils.py:31-34 | a string under the key is searched as text; an occurrence of the platform name or "default" makes indexing fail with `TypeError` |
| Utils.Store.constructor | src/pew/controllers/utils.py:6 | the store starts empty |
| Utils.Store.SetProjectInfo | src/pew/controllers/utils.py:23-25 | after `set_project_info(m)` the store is exactly `m` |
| Utils.Store.GetValueForPlatform | src/pew/controllers/utils.py:28-36 | a lookup reads the current store and changes nothing |
| Utils.Store.GetValueForConfig | src/pew/controllers/utils.py:39-46 | a configuration lookup reads the current store and changes nothing |
| Config.WordRun | src/pew/config.py:18 | the length of the longest run of word characters at the start of the text |
| Config.ReferenceAt | src/pew/config.py:18 | a `$name` or `${name}` reference found at the start of the text covers a `$`-led prefix and names the variable inside it |
| Config.ExpandWithoutDollar | src/pew/config.py:18 | expanding text that holds no `$` leaves it unchanged |
| Config.ExpandLeavesNoDollar | src/pew/config.py:18-22 | with `$`-free variable values, no `$` survives expansion exactly when every reference names a set variable |
| Config.ExpandWordReference | src/pew/config.py:18 | a `$name` reference becomes the variable's value, or stays as written when it is unset |
| Config.ExpandBraceReference | src/pew/config.py:18 | a `${name}` reference becomes the variable's value, or stays as written when it is unset |
| Config.ExpandTwoReferences | src/pew/config.py:18 | a text with one `$name` and one `${name}` reference expands each independently and keeps the text around them |
| Config.ExpandPrefix | src/pew/config.py:18 | expansion passes over a `$`-free prefix unchanged |
| Config.SampleExpansion | tests/test_project_config.py:19-33 | the sample descriptor expands to its text with each variable's value, or the reference kept while it is unset |
| Config.SampleNeedsBothVariables | tests/test_project_config.py:19-33 | loading the sample fails with neither or only `APP_NAME` set, and yields both values once both are set |
| Config.Loader.constructor | src/pew/config.py:10 | nothing is loaded yet: the stored descriptor is empty |
| Config.Loader.LoadProjectInfo | src/pew/config.py:13-25 | an unresolved `$` after expansion raises `ValueError` and stores nothing; otherwise the decoded text is stored and returned |
| Config.Loader.GetProjectInfo | src/pew/config.py:28-30 | the stored descriptor when it is non-empty; the assertion fails while it is still empty |
| Config.Size | src/pew/config.py:29 | `len` succeeds exactly on strings, lists and dicts |
| Base.ConfigValue | src/pew/controllers/base.py:129-130 | the configuration name is a string or `None`, a valid lookup key |
| Base.PlatformDirPath | src/pew/controllers/base.py:128-130 | the platform directory is `root/kind/platform`, with the configuration appended only when one is given |
| Base.GetPlatformDir | src/pew/controllers/base.py:120-134 | the directory exists afterwards; it is created only when missing, so a second call changes nothing; no command runs and nothing is removed |
| Base.GetBuildDir | src/pew/controllers/base.py:98-107 | the build directory is the platform directory of kind "build" and exists afterwards |
| Base.GetDistDir | src/pew/controllers/base.py:87-96 | the dist directory is the platform directory of kind "dist" and exists afterwards |
| Base.GetPackageDir | src/pew/controllers/base.py:109-118 | the package directory is the platform directory of kind "package" and exists afterwards |
| Base.PlatformDirSpelling | src/pew/controllers/base.py:128 | below a plain project root, the kind is the path segment right after the root |
| Base.PlatformDirShape | src/pew/controllers/base.py:128-130 | the platform directory spells `root/kind/` followed by the platform and the optional configuration |
| Base.PlatformDirsDistinct | src/pew/controllers/base.py:96-118 | the build, dist and package directories of one controller are different paths |
| Base.AppPathParts | src/pew/controllers/base.py:29-40 | below a plain root, platform and configuration, the app path's last component is the app name plus extension and its directory is the dist platform directory |
| Base.GetAppPath | src/pew/controllers/base.py:29-40 | returns the app path and creates only the dist directory on the way |
| Base.PackageStem | src/pew/controllers/osx.py:80-81 | the package stem `name-version` has no space and no upper-case ASCII letter |
| Base.SourceDirRelative | src/pew/controllers/base.py:50-59 | `source_dir` from the descriptor when given, else "src" |
| Base.MainScriptPath | src/pew/controllers/base.py:69-74 | the main script is a file named `main.py` |
| Base.ImportHooksPath | src/pew/controllers/base.py:76-85 | a hooks script exactly when `import_hooks_file` is given, placed in the source directory |
| Base.AssetDirs | src/pew/controllers/base.py:137-145 | the descriptor's `asset_dirs` when present, else the single `<source>/files` directory |
| Base.VisibleEmpty | src/pew/controllers/base.py:149-153 | a walked directory contributes no file exactly when every file name in it starts with '.' |
| Base.VisibleFrom | src/pew/controllers/base.py:150-152 | every contributed path joins the walked directory with one of its visible names |
| Base.DirEntry | src/pew/controllers/base.py:149-154 | a directory yields an entry exactly when it has a visible file; the entry's files are its visible paths and its destination drops `<source>/` |
| Base.WalkEntries | src/pew/controllers/base.py:148-154 | a walk yields at most one entry per directory and no entry is empty |
| Base.AppDataFilesOf | src/pew/controllers/base.py:147-156 | no data entry has an empty file list |
| Base.HiddenOnlyDirsSkipped | src/pew/controllers/base.py:153 | a directory holding only hidden files leaves the entries unchanged wherever it occurs in the walk |
| Base.CollectVisible | src/pew/controllers/base.py:149-152 | the inner loop collects exactly the visible paths of one directory |
| Base.CollectWalk | src/pew/controllers/base.py:148-154 | the middle loop collects exactly the entries of one walk |
| Base.GetAppDataFiles | src/pew/controllers/base.py:136-156 | the data files are the walk entries of every asset directory in order |
| Base.GenerateProjectInfoFile | src/pew/controllers/base.py:219-226 | the resolved descriptor is written to `project_info.json` in the build directory, the only file that changes |
| Base.GetDataFiles | src/pew/controllers/base.py:228-233 | the generated descriptor comes first, as `('.', [path])`, followed by the app data files |
| Base.RunCmd | src/pew/controllers/base.py:356-368 | the command runs once, nothing else changes, and its exit status is returned |
| Base.Glob | src/pew/cli/tool.py:477-478 | the listed paths are exactly the visible direct entries of the directory with the suffix, each once |
| Base.ResolvedList | src/pew/controllers/base.py:249-256 | an absent key contributes nothing; a present one contributes the list the platform lookup resolves |
| Base.DistutilsCommonOptions | src/pew/controllers/base.py:244-287 | the resolved `packages` are passed unchanged, and the resolved `includes` and `excludes` come first and unchanged; then `tkinter` is always excluded last, Python 2 adds `urllib` and `SimpleHTTPServer` to the includes, and Python 3 excludes `six.moves.urllib.parse`; the result fails exactly when a list does not, with the error of the first list that fails |
| Base.SetupCommand | src/pew/controllers/base.py:236-242 | `py2app` exactly on macOS, `py2exe` otherwise |
| Base.DistutilsPrepare | src/pew/controllers/base.py:235-258 | the descriptor is written first; the dist directory exists when the lists resolve; no command runs |
| Base.DistutilsSetup | src/pew/controllers/base.py:258-297 | records one `setup` call with the descriptor, the app data files and then the platform's files; returns 0 |
| Base.IterStrings | src/pew/controllers/base.py:313-322 | iterating a list of strings visits its strings in order |
| Base.AddDataArgs | src/pew/controllers/base.py:337-342 | one `--add-data=` argument per file, the separators adapted and the destination after the path separator |
| Base.AllAddDataArgs | src/pew/controllers/base.py:336-342 | one `--add-data=` argument per data file in all |
| Base.PyInstallerOptions | src/pew/controllers/base.py:308-334 | `--icon=` exactly when there is an icon, then `--hidden-import=` for each hidden module in order, `--exclude-module=` for each excluded one, and `--additional-hooks-dir=` exactly when there is a hooks directory |
| Base.PyInstallerArgs | src/pew/controllers/base.py:306-348 | the fixed head `-D -n name --distpath dist --noconsole`, then the options, the data arguments, the main script and the optional hooks script last, and nothing else |
| Base.PyInstallerBuild | src/pew/controllers/base.py:299-354 | the dist directory is removed; the run fails exactly when the icon or the module lists cannot be read, and then starts no command; otherwise PyInstaller runs once with the argument list of the resolved parts, the descriptor and app data entries, and the hooks script when it exists |
| Base.ClearDistDir | src/pew/controllers/base.py:303-304 | the dist directory is added to the removals exactly once (asking for it makes it, so it always exists); no command runs |
| Base.RunPyInstaller | src/pew/controllers/base.py:336-354 | for resolved parts, PyInstaller runs once with the argument list of those parts, the descriptor and app data entries, and the hooks script exactly when it exists; nothing is removed |
| Base.PyInstallerParts | src/pew/controllers/base.py:308-322 | the icon is used only when the lookup gives a truthy non-mapping string, made absolute; the hidden modules are the packages then the includes, and the excluded ones the excludes |
| Android.GetArch | src/pew/controllers/android.py:235-239 | `arm64-v8a` exactly when `64bit` is among the extra arguments, the default architecture otherwise |
| Android.DistName | src/pew/controllers/android.py:241-242 | the app name with its spaces removed, followed by `_dist`; the result has no space |
| Android.SdkInfo | src/pew/controllers/android.py:266-280 | the defaults unless `sdks.android` sets them; an integer target SDK is spelled as `str()` spells it |
| Android.GetEnv | src/pew/controllers/android.py:57-84 | the inherited environment is kept, the SDK, NDK and Ant settings are added, and `PATH` gets the tool directories appended; a missing `PATH` fails |
| Android.EnvPathOrder | src/pew/controllers/android.py:73-81 | the new search path splits into the inherited entries in order followed by the NDK, `~/.local/bin`, the SDK tool directories and Ant's `bin` |
| Android.PermissionSet | src/pew/controllers/android.py:101 | the permission set holds exactly the extra permissions and the two forced ones; a non-list raises `TypeError` |
| Android.Pairs | src/pew/controllers/android.py:125-132 | the flag precedes each value, in the values' order |
| Android.MinSdkArgs | src/pew/controllers/android.py:118-120 | no arguments for an empty `minsdk`, else `--minsdk m --ndk-api m` |
| Android.FileProviderArgs | src/pew/controllers/android.py:128-129 | nothing for a falsy filename; a string filename gives `--fileprovider-paths <source>/<file>`; anything else fails |
| Android.RequirementsArg | src/pew/controllers/android.py:134-138 | the comma-joined requirements, or the comma-joined defaults when the list is empty |
| Android.RequirementsListed | src/pew/controllers/android.py:134-135 | splitting the `--requirements` value on commas gives back the requirements given |
| Android.DefaultRequirementsListed | src/pew/controllers/android.py:43-137 | an empty requirement list stands for the four default requirements |
| Android.NumericVersionAsWritten | src/pew/controllers/android.py:152 | the `--numeric-version` value as written is the descriptor's `build_number` itself |
| Android.NumericVersion | src/pew/controllers/android.py:141-152 | the intended `--numeric-version` is a string with the same integer value as `build_number`: a string `build_number` itself, unchanged, and the text of the integer for any other value that passes the check |
| Android.StringBuildNumberAsWritten | src/pew/controllers/android.py:141-152 | a string `build_number` that passes the check, such as "012", reaches p4a exactly as written, as in the source |
| Android.Argv | src/pew/controllers/android.py:226 | the command converts exactly when every argument is a string, and converts back to itself |
| Android.IntegerBuildNumberRejected | src/pew/controllers/android.py:141-152 | an integer `build_number` passes the `int()` check but its argument list is refused, while the string form is accepted |
| Android.IconArgs | src/pew/controllers/android.py:154-167 | no icon for a falsy lookup; for a string name, `--icon` with its absolute path when that exists, else with `icons/android/<name>` under the working directory when that exists, else exit status 1; a failing lookup passes its error on, and a non-string name fails with another error |
| Android.PathArgs | src/pew/controllers/android.py:169-183 | for a truthy string lookup, exactly the flag and the absolute path when that path exists and nothing when it does not; nothing for a falsy one |
| Android.OrientationArgs | src/pew/controllers/android.py:177-179 | `--orientation` followed by the looked-up value when it is truthy, nothing when it is falsy, the lookup's error when it fails; `sensor` when the descriptor sets none |
| Android.SigningArgs | src/pew/controllers/android.py:185-204 | nothing for a debug build; a release build ends in `--release`, and with a truthy signing mapping it succeeds exactly when `keystore` is a string and `alias` is present, passing the keystore's absolute path, the alias, and `passwd` or else the typed password |
| Android.AndroidBuildDir | src/pew/controllers/android.py:92-94 | without a configuration, the private directory is the build directory |
| Android.P4aHead | src/pew/controllers/android.py:106-116 | the command starts `p4a apk`, with the private directory and the architecture at their fixed places |
| Android.P4aCommand | src/pew/controllers/android.py:89-204 | succeeds exactly when every argument group can be formed and `build_number` is an integer; its parts are then the head, `--minsdk`/`--ndk-api`, `--android-api`, the services, `--fileprovider-paths`, the permissions, the requirements, the intended numeric version, `--icon`, `--whitelist`, `--presplash`, `--orientation`, `--intent-filters` and the release arguments, each as its own function specifies it |
| Android.ReleaseLast | src/pew/controllers/android.py:203-204 | a release build's command ends in `--release` |
| Android.HeadFirst | src/pew/controllers/android.py:106-116 | every assembled command starts with the `p4a apk` head |
| Android.ExtendPairs | src/pew/controllers/android.py:125-126 | the loop appends flag-value pairs for all values in order |
| Android.BuildCommand | src/pew/controllers/android.py:89-204 | the command built piece by piece is the flattened specified command, the permissions in the order the set is iterated |
| Android.RunCmd | src/pew/controllers/android.py:226 | the environment is computed and the arguments converted first; a failure runs nothing |
| Android.Build | src/pew/controllers/android.py:89-233 | a p4a command that cannot be built, a bad `build_number` or a missing icon among them, gives its error with nothing removed or run; a missing icon gives exit status 1 once the arguments before it are sound; on success the package installs run, then p4a once with the specified command, and its status is returned; a failure has run at most a prefix of the installs |
| Android.PrepareBuild | src/pew/controllers/android.py:89-204 | the build directory is made and the command assembled; nothing runs and nothing is removed |
| Android.Restage | src/pew/controllers/android.py:206-224 | the old private directory is removed; the descriptor's `packages` are installed (a non-string package fails with nothing run, a failure leaves a prefix of the installs run and keeps the temporary `venv`); on success the temporary `venv` is removed |
| Android.ClearBuildDir | src/pew/controllers/android.py:206-218 | the old private directory is removed if it exists, and nothing runs |
| Android.Packages | src/pew/controllers/android.py:219-221 | no packages without a `packages` entry; otherwise they pass exactly when every one is a string, unchanged |
| Android.InstallPackages | src/pew/controllers/android.py:219-221 | without `packages` nothing runs; otherwise the packages are installed in order in the virtual environment inside the temporary `venv`, and a failure has run a prefix of them; nothing is removed |
| Android.StageAndRun | src/pew/controllers/android.py:206-233 | after the restaging the commands are the package installs followed by p4a, whose status is returned; a failure never runs p4a |
| Android.ApkMoves | src/pew/controllers/android.py:228-231 | each apk moves into the dist directory under its own name |
| Android.MoveApks | src/pew/controllers/android.py:228-231 | every apk in the working directory is moved once, in listing order; nothing runs or is removed |
| Android.MoveAll | src/pew/controllers/android.py:229-231 | the loop moves every listed apk, each once |
| Android.MoveEach | src/pew/controllers/android.py:229-231 | the renames happen in order, one per apk |
| Android.StillPresent | src/pew/controllers/android.py:229-231 | moving one apk leaves the later apks in place |
| Android.MoveOne | src/pew/controllers/android.py:230-231 | one rename moves the file's text to the dist directory under its base name |
| Android.CreateHead | src/pew/controllers/android.py:252-259 | the `p4a create` command starts with its fixed eight arguments |
| Android.CreateCommand | src/pew/controllers/android.py:252-262 | succeeds exactly when the platform's requirements resolve and iterate and, when there are any, are all strings; the fixed head comes first, and `--requirements` with the comma-joined list follows exactly when the list is non-empty |
| Android.CreateRequirementsListed | src/pew/controllers/android.py:258-262 | the `--requirements` value of `p4a create` splits on commas back into the platform's requirements when the names are comma-free |
| Android.CreateDefaults | src/pew/controllers/android.py:260-262 | with no `requirements` in the descriptor, the four defaults are passed, comma-joined |
| Android.CreateDistribution | src/pew/controllers/android.py:247-264 | `p4a create` runs exactly once when the command assembles, and not at all otherwise |
| Ios.VersionShortParts | src/pew/controllers/ios.py:54-55 | the short version string splits into at most the first three dot-separated components of the version |
| Ios.VersionShortPrefix | src/pew/controllers/ios.py:54-55 | the short version is a prefix of the version: the whole version when it has at most three components, else the part before the third dot |
| Ios.BestSizeAsWritten | src/pew/controllers/ios.py:99-101 | the comparison reads the size of the best icon so far from the second '-'-separated piece of its stem; it fails with an `IndexError` or a `ValueError` otherwise |
| Ios.TrailingSize | src/pew/controllers/ios.py:88-94 | an icon's size is `int()` of whatever follows the last '-' of its stem |
| Ios.AsWrittenAgrees | src/pew/controllers/ios.py:88-101 | for names of the form `name-N` with a single '-', the size the comparison reads agrees with the size the loop reads |
| Ios.AsWrittenRejects | src/pew/controllers/ios.py:88-101 | a name with two dashes and a numeric tail (`app-icon-120.png`) has a size, yet the comparison against it raises a `ValueError` |
| Ios.BestStep | src/pew/controllers/ios.py:98-103 | one more icon keeps the invariant: the best icon is the smallest of those larger than the slot seen so far |
| Ios.ChooseIcon | src/pew/controllers/ios.py:86-103 | the loop's result is `Ios.Choice` with the size comparison read from the trailing number (see Findings): the first exactly fitting icon wins; failing that, the smallest icon larger than the slot, or none; the choice is one of the icons; a non-string entry reached before a fit raises |
| Ios.ScaleSpelling | src/pew/controllers/ios.py:77-79 | a scale written `Sx` is read back as the number `S` |
| Ios.SizeSpelling | src/pew/controllers/ios.py:80-81 | a size written `WxH` splits into exactly its two numbers |
| Ios.SlotWidth | src/pew/controllers/ios.py:76-82 | a slot asks for an icon only when it has a `size` |
| Ios.ScaledWidthOfSpelling | src/pew/controllers/ios.py:80-82 | a size `WxH` at scale `S` asks for an icon `W * S` pixels wide |
| Ios.PartsWidthOf | src/pew/controllers/ios.py:81-82 | the scaled width is the first part's value times the scale |
| Ios.SlotWidthOfSpelling | src/pew/controllers/ios.py:76-82 | a slot with `size` `WxH` and `scale` `Sx` asks for `W * S` pixels |
| Ios.SlotWidthUnscaled | src/pew/controllers/ios.py:77-82 | a slot without a `scale` is read at scale one |
| Ios.SlotWidthFrom | src/pew/controllers/ios.py:77-82 | a slot with a readable scale and a `size` asks for the scaled width of that size |
| Ios.SlotWithoutSize | src/pew/controllers/ios.py:77-80 | a slot without a `size` asks for no icon, whatever its scale |
| Ios.SlotOutcome | src/pew/controllers/ios.py:76-114 | a slot with a size, a picked icon and a `filename` gets a copy of that icon's file at its destination and no other file changes; without any of them nothing changes; a selection error propagates; the copy succeeds exactly when the source exists and is not the destination |
| Ios.CopySlotIcon | src/pew/controllers/ios.py:76-114 | one slot of the loop has exactly the outcome `Ios.SlotOutcome` gives: the icon copied and the files afterwards, or its error with no file changed; nothing runs or is removed |
| Ios.SlotsOutcome | src/pew/controllers/ios.py:76-114 | the slots in order never copy more icons than there are slots |
| Ios.FailureSticks | src/pew/controllers/ios.py:76-114 | once a slot fails, the later slots change nothing and the loop ends with that error |
| Ios.SlotLanded | src/pew/controllers/ios.py:76-114 | when the loop succeeds, a slot whose destination no later slot names ends holding the original text of the icon picked for it, unless an earlier slot wrote over that icon's source |
| Ios.SlotsKeep | src/pew/controllers/ios.py:76-114 | a file that no slot names keeps its text through the loop |
| Ios.CopyAppIcons | src/pew/controllers/ios.py:76-114 | the slot loop ends with the count and files `Ios.SlotsOutcome` gives for the slots in order; only the slots' destinations are written, every other file keeps its text, and nothing runs or is removed |
| Ios.IconSet | src/pew/controllers/ios.py:72-75 | a missing `Contents.json` fails; the icons the slots choose from are the items of the icon setting |
| Ios.IconSlots | src/pew/controllers/ios.py:72-114 | a missing or undecodable `Contents.json`, or unusable `images`, fails with no file changed; otherwise the slots are filled as `Ios.SlotsOutcome` states; a new file lies inside the app-icon set or at an absolute slot name |
| Ios.JoinLandsBelow | src/pew/controllers/ios.py:109 | a path joined onto a directory lies below it unless the name is absolute |
| Ios.ExpandOrientations | src/pew/controllers/ios.py:150-157 | the orientation loop's result is the constants of each orientation in order |
| Ios.AnyOrientationGivesFour | src/pew/controllers/ios.py:116-157 | `all` and `sensor` give both landscape and both portrait constants |
| Ios.OtherOrientationGivesOwn | src/pew/controllers/ios.py:116-157 | `landscape` and `portrait` give their own two constants, any other value (the default `both` among them) none |
| Ios.LaunchImageFields | src/pew/controllers/ios.py:130-146 | a launch entry has exactly the four launch keys; wider than tall is `Landscape`; the size text puts the shorter side first; the name is the file's stem |
| Ios.LaunchSizeSymmetric | src/pew/controllers/ios.py:130-137 | an image and its rotated twin get the same size text and opposite orientations |
| Ios.LaunchEntries | src/pew/controllers/ios.py:126-147 | the launch loop succeeds exactly when every image is a string of known size, and then yields each image's entry in order |
| Ios.LaunchListSnoc | src/pew/controllers/ios.py:147 | appending one readable image's entry extends the entry list |
| Ios.NonEmpty | src/pew/controllers/ios.py:71-124 | `len(v) > 0` is defined exactly for strings, lists and mappings and agrees with their truth value |
| Ios.KeepsSteps | src/pew/controllers/ios.py:116-160 | setting or deleting keys among a set, one after the other, keeps every other entry |
| Ios.HeadKept | src/pew/controllers/ios.py:57-160 | the bundle and permission entries survive the orientation and launch changes |
| Ios.HeadTailDisjoint | src/pew/controllers/ios.py:57-160 | no bundle or permission key is an orientation or launch key |
| Ios.BundleEntries | src/pew/controllers/ios.py:57-62 | the identifier, both names, the version, the icon name, the short version and the status-bar flag are set from the project and every other entry is kept |
| Ios.PermissionEntries | src/pew/controllers/ios.py:66-68 | the three usage texts are set and every other entry is kept |
| Ios.PlistHead | src/pew/controllers/ios.py:57-68 | both groups of entries are set together and every other entry is kept |
| Ios.SetLaunchImages | src/pew/controllers/ios.py:123-148 | an empty setting leaves the plist alone; a non-empty one needs the storyboard entry (`KeyError` otherwise), removes it and adds the launch entries of every image; nothing else changes |
| Ios.OrientationsSet | src/pew/controllers/ios.py:159-160 | setting both orientation keys changes no other entry |
| Ios.SetTail | src/pew/controllers/ios.py:116-160 | both orientation keys receive the constants of the setting, full screen is required unless the setting is `all` or `sensor`, the launch entries are as above, and no other entry changes |
| Ios.PlistTail | src/pew/controllers/ios.py:116-160 | the orientation and launch settings are read for iOS before the changes above are made |
| Ios.ReadPlistHead | src/pew/controllers/ios.py:56-68 | a missing plist fails; a read plist has its bundle and permission entries set and keeps the others |
| Ios.CopyIcons | src/pew/controllers/ios.py:70-114 | an unreadable icon setting fails before any file changes; an empty list or a mapping copies nothing; a non-empty list fills the slots exactly as `Ios.IconSlots` does and succeeds exactly when every slot does; nothing runs |
| Ios.FillPlist | src/pew/controllers/ios.py:52-162 | without a template plist nothing changes; otherwise the plist written back carries the bundle, permission and orientation entries |
| Ios.StageScripts | src/pew/controllers/ios.py:164-169 | the sources are staged into `Script` with the settings' ignore paths followed by the project's asset directories; a missing `asset_dirs` is a `KeyError` before anything is staged; the descriptor is written |
| Ios.EntryName | src/pew/controllers/ios.py:175-178 | a listed entry is its directory, a slash and its base name |
| Ios.DestsDiffer | src/pew/controllers/ios.py:175-179 | two entries of one directory copied to the same place are the same entry |
| Ios.DestOnSource | src/pew/controllers/ios.py:175-179 | an entry copied onto another entry means that entry is copied onto itself |
| Ios.EntriesSeparated | src/pew/controllers/ios.py:175-179 | the entries of one directory never overwrite each other's sources |
| Ios.CopyStep | src/pew/controllers/ios.py:179 | one more copy extends the copied prefix by one entry |
| Ios.SourceUntouched | src/pew/controllers/ios.py:175-179 | the next entry's file still has its original text when it is copied |
| Ios.CopyEach | src/pew/controllers/ios.py:175-179 | every entry lands at its destination with its original text and no other file changes |
| Ios.CopiedLess | src/pew/controllers/ios.py:175-179 | a copy loop that stops early changed only destinations of the list |
| Ios.CopyIconFiles | src/pew/controllers/ios.py:175-180 | every entry the `icons/ios` glob lists is copied into the template copy under its own name with its text, and no other file changes |
| Ios.OpenCommandPlain | src/pew/controllers/ios.py:212 | a project path without spaces reaches `open` unchanged |
| Ios.RenameProject | src/pew/controllers/ios.py:200-210 | when the configuration exists, `My App` is replaced by the app name in it; otherwise no file changes |
| Ios.StillStaged | src/pew/controllers/ios.py:164-212 | a staging step once recorded stays recorded |
| Ios.StillIn | src/pew/controllers/ios.py:164-212 | an event once in the trace stays there |
| Ios.CodesignEdits | src/pew/controllers/ios.py:182-194 | no edits without `codesign`; with a development team under `codesign`/`ios`, the two template flags are removed and the team set; an `ios` mapping without a team, or values of the wrong type, fail |
| Ios.AddFileEdits | src/pew/controllers/ios.py:175-179 | one `add_file` per copied icon file, by base name, in the copy order |
| Ios.IosDeps | src/pew/controllers/ios.py:198 | the requirements reach `copy_deps_to_build` unchanged exactly when every one is a string |
| Ios.UpdateProject | src/pew/controllers/ios.py:171-195 | a missing Xcode configuration fails before anything changes; otherwise the `icons/ios` entries are copied, and the project is saved with an `add_file` per copied icon followed by the signing edits; a bad `codesign` fails; nothing runs or is removed |
| Ios.Fill | src/pew/controllers/ios.py:52-210 | nothing is removed; on success the sources are staged with the asset directories ignored and the only commands run are the requirement installs, in order; a failure has run the installs of a prefix of the requirements; a non-string requirement fails with nothing run |
| Ios.FinishProject | src/pew/controllers/ios.py:171-210 | a missing configuration fails before anything changes; on success the copied icons are exactly the glob's entries, the project was saved with their `add_file` edits and the signing edits, and the only commands run are the requirement installs in order; a failure has run a prefix of them; nothing is removed |
| Ios.BuildAsWritten | src/pew/controllers/ios.py:38-44 | as written: a missing template exits with 1, and otherwise the build raises `NameError` for `shutil`; either way nothing is removed, copied or run |
| Ios.CopyNamesUnbound | src/pew/controllers/ios.py:1-23 | `shutil` and `cwd` are not bound at the top level of ios.py, while `os`, `sys` and `glob` are |
| Ios.Build | src/pew/controllers/ios.py:35-214 | a missing template exits with 1 before anything is removed or run; a success removes the build directory once, stages the sources, and runs the requirement installs followed by exactly `open` on the project; a failure never runs `open` and has run a prefix of the installs |
| Osx.CodesignMac | src/pew/controllers/osx.py:13-36 | runs the signing command and, only after it succeeds, the verification; succeeds exactly when both succeed and otherwise exits with 1; changes no file |
| Osx.SignedOfAttempt | src/pew/controllers/osx.py:13-36 | one call signs exactly its own path |
| Osx.SignedPathsAppend | src/pew/controllers/osx.py:13-36 | the paths signed by two runs of commands are those of the first followed by those of the second |
| Osx.ProgressStep | src/pew/controllers/osx.py:69-70 | one successful call advances the signing loop by one path |
| Osx.SignedInOrderMeans | src/pew/controllers/osx.py:69-70 | the loop succeeds exactly when every path signs and verifies; when it fails, it stopped at the first path that does not |
| Osx.SignAll | src/pew/controllers/osx.py:69-70 | the paths are signed in order up to the first failure, which exits with 1; on success the last commands sign and verify the last path |
| Osx.BundleSignedLast | src/pew/controllers/osx.py:62-68 | the bundle is the last path signed and no earlier path is the bundle |
| Osx.JoinLonger | src/pew/controllers/osx.py:57-67 | a relative name joined onto a directory gives a longer path |
| Osx.FullPaths | src/pew/controllers/osx.py:56-57 | one joined path per file the walk lists for a directory |
| Osx.PickedExactly | src/pew/controllers/osx.py:56-60 | a path is picked exactly when it is listed and has a source extension |
| Osx.StrippedExactly | src/pew/controllers/osx.py:55-60 | the removal loop deletes a file exactly when the walk lists it and its extension is `.py` or `.pyo` |
| Osx.StrippedFrom | src/pew/controllers/osx.py:55-60 | every removed file comes from one of the walked directories |
| Osx.StrippedAll | src/pew/controllers/osx.py:55-60 | every listed source file of every walked directory is removed |
| Osx.RemovePicked | src/pew/controllers/osx.py:56-60 | the picked files of one directory are removed in order and no other file changes |
| Osx.StripSources | src/pew/controllers/osx.py:55-60 | the walk of the bundled standard library loses exactly its `.py` and `.pyo` files; nothing is run |
| Osx.Plist | src/pew/controllers/osx.py:93-104 | the plist carries the project identifier, allows arbitrary loads under `NSAppTransportSecurity`, and allows insecure HTTP loads from the `localhost` exception domain |
| Osx.Py2appFields | src/pew/controllers/osx.py:106-114 | the common lists are passed through, site packages kept and stripping turned off |
| Osx.BuildOptions | src/pew/controllers/osx.py:92-116 | a `py2app` entry whose dist directory is the platform's, whose plist carries the identifier and which does not strip |
| Osx.PrepareSigning | src/pew/controllers/osx.py:51-64 | the sources below the bundle's standard library are removed, then the frameworks and dynamic libraries are listed; nothing is run |
| Osx.SignApp | src/pew/controllers/osx.py:62-70 | the signing loop over `sign_paths`, ending with the bundle |
| Osx.SignWith | src/pew/controllers/osx.py:69-70 | a descriptor without a signing identity fails before anything is signed |
| Osx.SignBundle | src/pew/controllers/osx.py:50-70 | the sources are removed, the inner items found and every path signed in order, the bundle last |
| Osx.SetupAndSign | src/pew/controllers/osx.py:49-72 | without `codesign` nothing is removed or signed; with it, the removal and the signing above |
| Osx.Build | src/pew/controllers/osx.py:48-72 | the distutils build first, then, only for a descriptor with `codesign`, source removal and signing; a failed common-options lookup signs nothing |
| Osx.Substitute | src/pew/controllers/osx.py:125-126 | the loop replaces every `{key}` placeholder by its value, key by key |
| Osx.SubstitutedOne | src/pew/controllers/osx.py:125-126 | with one value, only that placeholder is replaced |
| Osx.DmgSettingsWithoutPlaceholder | src/pew/controllers/osx.py:118-126 | a template without the placeholder is written unchanged |
| Osx.DmgSettingsFillsPlaceholder | src/pew/controllers/osx.py:118-126 | the placeholder becomes the app path and the text around it is kept |
| Osx.CreateDmgbuildSettingsFile | src/pew/controllers/osx.py:118-133 | succeeds exactly when the template is installed, and then writes the filled-in template into the build directory and returns that path; no other file changes |
| Osx.SettingsNotDmg | src/pew/controllers/osx.py:82-128 | the settings file and the dmg are different paths |
| Osx.RemoveOldDmg | src/pew/controllers/osx.py:83-84 | an earlier dmg is removed; a directory in its place raises and nothing changes |
| Osx.BuildDmg | src/pew/controllers/osx.py:80-87 | the old dmg is removed, then `dmgbuild` runs once with the settings, the full app name and the dmg path |
| Osx.AppExists | src/pew/controllers/osx.py:75 | the existence check creates the dist directory but does not make the bundle appear |
| Osx.Dist | src/pew/controllers/osx.py:74-87 | a missing bundle exits with 1 before anything is written; otherwise the filled settings are written, any old dmg removed and exactly one `dmgbuild` runs |
| Win.JoinLonger | src/pew/controllers/win.py:22-25 | a relative name joined onto a directory gives a longer path |
| Win.MainBelowDist | src/pew/controllers/win.py:22 | `dist/main.exe` is never the dist directory itself |
| Win.JoinShift | src/pew/controllers/win.py:22-110 | joining one relative name onto two directories keeps their length difference and their trailing-slash agreement |
| Win.KindDirs | src/pew/controllers/win.py:22-110 | the package directory is three characters longer than the dist directory and neither ends in '/' |
| Win.PackageBesideDist | src/pew/controllers/win.py:22-110 | the package directory is the dist directory or three characters longer |
| Win.MainBesidePackage | src/pew/controllers/win.py:22-110 | `dist/main.exe` is never the package directory |
| Win.NamedBelowDist | src/pew/controllers/win.py:24-25 | the fallback `dist/<name>/<name>.exe` is not the dist directory unless the name is absolute |
| Win.GetAppPath | src/pew/controllers/win.py:21-27 | `main.exe` when it exists at lookup time, else the named executable; the dist directory exists afterwards and no file changes |
| Win.InstallGeneratorPath | src/pew/controllers/win.py:29-36 | the Inno Setup 6 compiler exactly when installed; the Inno Setup 5 one exactly when only it is installed; none exactly when neither is |
| Win.Py2exeFields | src/pew/controllers/win.py:59-65 | the dist directory, the system DLL list, the common packages and includes, and the common excludes followed by the collected cefpython modules |
| Win.BuildOptions | src/pew/controllers/win.py:58-67 | a `py2exe` entry holding those options for the platform's dist directory |
| Win.CefExcludes.constructor | src/pew/controllers/win.py:16 | the shared exclude list starts empty |
| Win.GlobPyds | src/pew/controllers/win.py:83 | the glob lists exactly the `cefpython_py*.pyd` entries of the directory |
| Win.ModuleName | src/pew/controllers/win.py:86 | every excluded module name lies in the `cefpython3` package |
| Win.ExcludedSound | src/pew/controllers/win.py:83-89 | every excluded name is that of a globbed module not built for the running Python |
| Win.ExcludedComplete | src/pew/controllers/win.py:83-89 | every globbed module not built for the running Python is excluded |
| Win.ExcludeOtherVersions | src/pew/controllers/win.py:83-89 | the loop appends exactly the excluded modules, in glob order, to the shared list |
| Win.PlatformDataFiles | src/pew/controllers/win.py:69-93 | nothing when `cefpython3` is not importable; otherwise its runtime files at the top, its English locale under `locales`, and the other-version modules appended to the exclude list |
| Win.DistutilsBuild | src/pew/controllers/win.py:100 | `setup()` is called with the py2exe options whose excludes include the modules collected by the data-file step; a failed common-options lookup fails and collects nothing |
| Win.Build | src/pew/controllers/win.py:95-100 | PyInstaller exactly when `build_tool` is `pyinstaller`, with the one-directory, named, windowless arguments; otherwise the distutils build; a failed lookup builds nothing |
| Win.PercentFormatPlain | src/pew/controllers/win.py:138 | a template without `%` is formatted to itself |
| Win.PercentFormatFills | src/pew/controllers/win.py:138 | a `%(key)s` placeholder is replaced by its value and the text around it is kept |
| Win.InstallValues | src/pew/controllers/win.py:128-136 | the values exist exactly when the `id` has a `str()`, and carry it with the project name and version |
| Win.InstallValuesRejoin | src/pew/controllers/win.py:130-133 | the app directory and the exe name put back together give the app path |
| Win.StemHasDash | src/pew/controllers/win.py:108-109 | the package stem keeps the '-' between name and version |
| Win.ExeOutputParts | src/pew/controllers/win.py:110-135 | the directory and the stem of `<dir>/<stem>.exe` are `dir` and `stem` |
| Win.InstallValuesOutput | src/pew/controllers/win.py:110-135 | the output values name the package directory and the package stem |
| Win.StemOfExe | src/pew/controllers/win.py:135 | removing `.exe` from `stem.exe` gives back the stem |
| Win.FillTemplate | src/pew/controllers/win.py:128-138 | the template is read and formatted with the values for the app path found; no file changes |
| Win.CreateInstallScript | src/pew/controllers/win.py:122-145 | a project without `id` exits with 1 before anything happens; otherwise the formatted template is written to the build directory and that path returned |
| Win.JoinHasSlash | src/pew/controllers/win.py:140 | a path joined below a non-empty directory holds a '/' |
| Win.PlatformDirHasSlash | src/pew/controllers/win.py:22-140 | every platform directory holds a '/', so none is a compiler path |
| Win.AppExists | src/pew/controllers/win.py:103 | an app that was there is found, and a missing one is not made to appear |
| Win.InnoNotCreated | src/pew/controllers/win.py:103-113 | no directory or file `dist()` creates is a compiler path |
| Win.GeneratorUnchanged | src/pew/controllers/win.py:112-113 | writing the script and creating the directories leaves the compiler lookup as it was |
| Win.WriteInstallScript | src/pew/controllers/win.py:108-112 | the install script for the package path is written and the compiler lookup is undisturbed; no command runs |
| Win.CompileInstaller | src/pew/controllers/win.py:108-120 | only when a compiler is installed is exactly one command run, the compiler on the script, and its status returned; otherwise exit 1 |
| Win.Dist | src/pew/controllers/win.py:102-120 | a missing app exits with 1 before anything is written; otherwise as above |
| Cli.DefaultPlatform | src/pew/cli/tool.py:55-61 | `win` exactly for a Windows platform string, `osx` exactly for a Darwin one, `linux` exactly for anything else |
| Cli.BigEndian32 | src/pew/cli/tool.py:74 | four bytes read big-endian give an unsigned 32-bit number |
| Cli.Bytes32 | src/pew/cli/tool.py:74 | a 32-bit number is written in exactly four bytes |
| Cli.BigEndianRoundTrip | src/pew/cli/tool.py:74 | writing a 32-bit number in four bytes and reading it back gives the number |
| Cli.ImageInfo | src/pew/cli/tool.py:70-79 | succeeds exactly when the first 25 bytes are a PNG header with the width and height fields present, and then gives the two big-endian fields |
| Cli.PngHead | src/pew/cli/tool.py:66-74 | the header of a PNG with a given size is 24 bytes long |
| Cli.ImageInfoOfPng | src/pew/cli/tool.py:70-79 | reading a PNG file gives back the width and height written into its header, whatever follows |
| Cli.NotPngRefused | src/pew/cli/tool.py:77-78 | a file whose first byte is not the signature's raises `not a png image` |
| Cli.UrlArgs | src/pew/cli/tool.py:210-222 | the loop builds exactly the query `UrlQuery` describes |
| Cli.UrlQueryShape | src/pew/cli/tool.py:210-222 | the query is empty exactly when every argument is, and otherwise starts with '?' |
| Cli.QueryArgsEmpty | src/pew/cli/tool.py:213 | no argument is kept exactly when every argument is empty |
| Cli.OneArgument | src/pew/cli/tool.py:213-222 | a lone non-empty argument gives '?' followed by the argument with its dashes removed |
| Cli.CopyConfigFile | src/pew/cli/tool.py:233-245 | an old `local_config.py` is removed (a directory there raises first); a named config is copied in its place, or the tool exits with 1 when it is missing; without a config nothing else changes |
| Cli.RequirementsOrder | src/pew/cli/tool.py:254-255 | the platform's requirements come first and the `common` ones follow, nothing dropped or repeated |
| Cli.RequirementsPlainListIgnored | src/pew/cli/tool.py:254-255 | requirements written as a plain list are dropped: the result is empty |
| Cli.AbsPaths | src/pew/cli/tool.py:262-263 | each entry made absolute, in order; fails exactly when some entry is not a string |
| Cli.IgnoredConfigDirs | src/pew/cli/tool.py:257-263 | when the config lookup lists directories, exactly those are ignored, each made absolute |
| Cli.IgnorePathsOfLookup | src/pew/cli/tool.py:258-263 | for a non-empty config the ignore paths are the entries of whatever the lookup finds |
| Cli.IgnoreEntriesOfStrings | src/pew/cli/tool.py:261-263 | a list of strings always yields one absolute path per entry |
| Cli.AbsPathsOfStrings | src/pew/cli/tool.py:262-263 | a list of strings never fails and keeps its length and order |
| Cli.AssetEntriesNonEmpty | src/pew/cli/tool.py:274-281 | every data-file entry names at least one file |
| Cli.CollectAssets | src/pew/cli/tool.py:274-281 | the loop over the asset directories builds exactly the asset entries |
| Cli.AssetEntriesErrExtends | src/pew/cli/tool.py:274-281 | once a prefix of the directories fails, the whole list fails the same way |
| Cli.CollectIgnored | src/pew/cli/tool.py:262-263 | the loop builds exactly the absolute paths, or fails as they do |
| Cli.AbsPathsErrExtends | src/pew/cli/tool.py:262-263 | a non-string entry anywhere in a prefix makes the whole list fail with a `TypeError` |
| Cli.AbsPathsErrIs | src/pew/cli/tool.py:263 | the only failure is the `TypeError` of `abspath` |
| Cli.GatherSettings | src/pew/cli/tool.py:248-287 | a success carries exactly the requirements, ignore paths and data files the lookups describe; any of them failing fails the build; no command runs |
| Cli.ConfigArg | src/pew/cli/tool.py:258-259 | the config argument is always a valid lookup key |
| Cli.SafeName | src/pew/cli/tool.py:166 | the project directory name holds no space |
| Cli.PlaceholderIdentifier | src/pew/cli/tool.py:179 | the identifier starts with `com.yourdomain.` and holds no space |
| Cli.CreatedInfo | src/pew/cli/tool.py:175-181 | the template's descriptor with the name and the placeholder identifier set and every other entry kept |
| Cli.Create | src/pew/cli/tool.py:164-182 | an empty name does nothing; an existing project directory exits with 1 before anything is copied; otherwise the template is copied and its descriptor rewritten |
| Pewtools.Placeholder | src/pewtools/__init__.py:46 | a macro placeholder always opens with '$' |
| Pewtools.ResolveMacros | src/pewtools/__init__.py:43-48 | the loop replaces every placeholder by its value, the macros taken in order |
| Pewtools.NoDollarNoMatch | src/pewtools/__init__.py:46 | a placeholder cannot occur in text without '$' |
| Pewtools.ResolvedWithoutDollar | src/pewtools/__init__.py:43-48 | text without '$' comes back unchanged, whatever the macros' values |
| Pewtools.ResolvedByDirMacros | src/pewtools/__init__.py:20-48 | resolving replaces `${PROJECT_DIR}` and then `${PEW_DIR}` |
| Pewtools.ReplaceSoleDollar | src/pewtools/__init__.py:46 | the only placeholder occurrence in otherwise macro-free text is the one replaced |
| Pewtools.OtherPlaceholderAbsent | src/pewtools/__init__.py:46 | a different placeholder does not occur in text holding only one placeholder |
| Pewtools.ResolveProjectDir | src/pewtools/__init__.py:20-48 | one `${PROJECT_DIR}` becomes the working directory and the later pass leaves the result alone |
| Pewtools.ResolvePewDir | src/pewtools/__init__.py:20-48 | one `${PEW_DIR}` becomes the tool's root and the earlier pass leaves it alone |
| Pewtools.ResolvedArgs | src/pewtools/__init__.py:116-118 | one resolved argument per argument, in order |
| Pewtools.ResolvedCommands | src/pewtools/__init__.py:115-118 | one resolved command per command, in order |
| Pewtools.ResolveArgs | src/pewtools/__init__.py:116-118 | the loop builds exactly the resolved arguments |
| Pewtools.InitializePlatform | src/pewtools/__init__.py:113-122 | a platform without commands runs nothing; otherwise the resolved commands run in order and succeed exactly when all succeed, stopping at the first failure with an exception; no file changes |
| Pewtools.RunEach | src/pewtools/__init__.py:115-122 | the commands are resolved and run in order: success means every one ran and succeeded; a failure stops at the first failing command with an exception, every earlier one having succeeded; no file changes |
| Pewtools.AndroidInitCommand | src/pewtools/__init__.py:35-40 | preparing Android runs exactly its init script below the tool's root |
| Pewtools.DownloadName | src/pewtools/__init__.py:84 | the download name is the URL's tail after its last '/', holds no '/', and is the whole URL when it has none |
| Pewtools.CheckExisting | src/pewtools/__init__.py:85-100 | the output directory is created when missing; a present file with a matching checksum is kept, one with a different checksum removed |
| Pewtools.Download | src/pewtools/__init__.py:102-107 | a fetch happens only when nothing is at the output and a download is needed; a failed fetch raises with nothing written; a fetched file with a different checksum raises |
| Pewtools.FetchTo | src/pewtools/__init__.py:85-110 | a kept file is not fetched again; a stale file is replaced by the fetched one; a file that must be fetched and cannot be makes the step raise; a successful step leaves a file with the right checksum; a `.zip` is unzipped |
| Pewtools.FetchDependency | src/pewtools/__init__.py:82-110 | a matching file is kept; a file that must be fetched and cannot be raises; a success leaves a file whose checksum matches |
| Pewtools.GetDependenciesForPlatform | src/pewtools/__init__.py:78-110 | a platform without dependencies changes nothing; a single dependency already present with its checksum is kept; a first dependency that cannot be fetched stops the loop with its error |
| Pewtools.TemplateDownloadName | src/pewtools/__init__.py:25-84 | the Xcode template downloads as `master.zip` |
| Pewtools.TemplateDestination | src/pewtools/__init__.py:25-88 | the Xcode template is stored as `native/ios/master.zip` below the project directory |
| Pewtools.TemplateDirectory | src/pewtools/__init__.py:25-85 | the template's directory resolves to `native/ios` below the project directory |
| Pewtools.NewEntries | src/pewtools/__init__.py:141-142 | never more entries than listed after the installs |
| Pewtools.NewEntriesExactly | src/pewtools/__init__.py:132-142 | an entry is copied exactly when it is listed after the installs and was not listed before them |
| Pewtools.PipInstallsAt | src/pewtools/__init__.py:138-139 | the install command at each position is the one for the requirement at that position: one per requirement, in order |
| Pewtools.CopyPairs | src/pewtools/__init__.py:143-144 | each named entry goes from site-packages to the destination under the same name |
| Pewtools.RunInstall | src/pewtools/__init__.py:139 | one install command is run and its status returned; no file changes |
| Pewtools.InstallAll | src/pewtools/__init__.py:138-139 | the installs succeed exactly when every install command succeeds, and then they ran in order; a failure has run the installs of a prefix of the requirements |
| Pewtools.CopyEntry | src/pewtools/__init__.py:143-149 | one entry is copied as a file or as a tree according to what it is |
| Pewtools.CopyNew | src/pewtools/__init__.py:141-151 | exactly the new entries are copied, in listing order |
| Pewtools.CopyIfNew | src/pewtools/__init__.py:142-152 | an entry listed before the installs is skipped; any other is copied, as a file or a tree, and its pair joins the copies |
| Pewtools.CopyDepsToBuild | src/pewtools/__init__.py:125-151 | without a site-packages directory it fails before anything runs; otherwise the requirements are installed in order (a failure has run a prefix of them), and on success exactly the new entries are copied to the destination |
| Legacy.LogPath | src/pew/tool.py:145-151 | a directory whose path holds an ignore string has all its names skipped; any other directory has none skipped |
| Legacy.IgnoredBelow | src/pew/tool.py:145-158 | the subdirectories of an ignored directory are ignored too |
| Legacy.Parent | src/pew/tool.py:158 | a file's directory is a prefix of its path |
| Legacy.ParentDecides | src/pew/tool.py:145-158 | a file below an ignored directory sits in an ignored directory, so its own directory decides whether it is copied |
| Legacy.CopiedUnlessIgnored | src/pew/tool.py:158 | a source file whose directory is not ignored reappears below the build tree with the same text |
| Legacy.CopiedOnlyKept | src/pew/tool.py:158 | every file the copy brings in comes from a source file whose directory is not ignored |
| Legacy.CopyTreeFresh | src/pew/tool.py:154-158 | an existing build tree is removed, then the filtered copy of the sources is made; nothing runs |
| Legacy.CopyFiles | src/pew/tool.py:144-160 | the build tree is the filtered copy of the sources plus the project descriptor; a missing descriptor fails after the copy |
| Legacy.CopyPewModule | src/pew/tool.py:163-170 | the bundled `pew` package is copied into the build tree only when the project has none there; otherwise nothing changes |
| Legacy.SdkSettings | src/pew/tool.py:195-203 | without `sdks`, API level "19" and build tools "23.0.3" |
| Legacy.Setting | src/pew/tool.py:200-203 | an entry's `str()` when present, else the default |
| Legacy.SetupShLines | src/pew/tool.py:211-214 | `setup.sh` splits into a blank line, the two exports and an empty last line |
| Legacy.SetupShJoined | src/pew/tool.py:211-214 | the text is those four lines joined by newlines |
| Legacy.ExportsOneLine | src/pew/tool.py:212-213 | neither export spans a line break |
| Legacy.SdkOverride | src/pew/tool.py:198-203 | an integer API level and a string build-tools version under `sdks.android` are written as given |
| Legacy.CreateAndroidSetupSh | src/pew/tool.py:193-215 | the native Android directory is created when missing and `setup.sh` written there with the settings; a file in the directory's place fails |
| Legacy.PathSetting | src/pew/tool.py:332-337 | a missing setting falls back to `fakefile` |
| Legacy.SigningOf | src/pew/tool.py:339-354 | a debug build signs with nothing; a release build has build type `release` |
| Legacy.ReleasePassword | src/pew/tool.py:344-354 | a release build signs with the absolute keystore, the alias, and the `passwd` entry or else the typed password |
| Legacy.JoinedRequirements | src/pew/tool.py:356-359 | no requirements give the empty string, others are joined by commas |
| Legacy.RequirementsRoundTrip | src/pew/tool.py:356-357 | the joined requirements split back on ',' into the names given when no name holds a comma |
| Legacy.StrsInjective | src/pew/tool.py:356-357 | two lists with the same string values are the same list |
| Legacy.SettingsOf | src/pew/tool.py:326-359 | the file name holds no space and the build directory is the Android one, with the config below it when named |
| Legacy.AndroidDefaults | src/pew/tool.py:326-359 | a descriptor without optional entries gives the `fakefile` placeholders, the `sensor` orientation, no signing for a debug build and the comma-joined requirements |
| Legacy.BuildShPositions | src/pew/tool.py:377 | the 16-element `build.sh` command carries the script path, identifier, file name, version, build directory, orientation, requirements and build type in their places |
| Legacy.PrepareBuildDir | src/pew/tool.py:361-366 | an existing build tree is removed; nothing runs |
| Legacy.StageDeps | src/pew/tool.py:369-375 | the requirements are installed into the virtual environment, the new entries copied, and the environment removed afterwards; without a site-packages directory nothing runs |
| Legacy.FreshTree | src/pew/tool.py:361-368 | the fresh build tree holds the project descriptor; nothing runs |
| Legacy.BuildFromPlan | src/pew/tool.py:361-378 | the installs run, then `build.sh`, whose status is the result; the virtual environment is the last thing removed |
| Legacy.BuildAndroid | src/pew/tool.py:309-378 | a plan that fails runs nothing; a success runs the installs and then `build.sh` and returns its status |
| Legacy.SignMac | src/pew/tool.py:592-612 | only on macOS with `codesign` are the bundle's `.py` and `.pyo` files removed and the inner items and the bundle signed in order |
| Bridge.Globals.constructor | src/pew/__init__.py:28 | the application name starts as `python` |
| Bridge.Globals.SetAppName | src/pew/__init__.py:31-37 | the name set is the name held afterwards |
| Bridge.Globals.GetAppName | src/pew/__init__.py:40-45 | returns the last name set, or `python` before any |
| Bridge.UserDir | src/pew/__init__.py:230-234 | `EXTERNAL_STORAGE` when set and non-empty, else the home directory |
| Bridge.HiddenName | src/pew/__init__.py:249 | one character longer than the name, opening with '.', with no space and free of '/' exactly when the name is |
| Bridge.HiddenNameChars | src/pew/__init__.py:249 | underscoring and lower-casing keeps the length, removes every space and keeps '/' exactly when present |
| Bridge.LowerKeepsOut | src/pew/__init__.py:249 | lower-casing introduces neither a space nor a '/' |
| Bridge.LowerKeepsSlash | src/pew/__init__.py:249 | lower-casing keeps a '/' |
| Bridge.ReplaceSpaceLength | src/pew/__init__.py:249 | replacing spaces by underscores keeps the length |
| Bridge.ReplaceSpaceNoSlash | src/pew/__init__.py:249 | replacing spaces by underscores introduces no '/' |
| Bridge.UserPath | src/pew/__init__.py:236-254 | on iOS the `Documents` folder of the user directory, elsewhere the hidden directory named after the application |
| Bridge.UserPathHidden | src/pew/__init__.py:248-249 | off iOS, for a name without '/', the user path's last component is hidden and space-free |
| Bridge.AppFilesDirAsWritten | src/pew/__init__.py:256-273 | on Windows without an existing `APPDATA` the function as written raises; wherever it returns, it returns the corrected result |
| Bridge.AppFilesDir | src/pew/__init__.py:256-273 | `Library/Application Support/<app>` on macOS; `<APPDATA>/<app>` on Windows when that exists, else `Application Data/<app>` below the user directory; the user path elsewhere |
| Bridge.WindowsFallbackRaises | src/pew/__init__.py:264-269 | the Windows fallback as written raises `NameError` |
| Bridge.AppFilesDirNamedAfterApp | src/pew/__init__.py:256-269 | on macOS and Windows the application directory is named after the application on every path |
| Bridge.Query | src/pew/__init__.py:165-171 | the URL's own query whenever it is non-empty |
| Bridge.FuncName | src/pew/__init__.py:172-176 | the function name starts with the network location |
| Bridge.FuncNameDotted | src/pew/__init__.py:174-176 | a network location without '/' gives a function name without '/' |
| Bridge.QueryFromPath | src/pew/__init__.py:168-176 | a path `/a?b` with no query of its own carries the query `b` and names the function by `a` with dots for slashes |
| Bridge.DecodeValue | src/pew/__init__.py:195-201 | `empty_string` stands for the empty string; valid JSON is decoded; anything else stays text |
| Bridge.DecodeArg | src/pew/__init__.py:184-206 | a decoded piece was unquoted; a positional one holds no '=' |
| Bridge.AddArg | src/pew/__init__.py:203-206 | a positional argument is appended; a keyword one is added or replaces the earlier one, and every other keyword keeps its value |
| Bridge.Decode | src/pew/__init__.py:159-206 | the call is named by the function name; an empty query gives a call without arguments |
| Bridge.PositionalInOrder | src/pew/__init__.py:181-206 | pieces without '=' become positional arguments, one per piece and in order, with no keyword arguments |
| Bridge.LastKeywordWins | src/pew/__init__.py:203-204 | a later keyword piece overrides an earlier one for the same name and leaves the positional arguments alone |
| Bridge.TwoEqualsRaise | src/pew/__init__.py:192-193 | a piece with two '=' raises `ValueError` |
| Bridge.JsValueArg | src/pew/__init__.py:208-209 | only a call of `get_value_from_js` delivers a value to the handler |
| Bridge.Escaped | src/pew/__init__.py:135 | undoubling the percent signs gives the value back |
| Bridge.UndoubleDoubled | src/pew/__init__.py:135 | doubling and then undoubling '%' is the identity |
| Bridge.MessageHandler.constructor | src/pew/__init__.py:128-132 | no JavaScript value and no message received yet |
| Bridge.MessageHandler.GetValueFromJs | src/pew/__init__.py:134-135 | stores the value with every '%' doubled |
| Bridge.MessageHandler.ClearMessageReceivedFlag | src/pew/__init__.py:153-157 | the flag is cleared and the stored value kept |
| Bridge.MessageHandler.ParseMessage | src/pew/__init__.py:159-222 | a URL that fails to decode raises and changes nothing; otherwise the handler or the delegate is called, and only a call that returns sets the flag |
| Bridge.DecodeMessage | src/pew/__init__.py:166-206 | the decoding loop yields exactly the call `Decode` describes, or its first failure |
| Bridge.DecodeStopsAtFailure | src/pew/__init__.py:182-206 | once a prefix of the pieces fails to decode, the whole message fails the same way |
| Ui.Backends | src/pew/ui.py:12-60 | the six probed backends are distinct |
| Ui.Probed | src/pew/ui.py:12-60 | a backend is found exactly when it is probed and its imports succeed; no backend is found twice |
| Ui.Detected | src/pew/ui.py:12-60 | the detected backends are distinct and are exactly the importable ones |
| Ui.Without | src/pew/ui.py:77 | removing a name keeps exactly the other members, and changes nothing when the name is absent |
| Ui.Front | src/pew/ui.py:72-77 | the front holds exactly the detected preferred names, each once |
| Ui.WithoutDistinct | src/pew/ui.py:77 | removing a name keeps a list distinct |
| Ui.Rest | src/pew/ui.py:72-77 | the rest holds exactly the detected names that are not preferred, each once |
| Ui.Kept | src/pew/ui.py:72-77 | the kept preferences are exactly the detected ones |
| Ui.ReverseAt | src/pew/ui.py:74 | the reversed list holds, at each position, the element at the mirrored position of the original |
| Ui.ReorderedDistinct | src/pew/ui.py:72-77 | reordering keeps the backends distinct |
| Ui.RemoveAt | src/pew/ui.py:77 | popping the only occurrence of a name from a distinct list is removing that name |
| Ui.WithoutAppend | src/pew/ui.py:77 | removing a name from two lists joined is removing it from each |
| Ui.RestWithout | src/pew/ui.py:75-77 | preferring one more name removes it from the rest |
| Ui.RestUndetected | src/pew/ui.py:76 | preferring a name that was not detected leaves the rest alone |
| Ui.MoveToFront | src/pew/ui.py:75-77 | moving the next preferred name to the front gives the reordering for that name and those after it |
| Ui.FrontPrepend | src/pew/ui.py:75-77 | a detected name preferred first comes before the other preferred ones |
| Ui.FrontOfDistinct | src/pew/ui.py:72-77 | with distinct preferences, the front holds the detected preferences in preferred order |
| Ui.DistinctCounts | src/pew/ui.py:72-77 | a distinct list holds each member exactly once |
| Ui.ReorderedIsPermutation | src/pew/ui.py:71-79 | the reordering is a permutation of the detected backends |
| Ui.ReorderedLayout | src/pew/ui.py:71-79 | with distinct preferences, the detected preferred backends come first, in preferred order, then the others in detection order |
| Ui.Options.constructor | src/pew/ui.py:72-73 | the options hold the preference list given |
| Ui.Position | src/pew/ui.py:77 | the index found holds the name and is its first occurrence |
| Ui.CheckPlatforms | src/pew/ui.py:8-79 | without any backend it raises; otherwise it returns the detected backends with the preferred ones moved to the front, and the preference list is left reversed |
| Ui.MoveEachToFront | src/pew/ui.py:75-77 | the loop over the reversed preferences yields exactly the reordering |
| Ui.MoveOneToFront | src/pew/ui.py:76-77 | one preferred platform moves to the front when detected and is skipped otherwise, extending the reordering by that preference |
| Ui.RestNone | src/pew/ui.py:72 | with no preferences the order is the detection order |
| Ui.StepUndetected | src/pew/ui.py:76 | a preferred name that is not among the platforms leaves the order alone |
| Ui.MessagePrefix | src/pew/ui.py:204-208 | the prefix holds `://` and starts with the protocol given |
| Ui.MessagePrefixIdempotent | src/pew/ui.py:207-208 | a protocol that already holds `://` is kept as it is |
| Ui.ProtocolUrl | src/pew/ui.py:205-206 | the page URL starts with the given URL and ends with the protocol |
| Ui.JsLiteral | src/pew/ui.py:302-303 | a string argument becomes a single-quoted literal |
| Ui.JsLiteralRoundTrip | src/pew/ui.py:302-303 | a string without backslashes reads back from its literal unchanged |
| Ui.JsLiteralTrailingBackslash | src/pew/ui.py:303 | a trailing backslash escapes the closing quote, so the literal never ends |
| Ui.JsArgTexts | src/pew/ui.py:300-306 | one rendered text per argument, in order |
| Ui.JsCall | src/pew/ui.py:308 | the statement starts with the function name and `(` and ends with `);` |
| Ui.JsCallArguments | src/pew/ui.py:300-308 | arguments whose renderings hold no comma are found again by splitting the text between the parentheses |
| Ui.WebView.constructor | src/pew/ui.py:193-218 | with a protocol the page URL carries it as a query parameter and the protocol gains `://`; a given URL is loaded; nothing has loaded yet |
| Ui.WebView.LoadUrl | src/pew/ui.py:241-250 | the URL becomes the current one and is handed to the native view; nothing else changes |
| Ui.WebView.CallJsFunction | src/pew/ui.py:290-311 | the call is evaluated and appended, with a newline, to the session script |
| Ui.WebView.ShouldStartLoad | src/pew/ui.py:320-327 | a message URL is loaded exactly when the delegate fails to parse it; other URLs are loaded unless the delegate's `should_load_url` says otherwise |
| Ui.WebView.DidFinishLoad | src/pew/ui.py:332-342 | only the first finished load tells the page its protocol and sends `load_complete`; every finished load is passed on as `page_loaded`; `load_complete` reaches the delegate at most once |
| Ui.WebView.ForwardPageLoaded | src/pew/ui.py:341-342 | every finished load is passed on as `page_loaded` exactly when the delegate has that method, and nothing else changes |
| Ui.WebView.FirstLoad | src/pew/ui.py:333-339 | the first load marks the page loaded, sets the protocol and sends `load_complete` |
| Ui.WebView.DidFailLoad | src/pew/ui.py:344-345 | a failed load counts as loaded and nothing else changes |
| Ui.RenderArgs | src/pew/ui.py:300-306 | the loop renders exactly the argument texts |
| Ui.JsArgTextsSnoc | src/pew/ui.py:301-306 | one more argument adds its rendering at the end |
| Ui.SetProtocolScript | src/pew/ui.py:337 | the script calls `bridge.setProtocol` |
| Ui.CompletionsSnoc | src/pew/ui.py:338-339 | one more notice adds one completion exactly when it is `load_complete` |
| Ui.ViewState | src/pew/ui.py:258-269 | the backend's persisted state when it keeps one, else the empty mapping |
| Cache.InitialFilename | src/pew/cache.py:7-10 | the file name has no directory part, is never empty, and differs from `app_data` exactly in test mode |
| Cache.InDirKeepsName | src/pew/cache.py:12-14 | moving the cache into a directory keeps its file name, so moving it twice into the same directory is moving it once |
| Cache.Initial | src/pew/cache.py:19-27 | the new cache always holds `characters`; with no file, or a file holding `None`, that is all it holds; otherwise it holds exactly the unpickled keys plus `characters`, with the unpickled values unchanged |
| Cache.Dict.constructor | src/pew/cache.py:21-23 | the dictionary holds the entries given |
| Cache.Store.constructor | src/pew/cache.py:7-16 | before any call the cache is unset, nothing has been saved, and the file name depends only on test mode |
| Cache.Store.SetCacheDir | src/pew/cache.py:12-14 | the cache file keeps its name in the new directory; the cache itself is untouched |
| Cache.Store.GetCache | src/pew/cache.py:17-28 | the first call creates a new dictionary with the initial contents; every later call hands back the same object with its entries unchanged |
| Cache.Store.SaveCache | src/pew/cache.py:30-33 | the current cache, or `None` before any, is written to the current file name and nothing else changes |
| Menus.MenuItem.constructor | src/pew/menus.py:3-8 | the item keeps its title, handler and shortcut and has no native object yet |
| Menus.Menu.constructor | src/pew/menus.py:11-15 | a new menu has its title, no items and no native object |
| Menus.Menu.AddItem | src/pew/menus.py:17-18 | the item is appended last and the earlier items keep their order |
| Menus.MenuBar.constructor | src/pew/menus.py:21-24 | a new menu bar has no menus and no native object |
| Menus.MenuBar.AddMenu | src/pew/menus.py:26-27 | the menu is appended last and the earlier menus keep their order |
| Rest.AuthValue | src/pew/rest_client.py:140-145 | a cached token is sent with its type (a missing type raises `KeyError`); without a token, Basic credentials are sent when both client id and secret are set; otherwise there is no Authorization header |
| Rest.HeadersFacts | src/pew/rest_client.py:139-153 | JSON is always accepted and the method always echoed; compression is offered only for GET; the content type and length are declared only with a body, the length being the body's; Authorization is present exactly when there is a value for it |
| Rest.FieldText | src/pew/rest_client.py:161-164 | a string filter value is sent as it is |
| Rest.StrOfEach | src/pew/rest_client.py:163 | one text per item |
| Rest.FilterPieces | src/pew/rest_client.py:159-164 | one `name=value` piece per filter field |
| Rest.QueryPieces | src/pew/rest_client.py:155-164 | with a last-checked bound, the bound comes first as `last_modified__gte` |
| Rest.AmpersandedJoin | src/pew/rest_client.py:156-167 | prefixing each piece with '&' is joining them by '&' behind one leading '&' |
| Rest.ApiPathQuery | src/pew/rest_client.py:155-169 | without a bound or filter the path is unchanged; otherwise it is the path, '?', and the pieces joined by '&', and pieces free of '&' are found again by splitting that query |
| Rest.NoFilterPathUnchanged | src/pew/rest_client.py:166-169 | a call with neither bound nor filter requests the API path as given |
| Rest.Prepared | src/pew/rest_client.py:139-177 | a request that is sent carries the call's method and body and the path with its query |
| Rest.OutcomeAsWritten | src/pew/rest_client.py:196-224 | as written, a 401 ends the call with `None`; every other answer is classified as intended |
| Rest.Classified | src/pew/rest_client.py:196-229 | any status from 300 up fails: 401 as an authorization error, 400 as a bad request carrying the decoded body, the rest as a REST error with the body and status; an empty success gives `{}`, as does a bad status line; a timeout or refused connection is a connection error |
| Rest.UnauthorizedSwallowed | src/pew/rest_client.py:199-201 | for a 401 the written handler returns `None` where the intended outcome is an authorization error |
| Rest.Client.constructor | src/pew/rest_client.py:73-80 | a new client has its domain, no credentials and a 20-second timeout, and the cache exists without an existing cache being changed |
| Rest.Client.SetDomain | src/pew/rest_client.py:82-83 | only the domain changes |
| Rest.Client.SetTimeout | src/pew/rest_client.py:85-86 | only the timeout changes |
| Rest.Client.GetAuthToken | src/pew/rest_client.py:88-92 | the cached token when there is one, else nothing |
| Rest.Client.InvalidateToken | src/pew/rest_client.py:94-98 | the token, and only the token, is removed, and the cache is saved exactly when there was a token |
| Rest.Client.MakeApiCall | src/pew/rest_client.py:131-229 | the request is sent only when it could be prepared; the outcome is the classified answer, with the corrected 401 outcome of Findings; a 401 removes the cached token and saves the cache when there was one; otherwise the cache is untouched |
| Rest.Client.CallApi | src/pew/rest_client.py:124-129 | without a cached token it refuses with an authorization error and sends nothing; with one it gives the outcome of the call, appends the prepared request, and removes and saves the token only on a 401; the domain, credentials and cache file never change |
| Rest.FilterPiecesAppend | src/pew/rest_client.py:159-164 | the pieces of two runs of fields are the two runs' pieces side by side, and the first field that cannot be rendered decides the error |
| Rest.AmpersandedSnoc | src/pew/rest_client.py:164 | one more piece adds '&' and the piece at the end |
| Rest.BuildApiPath | src/pew/rest_client.py:155-169 | the loop writes exactly the path with its query, and fails at the first filter value that cannot be rendered |
| Rest.WriteFilter | src/pew/rest_client.py:159-164 | the filter loop appends `&name=value` for each field in order, and fails at the first value that cannot be rendered |
| JsBridge.HexDigit | src/templates/default/src/files/web/lib/nativebridge.js:23 | a hex digit is printable |
| JsBridge.Hex2 | src/templates/default/src/files/web/lib/nativebridge.js:23 | a byte is two printable hex digits |
| JsBridge.Hex4 | src/templates/default/src/files/web/lib/nativebridge.js:23 | a code unit is four printable hex digits, zero-padded |
| JsBridge.UnitEscape | src/templates/default/src/files/web/lib/nativebridge.js:23 | a code unit escape is a backslash, `u` and the unit's four hex digits |
| JsBridge.Escape | src/templates/default/src/files/web/lib/nativebridge.js:1-24 | an escape is printable ASCII, and a character the pattern does not match is kept as it is |
| JsBridge.EscapeAll | src/templates/default/src/files/web/lib/nativebridge.js:20-24 | the replaced text is printable ASCII throughout |
| JsBridge.EscapeAllPlain | src/templates/default/src/files/web/lib/nativebridge.js:19-25 | replacing in a string with nothing escapable leaves it unchanged |
| JsBridge.QuoteEscapes | src/templates/default/src/files/web/lib/nativebridge.js:11-26 | the test before the replacement is only a shortcut: quoting is escaping every escapable character |
| JsBridge.QuotePrintable | src/templates/default/src/files/web/lib/nativebridge.js:11-26 | a quoted string is printable ASCII throughout |
| JsBridge.Unhex2 | src/templates/default/src/files/web/lib/nativebridge.js:23 | two hex digits read back as a byte |
| JsBridge.Unhex4 | src/templates/default/src/files/web/lib/nativebridge.js:23 | four hex digits read back as a code unit |
| JsBridge.UnhexDigit | src/templates/default/src/files/web/lib/nativebridge.js:23 | a written hex digit reads back as its value |
| JsBridge.Unhex2Hex2 | src/templates/default/src/files/web/lib/nativebridge.js:23 | a byte's two digits read back as the byte |
| JsBridge.Unhex4Hex4 | src/templates/default/src/files/web/lib/nativebridge.js:23 | a code unit's four digits read back as the code unit |
| JsBridge.UnescapeOne | src/templates/default/src/files/web/lib/nativebridge.js:2-24 | the escape of one character of the Basic Multilingual Plane reads back as that character, whatever follows |
| JsBridge.QuoteRoundTrip | src/templates/default/src/files/web/lib/nativebridge.js:11-26 | a quoted string of the Basic Multilingual Plane reads back as the original string |
| JsBridge.Utf8 | src/templates/default/src/files/web/lib/nativebridge.js:88 | a character is one to four bytes |
| JsBridge.UpperHexDigit | src/templates/default/src/files/web/lib/nativebridge.js:88 | a percent-escape digit is itself an unreserved character |
| JsBridge.PercentBytes | src/templates/default/src/files/web/lib/nativebridge.js:88 | percent-encoded bytes use only unreserved characters and '%' |
| JsBridge.EncodeChar | src/templates/default/src/files/web/lib/nativebridge.js:88 | a character encodes to at least one character, each unreserved or '%' |
| JsBridge.EncodeUriComponent | src/templates/default/src/files/web/lib/nativebridge.js:88 | the encoding is at least as long as the text and uses only unreserved characters and '%' |
| JsBridge.EncodedIsOpaque | src/templates/default/src/files/web/lib/nativebridge.js:88 | an encoded argument holds no '&', '=', '?' or '/', and is ASCII |
| JsBridge.EncodedArgs | src/templates/default/src/files/web/lib/nativebridge.js:83-89 | one encoded text per argument, in order, each the encoding of the argument's text |
| JsBridge.MessageUrl | src/templates/default/src/files/web/lib/nativebridge.js:79-92 | without arguments the URL is the method name; it fails exactly when some argument is null or undefined |
| JsBridge.ReplaceFirst | src/templates/default/src/files/web/lib/nativebridge.js:98 | only the first occurrence is replaced, and the length is kept |
| JsBridge.Quoted | src/templates/default/src/files/web/lib/nativebridge.js:101-103 | one double-quoted text per argument, in order |
| JsBridge.MethodStringKeepsSecondSlash | src/templates/default/src/files/web/lib/nativebridge.js:98 | a name with two '/' keeps the second one in the controller call |
| JsBridge.NativeBridge.constructor | src/templates/default/src/files/web/lib/nativebridge.js:30-122 | the shared bridge starts with no protocol, English, no app data and no controller |
| JsBridge.NativeBridge.Initialize | src/templates/default/src/files/web/lib/nativebridge.js:32-38 | the bridge is reset to no protocol, English, no app data and no controller |
| JsBridge.NativeBridge.SetProtocol | src/templates/default/src/files/web/lib/nativebridge.js:40-43 | only the protocol changes |
| JsBridge.NativeBridge.SetJsController | src/templates/default/src/files/web/lib/nativebridge.js:45-47 | only the controller changes |
| JsBridge.NativeBridge.SetLanguage | src/templates/default/src/files/web/lib/nativebridge.js:49-52 | only the language changes |
| JsBridge.NativeBridge.GetLanguage | src/templates/default/src/files/web/lib/nativebridge.js:67-70 | the current language |
| JsBridge.NativeBridge.GetAppData | src/templates/default/src/files/web/lib/nativebridge.js:54-60 | the whole store without a key, the entry for a stored key, else undefined |
| JsBridge.NativeBridge.SetAppData | src/templates/default/src/files/web/lib/nativebridge.js:62-65 | parsable JSON is stored under the key and nothing else changes; text that does not parse throws and stores nothing |
| JsBridge.NativeBridge.SendMessage | src/templates/default/src/files/web/lib/nativebridge.js:77-116 | the message URL is built, and when that succeeds the message goes to the protocol if set, else to the controller, else to the log; the bridge's settings are unchanged |
| JsBridge.NativeBridge.GetJsValue | src/templates/default/src/files/web/lib/nativebridge.js:72-75 | the value is sent as a `get_value_from_js` message |
| JsBridge.BuildMessageUrl | src/templates/default/src/files/web/lib/nativebridge.js:79-92 | the loop appends each encoded argument and '&' and cuts the last '&', giving exactly the message URL |
| JsBridge.TerminatedStep | src/templates/default/src/files/web/lib/nativebridge.js:83-89 | one more argument adds its encoding and '&' |
| JsBridge.MessageUrlNullish | src/templates/default/src/files/web/lib/nativebridge.js:85 | a null or undefined argument makes the URL fail with a TypeError |
| JsBridge.MessageUrlTerminated | src/templates/default/src/files/web/lib/nativebridge.js:80-92 | with arguments, the URL is the name, '?' and the terminated encodings without the last '&' |
| JsBridge.TerminatedSnoc | src/templates/default/src/files/web/lib/nativebridge.js:88 | one more piece adds itself and '&' |
| JsBridge.TerminatedJoin | src/templates/default/src/files/web/lib/nativebridge.js:88-91 | cutting the last '&' from the terminated pieces joins them by '&' |
| JsBridge.JoinSnoc | src/templates/default/src/files/web/lib/nativebridge.js:88-91 | joining one more piece adds the separator and the piece |
| JsBridge.EncodedArgsSnoc | src/templates/default/src/files/web/lib/nativebridge.js:83-89 | one more argument adds its encoding at the end |
| JsBridge.SentArgumentsArrive | src/templates/default/src/files/web/lib/nativebridge.js:77-92 | positional arguments sent from the page reach the Python handler (src/pew/__init__.py) under the method name, with no keyword arguments, as the same texts in the same order |
| JsBridge.QuerySplitsBack | src/templates/default/src/files/web/lib/nativebridge.js:83-91 | the query of a message splits on '&' back into the encoded arguments |
| JsBridge.PieceDecodes | src/templates/default/src/files/web/lib/nativebridge.js:88 | one encoded argument without '=' decodes on the Python side as a positional argument |
| JsBridge.JoinKeepsFirst | src/templates/default/src/files/web/lib/nativebridge.js:88-91 | the joined query is at least as long as its first piece |
| MobilePy.Command | src/mobilepy/ui/__init__.py:15-32 | the call names the delegate method after the URL's host and ends with its closing parenthesis |
| MobilePy.ConcatAppend | src/mobilepy/ui/__init__.py:22-29 | the fragments of two runs of pieces are the two runs' fragments side by side, with nothing inserted between them |
| MobilePy.ConcatSnoc | src/mobilepy/ui/__init__.py:22-29 | one more piece adds its fragment at the end |
| MobilePy.ConcatAgree | src/mobilepy/ui/__init__.py:22-29 | pieces rendered the same way one by one give the same argument text |
| MobilePy.PositionalFragment | src/mobilepy/ui/__init__.py:28-29 | a piece without '=' is quoted whole |
| MobilePy.KeywordFragment | src/mobilepy/ui/__init__.py:23-27 | a piece with exactly one '=' becomes `name="value"` |
| MobilePy.TwoEqualsQuoted | src/mobilepy/ui/__init__.py:23-29 | a piece with two '=' is quoted whole, the '=' signs included |
| MobilePy.AdjacentLiterals | src/mobilepy/ui/__init__.py:21-30 | two positional pieces give two adjacent string literals with no comma between them |
| MobilePy.TwoQuoted | src/mobilepy/ui/__init__.py:22-29 | two pieces without '=' are both quoted, back to back |
| MobilePy.PathFallbackGivesEmptyArgument | src/mobilepy/ui/__init__.py:17-21 | an empty query with a non-empty path still splits the empty query, so the call gets one empty-string argument |
| MobilePy.NoQueryNoArguments | src/mobilepy/ui/__init__.py:17-30 | with neither query nor path the delegate method is called without arguments |
| MobilePy.SentArgumentsQuoted | src/mobilepy/ui/__init__.py:15-32 | a message from the page's bridge (nativebridge.js) becomes a call of the method with each encoded argument as a quoted literal |
| MobilePy.BaseWebViewDelegate.constructor | src/mobilepy/ui/__init__.py:5-7 | the delegate keeps its protocol and has made no call |
| MobilePy.BaseWebViewDelegate.ParseMessage | src/mobilepy/ui/__init__.py:9-36 | a URL of another protocol is refused and makes no call; any other URL is handled and makes exactly one call, the command for its parts |
| MobilePy.BaseWebViewDelegate.DidFinishLoad | src/mobilepy/ui/__init__.py:44-45 | every finished load evaluates one `bridge.setProtocol('<protocol>')` script and makes no call |
| MobilePy.BaseWebViewDelegate.ShouldStartLoad | src/mobilepy/ui/__init__.py:38-40 | the web view loads exactly the URLs that are not messages, and a message makes its call |
| MobilePy.BuildCommand | src/mobilepy/ui/__init__.py:15-32 | the loop writes exactly the command for the URL's parts |
| MobilePy.WriteArguments | src/mobilepy/ui/__init__.py:21-29 | each query piece is written in order as `name="value"` when it splits on '=' into two parts, else quoted whole |

## Left out

- Real I/O: the network, the GUI toolkits and threads are not modelled. The REST connection is represented by the answer it gives, and the downloader by a `fetch` parameter. The HTTP servers and threads of src/pew/__init__.py (52-124) are absent, and so are the native web views.
- Library functions are parameters: `urlparse`, `unquote`, `json.loads`, `JSON.parse`, base64, md5 and `pickle`. `encodeURIComponent` is written out in full. `JSON.stringify` is not: an array or object argument of `sendMessage` carries its JSON text.
- `eval`: the Python and JavaScript sides build the text of a call (`parse_message` in src/pew/__init__.py and src/mobilepy/ui/__init__.py, `sendMessage` in nativebridge.js) and the model records that text or the decoded name and arguments; what the evaluated call does is not modelled.
- Floating point: iOS icon widths are exact reals (`float(width) * scale`), and REST timestamp conversions and the downloader's progress are absent.
- Notarization: only the `NotImplementedError` of src/pew/controllers/base.py exists in the code; no polling is modelled.
- src/pew/controllers/utils.py does not define `copy_files`, `copy_data_files`, `copy_pew_module` or `get_image_info`, which android.py and ios.py reach through `from .utils import *`; their staging is recorded as opaque events.
- src/pew/ui/__init__.py is not part of this model: its keyword-argument path uses the undefined name `ulrlib`.
- `get_pew_config` (src/pew/controllers/utils.py:10-20) returns nothing and is not modelled; nor are `src/pew/controllers/__init__.py`'s constructor calls with one argument where two are taken, nor `IOSBuildController.dist` calling `build()` without settings.
- Cli: the `build` command's per-platform dispatch (src/pew/cli/tool.py:289-486) is not modelled beyond the settings it gathers; its osx/win codesign branch refers to an undefined `dist_dir`. `init`, `update`, `dist`, `run` (except the browser URL arguments), `test`, `get`, `set` and `main` are not modelled.
- Legacy: the iOS branch of the old tool's `build` (src/pew/tool.py from 379) and its py2app/py2exe desktop setup (about 420-590) are not modelled; `create` and `run` neither. Its private lookups (173-190) are the same as `Utils`'s and are not modelled twice.
- Pewtools.GetDependenciesForPlatform: the kept-file outcome is stated for platforms with one dependency, which is what the shipped table holds, and the failed download for the first dependency; a longer list is processed, but the later dependencies' outcomes are not specified.
- Pewtools.Download: every failed download raises the one error `Pewtools.DownloadFailed`. In src/pewtools/downloader.py the message names the URL and the status of a non-200 answer (24-25), a connection error raises the HTTP library's own exception (23), and the resumed retries are not modelled.
- Pewtools: unzipping is recorded as a command; `pip install` through the virtualenv API is approximated by running `venv/bin/pip install <dep>`.
- Win: the distutils `build` returns nothing and is modelled as its `setup()` event.
- Ui.WebView.constructor: requires a URL whenever a protocol is given, because the source then concatenates `None` with a string and raises `TypeError`; that raise is not modelled.
- Ui: the probing of native backends beyond the import outcome (src/pew/ui.py:81-106), `_wait_for_js_value`, `set_title`, `shutdown`, the window methods and `PEWApp` are not modelled.
- Bridge: `get_js_value`'s waiting, `get_app_dir` and `get_files_dir` are not modelled.
- Rest: `sign_in`, the time conversions and gzip decoding are not modelled. The retry after a 401 while a token is cached cannot happen (see Findings). The filter's fields arrive as a sequence of pairs, because Python 2 dict order is not part of the code.
- Json: `str()` of a list or dict is not modelled (`Json.PyStr` fails on them), and floats are absent. `call_js_function` therefore takes a non-string argument together with its `str()` text.
- JsBridge.QuoteRoundTrip: stated for the Basic Multilingual Plane only; astral characters are two UTF-16 code units in JavaScript and one character here.
- JsBridge: `appData` keys that coincide with the properties of an array (`length`, ...) are ordinary keys here.
- Legacy.FreshTree: the copy filter decides per file by its parent directory, which is equivalent to `copytree`'s per-directory `ignore` callback (proved as `Legacy.ParentDecides`), not the callback itself.
- Legacy.BuildFromPlan: a `packages` entry that is not a list of strings fails with `TypeError` before any install. In the source the raise comes later, from `subprocess` at that package's install. The package list is also read before the virtualenv's directory is made, where the source makes the directory first; the directory is not made when that read fails.
- Android.P4aCommand: composes the corrected `Android.NumericVersion` (see Findings). With an integer or boolean `build_number` the model passes the integer's text to p4a; the source puts the raw value in the command, and `subprocess` then raises `TypeError`. A string `build_number` is passed unchanged, as in the source.
- Android.PrepareBuild: the same corrected numeric version as `Android.P4aCommand`.
- Android.Build: the same corrected numeric version as `Android.P4aCommand`. In the source the `TypeError` comes after the staging directory has been removed.
- Base.Described: every controller requires a descriptor whose `name`, `version` and `identifier` are strings, and whose `source_dir`, `import_hooks_file` and `asset_dirs` have the expected type when present. The `KeyError` or `TypeError` the source raises on any other descriptor is not modelled.
- Host.Machine.CopyTree: never fails, and neither does `Host.Machine.CopyTreeSome`. `shutil.copytree` raises when the destination exists or the source is missing. So the copies made by `Pewtools`, `Legacy`, `Cli` and `Ios` do not model those raises.
- Json.Iter: iteration over a mapping gives `Unsupported`. Python iterates a dict's keys, but a dict's key order is not part of the value here.
- Cli.ImageInfo: compares the file's bytes with the PNG signature as Python 2 does, with bytes and text as one type. Under Python 3 that comparison is always false, so `get_image_info` always raises; that reading is not modelled.
- JsBridge.SentArgumentsArrive: assumes through its precondition that the `unquote` parameter inverts `encodeURIComponent`. `unquote` is a library function and that property of it is not proved.
- Rest.Client.MakeApiCall: on an answer with status 401 the client returns `Failed(AuthorizationError(...))` through the corrected `Rest.Classified`. The source as written returns `None` there (see Findings; `Rest.OutcomeAsWritten` models that outcome).
- Rest.Client.CallApi: the same corrected 401 outcome as `Rest.Client.MakeApiCall`.
- Rest.CallResult: the same corrected 401 outcome as `Rest.Client.MakeApiCall`.
- Ios.CopySlotIcon: composes the corrected `Ios.ChooseIcon` (see Findings). When the best icon so far has a name like `app-icon-120.png` and a larger icon follows, the source raises `ValueError`; the model copies the icon it chose.
- Ios.CopyAppIcons: the same corrected icon choice as `Ios.CopySlotIcon`.
- Ios.IconSlots: the same corrected icon choice as `Ios.CopySlotIcon`.
- Ios.CopyIcons: the same corrected icon choice as `Ios.CopySlotIcon`.
- Ios.FillPlist: the same corrected icon choice as `Ios.CopySlotIcon`, so the plist is written back where the source has raised at src/pew/controllers/ios.py:100.
- Ios.Fill: the same corrected icon choice as `Ios.CopySlotIcon`.
- Ios.Build: the same corrected icon choice as `Ios.CopySlotIcon`.
- Ios.Build: takes `shutil` as imported and `cwd` as the working directory (see Findings; `Ios.BuildAsWritten` models the `NameError` the source raises at src/pew/controllers/ios.py:44).
- Ios.CopySlotIcon: reads the icon below the working directory and copies it with `shutil.copyfile`; the source names the undefined `cwd` at src/pew/controllers/ios.py:106 and the unimported `shutil` at 110.
- Ios.CopyEach: copies with `shutil.copy`, which src/pew/controllers/ios.py:179 uses without importing `shutil`.
- Ios.CopyIconFiles: the same `shutil` assumption as `Ios.CopyEach`.
- Base.PackageStem: lower-cases ASCII letters only. Python 3's `str.lower` (src/pew/controllers/osx.py:81, src/pew/controllers/win.py:109) lowers every cased character, so a name such as "Émile" gives a different dmg or installer stem; the stem's properties hold for names whose cased characters are ASCII.
- Bridge.HiddenName: lower-cases ASCII letters only. Python 3's `str.lower` lowers every cased character, and some characters become two (`'İ'.lower()`), so the length claim holds only for names whose cased characters are ASCII.
- Ui.JsLiteral: leaves out the `.encode("utf-8")` of src/pew/ui.py:303; under Python 2 it keeps the text, and under Python 3 it turns the literal into bytes whose `%` formatting prints a `b'...'` form.
- Rest: the module-level replacement of the default HTTPS context by an unverified one (src/pew/rest_client.py:15-17) is a process-wide effect on certificate checking and is not modelled.
- Ios.UpdateProject: the text of `project.pbxproj` is not modelled. Loading, `add_file`, `remove_flags` and the development team are recorded as the edits of one `ProjectSaved` event, and the save leaves the file's text as it was. The team is one edit, where the source sets it once per target (and reads it only when the template has a target). `set_provisioning_style` is not recorded.
- Ios.FinishProject: a non-string requirement fails with `TypeError` before any install; in the source the failure comes at that requirement's install. Creating the virtual environment is not modelled.
- Android.InstallPackages: a non-string package fails with `TypeError` before any install, as for `Ios.FinishProject`. The `python2.7` interpreter the environment is made with is not modelled.

## Findings

| source | as written | input that shows it | evidently intended | confidence | as-written member | corrected member |
|---|---|---|---|---|---|---|
| src/pew/__init__.py:264-269 | the Windows fallback refers to `spp_name`, which is defined nowhere | `get_app_files_dir()` on Windows without an existing `%APPDATA%` | `~/Application Data/<app name>` | high (not executed) | Bridge.AppFilesDirAsWritten, Bridge.WindowsFallbackRaises | Bridge.AppFilesDir, Bridge.AppFilesDirNamedAfterApp |
| src/pew/rest_client.py:196-201,220-224 | the `AuthorizationError` raised for a 401 is caught by the handler meant to retry with a full sign-in, which only retries while a token is cached; the token was removed just before, so the call returns `None` | any answer with status 401 | the `AuthorizationError` reaches the caller | high (not executed) | Rest.OutcomeAsWritten, Rest.UnauthorizedSwallowed | Rest.Classified |
| src/pew/controllers/android.py:141-152 | `int(build_number)` only checks the value; the raw value goes into the command | `"build_number": 12` (a JSON integer) | the number as text, `--numeric-version 12`; a string value stays as written | medium (not executed) | Android.NumericVersionAsWritten, Android.IntegerBuildNumberRejected | Android.NumericVersion |
| src/pew/controllers/ios.py:44,50,106,110,179 | `shutil` is used but never imported, and `cwd` is never defined; `from .utils import *` binds only `json`, `os` and the names of utils.py | any iOS build whose template is present: the `rmtree` at line 44 runs because `get_build_dir` has just created the directory | `import shutil`, and `cwd = os.getcwd()` as in android.py | high (not executed) | Ios.BuildAsWritten, Ios.CopyNamesUnbound | Ios.Build |
| src/pew/controllers/ios.py:100 | the size of the best icon so far is read as the second `-`-separated part of its name, not the trailing number | a best icon named `app-icon-120.png` | the trailing number, as at line 92 | high (not executed) | Ios.BestSizeAsWritten, Ios.AsWrittenRejects | Ios.TrailingSize, Ios.ChooseIcon |

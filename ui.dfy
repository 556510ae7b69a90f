/**
 * The toolkit-independent part of the UI layer: choosing the web-view
 * backends in preference order, and the web view's own bookkeeping (the
 * app protocol, the script of JavaScript calls, load state and the
 * notifications passed on to its delegate). The native web view is
 * represented by the traces of what is handed to it.
 */
module Ui {
  import opened Wrappers
  import opened Json
  import Text
  import Sets

  // ---------------------------------------------------------------------
  // Backend selection
  // ---------------------------------------------------------------------

  /** The backends probed for, in probing order. */
  function Backends(): (r: seq<string>)
    ensures Sets.Distinct(r)
  {
    ["ios", "android", "pyobjc", "wx", "chromium", "gtk"]
  }

  /** The backends whose imports succeed (`importable`), in probing order. */
  function Probed(names: seq<string>, importable: string -> bool): (r: seq<string>)
    ensures forall x :: x in r <==> x in names && importable(x)
    ensures Sets.Distinct(names) ==> Sets.Distinct(r)
  {
    if names == [] then []
    else if importable(names[0]) then [names[0]] + Probed(names[1..], importable)
    else Probed(names[1..], importable)
  }

  /** The backends `check_platforms` finds, each once, in probing order. */
  function Detected(importable: string -> bool): (r: seq<string>)
    ensures Sets.Distinct(r)
    ensures forall x :: x in r <==> x in Backends() && importable(x)
  {
    Probed(Backends(), importable)
  }

  /** `xs` with every occurrence of `p` removed, the rest in order. */
  function Without<T(==, !new)>(xs: seq<T>, p: T): (r: seq<T>)
    ensures forall x :: x in r <==> x in xs && x != p
    ensures p !in xs ==> r == xs
  {
    if xs == [] then []
    else if xs[0] == p then Without(xs[1..], p)
    else [xs[0]] + Without(xs[1..], p)
  }

  /** The preferred names that were detected, each once, ordered by first mention. */
  function Front<T(==, !new)>(prefs: seq<T>, detected: seq<T>): (r: seq<T>)
    ensures forall x :: x in r <==> x in prefs && x in detected
    ensures Sets.Distinct(r)
  {
    if prefs == [] then []
    else if prefs[0] in detected then
      var f := Front(prefs[1..], detected);
      WithoutDistinct(f, prefs[0]);
      [prefs[0]] + Without(f, prefs[0])
    else Front(prefs[1..], detected)
  }

  lemma {:induction false} WithoutDistinct<T(!new)>(xs: seq<T>, p: T)
    requires Sets.Distinct(xs)
    ensures Sets.Distinct(Without(xs, p))
    decreases |xs|
  {
    if xs != [] {
      var t := xs[1..];
      DistinctTail(xs);
      WithoutDistinct(t, p);
      if xs[0] != p {
        var w := Without(t, p);
        assert xs[0] !in w;
        forall i, j | 0 <= i < j < |[xs[0]] + w| ensures ([xs[0]] + w)[i] != ([xs[0]] + w)[j] {
          if i > 0 {
            assert ([xs[0]] + w)[i] == w[i - 1] && ([xs[0]] + w)[j] == w[j - 1];
          } else {
            assert ([xs[0]] + w)[j] == w[j - 1];
          }
        }
      }
    }
  }

  /** The detected names that are not preferred, in detection order. */
  function Rest<T(==, !new)>(detected: seq<T>, prefs: seq<T>): (r: seq<T>)
    ensures forall x :: x in r <==> x in detected && x !in prefs
    ensures Sets.Distinct(detected) ==> Sets.Distinct(r)
  {
    if detected == [] then []
    else if detected[0] in prefs then Rest(detected[1..], prefs)
    else [detected[0]] + Rest(detected[1..], prefs)
  }

  /** The detected backends reordered so that the preferred ones come first. */
  function Reordered<T(==, !new)>(detected: seq<T>, prefs: seq<T>): seq<T> {
    Front(prefs, detected) + Rest(detected, prefs)
  }

  /** The preferred names that were detected, in preferred order. */
  function Kept<T(==, !new)>(prefs: seq<T>, detected: seq<T>): (r: seq<T>)
    ensures forall x :: x in r <==> x in prefs && x in detected
  {
    if prefs == [] then []
    else if prefs[0] in detected then [prefs[0]] + Kept(prefs[1..], detected)
    else Kept(prefs[1..], detected)
  }

  /** A list reversed, as `list.reverse()` leaves it. */
  function Reverse<T>(xs: seq<T>): (r: seq<T>)
    ensures |r| == |xs|
  {
    if xs == [] then [] else Reverse(xs[1..]) + [xs[0]]
  }

  /** The reversed list holds the elements in the opposite order. */
  lemma {:induction false} ReverseAt<T>(xs: seq<T>, i: nat)
    requires i < |xs|
    ensures Reverse(xs)[i] == xs[|xs| - 1 - i]
    decreases |xs|
  {
    if i < |xs| - 1 {
      ReverseAt(xs[1..], i);
    }
  }

  lemma ReorderedDistinct<T(!new)>(detected: seq<T>, prefs: seq<T>)
    requires Sets.Distinct(detected)
    ensures Sets.Distinct(Reordered(detected, prefs))
  {
    var f := Front(prefs, detected);
    var g := Rest(detected, prefs);
    forall i, j | 0 <= i < j < |f + g| ensures (f + g)[i] != (f + g)[j] {
      if i < |f| && j >= |f| {
        assert (f + g)[i] == f[i] && f[i] in prefs;
        assert (f + g)[j] == g[j - |f|] && g[j - |f|] !in prefs;
      } else if i < |f| {
        assert (f + g)[i] == f[i] && (f + g)[j] == f[j];
      } else {
        assert (f + g)[i] == g[i - |f|] && (f + g)[j] == g[j - |f|];
      }
    }
  }

  /** The tail of a distinct list is distinct and does not hold its head. */
  lemma DistinctTail<T(!new)>(xs: seq<T>)
    requires Sets.Distinct(xs) && xs != []
    ensures Sets.Distinct(xs[1..]) && xs[0] !in xs[1..]
  {
    var t := xs[1..];
    forall i, j | 0 <= i < j < |t| ensures t[i] != t[j] {
      assert t[i] == xs[i + 1] && t[j] == xs[j + 1];
    }
    forall j | 0 <= j < |t| ensures t[j] != xs[0] {
      assert t[j] == xs[j + 1];
    }
  }

  /** In a distinct list, the value at `k` occurs neither before nor after `k`. */
  lemma DistinctApart<T(!new)>(xs: seq<T>, k: nat)
    requires Sets.Distinct(xs) && k < |xs|
    ensures xs[k] !in xs[..k] && xs[k] !in xs[k + 1..]
  {
    var a, b := xs[..k], xs[k + 1..];
    forall j | 0 <= j < |a| ensures a[j] != xs[k] {
      assert a[j] == xs[j];
    }
    forall j | 0 <= j < |b| ensures b[j] != xs[k] {
      assert b[j] == xs[k + 1 + j];
    }
  }

  /** Popping the only occurrence of a value, at `k`, is removing the value. */
  lemma {:induction false} RemoveAt<T(!new)>(xs: seq<T>, k: nat)
    requires k < |xs| && xs[k] !in xs[..k] && xs[k] !in xs[k + 1..]
    ensures xs[..k] + xs[k + 1..] == Without(xs, xs[k])
    decreases k
  {
    var p, t := xs[k], xs[1..];
    if k == 0 {
      assert xs[..0] + xs[1..] == t;
    } else {
      var a, b := t[..k - 1], xs[..k];
      assert b == [xs[0]] + a && t[k - 1] == p && t[k..] == xs[k + 1..] by {
        assert b[0] == xs[0];
        assert b[1..] == a;
      }
      assert xs[0] != p;
      assert p !in a;
      RemoveAt(t, k - 1);
      WithoutCons(xs, p);
      ConsAppend(xs[0], a, t[k..]);
    }
  }

  lemma ConsAppend<T>(x: T, a: seq<T>, b: seq<T>)
    ensures ([x] + a) + b == [x] + (a + b)
  {
  }

  /** Removing a value other than the head keeps the head in front. */
  lemma WithoutCons<T(!new)>(xs: seq<T>, p: T)
    requires xs != [] && xs[0] != p
    ensures Without(xs, p) == [xs[0]] + Without(xs[1..], p)
  {
  }

  lemma {:induction false} WithoutAppend<T(!new)>(a: seq<T>, b: seq<T>, p: T)
    ensures Without(a + b, p) == Without(a, p) + Without(b, p)
    decreases |a|
  {
    if a == [] {
      assert a + b == b;
    } else {
      assert (a + b)[1..] == a[1..] + b;
      WithoutAppend(a[1..], b, p);
    }
  }

  /** Preferring one more detected name removes it from the rest. */
  lemma {:induction false} RestWithout<T(!new)>(detected: seq<T>, prefs: seq<T>, p: T)
    ensures Without(Rest(detected, prefs), p) == Rest(detected, [p] + prefs)
    decreases |detected|
  {
    if detected != [] {
      RestWithout(detected[1..], prefs, p);
    }
  }

  /** Preferring a name that was not detected changes nothing. */
  lemma {:induction false} RestUndetected<T(!new)>(detected: seq<T>, prefs: seq<T>, p: T)
    requires p !in detected
    ensures Rest(detected, [p] + prefs) == Rest(detected, prefs)
    decreases |detected|
  {
    if detected != [] {
      RestUndetected(detected[1..], prefs, p);
    }
  }

  /**
   * One step of the reordering loop: moving the next preferred name to the
   * front of the list reordered for the names after it gives the list
   * reordered for it and those names.
   */
  lemma MoveToFront<T(!new)>(detected: seq<T>, prefs: seq<T>, p: T, k: nat)
    requires Sets.Distinct(detected)
    requires var xs := Reordered(detected, prefs); k < |xs| && xs[k] == p
    ensures var xs := Reordered(detected, prefs);
      [p] + (xs[..k] + xs[k + 1..]) == Reordered(detected, [p] + prefs)
  {
    var f := Front(prefs, detected);
    var g := Rest(detected, prefs);
    ReorderedDistinct(detected, prefs);
    PopFromPair(f, g, k);
    RestWithout(detected, prefs, p);
    assert p in detected by {
      assert p in f + g;
    }
    FrontPrepend(prefs, detected, p);
  }

  /** Popping the value at `k` from a distinct pair of lists removes it from each. */
  lemma PopFromPair<T(!new)>(f: seq<T>, g: seq<T>, k: nat)
    requires Sets.Distinct(f + g) && k < |f + g|
    ensures var xs, p := f + g, (f + g)[k];
      [p] + (xs[..k] + xs[k + 1..]) == ([p] + Without(f, p)) + Without(g, p)
  {
    var xs, p := f + g, (f + g)[k];
    DistinctApart(xs, k);
    RemoveAt(xs, k);
    WithoutAppend(f, g, p);
  }

  /** Preferring a detected name first puts it before the other preferred ones. */
  lemma FrontPrepend<T(!new)>(prefs: seq<T>, detected: seq<T>, p: T)
    requires p in detected
    ensures Front([p] + prefs, detected) == [p] + Without(Front(prefs, detected), p)
  {
    assert ([p] + prefs)[1..] == prefs;
  }

  /** With distinct preferences, the front holds the detected preferences in preferred order. */
  lemma {:induction false} FrontOfDistinct<T(!new)>(prefs: seq<T>, detected: seq<T>)
    requires Sets.Distinct(prefs)
    ensures Front(prefs, detected) == Kept(prefs, detected)
    decreases |prefs|
  {
    if prefs != [] {
      var t := prefs[1..];
      assert Sets.Distinct(t) by {
        forall i, j | 0 <= i < j < |t| ensures t[i] != t[j] {
          assert t[i] == prefs[i + 1] && t[j] == prefs[j + 1];
        }
      }
      FrontOfDistinct(t, detected);
      assert prefs[0] !in t by {
        forall j | 0 <= j < |t| ensures t[j] != prefs[0] {
          assert t[j] == prefs[j + 1];
        }
      }
    }
  }

  /** A distinct list holds each of its members exactly once. */
  lemma {:induction false} DistinctCounts<T(!new)>(xs: seq<T>)
    requires Sets.Distinct(xs)
    ensures forall x :: multiset(xs)[x] == if x in xs then 1 else 0
    decreases |xs|
  {
    if xs != [] {
      var t := xs[1..];
      assert Sets.Distinct(t) by {
        forall i, j | 0 <= i < j < |t| ensures t[i] != t[j] {
          assert t[i] == xs[i + 1] && t[j] == xs[j + 1];
        }
      }
      DistinctCounts(t);
      assert xs == [xs[0]] + t;
      assert xs[0] !in t by {
        forall j | 0 <= j < |t| ensures t[j] != xs[0] {
          assert t[j] == xs[j + 1];
        }
      }
    }
  }

  /** The reordering is a permutation of the detected backends, whatever the preferences. */
  lemma ReorderedIsPermutation<T(!new)>(detected: seq<T>, prefs: seq<T>)
    requires Sets.Distinct(detected)
    ensures multiset(Reordered(detected, prefs)) == multiset(detected)
  {
    var r := Reordered(detected, prefs);
    ReorderedDistinct(detected, prefs);
    DistinctCounts(r);
    DistinctCounts(detected);
    assert forall x :: multiset(r)[x] == multiset(detected)[x];
  }

  /**
   * With distinct preferences, the reordering puts the detected preferred
   * backends first, in preferred order, and keeps the others in detection
   * order.
   */
  lemma ReorderedLayout<T(!new)>(detected: seq<T>, prefs: seq<T>)
    requires Sets.Distinct(prefs)
    ensures Reordered(detected, prefs) == Kept(prefs, detected) + Rest(detected, prefs)
  {
    FrontOfDistinct(prefs, detected);
  }

  /** `pew.options`: the backend preferences `check_platforms` reverses in place. */
  class Options {
    var preferredPlatforms: seq<string>

    constructor (preferred: seq<string>)
      ensures preferredPlatforms == preferred
    {
      preferredPlatforms := preferred;
    }
  }

  /** The first position of `p` in `xs` (`xs.index(p)`). */
  function Position<T(==, !new)>(xs: seq<T>, p: T): (k: nat)
    requires p in xs
    ensures k < |xs| && xs[k] == p && p !in xs[..k]
  {
    if xs[0] == p then 0 else 1 + Position(xs[1..], p)
  }

  /**
   * `check_platforms()`: the importable backends, with the preferred ones
   * moved to the front. Without any backend it raises. The preference list
   * is reversed in place along the way, and stays reversed.
   */
  method CheckPlatforms(importable: string -> bool, options: Options) returns (r: Result<seq<string>>)
    modifies options
    ensures var detected := Detected(importable);
      if detected == [] then
        r.Err? && options.preferredPlatforms == old(options.preferredPlatforms)
      else
        r == Ok(Reordered(detected, old(options.preferredPlatforms))) &&
        options.preferredPlatforms == if old(options.preferredPlatforms) == [] then [] else Reverse(old(options.preferredPlatforms))
  {
    var platforms := Detected(importable);
    if |platforms| == 0 {
      return Err(Raised("PyEverywhere could not load a browser for this platform."));
    }
    ghost var prefs := options.preferredPlatforms;
    if |options.preferredPlatforms| > 0 {
      options.preferredPlatforms := Reverse(options.preferredPlatforms);
      platforms := MoveEachToFront(platforms, options.preferredPlatforms, prefs);
    } else {
      RestNone(platforms);
      assert Reordered(platforms, prefs) == platforms;
    }
    return Ok(platforms);
  }

  /**
   * The reordering loop of `check_platforms`: each name of `order` (the
   * preferences reversed) that was detected is popped and inserted at the
   * front.
   */
  method MoveEachToFront<T(==, !new)>(detected: seq<T>, order: seq<T>, ghost prefs: seq<T>) returns (platforms: seq<T>)
    requires Sets.Distinct(detected) && order == Reverse(prefs)
    ensures platforms == Reordered(detected, prefs)
  {
    platforms := detected;
    var i := 0;
    var n := |order|;
    ghost var done: seq<T> := [];
    assert prefs[n..] == [];
    RestNone(detected);
    while i < n
      invariant 0 <= i <= n
      invariant done == prefs[n - i..]
      invariant platforms == Reordered(detected, done)
    {
      var platform := order[i];
      assert [platform] + done == prefs[n - (i + 1)..] by {
        ReversedSuffix(prefs, order, i);
      }
      platforms := MoveOneToFront(platforms, platform, detected, done);
      done := [platform] + done;
      i := i + 1;
    }
    assert prefs[0..] == prefs;
  }

  /** One turn of the reordering loop: a detected name is popped and inserted at the front. */
  method MoveOneToFront<T(==, !new)>(platforms: seq<T>, platform: T, ghost detected: seq<T>, ghost done: seq<T>) returns (r: seq<T>)
    requires Sets.Distinct(detected) && platforms == Reordered(detected, done)
    ensures r == Reordered(detected, [platform] + done)
  {
    r := platforms;
    if platform in platforms {
      var k := Position(platforms, platform);
      MoveToFront(detected, done, platform, k);
      r := [platform] + (platforms[..k] + platforms[k + 1..]);
    } else {
      StepUndetected(detected, done, platform);
    }
  }

  /** Taking the reversed list one more step lengthens the suffix of the original by one. */
  lemma ReversedSuffix<T>(prefs: seq<T>, order: seq<T>, i: nat)
    requires order == Reverse(prefs) && i < |order|
    ensures prefs[|prefs| - 1 - i..] == [order[i]] + prefs[|prefs| - i..]
  {
    ReverseAt(prefs, i);
    SuffixCons(prefs, |prefs| - 1 - i);
  }

  /** A suffix is its first element followed by the next suffix. */
  lemma SuffixCons<T>(xs: seq<T>, j: nat)
    requires j < |xs|
    ensures xs[j..] == [xs[j]] + xs[j + 1..]
  {
    var a, b := xs[j..], [xs[j]] + xs[j + 1..];
    forall t | 0 <= t < |a| ensures a[t] == b[t] {
      assert a[t] == xs[j + t];
    }
  }

  lemma {:induction false} RestNone<T(!new)>(detected: seq<T>)
    ensures Rest(detected, []) == detected
    decreases |detected|
  {
    if detected != [] {
      RestNone(detected[1..]);
    }
  }

  /** Preferring a name that is not among the platforms leaves the order as it is. */
  lemma StepUndetected<T(!new)>(detected: seq<T>, prefs: seq<T>, p: T)
    requires p !in Reordered(detected, prefs)
    ensures Reordered(detected, [p] + prefs) == Reordered(detected, prefs)
  {
    assert p !in detected;
    assert ([p] + prefs)[1..] == prefs;
    RestUndetected(detected, prefs, p);
  }

  // ---------------------------------------------------------------------
  // The web view
  // ---------------------------------------------------------------------

  /** The optional hooks a delegate object may define. */
  datatype Delegate = Delegate(hasShouldLoadUrl: bool, hasLoadComplete: bool, hasPageLoaded: bool)

  /** What the web view tells its delegate. */
  datatype Notice = LoadComplete | PageLoaded(url: Option<string>)

  /** An argument of `call_js_function`: a string, or any other value as `str()` renders it. */
  datatype JsArg = StrArg(s: string) | OtherArg(text: string)

  /** The protocol prefix a message URL must carry: the given protocol, with "://" when it has none. */
  function MessagePrefix(protocol: string): (r: string)
    ensures Text.Contains(r, "://")
    ensures Text.StartsWith(r, protocol)
  {
    if Text.Contains(protocol, "://") then protocol
    else
      assert Text.MatchAt(protocol + "://", "://", |protocol|);
      protocol + "://"
  }

  /** The prefix is fixed: a protocol that already carries "://" is kept as it is. */
  lemma MessagePrefixIdempotent(protocol: string)
    ensures MessagePrefix(MessagePrefix(protocol)) == MessagePrefix(protocol)
  {
  }

  /** The page URL with the protocol passed to the page as a query parameter. */
  function ProtocolUrl(url: string, protocol: string): (r: string)
    ensures Text.StartsWith(r, url) && Text.EndsWith(r, protocol)
  {
    url + "?protocol=" + protocol
  }

  /** A string argument as a single-quoted JavaScript literal: each `'` becomes `\'`. */
  function JsLiteral(s: string): (r: string)
    ensures |r| >= 2 && r[0] == '\'' && r[|r| - 1] == '\''
  {
    "'" + Text.Replace(s, "'", "\\'") + "'"
  }

  /**
   * The text a JavaScript single-quoted string body stands for, or `None`
   * where an unescaped quote ends it early or a backslash is left dangling.
   */
  function JsStringBody(t: string): (r: Option<string>)
    decreases |t|
  {
    if t == [] then Some("")
    else if t[0] == '\'' then None
    else if t[0] == '\\' then
      if |t| < 2 then None
      else
        var rest := JsStringBody(t[2..]);
        if rest.None? then None else Some([t[1]] + rest.value)
    else
      var rest := JsStringBody(t[1..]);
      if rest.None? then None else Some([t[0]] + rest.value)
  }

  /** A string without backslashes survives quoting: the literal's body reads back as the string. */
  lemma {:induction false} JsLiteralRoundTrip(s: string)
    requires '\\' !in s
    ensures var r := JsLiteral(s); JsStringBody(r[1..|r| - 1]) == Some(s)
    decreases |s|
  {
    var r := JsLiteral(s);
    assert r[1..|r| - 1] == Text.Replace(s, "'", "\\'");
    if |s| >= 1 {
      assert '\\' !in s[1..];
      JsLiteralRoundTrip(s[1..]);
      var t := Text.Replace(s[1..], "'", "\\'");
      assert JsLiteral(s[1..])[1..|JsLiteral(s[1..])| - 1] == t;
      if s[..1] == "'" {
        assert Text.Replace(s, "'", "\\'") == "\\'" + t;
        assert ("\\'" + t)[2..] == t;
        assert s == [s[0]] + s[1..];
      } else {
        assert s[0] != '\'' by { assert s[..1] == [s[0]]; }
        assert Text.Replace(s, "'", "\\'") == [s[0]] + t;
        assert ([s[0]] + t)[1..] == t;
        assert s == [s[0]] + s[1..];
      }
    }
  }

  /** A trailing backslash escapes the closing quote instead: the literal never ends. */
  lemma JsLiteralTrailingBackslash()
    ensures var r := JsLiteral("\\"); JsStringBody(r[1..|r| - 1]) == None
  {
    assert Text.Replace("\\", "'", "\\'") == "\\" by {
      assert "\\"[1..] == "";
    }
  }

  /** One argument as `call_js_function` renders it. */
  function JsArgText(a: JsArg): string {
    match a
    case StrArg(s) => JsLiteral(s)
    case OtherArg(t) => t
  }

  /** The rendered arguments, in order. */
  function JsArgTexts(args: seq<JsArg>): (r: seq<string>)
    ensures |r| == |args|
    ensures forall i :: 0 <= i < |args| ==> r[i] == JsArgText(args[i])
  {
    if args == [] then [] else [JsArgText(args[0])] + JsArgTexts(args[1..])
  }

  /** The statement `call_js_function` evaluates: `name(a1,a2,...);`. */
  function JsCall(name: string, args: seq<JsArg>): (r: string)
    ensures Text.StartsWith(r, name + "(") && Text.EndsWith(r, ");")
  {
    var r := name + "(" + Text.Join(JsArgTexts(args), ",") + ");";
    assert r[..|name + "("|] == name + "(";
    assert r[|r| - 2..] == ");";
    r
  }

  /** Text arguments without commas give one rendered piece per argument, found again by splitting. */
  lemma JsCallArguments(name: string, args: seq<JsArg>)
    requires |args| >= 1
    requires forall i :: 0 <= i < |args| ==> ',' !in JsArgText(args[i])
    ensures var r := JsCall(name, args);
      Text.Split(r[|name| + 1..|r| - 2], ',') == JsArgTexts(args)
  {
    var texts := JsArgTexts(args);
    var r := JsCall(name, args);
    assert r[|name| + 1..|r| - 2] == Text.Join(texts, ",");
    Text.SplitJoin(texts, ',');
  }

  /** `WebUIView`: the state the platform-independent part of the web view keeps. */
  class WebView {
    const protocol: Option<string>
    const delegate: Option<Delegate>
    var pageLoaded: bool
    var currentUrl: Option<string>
    var jsSessionScript: string
    /** The URLs handed to the native web view to load, in order. */
    var loads: seq<string>
    /** The JavaScript handed to the native web view to evaluate, in order. */
    var evaluated: seq<string>
    /** What the delegate was told, in order. */
    var notices: seq<Notice>

    /** `load_complete` reaches the delegate at most once, and only after a page has loaded. */
    ghost predicate Valid()
      reads this
    {
      Completions(notices) <= 1 && (!pageLoaded ==> Completions(notices) == 0)
    }

    /**
     * `WebUIView(name, url, protocol, delegate)`: with a protocol, the page URL
     * carries it as a query parameter and the protocol gains "://" when it
     * has none; a given URL is loaded. A protocol without a URL makes
     * `None + str` raise, so a protocol needs a URL.
     */
    constructor (url: Option<string>, protocol: Option<string>, delegate: Option<Delegate>)
      requires protocol.Some? ==> url.Some?
      ensures this.protocol == if protocol.Some? then Some(MessagePrefix(protocol.value)) else None
      ensures this.delegate == delegate
      ensures !pageLoaded && jsSessionScript == "" && evaluated == [] && notices == []
      ensures var page := if protocol.Some? then Some(ProtocolUrl(url.value, protocol.value)) else url;
        currentUrl == page && loads == (if page.Some? then [page.value] else [])
      ensures Valid()
    {
      this.protocol := if protocol.Some? then Some(MessagePrefix(protocol.value)) else None;
      this.delegate := delegate;
      var page := if protocol.Some? then Some(ProtocolUrl(url.value, protocol.value)) else url;
      pageLoaded := false;
      jsSessionScript := "";
      evaluated := [];
      notices := [];
      currentUrl := None;
      loads := [];
      new;
      if page.Some? {
        LoadUrl(page.value);
      }
    }

    /** `load_url(url)`: records the URL and hands it to the native view. */
    method LoadUrl(url: string)
      modifies this
      ensures currentUrl == Some(url) && loads == old(loads) + [url]
      ensures pageLoaded == old(pageLoaded) && jsSessionScript == old(jsSessionScript)
      ensures evaluated == old(evaluated) && notices == old(notices)
    {
      currentUrl := Some(url);
      loads := loads + [url];
    }

    /**
     * `call_js_function(name, *args)`: evaluates `name(args);` and appends it,
     * with a newline, to the session script.
     */
    method CallJsFunction(name: string, args: seq<JsArg>)
      modifies this
      ensures jsSessionScript == old(jsSessionScript) + JsCall(name, args) + "\n"
      ensures evaluated == old(evaluated) + [JsCall(name, args)]
      ensures pageLoaded == old(pageLoaded) && currentUrl == old(currentUrl)
      ensures loads == old(loads) && notices == old(notices)
    {
      var texts := RenderArgs(args);
      var js := name + "(" + Text.Join(texts, ",") + ");";
      jsSessionScript := jsSessionScript + js + "\n";
      evaluated := evaluated + [js];
    }

    /**
     * `webview_should_start_load(webview, url, nav_type)`: a message URL
     * carrying the protocol is handed to the delegate's `parse_message`
     * (answering `parsed`) and not loaded when handled; otherwise the
     * delegate's `should_load_url` (answering `allowed`) decides when it
     * has one, and the URL loads when it has none.
     */
    method ShouldStartLoad(url: string, parsed: bool, allowed: bool) returns (load: bool)
      ensures protocol.Some? && delegate.Some? && Text.StartsWith(url, protocol.value) ==> load == !parsed
      ensures !(protocol.Some? && delegate.Some? && Text.StartsWith(url, protocol.value)) ==>
        load == (if delegate.Some? && delegate.value.hasShouldLoadUrl then allowed else true)
    {
      if protocol.Some? && delegate.Some? && Text.StartsWith(url, protocol.value) {
        return !parsed;
      }
      if delegate.Some? && delegate.value.hasShouldLoadUrl {
        return allowed;
      }
      return true;
    }

    /**
     * `webview_did_finish_load(webview, url)`: on the first finished load the
     * page learns the protocol and the delegate gets `load_complete`; every
     * finished load is forwarded as `page_loaded(url)`.
     */
    method DidFinishLoad(url: Option<string>)
      requires Valid()
      modifies this
      ensures Valid() && pageLoaded
      ensures evaluated == old(evaluated) +
        (if !old(pageLoaded) && protocol.Some? then [SetProtocolScript(protocol.value)] else [])
      ensures notices == old(notices) +
        (if !old(pageLoaded) && delegate.Some? && delegate.value.hasLoadComplete then [LoadComplete] else []) +
        (if delegate.Some? && delegate.value.hasPageLoaded then [PageLoaded(url)] else [])
      ensures currentUrl == old(currentUrl) && loads == old(loads) && jsSessionScript == old(jsSessionScript)
    {
      if !pageLoaded {
        FirstLoad();
      }
      ForwardPageLoaded(url);
    }

    /** The part of a finished load that every one does: `page_loaded(url)` for a delegate that has it. */
    method ForwardPageLoaded(url: Option<string>)
      requires Valid() && pageLoaded
      modifies this
      ensures Valid() && pageLoaded
      ensures notices == old(notices) + (if delegate.Some? && delegate.value.hasPageLoaded then [PageLoaded(url)] else [])
      ensures currentUrl == old(currentUrl) && loads == old(loads) && jsSessionScript == old(jsSessionScript)
      ensures evaluated == old(evaluated)
    {
      if delegate.Some? && delegate.value.hasPageLoaded {
        CompletionsSnoc(notices, PageLoaded(url));
        notices := notices + [PageLoaded(url)];
      }
    }

    /** The part of a finished load that only the first one does. */
    method FirstLoad()
      requires Valid() && !pageLoaded
      modifies this
      ensures Valid() && pageLoaded
      ensures evaluated == old(evaluated) + (if protocol.Some? then [SetProtocolScript(protocol.value)] else [])
      ensures notices == old(notices) + (if delegate.Some? && delegate.value.hasLoadComplete then [LoadComplete] else [])
      ensures currentUrl == old(currentUrl) && loads == old(loads) && jsSessionScript == old(jsSessionScript)
    {
      pageLoaded := true;
      if protocol.Some? {
        evaluated := evaluated + [SetProtocolScript(protocol.value)];
      }
      if delegate.Some? && delegate.value.hasLoadComplete {
        CompletionsSnoc(notices, LoadComplete);
        notices := notices + [LoadComplete];
      }
    }

    /** `webview_did_fail_load(...)`: the page counts as loaded, so nothing waits for it forever. */
    method DidFailLoad()
      requires Valid()
      modifies this
      ensures Valid() && pageLoaded
      ensures currentUrl == old(currentUrl) && loads == old(loads) && jsSessionScript == old(jsSessionScript)
      ensures evaluated == old(evaluated) && notices == old(notices)
    {
      pageLoaded := true;
    }
  }

  /** The loop of `call_js_function` rendering each argument in turn. */
  method RenderArgs(args: seq<JsArg>) returns (texts: seq<string>)
    ensures texts == JsArgTexts(args)
  {
    texts := [];
    var i := 0;
    while i < |args|
      invariant 0 <= i <= |args| && texts == JsArgTexts(args[..i])
    {
      assert args[..i + 1] == args[..i] + [args[i]];
      JsArgTextsSnoc(args[..i], args[i]);
      texts := texts + [JsArgText(args[i])];
      i := i + 1;
    }
    assert args[..|args|] == args;
  }

  lemma JsArgTextsSnoc(args: seq<JsArg>, a: JsArg)
    ensures JsArgTexts(args + [a]) == JsArgTexts(args) + [JsArgText(a)]
  {
  }

  const SetProtocolCall: string := "bridge.setProtocol('"

  /** The script that tells the page its message protocol: a call of `setProtocol` whose quoted argument is the protocol. */
  function SetProtocolScript(protocol: string): (r: string)
    ensures Text.StartsWith(r, SetProtocolCall)
    ensures |r| == |SetProtocolCall| + |protocol| + 2 && r[|r| - 2..] == "')"
    ensures r[|SetProtocolCall|..|r| - 2] == protocol
  {
    SetProtocolCall + protocol + "')"
  }

  /** How many `load_complete` notices a trace holds. */
  function Completions(ns: seq<Notice>): nat {
    if ns == [] then 0
    else (if ns[|ns| - 1] == LoadComplete then 1 else 0) + Completions(ns[..|ns| - 1])
  }

  lemma CompletionsSnoc(ns: seq<Notice>, n: Notice)
    ensures Completions(ns + [n]) == Completions(ns) + (if n == LoadComplete then 1 else 0)
  {
    assert (ns + [n])[..|ns|] == ns;
  }

  /** `get_view_state()`: the backend's persisted state, or `{}` when the backend keeps none. */
  function ViewState(persisted: Option<map<string, Value>>): (r: map<string, Value>)
    ensures persisted.None? ==> r == map[]
    ensures persisted.Some? ==> r == persisted.value
  {
    if persisted.Some? then persisted.value else map[]
  }
}

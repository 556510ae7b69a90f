/**
 * The Python side of the web bridge: the application-name global, the
 * user-data locations, and the message handler that decodes a bridge URL
 * into a call of the handler itself or of its delegate.
 *
 * `urlparse` is represented by its result (`UrlParts`); `unquote` followed by
 * the UTF-8 decode, `json.loads`, and the delegate method the URL names are
 * parameters. The `eval` of the command string is modelled by the call it
 * resolves to.
 */
module Bridge {
  import opened Wrappers
  import opened Json
  import Text
  import Paths

  const DefaultAppName: string := "python"

  /** The module-level `app_name` that `set_app_name` reassigns. */
  class Globals {
    var appName: string

    constructor ()
      ensures appName == DefaultAppName
    {
      appName := DefaultAppName;
    }

    /** `set_app_name(name)`. */
    method SetAppName(name: string)
      modifies this
      ensures appName == name
    {
      appName := name;
    }

    /** `get_app_name()`: the last name set, or "python" before any. */
    method GetAppName() returns (name: string)
      ensures name == appName
    {
      name := appName;
    }
  }

  /** `get_user_dir()`: `$EXTERNAL_STORAGE` when set and non-empty, else the home directory. */
  function UserDir(externalStorage: Option<string>, home: string): (r: string)
    ensures externalStorage.Some? && externalStorage.value != "" ==> r == externalStorage.value
    ensures externalStorage.None? || externalStorage.value == "" ==> r == home
  {
    if externalStorage.Some? && externalStorage.value != "" then externalStorage.value else home
  }

  /** The hidden directory name `get_user_path` derives from an application name. */
  function HiddenName(appName: string): (r: string)
    ensures |r| == |appName| + 1 && r[0] == '.'
    ensures ' ' !in r && '/' !in r <==> '/' !in appName
  {
    HiddenNameChars(appName);
    "." + Text.Lower(Text.Replace(appName, " ", "_"))
  }

  /** The lower-cased, underscored name has no space, and a '/' exactly when the name has one. */
  lemma HiddenNameChars(appName: string)
    ensures var n := Text.Lower(Text.Replace(appName, " ", "_"));
      |n| == |appName| && ' ' !in n && ('/' in n <==> '/' in appName)
  {
    ReplaceSpaceLength(appName);
    Text.ReplaceCharGone(appName, ' ', "_");
    LowerKeepsOut(Text.Replace(appName, " ", "_"), ' ');
    if '/' in appName {
      Text.ReplaceKeeps(appName, ' ', "_", '/');
      LowerKeepsSlash(Text.Replace(appName, " ", "_"));
    } else {
      ReplaceSpaceNoSlash(appName);
      LowerKeepsOut(Text.Replace(appName, " ", "_"), '/');
    }
  }

  /** Lower-casing introduces neither a space nor a slash. */
  lemma LowerKeepsOut(s: string, c: char)
    requires c == ' ' || c == '/'
    requires c !in s
    ensures c !in Text.Lower(s)
  {
    var l := Text.Lower(s);
    forall i | 0 <= i < |l| ensures l[i] != c {
      assert l[i] == Text.ToLowerChar(s[i]);
    }
  }

  lemma LowerKeepsSlash(s: string)
    requires '/' in s
    ensures '/' in Text.Lower(s)
  {
    var i :| 0 <= i < |s| && s[i] == '/';
    assert Text.Lower(s)[i] == '/';
  }

  /** Replacing each space by an underscore keeps the length. */
  lemma {:induction false} ReplaceSpaceLength(s: string)
    ensures |Text.Replace(s, " ", "_")| == |s|
    decreases |s|
  {
    if |s| >= 1 {
      ReplaceSpaceLength(s[1..]);
    }
  }

  /** Replacing spaces by underscores introduces no slash. */
  lemma {:induction false} ReplaceSpaceNoSlash(s: string)
    requires '/' !in s
    ensures '/' !in Text.Replace(s, " ", "_")
    decreases |s|
  {
    if |s| >= 1 {
      assert '/' !in s[1..];
      ReplaceSpaceNoSlash(s[1..]);
    }
  }

  /**
   * `get_user_path(app_name)`: off iOS a hidden directory named after the
   * application under the user directory, on iOS its "Documents" folder.
   */
  function UserPath(root: string, appName: string, ios: bool): (r: string)
    ensures ios ==> r == Paths.Join(root, "Documents")
    ensures !ios ==> r == Paths.Join(root, HiddenName(appName))
  {
    if !ios then Paths.Join(root, HiddenName(appName)) else Paths.Join(root, "Documents")
  }

  /**
   * Off iOS, for a name without '/', the user path is one hidden,
   * space-free directory directly inside the root.
   */
  lemma UserPathHidden(root: string, appName: string)
    requires '/' !in appName
    ensures var r := UserPath(root, appName, false);
      var b := Paths.Basename(r);
      b == HiddenName(appName) && b[0] == '.' && ' ' !in b
  {
    Paths.BasenameOfJoin(root, HiddenName(appName));
  }

  /** The platform families `get_app_files_dir` distinguishes by `sys.platform`. */
  datatype Platform = Darwin | Windows | Other

  /**
   * `get_app_files_dir()` as written: its Windows fallback names the
   * undefined `spp_name` and raises `NameError`.
   */
  function AppFilesDirAsWritten(platform: Platform, userDir: string, appData: Option<string>,
                                appDataExists: bool, appName: string, ios: bool): (r: Result<string>)
    ensures platform == Windows && !(appData.Some? && appDataExists) ==> r.Err?
    ensures r.Ok? ==> r == Ok(AppFilesDir(platform, userDir, appData, appDataExists, appName, ios))
  {
    match platform
    case Darwin => Ok(Paths.Join(Paths.Join(Paths.Join(userDir, "Library"), "Application Support"), appName))
    case Windows =>
      if appData.Some? && appDataExists then Ok(Paths.Join(appData.value, appName))
      else Err(Raised("NameError: name 'spp_name' is not defined"))
    case Other => Ok(UserPath(userDir, appName, ios))
  }

  /** `get_app_files_dir()` with the Windows fallback using `app_name`, as evidently intended. */
  function AppFilesDir(platform: Platform, userDir: string, appData: Option<string>,
                       appDataExists: bool, appName: string, ios: bool): (r: string)
    ensures platform == Darwin ==>
      r == Paths.Join(Paths.Join(Paths.Join(userDir, "Library"), "Application Support"), appName)
    ensures platform == Windows && appData.Some? && appDataExists ==> r == Paths.Join(appData.value, appName)
    ensures platform == Windows && !(appData.Some? && appDataExists) ==>
      r == Paths.Join(Paths.Join(userDir, "Application Data"), appName)
    ensures platform == Other ==> r == UserPath(userDir, appName, ios)
  {
    match platform
    case Darwin => Paths.Join(Paths.Join(Paths.Join(userDir, "Library"), "Application Support"), appName)
    case Windows =>
      if appData.Some? && appDataExists then Paths.Join(appData.value, appName)
      else Paths.Join(Paths.Join(userDir, "Application Data"), appName)
    case Other => UserPath(userDir, appName, ios)
  }

  /** On Windows without an existing `%APPDATA%`, the code as written raises. */
  lemma WindowsFallbackRaises(userDir: string, appName: string)
    ensures AppFilesDirAsWritten(Windows, userDir, None, false, appName, false).Err?
  {
  }

  /**
   * With the fallback corrected, the desktop application directory is named
   * after the application on every path through the function.
   */
  lemma AppFilesDirNamedAfterApp(platform: Platform, userDir: string, appData: Option<string>,
                                 appDataExists: bool, appName: string)
    requires platform != Other
    requires appName != "" && '/' !in appName
    ensures Paths.Basename(AppFilesDir(platform, userDir, appData, appDataExists, appName, false)) == appName
  {
    if platform == Darwin {
      Paths.BasenameOfJoin(Paths.Join(Paths.Join(userDir, "Library"), "Application Support"), appName);
    } else if appData.Some? && appDataExists {
      Paths.BasenameOfJoin(appData.value, appName);
    } else {
      Paths.BasenameOfJoin(Paths.Join(userDir, "Application Data"), appName);
    }
  }

  /** What `urlparse(url)` yields that `parse_message` reads. */
  datatype UrlParts = UrlParts(netloc: string, path: string, query: string)

  /** A decoded call: the dotted function name, positional and keyword arguments. */
  datatype Call = Call(name: string, args: seq<Value>, kwargs: map<string, Value>)

  /** One `&`-separated query piece after decoding. */
  datatype Arg = Positional(value: Value) | Keyword(name: string, value: Value)

  /**
   * The query `parse_message` decodes: the URL's own query, or, when that
   * is empty and the path holds exactly one '?', what follows it.
   */
  function Query(parts: UrlParts): (q: string)
    ensures parts.query != "" ==> q == parts.query
  {
    var path := Text.Split(parts.path, '?');
    if |path| == 2 && parts.query == "" then path[1] else parts.query
  }

  /**
   * The function name: the network location followed by the path before any
   * '?', its leading character dropped and each '/' turned into '.'.
   */
  function FuncName(parts: UrlParts): (name: string)
    ensures Text.StartsWith(name, parts.netloc)
  {
    var path := Text.Split(parts.path, '?')[0];
    var p := if |path| >= 1 then path[1..] else "";
    if p != "" then parts.netloc + Text.Replace(p, "/", ".") else parts.netloc
  }

  /** A network location free of '/' gives a function name free of '/'. */
  lemma FuncNameDotted(parts: UrlParts)
    requires '/' !in parts.netloc
    ensures '/' !in FuncName(parts)
  {
    var path := Text.Split(parts.path, '?')[0];
    var p := if |path| >= 1 then path[1..] else "";
    Text.ReplaceCharGone(p, '/', ".");
  }

  /**
   * A path `/a?b` with no query of its own, and no further '?', carries its
   * query after the '?' and names the function by `a`.
   */
  lemma QueryFromPath(netloc: string, a: string, b: string)
    requires '?' !in a && '?' !in b
    ensures var parts := UrlParts(netloc, "/" + a + "?" + b, "");
      Query(parts) == b &&
      FuncName(parts) == (if a != "" then netloc + Text.Replace(a, "/", ".") else netloc)
  {
    var path := "/" + a + "?" + b;
    assert Text.Join(["/" + a, b], "?") == path;
    Text.SplitJoin(["/" + a, b], '?');
    assert ("/" + a)[1..] == a;
  }

  /** The value of a piece: "empty_string" stands for "", and JSON text is decoded. */
  function DecodeValue(text: string, loads: string -> Option<Value>): (v: Value)
    ensures text == "empty_string" ==> v == Str("")
    ensures text != "empty_string" && text != "" && loads(text).Some? ==> v == loads(text).value
    ensures text != "empty_string" && (text == "" || loads(text).None?) ==> v == Str(text)
  {
    var t := if text == "empty_string" then "" else text;
    // `json.loads("")` always raises
    if t == "" then Str("")
    else if loads(t).Some? then loads(t).value else Str(t)
  }

  /**
   * One query piece: ASCII-encoded, unquoted and UTF-8-decoded (`unquote`,
   * `None` where the decode raises), then split on '=' into a keyword
   * argument when it holds one '='. A piece with more '=' raises
   * `ValueError` when unpacked into two names.
   */
  function DecodeArg(piece: string, unquote: string -> Option<string>, loads: string -> Option<Value>): (r: Result<Arg>)
    ensures r.Ok? ==> unquote(piece).Some?
    ensures r.Ok? && r.value.Positional? ==> '=' !in unquote(piece).value
  {
    if exists i :: 0 <= i < |piece| && piece[i] as int >= 0x80 then
      Err(Raised("UnicodeEncodeError: 'ascii' codec can't encode character"))
    else if unquote(piece).None? then
      Err(Raised("UnicodeDecodeError: 'utf8' codec can't decode byte"))
    else
      var arg := unquote(piece).value;
      if '=' !in arg then Ok(Positional(DecodeValue(arg, loads)))
      else
        var halves := Text.Split(arg, '=');
        if |halves| != 2 then Err(ValueError("too many values to unpack"))
        else Ok(Keyword(halves[0], DecodeValue(halves[1], loads)))
  }

  /** Appending one decoded piece: a positional argument at the end, a keyword one replacing any earlier. */
  function AddArg(acc: (seq<Value>, map<string, Value>), a: Arg): (r: (seq<Value>, map<string, Value>))
    ensures a.Positional? ==> r == (acc.0 + [a.value], acc.1)
    ensures a.Keyword? ==> r.0 == acc.0 && r.1.Keys == acc.1.Keys + {a.name} && r.1[a.name] == a.value
    ensures a.Keyword? ==> forall k :: k in acc.1 && k != a.name ==> r.1[k] == acc.1[k]
  {
    match a
    case Positional(v) => (acc.0 + [v], acc.1)
    case Keyword(n, v) => (acc.0, acc.1[n := v])
  }

  /** The arguments of the pieces, in order; the first piece that fails decides the failure. */
  function DecodeArgs(pieces: seq<string>, unquote: string -> Option<string>, loads: string -> Option<Value>)
    : (r: Result<(seq<Value>, map<string, Value>)>)
    decreases |pieces|
  {
    if pieces == [] then Ok(([], map[]))
    else
      var acc :- DecodeArgs(pieces[..|pieces| - 1], unquote, loads);
      var a :- DecodeArg(pieces[|pieces| - 1], unquote, loads);
      Ok(AddArg(acc, a))
  }

  /** The call a bridge URL denotes, or the exception decoding it raises. */
  function Decode(parts: UrlParts, unquote: string -> Option<string>, loads: string -> Option<Value>): (r: Result<Call>)
    ensures r.Ok? ==> r.value.name == FuncName(parts)
    ensures Query(parts) == "" ==> r == Ok(Call(FuncName(parts), [], map[]))
  {
    var q := Query(parts);
    if q == "" then Ok(Call(FuncName(parts), [], map[]))
    else
      var args :- DecodeArgs(Text.Split(q, '&'), unquote, loads);
      Ok(Call(FuncName(parts), args.0, args.1))
  }

  /**
   * Pieces that all decode to text without '=' become positional arguments,
   * one per piece and in the same order, with no keyword arguments.
   */
  lemma {:induction false} PositionalInOrder(pieces: seq<string>, unquote: string -> Option<string>, loads: string -> Option<Value>)
    requires forall i :: 0 <= i < |pieces| ==> DecodeArg(pieces[i], unquote, loads).Ok?
    requires forall i :: 0 <= i < |pieces| ==> '=' !in unquote(pieces[i]).GetOr("=")
    ensures var r := DecodeArgs(pieces, unquote, loads);
      r.Ok? && r.value.1 == map[] && |r.value.0| == |pieces| &&
      forall i :: 0 <= i < |pieces| ==> unquote(pieces[i]).Some? && r.value.0[i] == DecodeValue(unquote(pieces[i]).value, loads)
    decreases |pieces|
  {
    if pieces != [] {
      var init := pieces[..|pieces| - 1];
      var last := pieces[|pieces| - 1];
      forall i | 0 <= i < |init| ensures DecodeArg(init[i], unquote, loads).Ok? && '=' !in unquote(init[i]).GetOr("=") {
        assert init[i] == pieces[i];
      }
      PositionalInOrder(init, unquote, loads);
      assert '=' !in unquote(last).GetOr("=");
      assert unquote(last).Some?;
    }
  }

  /** A later keyword piece for a name overrides an earlier one. */
  lemma LastKeywordWins(pieces: seq<string>, piece: string, unquote: string -> Option<string>, loads: string -> Option<Value>)
    requires DecodeArgs(pieces, unquote, loads).Ok?
    requires DecodeArg(piece, unquote, loads).Ok? && DecodeArg(piece, unquote, loads).value.Keyword?
    ensures var r := DecodeArgs(pieces + [piece], unquote, loads);
      var a := DecodeArg(piece, unquote, loads).value;
      r.Ok? && r.value.0 == DecodeArgs(pieces, unquote, loads).value.0 && r.value.1[a.name] == a.value
  {
    assert (pieces + [piece])[..|pieces|] == pieces;
  }

  /** A piece with two '=' makes the whole message raise `ValueError`. */
  lemma TwoEqualsRaise(piece: string, unquote: string -> Option<string>, loads: string -> Option<Value>, a: string, b: string, c: string)
    requires forall i :: 0 <= i < |piece| ==> piece[i] as int < 0x80
    requires unquote(piece) == Some(a + "=" + b + "=" + c)
    requires '=' !in a && '=' !in b && '=' !in c
    ensures DecodeArg(piece, unquote, loads) == Err(ValueError("too many values to unpack"))
  {
    Text.SplitThree(a, b, c, '=');
    assert (a + "=" + b + "=" + c)[|a|] == '=';
  }

  const GetValueName: string := "get_value_from_js"

  /** Where `parse_message` looks the function up: the handler for `get_value_from_js...`, else the delegate. */
  predicate ToHandler(name: string) {
    Text.StartsWith(name, GetValueName)
  }

  /**
   * The value a call of `get_value_from_js(value)` receives, when its
   * arguments bind the one parameter exactly once and the value is a string
   * (any other value has no `replace` and raises).
   */
  function JsValueArg(c: Call): (r: Option<string>)
    ensures r.Some? ==> c.name == GetValueName
  {
    if c.name != GetValueName then None
    else if |c.args| == 1 && c.kwargs == map[] && c.args[0].Str? then Some(c.args[0].s)
    else if c.args == [] && c.kwargs.Keys == {"value"} && c.kwargs["value"].Str? then Some(c.kwargs["value"].s)
    else None
  }

  /** `get_value_from_js`'s stored form of a value: every '%' doubled. */
  function Escaped(value: string): (r: string)
    ensures Text.Replace(r, "%%", "%") == value
  {
    UndoubleDoubled(value);
    Text.Replace(value, "%", "%%")
  }

  /** Halving the doubled percent signs gives the stored value back. */
  lemma {:induction false} UndoubleDoubled(s: string)
    ensures Text.Replace(Text.Replace(s, "%", "%%"), "%%", "%") == s
    decreases |s|
  {
    if |s| >= 1 {
      UndoubleDoubled(s[1..]);
      var t := Text.Replace(s[1..], "%", "%%");
      if s[..1] == "%" {
        assert Text.Replace(s, "%", "%%") == "%%" + t;
        assert ("%%" + t)[..2] == "%%" && ("%%" + t)[2..] == t;
        assert s == "%" + s[1..];
      } else {
        assert s[0] != '%' by { assert s[..1] == [s[0]]; }
        var d := [s[0]] + t;
        assert Text.Replace(s, "%", "%%") == d;
        assert d[1..] == t;
        if |d| >= 2 {
          assert d[..2] != "%%" by { assert d[..2][0] == s[0]; }
        }
        assert s == [s[0]] + s[1..];
      }
    }
  }

  /** `PEWMessageHandler`: the last value JavaScript reported and whether a message got through. */
  class MessageHandler {
    var jsValue: Option<string>
    var messageReceived: bool

    constructor ()
      ensures jsValue == None && !messageReceived
    {
      jsValue := None;
      messageReceived := false;
    }

    /** `get_value_from_js(value)`: stores the value with every '%' doubled. */
    method GetValueFromJs(value: string)
      modifies this
      ensures jsValue == Some(Escaped(value)) && messageReceived == old(messageReceived)
    {
      jsValue := Some(Text.Replace(value, "%", "%%"));
    }

    /** `clear_message_received_flag()`. */
    method ClearMessageReceivedFlag()
      modifies this
      ensures !messageReceived && jsValue == old(jsValue)
    {
      messageReceived := false;
    }

    /**
     * `parse_message(url)`: decodes the URL and calls the handler or the
     * delegate (`delegate` tells whether the named delegate method returns
     * without raising). A decoding failure propagates; a raising call
     * answers false and leaves the handler as it was; a call that returns
     * answers true and sets `messageReceived`.
     */
    method ParseMessage(parts: UrlParts, unquote: string -> Option<string>, loads: string -> Option<Value>,
                        delegate: Call -> bool) returns (r: Result<bool>)
      modifies this
      ensures Decode(parts, unquote, loads).Err? ==>
        r == Err(Decode(parts, unquote, loads).error) &&
        jsValue == old(jsValue) && messageReceived == old(messageReceived)
      ensures Decode(parts, unquote, loads).Ok? ==>
        var c := Decode(parts, unquote, loads).value;
        var ok := if ToHandler(c.name) then JsValueArg(c).Some? else delegate(c);
        r == Ok(ok) &&
        (ok ==> messageReceived) &&
        (!ok ==> messageReceived == old(messageReceived) && jsValue == old(jsValue)) &&
        (ok && ToHandler(c.name) ==> jsValue == Some(Escaped(JsValueArg(c).value))) &&
        (!ToHandler(c.name) ==> jsValue == old(jsValue))
    {
      var decoded := DecodeMessage(parts, unquote, loads);
      if decoded.Err? {
        return Err(decoded.error);
      }
      var call := decoded.value;
      var funcName := call.name;
      if ToHandler(funcName) {
        var value := JsValueArg(call);
        if value.None? {
          return Ok(false);
        }
        GetValueFromJs(value.value);
      } else {
        if !delegate(call) {
          return Ok(false);
        }
      }
      messageReceived := true;
      return Ok(true);
    }
  }

  /**
   * The loop of `parse_message` that splits the query on '&' and decodes
   * each piece into a positional or keyword argument, the first failure
   * propagating.
   */
  method DecodeMessage(parts: UrlParts, unquote: string -> Option<string>, loads: string -> Option<Value>) returns (r: Result<Call>)
    ensures r == Decode(parts, unquote, loads)
  {
    var query := Query(parts);
    var funcName := FuncName(parts);
    var funcArgs: seq<Value> := [];
    var funcKwargs: map<string, Value> := map[];
    if query != "" {
      var pieces := Text.Split(query, '&');
      var i := 0;
      while i < |pieces|
        invariant 0 <= i <= |pieces|
        invariant DecodeArgs(pieces[..i], unquote, loads) == Ok((funcArgs, funcKwargs))
      {
        assert pieces[..i + 1][..i] == pieces[..i];
        var a := DecodeArg(pieces[i], unquote, loads);
        if a.Err? {
          assert DecodeArgs(pieces[..i + 1], unquote, loads).Err?;
          DecodeStopsAtFailure(pieces, i + 1, unquote, loads);
          return Err(a.error);
        }
        match a.value {
          case Positional(v) =>
            funcArgs := funcArgs + [v];
          case Keyword(n, v) =>
            funcKwargs := funcKwargs[n := v];
        }
        i := i + 1;
      }
      assert pieces[..|pieces|] == pieces;
    }
    r := Ok(Call(funcName, funcArgs, funcKwargs));
  }

  /** Once a prefix of the pieces fails to decode, so do all the pieces. */
  lemma {:induction false} DecodeStopsAtFailure(pieces: seq<string>, n: nat, unquote: string -> Option<string>,
                                                loads: string -> Option<Value>)
    requires n <= |pieces|
    requires DecodeArgs(pieces[..n], unquote, loads).Err?
    ensures DecodeArgs(pieces, unquote, loads) == Err(DecodeArgs(pieces[..n], unquote, loads).error)
    decreases |pieces| - n
  {
    if n == |pieces| {
      assert pieces[..n] == pieces;
    } else {
      assert pieces[..n + 1][..n] == pieces[..n];
      DecodeStopsAtFailure(pieces, n + 1, unquote, loads);
    }
  }
}

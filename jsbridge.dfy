/**
 * The JavaScript side of the web bridge: the `quote` escaper, and the
 * `NativeBridge` object that keeps the message protocol, language, app data
 * and JavaScript controller, and turns `sendMessage(name, args...)` into a
 * message URL for the native side, a controller call, or a log line.
 *
 * JavaScript strings are sequences of UTF-16 code units; characters beyond
 * U+FFFF are written out as their surrogate pair where the code works unit
 * by unit. `JSON.parse` is a parameter; `JSON.stringify` and `String()` of an
 * argument are carried by the argument itself.
 */
module JsBridge {
  import opened Wrappers
  import opened Json
  import Text
  import Bridge

  // ---------------------------------------------------------------------
  // quote
  // ---------------------------------------------------------------------

  /** The characters the `escapable` pattern matches: backslash, controls, and U+007F upwards. */
  predicate Escapable(c: char) {
    c == '\\' || c as int < 0x20 || c as int >= 0x7f
  }

  /** Printable ASCII. */
  predicate Printable(c: char) {
    0x20 <= c as int < 0x7f
  }

  function HexDigit(d: nat): (c: char)
    requires d < 16
    ensures Printable(c)
  {
    if d < 10 then ('0' as int + d) as char else ('a' as int + d - 10) as char
  }

  /** A byte as two lower-case hex digits. */
  function Hex2(b: nat): (r: string)
    requires b < 0x100
    ensures |r| == 2 && Printable(r[0]) && Printable(r[1])
  {
    [HexDigit(b / 16), HexDigit(b % 16)]
  }

  /** A code unit as four lower-case hex digits (`('0000' + u.toString(16)).slice(-4)`). */
  function Hex4(u: nat): (r: string)
    requires u < 0x10000
    ensures |r| == 4 && forall i :: 0 <= i < 4 ==> Printable(r[i])
  {
    Hex2(u / 256) + Hex2(u % 256)
  }

  /** `\uXXXX` for one code unit. */
  function UnitEscape(u: nat): (r: string)
    requires u < 0x10000
    ensures |r| == 6 && r[0] == '\\' && r[1] == 'u' && r[2..] == Hex4(u)
  {
    "\\u" + Hex4(u)
  }

  /** The escape of one character: the meta table's, else `\u` escapes of its code units. */
  function Escape(c: char): (r: string)
    ensures forall i :: 0 <= i < |r| ==> Printable(r[i])
    ensures !Escapable(c) ==> r == [c]
  {
    if c == 8 as char then "\\b"
    else if c == '\t' then "\\t"
    else if c == '\n' then "\\n"
    else if c == 12 as char then "\\f"
    else if c == '\r' then "\\r"
    else if c == '\\' then "\\\\"
    else if !Escapable(c) then [c]
    else if c as int < 0x10000 then UnitEscape(c as int)
    else
      var v := c as int - 0x10000;
      UnitEscape(0xD800 + v / 0x400) + UnitEscape(0xDC00 + v % 0x400)
  }

  /** Every character escaped. */
  function EscapeAll(s: string): (r: string)
    ensures forall i :: 0 <= i < |r| ==> Printable(r[i])
  {
    if s == [] then ""
    else
      var r := Escape(s[0]) + EscapeAll(s[1..]);
      assert forall i :: 0 <= i < |r| ==> Printable(r[i]) by {
        forall i | 0 <= i < |r| ensures Printable(r[i]) {
          if i >= |Escape(s[0])| {
            assert r[i] == EscapeAll(s[1..])[i - |Escape(s[0])|];
          }
        }
      }
      r
  }

  /** `quote(string)`: the string itself when nothing in it is escapable, else every escapable character escaped. */
  function Quote(s: string): (r: string) {
    if exists i :: 0 <= i < |s| && Escapable(s[i]) then EscapeAll(s) else s
  }

  /** Escaping a string with nothing escapable leaves it as it is. */
  lemma {:induction false} EscapeAllPlain(s: string)
    requires forall i :: 0 <= i < |s| ==> !Escapable(s[i])
    ensures EscapeAll(s) == s
    decreases |s|
  {
    if s != [] {
      assert forall i :: 0 <= i < |s[1..]| ==> !Escapable(s[1..][i]) by {
        forall i | 0 <= i < |s[1..]| ensures !Escapable(s[1..][i]) {
          assert s[1..][i] == s[i + 1];
        }
      }
      EscapeAllPlain(s[1..]);
      assert s == [s[0]] + s[1..];
    }
  }

  /** The test before the replacement changes nothing: `quote` escapes every escapable character. */
  lemma QuoteEscapes(s: string)
    ensures Quote(s) == EscapeAll(s)
  {
    if !(exists i :: 0 <= i < |s| && Escapable(s[i])) {
      EscapeAllPlain(s);
    }
  }

  /** A quoted string is printable ASCII throughout. */
  lemma QuotePrintable(s: string)
    ensures forall i :: 0 <= i < |Quote(s)| ==> Printable(Quote(s)[i])
  {
    QuoteEscapes(s);
  }

  function Unhex(c: char): Option<nat> {
    if '0' <= c <= '9' then Some(c as int - '0' as int)
    else if 'a' <= c <= 'f' then Some(c as int - 'a' as int + 10)
    else if 'A' <= c <= 'F' then Some(c as int - 'A' as int + 10)
    else None
  }

  function Unhex2(t: string): (r: Option<nat>)
    requires |t| == 2
    ensures r.Some? ==> r.value < 0x100
  {
    var a, b := Unhex(t[0]), Unhex(t[1]);
    if a.None? || b.None? then None
    else
      assert a.value < 16 && b.value < 16;
      Some(a.value * 16 + b.value)
  }

  function Unhex4(t: string): (r: Option<nat>)
    requires |t| == 4
    ensures r.Some? ==> r.value < 0x10000
  {
    var hi, lo := Unhex2(t[..2]), Unhex2(t[2..]);
    if hi.None? || lo.None? then None else Some(hi.value * 256 + lo.value)
  }

  lemma UnhexDigit(d: nat)
    requires d < 16
    ensures Unhex(HexDigit(d)) == Some(d)
  {
  }

  lemma Unhex2Hex2(b: nat)
    requires b < 0x100
    ensures Unhex2(Hex2(b)) == Some(b)
  {
    UnhexDigit(b / 16);
    UnhexDigit(b % 16);
  }

  lemma Unhex4Hex4(u: nat)
    requires u < 0x10000
    ensures Unhex4(Hex4(u)) == Some(u)
  {
    var h := Hex4(u);
    assert h[..2] == Hex2(u / 256) && h[2..] == Hex2(u % 256);
    Unhex2Hex2(u / 256);
    Unhex2Hex2(u % 256);
  }

  /** The character a one-letter escape stands for. */
  function Unmeta(c: char): Option<char> {
    if c == 'b' then Some(8 as char)
    else if c == 't' then Some('\t')
    else if c == 'n' then Some('\n')
    else if c == 'f' then Some(12 as char)
    else if c == 'r' then Some('\r')
    else if c == '\\' then Some('\\')
    else None
  }

  function Prepend(c: char, rest: Option<string>): Option<string> {
    if rest.None? then None else Some([c] + rest.value)
  }

  /**
   * How a JavaScript string literal reads escaped text back: the one-letter
   * escapes of the meta table and `\u` escapes of code units outside the
   * surrogate range; `None` for anything else after a backslash.
   */
  function Unescape(t: string): Option<string>
    decreases |t|
  {
    if t == [] then Some("")
    else if t[0] != '\\' then Prepend(t[0], Unescape(t[1..]))
    else if |t| < 2 then None
    else if t[1] == 'u' then
      if |t| < 6 then None
      else
        var u := Unhex4(t[2..6]);
        if u.None? || (0xD800 <= u.value < 0xE000) then None
        else Prepend(u.value as char, Unescape(t[6..]))
    else
      var c := Unmeta(t[1]);
      if c.None? then None else Prepend(c.value, Unescape(t[2..]))
  }

  /** One escaped character is read back as that character. */
  lemma UnescapeOne(c: char, t: string)
    requires c as int < 0x10000
    ensures Unescape(Escape(c) + t) == Prepend(c, Unescape(t))
  {
    var e := Escape(c);
    if Escapable(c) && |e| == 2 {
      assert (e + t)[0] == '\\' && (e + t)[1] == e[1] && (e + t)[2..] == t;
    } else if !Escapable(c) {
      assert (e + t)[0] == c && (e + t)[1..] == t;
    } else {
      assert e == UnitEscape(c as int);
      assert (e + t)[2..6] == Hex4(c as int) && (e + t)[6..] == t;
      assert (e + t)[0] == '\\' && (e + t)[1] == 'u';
      Unhex4Hex4(c as int);
    }
  }

  /** Reading back a quoted string of the Basic Multilingual Plane gives the string. */
  lemma QuoteRoundTrip(s: string)
    requires forall i :: 0 <= i < |s| ==> s[i] as int < 0x10000
    ensures Unescape(Quote(s)) == Some(s)
  {
    QuoteEscapes(s);
    EscapeAllRoundTrip(s);
  }

  /** Reading back escaped text of the Basic Multilingual Plane gives the text. */
  lemma {:induction false} EscapeAllRoundTrip(s: string)
    requires forall i :: 0 <= i < |s| ==> s[i] as int < 0x10000
    ensures Unescape(EscapeAll(s)) == Some(s)
    decreases |s|
  {
    if s != [] {
      var t := s[1..];
      var e := EscapeAll(t);
      assert Unescape(e) == Some(t) by {
        forall i | 0 <= i < |t| ensures t[i] as int < 0x10000 {
          assert t[i] == s[i + 1];
        }
        EscapeAllRoundTrip(t);
      }
      assert Unescape(Escape(s[0]) + e) == Some([s[0]] + t) by {
        UnescapeOne(s[0], e);
      }
      assert EscapeAll(s) == Escape(s[0]) + e;
      assert [s[0]] + t == s;
    }
  }

  // ---------------------------------------------------------------------
  // encodeURIComponent
  // ---------------------------------------------------------------------

  /** The characters `encodeURIComponent` leaves as they are. */
  predicate Unreserved(c: char) {
    ('A' <= c <= 'Z') || ('a' <= c <= 'z') || ('0' <= c <= '9') ||
    c == '-' || c == '_' || c == '.' || c == '!' || c == '~' || c == '*' || c == '\'' || c == '(' || c == ')'
  }

  /** The UTF-8 bytes of a character. */
  function Utf8(c: char): (bs: seq<nat>)
    ensures 1 <= |bs| <= 4 && forall i :: 0 <= i < |bs| ==> bs[i] < 256
  {
    var n := c as int;
    if n < 0x80 then [n]
    else if n < 0x800 then [0xC0 + n / 64, 0x80 + n % 64]
    else if n < 0x10000 then [0xE0 + n / 4096, 0x80 + n / 64 % 64, 0x80 + n % 64]
    else [0xF0 + n / 262144, 0x80 + n / 4096 % 64, 0x80 + n / 64 % 64, 0x80 + n % 64]
  }

  function UpperHexDigit(d: nat): (c: char)
    requires d < 16
    ensures Unreserved(c)
  {
    if d < 10 then ('0' as int + d) as char else ('A' as int + d - 10) as char
  }

  /** `%XX` for each byte. */
  function PercentBytes(bs: seq<nat>): (r: string)
    requires forall i :: 0 <= i < |bs| ==> bs[i] < 256
    ensures forall i :: 0 <= i < |r| ==> Unreserved(r[i]) || r[i] == '%'
  {
    if bs == [] then ""
    else
      var r := ['%', UpperHexDigit(bs[0] / 16), UpperHexDigit(bs[0] % 16)] + PercentBytes(bs[1..]);
      assert forall i :: 3 <= i < |r| ==> r[i] == PercentBytes(bs[1..])[i - 3];
      r
  }

  function EncodeChar(c: char): (r: string)
    ensures |r| >= 1
    ensures forall i :: 0 <= i < |r| ==> Unreserved(r[i]) || r[i] == '%'
  {
    if Unreserved(c) then [c] else PercentBytes(Utf8(c))
  }

  /** `encodeURIComponent(s)`: unreserved characters kept, every other one as its percent-encoded UTF-8 bytes. */
  function EncodeUriComponent(s: string): (r: string)
    ensures |r| >= |s|
    ensures forall i :: 0 <= i < |r| ==> Unreserved(r[i]) || r[i] == '%'
  {
    if s == [] then ""
    else
      var head, tail := EncodeChar(s[0]), EncodeUriComponent(s[1..]);
      var r := head + tail;
      assert forall i :: |head| <= i < |r| ==> r[i] == tail[i - |head|];
      r
  }

  /** An encoded component holds none of the characters that structure a message URL. */
  lemma EncodedIsOpaque(s: string)
    ensures var r := EncodeUriComponent(s);
      '&' !in r && '=' !in r && '?' !in r && '/' !in r && forall i :: 0 <= i < |r| ==> r[i] as int < 0x80
  {
    var r := EncodeUriComponent(s);
    forall i | 0 <= i < |r| ensures r[i] != '&' && r[i] != '=' && r[i] != '?' && r[i] != '/' && r[i] as int < 0x80 {
      assert Unreserved(r[i]) || r[i] == '%';
    }
  }

  // ---------------------------------------------------------------------
  // The bridge object
  // ---------------------------------------------------------------------

  /**
   * An argument of `sendMessage`: a value with its `String()` text, an array
   * or plain object with its `String()` text and its `JSON.stringify` text,
   * or `null`/`undefined`, whose `constructor` cannot be read.
   */
  datatype JsArg = Scalar(text: string) | Structured(text: string, json: string) | Nullish

  /** What an argument contributes to the message URL before encoding. */
  function UrlText(a: JsArg): string
    requires !a.Nullish?
  {
    if a.Structured? then a.json else a.text
  }

  function EncodedArgs(args: seq<JsArg>): (r: seq<string>)
    requires forall i :: 0 <= i < |args| ==> !args[i].Nullish?
    ensures |r| == |args|
    ensures forall i :: 0 <= i < |args| ==> r[i] == EncodeUriComponent(UrlText(args[i]))
  {
    if args == [] then [] else [EncodeUriComponent(UrlText(args[0]))] + EncodedArgs(args[1..])
  }

  /**
   * The message URL: the method name alone, or followed by '?' and the
   * encoded arguments separated by '&'. Reading the `constructor` of a
   * `null` or `undefined` argument throws `TypeError`.
   */
  function MessageUrl(name: string, args: seq<JsArg>): (r: Result<string>)
    ensures args == [] ==> r == Ok(name)
    ensures r.Err? <==> exists i :: 0 <= i < |args| && args[i].Nullish?
  {
    if args == [] then Ok(name)
    else if exists i :: 0 <= i < |args| && args[i].Nullish? then
      Err(TypeError("Cannot read properties of null"))
    else Ok(name + "?" + Text.Join(EncodedArgs(args), "&"))
  }

  /** Replaces the first occurrence of `c` only, as JavaScript's `replace` with a string pattern does. */
  function ReplaceFirst(s: string, c: char, d: char): (r: string)
    ensures |r| == |s|
    ensures c !in s ==> r == s
    ensures c in s ==> var k := Text.IndexOf(s, c); r == s[..k] + [d] + s[k + 1..]
  {
    var k := Text.IndexOf(s, c);
    if k == |s| then
      assert s[..k] == s;
      s
    else s[..k] + [d] + s[k + 1..]
  }

  /** The controller call: `this.js_controller.<name>("a1","a2",...);`, the first '/' of the name made a '.'. */
  function MethodString(name: string, args: seq<JsArg>): string
    requires forall i :: 0 <= i < |args| ==> !args[i].Nullish?
  {
    "this.js_controller." + ReplaceFirst(name, '/', '.') + "(" + Text.Join(Quoted(args), ",") + ");"
  }

  /** Each argument's `String()` text in double quotes. */
  function Quoted(args: seq<JsArg>): (r: seq<string>)
    requires forall i :: 0 <= i < |args| ==> !args[i].Nullish?
    ensures |r| == |args|
    ensures forall i :: 0 <= i < |args| ==> r[i] == "\"" + args[i].text + "\""
  {
    if args == [] then [] else ["\"" + args[0].text + "\""] + Quoted(args[1..])
  }

  /** Only the first '/' of a dotted name is converted: a second one stays. */
  lemma MethodStringKeepsSecondSlash(a: string, b: string, c: string)
    requires '/' !in a
    ensures ReplaceFirst(a + "/" + b + "/" + c, '/', '.') == a + "." + b + "/" + c
  {
    Text.IndexOfFirst(a, "/" + b + "/" + c, '/');
    assert a + "/" + b + "/" + c == a + ("/" + b + "/" + c);
    var s := a + "/" + b + "/" + c;
    assert s[..|a|] == a && s[|a| + 1..] == b + "/" + c;
  }

  /** What `sendMessage` does with a message. */
  datatype Effect = Ajax(url: string) | Eval(code: string) | Logged(url: string)

  /** The precedence of the channels: the native protocol, else a JavaScript controller, else the log. */
  function Dispatch(protocol: Option<string>, controller: Option<nat>, name: string, args: seq<JsArg>, url: string): Effect
    requires forall i :: 0 <= i < |args| ==> !args[i].Nullish?
  {
    if protocol.Some? then Ajax(protocol.value + url)
    else if controller.Some? then Eval(MethodString(name, args))
    else Logged(url)
  }

  /** What `getAppData(key)` answers. */
  datatype AppData = WholeStore(entries: map<string, Value>) | Entry(value: Value) | Undefined

  /** `NativeBridge`, after `initialize()`. */
  class NativeBridge {
    var protocol: Option<string>
    var language: string
    var appData: map<string, Value>
    /** The JavaScript controller, by handle. */
    var controller: Option<nat>
    /** What the messages sent so far did, in order. */
    var effects: seq<Effect>

    /** `new NativeBridge()` followed by `initialize()`. */
    constructor ()
      ensures protocol == None && language == "en" && appData == map[] && controller == None && effects == []
    {
      protocol := None;
      language := "en";
      appData := map[];
      controller := None;
      effects := [];
    }

    /** `initialize()`: no protocol, English, no app data, no controller. */
    method Initialize()
      modifies this
      ensures protocol == None && language == "en" && appData == map[] && controller == None
      ensures effects == old(effects)
    {
      protocol := None;
      language := "en";
      appData := map[];
      controller := None;
    }

    /** `setProtocol(p)`. */
    method SetProtocol(p: Option<string>)
      modifies this
      ensures protocol == p && language == old(language) && appData == old(appData)
      ensures controller == old(controller) && effects == old(effects)
    {
      protocol := p;
    }

    /** `setJSController(controller)`. */
    method SetJsController(c: Option<nat>)
      modifies this
      ensures controller == c && protocol == old(protocol) && language == old(language)
      ensures appData == old(appData) && effects == old(effects)
    {
      controller := c;
    }

    /** `setLanguage(l)`. */
    method SetLanguage(l: string)
      modifies this
      ensures language == l && protocol == old(protocol) && appData == old(appData)
      ensures controller == old(controller) && effects == old(effects)
    {
      language := l;
    }

    /** `getLanguage()`. */
    method GetLanguage() returns (l: string)
      ensures l == language
    {
      l := language;
    }

    /** `getAppData(key)`: the whole store without a key, else the entry (undefined when absent). */
    method GetAppData(key: Option<string>) returns (r: AppData)
      ensures key.None? ==> r == WholeStore(appData)
      ensures key.Some? && key.value in appData ==> r == Entry(appData[key.value])
      ensures key.Some? && key.value !in appData ==> r == Undefined
    {
      if key.None? {
        return WholeStore(appData);
      }
      r := if key.value in appData then Entry(appData[key.value]) else Undefined;
    }

    /**
     * `setAppData(key, json)`: stores the parsed JSON under the key; text
     * that does not parse (`parse` answers `None`) throws `SyntaxError` and
     * stores nothing.
     */
    method SetAppData(key: string, json: string, parse: string -> Option<Value>) returns (r: Result<bool>)
      modifies this
      ensures parse(json).Some? ==> r == Ok(true) && appData == old(appData)[key := parse(json).value]
      ensures parse(json).None? ==> r.Err? && appData == old(appData)
      ensures protocol == old(protocol) && language == old(language)
      ensures controller == old(controller) && effects == old(effects)
    {
      var parsed := parse(json);
      if parsed.None? {
        return Err(Raised("SyntaxError: JSON.parse"));
      }
      appData := appData[key := parsed.value];
      return Ok(true);
    }

    /**
     * `sendMessage(name, args...)`: builds the message URL argument by
     * argument, then hands the message to the first channel available.
     */
    method SendMessage(name: string, args: seq<JsArg>) returns (r: Result<string>)
      modifies this
      ensures r == MessageUrl(name, args)
      ensures r.Err? ==> effects == old(effects)
      ensures r.Ok? ==> effects == old(effects) + [Dispatch(protocol, controller, name, args, r.value)]
      ensures protocol == old(protocol) && language == old(language)
      ensures controller == old(controller) && appData == old(appData)
    {
      r := BuildMessageUrl(name, args);
      if r.Err? {
        return;
      }
      effects := effects + [Dispatch(protocol, controller, name, args, r.value)];
    }

    /** `getJSValue(property)`: reports the property's value (`value`) as a `get_value_from_js` message. */
    method GetJsValue(value: JsArg) returns (r: Result<string>)
      modifies this
      ensures r == MessageUrl(Bridge.GetValueName, [value])
      ensures r.Ok? ==> effects == old(effects) + [Dispatch(protocol, controller, Bridge.GetValueName, [value], r.value)]
      ensures r.Err? ==> effects == old(effects)
      ensures protocol == old(protocol) && language == old(language)
      ensures controller == old(controller) && appData == old(appData)
    {
      r := SendMessage(Bridge.GetValueName, [value]);
    }
  }

  /** The URL building loop of `sendMessage`: each argument encoded and followed by '&', the last '&' then cut. */
  method BuildMessageUrl(name: string, args: seq<JsArg>) returns (r: Result<string>)
    ensures r == MessageUrl(name, args)
  {
    if |args| == 0 {
      return Ok(name);
    }
    var query := "";
    var i := 0;
    while i < |args|
      invariant 0 <= i <= |args|
      invariant forall j :: 0 <= j < i ==> !args[j].Nullish?
      invariant query == Terminated(EncodedArgs(args[..i]))
    {
      var value := args[i];
      if value.Nullish? {
        MessageUrlNullish(name, args, i);
        return Err(TypeError("Cannot read properties of null"));
      }
      var piece := EncodeUriComponent(UrlText(value));
      TerminatedStep(args, i);
      query := query + piece + "&";
      i := i + 1;
    }
    assert args[..|args|] == args;
    MessageUrlTerminated(name, args);
    r := Ok(name + "?" + query[..|query| - 1]);
  }

  lemma TerminatedStep(args: seq<JsArg>, i: nat)
    requires i < |args| && forall j :: 0 <= j <= i ==> !args[j].Nullish?
    ensures Terminated(EncodedArgs(args[..i + 1])) == Terminated(EncodedArgs(args[..i])) + EncodeUriComponent(UrlText(args[i])) + "&"
  {
    assert args[..i + 1] == args[..i] + [args[i]];
    EncodedArgsSnoc(args[..i], args[i]);
    TerminatedSnoc(EncodedArgs(args[..i]), EncodeUriComponent(UrlText(args[i])));
  }

  lemma MessageUrlNullish(name: string, args: seq<JsArg>, i: nat)
    requires i < |args| && args[i].Nullish?
    ensures MessageUrl(name, args) == Err(TypeError("Cannot read properties of null"))
  {
  }

  lemma MessageUrlTerminated(name: string, args: seq<JsArg>)
    requires args != [] && forall i :: 0 <= i < |args| ==> !args[i].Nullish?
    ensures var t := Terminated(EncodedArgs(args));
      |t| > 0 && MessageUrl(name, args) == Ok(name + "?" + t[..|t| - 1])
  {
    TerminatedJoin(EncodedArgs(args));
  }

  /** The pieces, each followed by '&'. */
  function Terminated(pieces: seq<string>): string {
    if pieces == [] then "" else Terminated(pieces[..|pieces| - 1]) + pieces[|pieces| - 1] + "&"
  }

  lemma TerminatedSnoc(pieces: seq<string>, p: string)
    ensures Terminated(pieces + [p]) == Terminated(pieces) + p + "&"
  {
    assert (pieces + [p])[..|pieces|] == pieces;
  }

  /** Cutting the last '&' off the terminated pieces joins them with '&'. */
  lemma {:induction false} TerminatedJoin(pieces: seq<string>)
    requires pieces != []
    ensures |Terminated(pieces)| > 0
    ensures Terminated(pieces)[..|Terminated(pieces)| - 1] == Text.Join(pieces, "&")
    decreases |pieces|
  {
    var init := pieces[..|pieces| - 1];
    var last := pieces[|pieces| - 1];
    if init == [] {
      assert pieces == [last];
      assert Terminated(pieces) == "" + last + "&";
    } else {
      TerminatedJoin(init);
      JoinSnoc(init, last, "&");
      assert pieces == init + [last];
    }
  }

  lemma {:induction false} JoinSnoc(init: seq<string>, last: string, sep: string)
    requires init != []
    ensures Text.Join(init + [last], sep) == Text.Join(init, sep) + sep + last
    decreases |init|
  {
    if |init| == 1 {
      assert init + [last] == [init[0], last];
      assert [init[0], last][1..] == [last];
    } else {
      assert (init + [last])[1..] == init[1..] + [last];
      JoinSnoc(init[1..], last, sep);
    }
  }

  lemma EncodedArgsSnoc(args: seq<JsArg>, a: JsArg)
    requires forall i :: 0 <= i < |args| ==> !args[i].Nullish?
    requires !a.Nullish?
    ensures EncodedArgs(args + [a]) == EncodedArgs(args) + [EncodeUriComponent(UrlText(a))]
  {
  }

  /**
   * Positional arguments sent from JavaScript reach the Python handler as
   * the same texts, in the same order: given that the URL parses into the
   * method name and the query after '?', and that Python's `unquote` undoes
   * `encodeURIComponent`, decoding the message yields one positional
   * argument per argument sent, each decoded from the text it was sent as.
   */
  lemma SentArgumentsArrive(name: string, args: seq<JsArg>, unquote: string -> Option<string>,
                            loads: string -> Option<Value>)
    requires args != [] && forall i :: 0 <= i < |args| ==> !args[i].Nullish?
    requires '/' !in name && '?' !in name
    requires forall i :: 0 <= i < |args| ==> unquote(EncodeUriComponent(UrlText(args[i]))) == Some(UrlText(args[i]))
    requires forall i :: 0 <= i < |args| ==> '=' !in UrlText(args[i])
    requires UrlText(args[0]) != ""
    ensures MessageUrl(name, args).Ok?
    ensures var query := Text.Join(EncodedArgs(args), "&");
      MessageUrl(name, args) == Ok(name + "?" + query) &&
      var c := Bridge.Decode(Bridge.UrlParts(name, "", query), unquote, loads);
      c.Ok? && c.value.name == name && c.value.kwargs == map[] && |c.value.args| == |args| &&
      forall i :: 0 <= i < |args| ==> c.value.args[i] == Bridge.DecodeValue(UrlText(args[i]), loads)
  {
    var pieces := EncodedArgs(args);
    var query := Text.Join(pieces, "&");
    MessageUrlTerminated(name, args);
    QuerySplitsBack(args);
    forall i | 0 <= i < |pieces|
      ensures Bridge.DecodeArg(pieces[i], unquote, loads).Ok?
      ensures '=' !in unquote(pieces[i]).GetOr("=")
      ensures unquote(pieces[i]) == Some(UrlText(args[i]))
    {
      PieceDecodes(UrlText(args[i]), unquote, loads);
    }
    Bridge.PositionalInOrder(pieces, unquote, loads);
    var parts := Bridge.UrlParts(name, "", query);
    assert Text.Split("", '?') == [""];
    assert Bridge.FuncName(parts) == name;
  }

  /** The query of a message splits back on '&' into the encoded arguments. */
  lemma QuerySplitsBack(args: seq<JsArg>)
    requires args != [] && forall i :: 0 <= i < |args| ==> !args[i].Nullish?
    requires UrlText(args[0]) != ""
    ensures Text.Join(EncodedArgs(args), "&") != ""
    ensures Text.Split(Text.Join(EncodedArgs(args), "&"), '&') == EncodedArgs(args)
  {
    var pieces := EncodedArgs(args);
    forall i | 0 <= i < |pieces| ensures '&' !in pieces[i] {
      EncodedIsOpaque(UrlText(args[i]));
    }
    Text.SplitJoin(pieces, '&');
    JoinKeepsFirst(pieces, "&");
  }

  /** One encoded argument free of '=' decodes as a positional argument. */
  lemma PieceDecodes(text: string, unquote: string -> Option<string>, loads: string -> Option<Value>)
    requires unquote(EncodeUriComponent(text)) == Some(text) && '=' !in text
    ensures Bridge.DecodeArg(EncodeUriComponent(text), unquote, loads).Ok?
    ensures '=' !in unquote(EncodeUriComponent(text)).GetOr("=")
  {
    EncodedIsOpaque(text);
  }

  lemma JoinKeepsFirst(pieces: seq<string>, sep: string)
    requires pieces != []
    ensures |Text.Join(pieces, sep)| >= |pieces[0]|
  {
  }
}

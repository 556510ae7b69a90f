/**
 * The older web view delegate: a URL with the delegate's protocol is turned
 * into the text of a Python call on the delegate, `self.delegate.<netloc>(...)`,
 * whose arguments are the '&'-separated pieces of the query, each written as
 * `name="value"` or `"piece"`. `urlparse` is a parameter (the parts it
 * yields); the text is recorded rather than evaluated.
 */
module MobilePy {
  import Text
  import Sets
  import Bridge
  import JsBridge
  import Ui

  const DelegatePrefix: string := "self.delegate."

  /** One query piece as call-argument text: `name="value"` when it splits on '=' into exactly two parts, else `"piece"`. */
  function Fragment(piece: string): string {
    var halves := Text.Split(piece, '=');
    if |halves| == 2 then halves[0] + "=\"" + halves[1] + "\"" else "\"" + piece + "\""
  }

  /** The piece in double quotes. */
  function QuotedPiece(piece: string): string {
    "\"" + piece + "\""
  }

  /** The images of the pieces under `f`, in order, with nothing between them. */
  function Concat(pieces: seq<string>, f: string -> string): string
    decreases |pieces|
  {
    if pieces == [] then "" else Concat(pieces[..|pieces| - 1], f) + f(pieces[|pieces| - 1])
  }

  /** The text between the parentheses: the pieces of the query, when the query or else the path is non-empty. */
  function ArgumentText(parts: Bridge.UrlParts): string {
    if parts.query != "" || parts.path != "" then Concat(Text.Split(parts.query, '&'), Fragment) else ""
  }

  /** The call `parse_message` evaluates for a URL with these parts. */
  function Command(parts: Bridge.UrlParts): (r: string)
    ensures Text.StartsWith(r, DelegatePrefix + parts.netloc + "(")
    ensures |r| > 0 && r[|r| - 1] == ')'
  {
    var r := DelegatePrefix + parts.netloc + "(" + ArgumentText(parts) + ")";
    assert r == (DelegatePrefix + parts.netloc + "(") + (ArgumentText(parts) + ")");
    r
  }

  /** The fragments of two runs of pieces are the two runs' fragments side by side: no separator is ever inserted. */
  lemma {:induction false} ConcatAppend(a: seq<string>, b: seq<string>, f: string -> string)
    ensures Concat(a + b, f) == Concat(a, f) + Concat(b, f)
    decreases |b|
  {
    if b == [] {
      assert a + b == a;
    } else {
      var init, last := b[..|b| - 1], b[|b| - 1];
      var ab := a + b;
      assert ab[..|ab| - 1] == a + init && ab[|ab| - 1] == last;
      assert Concat(ab, f) == Concat(a + init, f) + f(last);
      assert Concat(a + init, f) == Concat(a, f) + Concat(init, f) by {
        ConcatAppend(a, init, f);
      }
      Sets.AppendAssoc(Concat(a, f), Concat(init, f), f(last));
    }
  }

  lemma ConcatSnoc(pieces: seq<string>, i: nat, f: string -> string)
    requires i < |pieces|
    ensures Concat(pieces[..i + 1], f) == Concat(pieces[..i], f) + f(pieces[i])
  {
    assert pieces[..i + 1][..i] == pieces[..i];
  }

  /** Two functions that agree on every piece give the same concatenation. */
  lemma {:induction false} ConcatAgree(pieces: seq<string>, f: string -> string, g: string -> string)
    requires forall i :: 0 <= i < |pieces| ==> f(pieces[i]) == g(pieces[i])
    ensures Concat(pieces, f) == Concat(pieces, g)
    decreases |pieces|
  {
    if pieces != [] {
      ConcatAgree(pieces[..|pieces| - 1], f, g);
    }
  }

  /** A piece without '=' is quoted whole. */
  lemma PositionalFragment(piece: string)
    requires '=' !in piece
    ensures Fragment(piece) == QuotedPiece(piece)
  {
    Text.SplitJoin([piece], '=');
  }

  /** A piece with exactly one '=' becomes a keyword argument. */
  lemma KeywordFragment(name: string, value: string)
    requires '=' !in name && '=' !in value
    ensures Fragment(name + "=" + value) == name + "=\"" + value + "\""
  {
    Text.SplitJoin([name, value], '=');
    assert Text.Join([name, value], "=") == name + "=" + value;
  }

  /** A piece with two '=' is quoted whole, '=' included. */
  lemma TwoEqualsQuoted(a: string, b: string, c: string)
    requires '=' !in a && '=' !in b && '=' !in c
    ensures Fragment(a + "=" + b + "=" + c) == "\"" + a + "=" + b + "=" + c + "\""
  {
    Text.SplitThree(a, b, c, '=');
  }

  /**
   * Two positional pieces give two adjacent string literals, `"a""b"`, which
   * Python reads as the one string `"ab"`.
   */
  lemma AdjacentLiterals(netloc: string, a: string, b: string)
    requires '=' !in a && '=' !in b && '&' !in a && '&' !in b
    ensures Command(Bridge.UrlParts(netloc, "", a + "&" + b)) ==
      DelegatePrefix + netloc + "(" + ("\"" + a + "\"\"" + b + "\"") + ")"
  {
    Text.SplitJoin([a, b], '&');
    assert Text.Join([a, b], "&") == a + "&" + b;
    TwoQuoted(a, b);
  }

  lemma TwoQuoted(a: string, b: string)
    requires '=' !in a && '=' !in b
    ensures Concat([a, b], Fragment) == "\"" + a + "\"\"" + b + "\""
  {
    PositionalFragment(a);
    PositionalFragment(b);
    ConcatAgree([a, b], Fragment, QuotedPiece);
    assert [a, b][..1] == [a] && [a][..0] == [];
    assert Concat([a, b], QuotedPiece) == Concat([a], QuotedPiece) + QuotedPiece(b);
    assert Concat([a], QuotedPiece) == "" + QuotedPiece(a);
  }

  /** When the query is empty and the path is not, the empty query is still split: one `""` argument. */
  lemma PathFallbackGivesEmptyArgument(netloc: string, path: string)
    requires path != ""
    ensures Command(Bridge.UrlParts(netloc, path, "")) == DelegatePrefix + netloc + "(\"\")"
  {
    assert Text.Split("", '&') == [""];
    assert [""][..0] == [];
    PositionalFragment("");
  }

  /** A URL with no query and no path calls the delegate with no arguments. */
  lemma NoQueryNoArguments(netloc: string)
    ensures Command(Bridge.UrlParts(netloc, "", "")) == DelegatePrefix + netloc + "()"
  {
  }

  /**
   * What a message sent by the JavaScript bridge becomes here: the method
   * name called with each encoded argument as a string literal, the literals
   * side by side.
   */
  lemma {:induction false} SentArgumentsQuoted(name: string, args: seq<JsBridge.JsArg>)
    requires args != [] && forall i :: 0 <= i < |args| ==> !args[i].Nullish?
    requires JsBridge.UrlText(args[0]) != ""
    ensures var encoded := JsBridge.EncodedArgs(args);
      Command(Bridge.UrlParts(name, "", Text.Join(encoded, "&"))) == DelegatePrefix + name + "(" + Concat(encoded, QuotedPiece) + ")"
  {
    var encoded := JsBridge.EncodedArgs(args);
    JsBridge.QuerySplitsBack(args);
    forall i | 0 <= i < |encoded| ensures Fragment(encoded[i]) == QuotedPiece(encoded[i]) {
      JsBridge.EncodedIsOpaque(JsBridge.UrlText(args[i]));
      PositionalFragment(encoded[i]);
    }
    ConcatAgree(encoded, Fragment, QuotedPiece);
  }

  /** `BaseWebViewDelegate`: the protocol it answers, and the calls it has made on its delegate. */
  class BaseWebViewDelegate {
    const protocol: string
    var commands: seq<string>
    /** The scripts the delegate has asked the web view to evaluate. */
    var evaluated: seq<string>

    constructor (protocol: string)
      ensures this.protocol == protocol && commands == [] && evaluated == []
    {
      this.protocol := protocol;
      commands := [];
      evaluated := [];
    }

    /**
     * `parse_message(url)`, `parts` being what `urlparse` makes of `url`:
     * a URL of another protocol is refused; any other makes one call.
     */
    method ParseMessage(url: string, parts: Bridge.UrlParts) returns (handled: bool)
      modifies this
      ensures handled <==> Text.StartsWith(url, protocol)
      ensures evaluated == old(evaluated)
      ensures !handled ==> commands == old(commands)
      ensures handled ==> commands == old(commands) + [Command(parts)]
    {
      if !Text.StartsWith(url, protocol) {
        return false;
      }
      var command := BuildCommand(parts);
      commands := commands + [command];
      return true;
    }

    /** `webview_should_start_load`: the web view loads exactly the URLs that are not messages. */
    method ShouldStartLoad(url: string, parts: Bridge.UrlParts) returns (load: bool)
      modifies this
      ensures load <==> !Text.StartsWith(url, protocol)
      ensures evaluated == old(evaluated)
      ensures load ==> commands == old(commands)
      ensures !load ==> commands == old(commands) + [Command(parts)]
    {
      var handled := ParseMessage(url, parts);
      load := !handled;
    }

    /** `webview_did_finish_load`: every finished load tells the page its message protocol, and makes no call. */
    method DidFinishLoad()
      modifies this
      ensures evaluated == old(evaluated) + [Ui.SetProtocolScript(protocol)]
      ensures commands == old(commands)
    {
      evaluated := evaluated + [Ui.SetProtocolScript(protocol)];
    }
  }

  /** `parse_message` writing the command: the delegate's method, then the arguments in parentheses. */
  method BuildCommand(parts: Bridge.UrlParts) returns (command: string)
    ensures command == Command(parts)
  {
    command := parts.netloc + "(";
    var query := parts.query;
    if query == "" {
      query := parts.path;
    }
    var text := "";
    if query != "" {
      text := WriteArguments(parts.query);
      command := command + text;
    }
    assert text == ArgumentText(parts);
    command := command + ")";
    command := DelegatePrefix + command;
    assert command == DelegatePrefix + parts.netloc + "(" + text + ")";
  }

  /** The loop of `parse_message` that writes the arguments piece by piece. */
  method WriteArguments(query: string) returns (text: string)
    ensures text == Concat(Text.Split(query, '&'), Fragment)
  {
    text := "";
    var args := Text.Split(query, '&');
    var i := 0;
    while i < |args|
      invariant 0 <= i <= |args|
      invariant text == Concat(args[..i], Fragment)
    {
      var arg := args[i];
      var pieces := Text.Split(arg, '=');
      var fragment;
      if |pieces| == 2 {
        fragment := pieces[0] + "=\"" + pieces[1] + "\"";
      } else {
        fragment := "\"" + arg + "\"";
      }
      assert fragment == Fragment(arg);
      ConcatSnoc(args, i, Fragment);
      text := text + fragment;
      i := i + 1;
    }
    assert args[..|args|] == args;
  }
}

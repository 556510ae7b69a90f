/**
 * Loading the project descriptor: environment references are expanded the
 * way `os.path.expandvars` does on POSIX, any `$` that survives makes the
 * load fail with `ValueError`, and only then is the text decoded and stored
 * as the module's `info_json`. JSON decoding itself is a parameter.
 */
module Config {
  import opened Wrappers
  import opened Json
  import Text

  type Env = map<string, string>

  /** The characters of `\w` in an ASCII regular expression. */
  predicate IsWordChar(c: char) {
    ('a' <= c <= 'z') || ('A' <= c <= 'Z') || ('0' <= c <= '9') || c == '_'
  }

  /** The number of word characters at the start of `s`. */
  function WordRun(s: string): (n: nat)
    ensures n <= |s|
    ensures forall i :: 0 <= i < n ==> IsWordChar(s[i])
    ensures n < |s| ==> !IsWordChar(s[n])
  {
    if s != [] && IsWordChar(s[0]) then 1 + WordRun(s[1..]) else 0
  }

  /** A `$name` or `${name}` reference at the front of `s`: the name and the reference's length. */
  datatype Reference = Reference(name: string, len: nat)

  /** The reference `\$(\w+|\{[^}]*\})` matches at the start of `s`, if any. */
  function ReferenceAt(s: string): (r: Option<Reference>)
    requires s != [] && s[0] == '$'
    ensures r.Some? ==> 2 <= r.value.len <= |s|
  {
    var w := WordRun(s[1..]);
    if w > 0 then Some(Reference(s[1..1 + w], 1 + w))
    else if |s| > 1 && s[1] == '{' && Text.IndexOf(s[2..], '}') < |s| - 2 then
      var k := Text.IndexOf(s[2..], '}');
      Some(Reference(s[2..2 + k], 3 + k))
    else None
  }

  /**
   * `os.path.expandvars(s)` with `env` for `os.environ`: every reference to a
   * set variable is replaced by its value, references to unset variables
   * stay as written, and substituted text is not scanned again.
   */
  function ExpandVars(s: string, env: Env): string
    decreases |s|
  {
    if s == [] then ""
    else if s[0] != '$' then [s[0]] + ExpandVars(s[1..], env)
    else match ReferenceAt(s)
      case None => "$" + ExpandVars(s[1..], env)
      case Some(ref) =>
        if ref.name in env then env[ref.name] + ExpandVars(s[ref.len..], env)
        else s[..ref.len] + ExpandVars(s[ref.len..], env)
  }

  /** Every reference in `s` names a variable set in `env`, and no `$` stands alone. */
  predicate Resolvable(s: string, env: Env)
    decreases |s|
  {
    if s == [] then true
    else if s[0] != '$' then Resolvable(s[1..], env)
    else match ReferenceAt(s)
      case None => false
      case Some(ref) => ref.name in env && Resolvable(s[ref.len..], env)
  }

  /** No value in the environment contains a `$`. */
  predicate DollarFreeEnv(env: Env) {
    forall name :: name in env ==> '$' !in env[name]
  }

  /** Text without `$` is left exactly as it is. */
  lemma {:induction false} ExpandWithoutDollar(s: string, env: Env)
    requires '$' !in s
    ensures ExpandVars(s, env) == s
  {
    if s != [] {
      assert s[0] != '$';
      assert '$' !in s[1..] by { assert forall i :: 0 <= i < |s[1..]| ==> s[1..][i] == s[i + 1]; }
      ExpandWithoutDollar(s[1..], env);
    }
  }

  /**
   * With variable values free of `$`, expansion leaves no `$` behind exactly
   * when every reference resolves: the condition under which loading succeeds.
   */
  lemma {:induction false} ExpandLeavesNoDollar(s: string, env: Env)
    requires DollarFreeEnv(env)
    ensures ('$' !in ExpandVars(s, env)) <==> Resolvable(s, env)
    decreases |s|
  {
    if s == [] {
    } else if s[0] != '$' {
      ExpandLeavesNoDollar(s[1..], env);
      assert ExpandVars(s, env) == [s[0]] + ExpandVars(s[1..], env);
    } else {
      match ReferenceAt(s)
      case None =>
        assert ExpandVars(s, env)[0] == '$';
      case Some(ref) =>
        ExpandLeavesNoDollar(s[ref.len..], env);
        var rest := ExpandVars(s[ref.len..], env);
        if ref.name in env {
          assert ExpandVars(s, env) == env[ref.name] + rest;
          assert '$' !in env[ref.name];
          assert ('$' in env[ref.name] + rest) <==> ('$' in rest);
        } else {
          assert ExpandVars(s, env) == s[..ref.len] + rest;
          assert (s[..ref.len] + rest)[0] == '$';
        }
    }
  }

  /** The module-level `info_json` of the configuration module. */
  class Loader {
    var infoJson: Value

    constructor ()
      ensures infoJson == Obj(map[])
    {
      infoJson := Obj(map[]);
    }

    /**
     * `load_project_info`: the file's text is expanded with `env`; a
     * surviving `$` fails with `ValueError` before anything is stored;
     * otherwise the decoded value becomes `info_json` and is returned.
     */
    method LoadProjectInfo(text: string, env: Env, loads: string -> Result<Value>) returns (r: Result<Value>)
      modifies this
      ensures '$' in ExpandVars(text, env) ==> r.Err? && r.error.ValueError? && infoJson == old(infoJson)
      ensures '$' !in ExpandVars(text, env) ==> r == loads(ExpandVars(text, env))
      ensures r.Ok? ==> infoJson == r.value
      ensures r.Err? ==> infoJson == old(infoJson)
    {
      var data := ExpandVars(text, env);
      if '$' in data {
        return Err(ValueError("Unresolved environment variables in project_info.json file."));
      }
      r := loads(data);
      if r.Ok? {
        infoJson := r.value;
      }
    }

    /** `get_project_info`: the stored value, or a failed assertion while it is still empty. */
    method GetProjectInfo() returns (r: Result<Value>)
      ensures r.Ok? <==> Size(infoJson).Ok? && Size(infoJson).value > 0
      ensures r.Ok? ==> r.value == infoJson
      ensures Size(infoJson).Ok? && Size(infoJson).value == 0 ==> r == Err(AssertionFailed("Attempt to access project properties before load_project_info was called."))
    {
      var n :- Size(infoJson);
      if n == 0 {
        return Err(AssertionFailed("Attempt to access project properties before load_project_info was called."));
      }
      return Ok(infoJson);
    }
  }

  /** Python's `len(v)`: defined for strings, lists and dicts only. */
  function Size(v: Value): (r: Result<nat>)
    ensures r.Ok? <==> v.Str? || v.Arr? || v.Obj?
  {
    match v
    case Str(s) => Ok(|s|)
    case Arr(items) => Ok(|items|)
    case Obj(fields) => Ok(|fields|)
    case _ => Err(TypeError("object has no len()"))
  }

  lemma {:induction false} WordRunOf(name: string, b: string)
    requires forall i :: 0 <= i < |name| ==> IsWordChar(name[i])
    requires b == [] || !IsWordChar(b[0])
    ensures WordRun(name + b) == |name|
  {
    if name == [] {
      assert name + b == b;
    } else {
      assert (name + b)[1..] == name[1..] + b;
      WordRunOf(name[1..], b);
    }
  }

  /** A `$name` reference is replaced by the variable's value, or kept when it is unset. */
  lemma ExpandWordReference(name: string, b: string, env: Env)
    requires name != [] && forall i :: 0 <= i < |name| ==> IsWordChar(name[i])
    requires b == [] || !IsWordChar(b[0])
    ensures ExpandVars("$" + name + b, env)
         == (if name in env then env[name] else "$" + name) + ExpandVars(b, env)
  {
    var s := "$" + name + b;
    assert s[1..] == name + b;
    WordRunOf(name, b);
    assert s[1..1 + |name|] == name;
    assert s[..1 + |name|] == "$" + name;
    assert s[1 + |name|..] == b;
  }

  /** A `${name}` reference is replaced by the variable's value, or kept when it is unset. */
  lemma ExpandBraceReference(name: string, b: string, env: Env)
    requires '}' !in name
    ensures ExpandVars("${" + name + "}" + b, env)
         == (if name in env then env[name] else "${" + name + "}") + ExpandVars(b, env)
  {
    var s := "${" + name + "}" + b;
    assert s[1..][0] == '{' && !IsWordChar('{');
    assert s[2..] == name + "}" + b;
    Text.IndexOfFirst(name, "}" + b, '}');
    assert name + "}" + b == name + ("}" + b);
    assert s[2..2 + |name|] == name;
    assert s[..3 + |name|] == "${" + name + "}";
    assert s[3 + |name|..] == b;
  }

  const SampleHead: string := "{\"name\": \""
  const SampleMid: string := "\", \"version\": \""
  const SampleTail: string := "\"}"

  /** A descriptor whose name is `$APP_NAME` and whose version is `${APP_VERSION}`. */
  const SampleText: string := SampleHead + ("$" + "APP_NAME" + (SampleMid + ("${" + "APP_VERSION" + "}" + SampleTail)))

  /** Expansion of `head $n1 mid ${n2} tail` when only the two references carry a `$`. */
  lemma ExpandTwoReferences(head: string, n1: string, mid: string, n2: string, tail: string, env: Env)
    requires '$' !in head && '$' !in mid && '$' !in tail
    requires n1 != [] && forall i :: 0 <= i < |n1| ==> IsWordChar(n1[i])
    requires mid != [] && !IsWordChar(mid[0])
    requires '}' !in n2
    ensures ExpandVars(head + ("$" + n1 + (mid + ("${" + n2 + "}" + tail))), env)
      == head + ((if n1 in env then env[n1] else "$" + n1)
       + (mid + ((if n2 in env then env[n2] else "${" + n2 + "}") + tail)))
  {
    var v1 := if n1 in env then env[n1] else "$" + n1;
    var v2 := if n2 in env then env[n2] else "${" + n2 + "}";
    var rest2 := "${" + n2 + "}" + tail;
    var rest1 := mid + rest2;
    var whole := head + ("$" + n1 + rest1);
    ExpandWithoutDollar(tail, env);
    ExpandBraceReference(n2, tail, env);
    assert ExpandVars(rest2, env) == v2 + tail;
    ExpandPrefix(mid, rest2, env);
    assert ExpandVars(rest1, env) == mid + (v2 + tail);
    ExpandWordReference(n1, rest1, env);
    assert ExpandVars("$" + n1 + rest1, env) == v1 + (mid + (v2 + tail));
    ExpandPrefix(head, "$" + n1 + rest1, env);
    assert ExpandVars(whole, env) == head + (v1 + (mid + (v2 + tail)));
  }

  /** How the sample descriptor expands under any environment. */
  lemma SampleExpansion(env: Env)
    ensures ExpandVars(SampleText, env)
      == SampleHead + ((if "APP_NAME" in env then env["APP_NAME"] else "$" + "APP_NAME")
       + (SampleMid + ((if "APP_VERSION" in env then env["APP_VERSION"] else "${" + "APP_VERSION" + "}")
       + SampleTail)))
  {
    ExpandTwoReferences(SampleHead, "APP_NAME", SampleMid, "APP_VERSION", SampleTail, env);
  }

  /** Loading the sample fails while either variable is unset and yields the values once both are set. */
  lemma SampleNeedsBothVariables(name: string, version: string)
    requires '$' !in name && '$' !in version
    ensures '$' in ExpandVars(SampleText, map[])
    ensures '$' in ExpandVars(SampleText, map["APP_NAME" := name])
    ensures ExpandVars(SampleText, map["APP_NAME" := name, "APP_VERSION" := version])
         == SampleHead + (name + (SampleMid + (version + SampleTail)))
    ensures '$' !in ExpandVars(SampleText, map["APP_NAME" := name, "APP_VERSION" := version])
  {
    var e0: Env := map[];
    var e1: Env := map["APP_NAME" := name];
    var e2: Env := map["APP_NAME" := name, "APP_VERSION" := version];
    SampleExpansion(e0);
    SampleExpansion(e1);
    SampleExpansion(e2);
    assert '$' in "$" + "APP_NAME";
    assert '$' in "${" + "APP_VERSION" + "}";
    assert '$' !in SampleHead && '$' !in SampleMid && '$' !in SampleTail;
  }

  /** Expansion passes over a `$`-free prefix unchanged. */
  lemma {:induction false} ExpandPrefix(a: string, b: string, env: Env)
    requires '$' !in a
    ensures ExpandVars(a + b, env) == a + ExpandVars(b, env)
  {
    if a != [] {
      assert (a + b)[0] == a[0] && (a + b)[1..] == a[1..] + b;
      assert '$' !in a[1..] by { assert forall i :: 0 <= i < |a[1..]| ==> a[1..][i] == a[i + 1]; }
      ExpandPrefix(a[1..], b, env);
    } else {
      assert a + b == b;
    }
  }
}

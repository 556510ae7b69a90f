/**
 * The Python `str` operations the build tool relies on, over `seq<char>`:
 * substring search, `replace`, `split`/`join` on one character, ASCII case
 * folding, `strip`, `int(...)` parsing and `str(int)` rendering.
 */
module Text {
  import opened Wrappers

  predicate MatchAt(s: string, pat: string, i: nat) {
    i + |pat| <= |s| && s[i..i + |pat|] == pat
  }

  /** Python's `pat in s` for two strings. */
  predicate Contains(s: string, pat: string) {
    exists i: nat :: i <= |s| && MatchAt(s, pat, i)
  }

  predicate StartsWith(s: string, prefix: string) {
    |prefix| <= |s| && s[..|prefix|] == prefix
  }

  predicate EndsWith(s: string, suffix: string) {
    |suffix| <= |s| && s[|s| - |suffix|..] == suffix
  }

  lemma MatchInTail(s: string, pat: string, i: nat)
    requires 1 <= |s| && MatchAt(s[1..], pat, i)
    ensures MatchAt(s, pat, i + 1)
  {
    assert s[1..][i..i + |pat|] == s[i + 1..i + 1 + |pat|];
  }

  /**
   * Python's `s.replace(pat, rep)`: every non-overlapping occurrence of `pat`,
   * found left to right, is replaced by `rep`.
   */
  function Replace(s: string, pat: string, rep: string): string
    requires |pat| > 0
    decreases |s|
  {
    if |s| < |pat| then s
    else if s[..|pat|] == pat then rep + Replace(s[|pat|..], pat, rep)
    else [s[0]] + Replace(s[1..], pat, rep)
  }

  /** Replacing a character by text without it removes every occurrence of it. */
  lemma {:induction false} ReplaceCharGone(s: string, c: char, rep: string)
    requires c !in rep
    ensures c !in Replace(s, [c], rep)
    decreases |s|
  {
    if |s| >= 1 {
      ReplaceCharGone(s[1..], c, rep);
      if s[..1] != [c] {
        assert s[0] != c by { assert s[..1] == [s[0]]; }
      }
    }
  }

  /** Replacing one character keeps every other character that occurs. */
  lemma {:induction false} ReplaceKeeps(s: string, c: char, rep: string, d: char)
    requires d in s && d != c
    ensures d in Replace(s, [c], rep)
    decreases |s|
  {
    if s[0] == d {
      assert s[..1] == [d] && s[..1] != [c];
      assert Replace(s, [c], rep)[0] == d;
    } else {
      assert d in s[1..] by { var i :| 0 <= i < |s| && s[i] == d; assert i > 0 && s[1..][i - 1] == d; }
      ReplaceKeeps(s[1..], c, rep, d);
      if s[..1] == [c] {
        assert Replace(s, [c], rep) == rep + Replace(s[1..], [c], rep);
      } else {
        assert Replace(s, [c], rep) == [s[0]] + Replace(s[1..], [c], rep);
      }
    }
  }

  /** Replacing a pattern that does not occur leaves the string unchanged. */
  lemma {:induction false} ReplaceAbsent(s: string, pat: string, rep: string)
    requires |pat| > 0 && !Contains(s, pat)
    ensures Replace(s, pat, rep) == s
  {
    if |s| < |pat| {
    } else {
      assert !MatchAt(s, pat, 0);
      assert s[..|pat|] != pat;
      forall i: nat | MatchAt(s[1..], pat, i) ensures false {
        MatchInTail(s, pat, i);
      }
      ReplaceAbsent(s[1..], pat, rep);
    }
  }

  /**
   * A prefix in which no occurrence of `pat` starts is copied through, and the
   * replacement continues on the rest.
   */
  lemma {:induction false} ReplaceSkipsPrefix(a: string, t: string, pat: string, rep: string)
    requires |pat| > 0
    requires forall i: nat :: i < |a| ==> !MatchAt(a + t, pat, i)
    ensures Replace(a + t, pat, rep) == a + Replace(t, pat, rep)
  {
    if a == [] {
      assert a + t == t;
    } else {
      var s := a + t;
      assert !MatchAt(s, pat, 0);
      assert s[1..] == a[1..] + t;
      forall i: nat | i < |a[1..]| ensures !MatchAt(a[1..] + t, pat, i) {
        if MatchAt(a[1..] + t, pat, i) {
          MatchInTail(s, pat, i);
        }
      }
      ReplaceSkipsPrefix(a[1..], t, pat, rep);
      if |s| < |pat| {
        ReplaceAbsentShort(s, t, pat, rep);
      } else {
        assert s[..|pat|] != pat;
        assert Replace(s, pat, rep) == [s[0]] + Replace(s[1..], pat, rep);
        assert s[0] == a[0] && a == [a[0]] + a[1..];
      }
    }
  }

  lemma ReplaceAbsentShort(s: string, t: string, pat: string, rep: string)
    requires |pat| > 0 && |s| < |pat| && |t| <= |s|
    ensures Replace(s, pat, rep) == s && Replace(t, pat, rep) == t
  {
  }

  /** One occurrence of `pat` after a clean prefix becomes `rep`. */
  lemma ReplaceOne(a: string, b: string, pat: string, rep: string)
    requires |pat| > 0
    requires forall i: nat :: i < |a| ==> !MatchAt(a + pat + b, pat, i)
    requires !Contains(b, pat)
    ensures Replace(a + pat + b, pat, rep) == a + rep + b
  {
    var t := pat + b;
    assert a + pat + b == a + t;
    assert Replace(a + t, pat, rep) == a + Replace(t, pat, rep) by {
      ReplaceSkipsPrefix(a, t, pat, rep);
    }
    assert Replace(t, pat, rep) == rep + b by {
      assert t[..|pat|] == pat && t[|pat|..] == b;
      ReplaceAbsent(b, pat, rep);
    }
  }

  /** Python's `s.split(c)` for a one-character separator. */
  function Split(s: string, c: char): (r: seq<string>)
    ensures |r| >= 1
  {
    if s == [] then [""]
    else if s[0] == c then [""] + Split(s[1..], c)
    else
      var rest := Split(s[1..], c);
      [[s[0]] + rest[0]] + rest[1..]
  }

  /** Python's `sep.join(parts)`. */
  function Join(parts: seq<string>, sep: string): string {
    if |parts| == 0 then ""
    else if |parts| == 1 then parts[0]
    else parts[0] + sep + Join(parts[1..], sep)
  }

  /** Joining the pieces of a split with the separator gives the string back. */
  lemma {:induction false} JoinSplit(s: string, c: char)
    ensures Join(Split(s, c), [c]) == s
  {
    if s == [] {
    } else if s[0] == c {
      JoinSplit(s[1..], c);
      assert s == [c] + s[1..];
    } else {
      var rest := Split(s[1..], c);
      JoinSplit(s[1..], c);
      if |rest| == 1 {
        assert Join(rest, [c]) == rest[0];
      } else {
        assert Join(rest, [c]) == rest[0] + [c] + Join(rest[1..], [c]);
      }
      assert s == [s[0]] + s[1..];
    }
  }

  lemma {:induction false} SplitCleanPrefix(a: string, b: string, c: char)
    requires c !in a
    ensures Split(a + b, c) == [a + Split(b, c)[0]] + Split(b, c)[1..]
  {
    if a == [] {
      var r := Split(b, c);
      assert a + b == b && a + r[0] == r[0];
      assert r == [r[0]] + r[1..];
    } else {
      SplitCleanPrefix(a[1..], b, c);
      assert (a + b)[1..] == a[1..] + b;
      assert (a + b)[0] == a[0] && a[0] != c;
      var rest := Split(a[1..] + b, c);
      assert Split(a + b, c) == [[a[0]] + rest[0]] + rest[1..];
      assert [a[0]] + (a[1..] + Split(b, c)[0]) == a + Split(b, c)[0];
    }
  }

  /** Splitting a join of separator-free pieces gives the pieces back. */
  lemma {:induction false} SplitJoin(parts: seq<string>, c: char)
    requires |parts| >= 1
    requires forall i :: 0 <= i < |parts| ==> c !in parts[i]
    ensures Split(Join(parts, [c]), c) == parts
  {
    if |parts| == 1 {
      SplitCleanPrefix(parts[0], "", c);
      assert parts[0] + "" == parts[0];
    } else {
      SplitJoin(parts[1..], c);
      var tail := Join(parts[1..], [c]);
      SplitCleanPrefix(parts[0], [c] + tail, c);
      assert parts[0] + [c] + tail == parts[0] + ([c] + tail);
      assert ([c] + tail)[1..] == tail;
      var sp := Split([c] + tail, c);
      assert sp == [""] + Split(tail, c);
      assert sp[0] == "" && sp[1..] == parts[1..];
      assert Join(parts, [c]) == parts[0] + [c] + tail;
      assert parts[0] + sp[0] == parts[0];
      assert parts == [parts[0]] + parts[1..];
    }
  }

  /** Splitting `a` joined to separator-free pieces gives the pieces of `a`, then those pieces. */
  lemma {:induction false} SplitAppendJoin(a: string, parts: seq<string>, c: char)
    requires |parts| >= 1
    requires forall i :: 0 <= i < |parts| ==> c !in parts[i]
    ensures Split(a + [c] + Join(parts, [c]), c) == Split(a, c) + parts
    decreases |a|
  {
    var j := Join(parts, [c]);
    if a == [] {
      SplitJoin(parts, c);
      assert a + [c] + j == [c] + j;
      assert ([c] + j)[1..] == j;
    } else if a[0] == c {
      SplitAppendJoin(a[1..], parts, c);
      assert (a + [c] + j)[1..] == a[1..] + [c] + j;
      assert (a + [c] + j)[0] == c;
    } else {
      SplitAppendJoin(a[1..], parts, c);
      assert (a + [c] + j)[1..] == a[1..] + [c] + j;
      assert (a + [c] + j)[0] == a[0];
      var rest := Split(a[1..] + [c] + j, c);
      var head := Split(a[1..], c);
      assert rest == head + parts;
      assert rest[0] == head[0];
      assert rest[1..] == head[1..] + parts;
    }
  }

  function ToLowerChar(c: char): char {
    if 'A' <= c <= 'Z' then (c as int + 32) as char else c
  }

  /** Python's `s.lower()` restricted to ASCII letters. */
  function Lower(s: string): (r: string)
    ensures |r| == |s|
    ensures forall i :: 0 <= i < |s| ==> r[i] == ToLowerChar(s[i])
  {
    if s == [] then "" else [ToLowerChar(s[0])] + Lower(s[1..])
  }

  /** The index of the first `c` in `s`, or `|s|`. */
  function IndexOf(s: string, c: char): (n: nat)
    ensures n <= |s|
    ensures forall i :: 0 <= i < n ==> s[i] != c
    ensures n < |s| ==> s[n] == c
  {
    if s == [] || s[0] == c then 0 else 1 + IndexOf(s[1..], c)
  }

  /** The first `c` of `a + b`, for `a` free of `c` and `b` starting with `c`, is at `|a|`. */
  lemma {:induction false} IndexOfFirst(a: string, b: string, c: char)
    requires c !in a && b != [] && b[0] == c
    ensures IndexOf(a + b, c) == |a|
    decreases |a|
  {
    if a == [] {
      assert a + b == b;
    } else {
      assert (a + b)[1..] == a[1..] + b;
      assert (a + b)[0] == a[0];
      IndexOfFirst(a[1..], b, c);
    }
  }

  /** Index of the last `c` in `s`, or -1 (Python's `s.rfind(c)`). */
  function RFind(s: string, c: char): (r: int)
    ensures -1 <= r < |s|
    ensures r >= 0 ==> s[r] == c && forall j :: r < j < |s| ==> s[j] != c
    ensures r == -1 ==> c !in s
  {
    if s == [] then -1
    else if s[|s| - 1] == c then |s| - 1
    else RFind(s[..|s| - 1], c)
  }

  /** A suffix without `c` does not move the last `c`. */
  lemma {:induction false} RFindPastSuffix(pre: string, tail: string, c: char)
    requires c !in tail
    ensures RFind(pre + tail, c) == RFind(pre, c)
    decreases |tail|
  {
    if tail == [] {
      assert pre + tail == pre;
    } else {
      var t := pre + tail;
      assert t[|t| - 1] == tail[|tail| - 1];
      assert t[..|t| - 1] == pre + tail[..|tail| - 1];
      RFindPastSuffix(pre, tail[..|tail| - 1], c);
    }
  }

  /** Three pieces free of `c`, joined by `c`, split back into the three. */
  lemma SplitThree(a: string, b: string, d: string, c: char)
    requires c !in a && c !in b && c !in d
    ensures Split(a + [c] + b + [c] + d, c) == [a, b, d]
  {
    assert [a, b, d][1..] == [b, d] && [b, d][1..] == [d];
    assert Join([b, d], [c]) == b + [c] + d;
    assert Join([a, b, d], [c]) == a + [c] + (b + [c] + d);
    assert a + [c] + (b + [c] + d) == a + [c] + b + [c] + d;
    SplitJoin([a, b, d], c);
  }

  /** What follows the last `c` of `pre + [c] + t`, for `t` free of `c`, is `t`. */
  lemma AfterLast(pre: string, t: string, c: char)
    requires c !in t
    ensures RFind(pre + [c] + t, c) == |pre|
    ensures (pre + [c] + t)[|pre| + 1..] == t
  {
    RFindPastSuffix(pre + [c], t, c);
    assert (pre + [c])[|pre + [c]| - 1] == c;
  }

  /** No piece of a split holds the separator. */
  lemma {:induction false} SplitPartsClean(s: string, c: char)
    ensures forall i :: 0 <= i < |Split(s, c)| ==> c !in Split(s, c)[i]
    decreases |s|
  {
    if s != [] {
      SplitPartsClean(s[1..], c);
      var rest := Split(s[1..], c);
      if s[0] != c {
        var r := Split(s, c);
        assert r == [[s[0]] + rest[0]] + rest[1..];
        forall i | 0 <= i < |r| ensures c !in r[i] {
          if i == 0 {
            assert c !in rest[0];
          } else {
            assert r[i] == rest[i];
          }
        }
      }
    }
  }

  /** Two non-empty lists of pieces join to the two joins around one separator. */
  lemma {:induction false} JoinAppend(a: seq<string>, b: seq<string>, sep: string)
    requires |a| >= 1 && |b| >= 1
    ensures Join(a + b, sep) == Join(a, sep) + sep + Join(b, sep)
    decreases |a|
  {
    assert (a + b)[0] == a[0];
    if |a| == 1 {
      assert (a + b)[1..] == b;
    } else {
      JoinAppend(a[1..], b, sep);
      assert (a + b)[1..] == a[1..] + b;
    }
  }

  predicate IsSpace(c: char) {
    c == ' ' || c == '\t' || c == '\n' || c == '\r' || c == 11 as char || c == 12 as char
  }

  /** Python's `s.strip()` for ASCII whitespace. */
  function Strip(s: string): (r: string)
    ensures |r| <= |s|
    ensures r != [] ==> !IsSpace(r[0]) && !IsSpace(r[|r| - 1])
    decreases |s|
  {
    if s == [] then ""
    else if IsSpace(s[0]) then Strip(s[1..])
    else if IsSpace(s[|s| - 1]) then Strip(s[..|s| - 1])
    else s
  }

  predicate IsDigit(c: char) {
    '0' <= c <= '9'
  }

  function DigitOf(c: char): nat {
    if IsDigit(c) then c as int - '0' as int else 0
  }

  function DigitChar(d: nat): (c: char)
    requires d < 10
    ensures IsDigit(c) && DigitOf(c) == d
  {
    ('0' as int + d) as char
  }

  /** Digits with single underscores between them, as Python's `int` accepts. */
  predicate DigitRun(t: string) {
    && |t| > 0
    && IsDigit(t[0])
    && IsDigit(t[|t| - 1])
    && (forall i :: 0 <= i < |t| ==> IsDigit(t[i]) || t[i] == '_')
    && (forall i :: 0 <= i < |t| - 1 ==> t[i] == '_' ==> IsDigit(t[i + 1]))
  }

  /** The number that the digits of `t` spell, underscores skipped. */
  function DigitsValue(t: string): nat
    decreases |t|
  {
    if t == [] then 0
    else if t[|t| - 1] == '_' then DigitsValue(t[..|t| - 1])
    else DigitsValue(t[..|t| - 1]) * 10 + DigitOf(t[|t| - 1])
  }

  /** Python's `int(s)` on a string: `None` where Python raises `ValueError`. */
  function ParseInt(s: string): Option<int> {
    var t := Strip(s);
    if |t| > 0 && (t[0] == '-' || t[0] == '+') then
      if DigitRun(t[1..]) then
        Some(if t[0] == '-' then -(DigitsValue(t[1..]) as int) else DigitsValue(t[1..]))
      else None
    else if DigitRun(t) then Some(DigitsValue(t))
    else None
  }

  /** Python's `str(n)` for a natural number. */
  function NatToString(n: nat): (r: string)
    ensures |r| > 0 && forall i :: 0 <= i < |r| ==> IsDigit(r[i])
    decreases n
  {
    if n < 10 then [DigitChar(n)] else NatToString(n / 10) + [DigitChar(n % 10)]
  }

  /** Python's `str(i)` for an integer. */
  function IntToString(i: int): string {
    if i < 0 then "-" + NatToString(-i) else NatToString(i)
  }

  lemma {:induction false} DigitsValueOfNat(n: nat)
    ensures DigitsValue(NatToString(n)) == n
    decreases n
  {
    var r := NatToString(n);
    if n >= 10 {
      DigitsValueOfNat(n / 10);
      assert r[..|r| - 1] == NatToString(n / 10);
    } else {
      assert r[..|r| - 1] == [];
    }
  }

  lemma StripNoSpace(s: string)
    requires |s| > 0 && !IsSpace(s[0]) && !IsSpace(s[|s| - 1])
    ensures Strip(s) == s
  {
  }

  /** Python's `int(str(i)) == i`. */
  lemma IntRoundTrip(i: int)
    ensures ParseInt(IntToString(i)) == Some(i)
  {
    var s := IntToString(i);
    if i < 0 {
      var d := NatToString(-i);
      assert s == "-" + d && s[0] == '-' && s[|s| - 1] == d[|d| - 1];
      StripNoSpace(s);
      assert s[1..] == d;
      DigitsValueOfNat(-i);
    } else {
      StripNoSpace(s);
      DigitsValueOfNat(i);
    }
  }

  /** The value of the digits after a decimal point, underscores skipped. */
  function FractionValue(t: string): real
    decreases |t|
  {
    if t == [] then 0.0
    else if t[0] == '_' then FractionValue(t[1..])
    else (DigitOf(t[0]) as real + FractionValue(t[1..])) / 10.0
  }

  /**
   * Python's `float(s)` on decimal spellings such as `20`, `83.5`, `.5` or
   * `2.`: `None` where Python raises `ValueError`. Exponents, `inf` and
   * `nan` are outside the model, and the value is exact (no binary rounding).
   */
  function ParseFloat(s: string): Option<real> {
    var t := Strip(s);
    var signed := |t| > 0 && (t[0] == '-' || t[0] == '+');
    var body := if signed then t[1..] else t;
    var parts := Split(body, '.');
    var v :=
      if |parts| == 1 && DigitRun(parts[0]) then Some(DigitsValue(parts[0]) as real)
      else if |parts| == 2 && (parts[0] != "" || parts[1] != "")
           && (parts[0] == "" || DigitRun(parts[0])) && (parts[1] == "" || DigitRun(parts[1]))
      then Some(DigitsValue(parts[0]) as real + FractionValue(parts[1]))
      else None;
    match v
    case Some(x) => Some(if signed && t[0] == '-' then -x else x)
    case None => None
  }

  /** `float(str(n)) == n` for a natural number. */
  lemma FloatOfNat(n: nat)
    ensures ParseFloat(NatToString(n)) == Some(n as real)
  {
    var s := NatToString(n);
    StripNoSpace(s);
    DigitsValueOfNat(n);
    assert '.' !in s;
    SplitJoin([s], '.');
    assert Join([s], ".") == s;
    assert DigitRun(s);
  }
}

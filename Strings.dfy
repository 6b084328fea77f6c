/** The JavaScript string operations the modelled code relies on: truthiness of an
    optional string, `startsWith`, `split('\n')`, `join`, `trim`, the `\s` class
    and the decimal rendering of a number inside a template literal. */
module Strings {
  import opened Wrappers

  /** JavaScript truthiness of a `string | null`: present and not the empty string. */
  predicate Truthy(s: Option<string>) {
    s.Some? && s.value != ""
  }

  /** The characters matched by the regular-expression class `\s`, which are also
      the characters `String.prototype.trim` removes (WhiteSpace and LineTerminator
      of ECMAScript). */
  predicate IsJsWhitespace(c: char) {
    || c == '\t' || c == '\n' || c == '\U{000B}' || c == '\U{000C}' || c == '\r'
    || c == ' ' || c == '\U{00A0}' || c == '\U{1680}'
    || ('\U{2000}' <= c <= '\U{200A}')
    || c == '\U{2028}' || c == '\U{2029}' || c == '\U{202F}' || c == '\U{205F}'
    || c == '\U{3000}' || c == '\U{FEFF}'
  }

  predicate StartsWith(s: string, prefix: string) {
    |prefix| <= |s| && s[..|prefix|] == prefix
  }

  /** The strings of `parts` written one after another. */
  function Concat(parts: seq<string>): string {
    if parts == [] then "" else Concat(parts[..|parts| - 1]) + parts[|parts| - 1]
  }

  /** Concatenation of strings is associative. */
  lemma ConcatAssoc(a: string, b: string, c: string)
    ensures (a + b) + c == a + (b + c)
  {
  }

  /** `parts.join(sep)`. */
  function Join(parts: seq<string>, sep: string): string {
    if |parts| == 0 then ""
    else if |parts| == 1 then parts[0]
    else parts[0] + sep + Join(parts[1..], sep)
  }

  /** Joining two non-empty lists puts exactly one separator between them. */
  lemma {:induction false} JoinAppend(a: seq<string>, b: seq<string>, sep: string)
    requires |a| > 0 && |b| > 0
    ensures Join(a + b, sep) == Join(a, sep) + sep + Join(b, sep)
  {
    assert (a + b)[0] == a[0];
    if |a| == 1 {
      assert (a + b)[1..] == b;
    } else {
      assert (a + b)[1..] == a[1..] + b;
      JoinAppend(a[1..], b, sep);
    }
  }

  /** `s.split('\n')`: the pieces between newlines, always at least one. */
  function SplitLines(s: string): (lines: seq<string>)
    ensures |lines| >= 1
    ensures forall l <- lines :: '\n' !in l
  {
    if s == [] then [""]
    else
      var rest := SplitLines(s[1..]);
      if s[0] == '\n' then [""] + rest
      else [[s[0]] + rest[0]] + rest[1..]
  }

  /** Splitting loses nothing: joining the pieces with newlines gives the input back. */
  lemma {:induction false} JoinSplitLines(s: string)
    ensures Join(SplitLines(s), "\n") == s
  {
    if s != [] {
      var rest := SplitLines(s[1..]);
      JoinSplitLines(s[1..]);
      assert s == [s[0]] + s[1..];
      if s[0] == '\n' {
        assert ([""] + rest)[1..] == rest;
      } else {
        var lines := [[s[0]] + rest[0]] + rest[1..];
        if |rest| > 1 {
          assert lines[1..] == rest[1..];
        }
      }
    }
  }

  /** Text without a newline in front of `t` only extends the first piece of `t`. */
  lemma {:induction false} SplitLinesPrepend(w: string, t: string)
    requires '\n' !in w
    ensures SplitLines(w + t) == [w + SplitLines(t)[0]] + SplitLines(t)[1..]
  {
    if w == [] {
      var pieces := SplitLines(t);
      assert w + t == t && w + pieces[0] == pieces[0];
      assert [pieces[0]] + pieces[1..] == pieces;
    } else {
      SplitLinesPrepend(w[1..], t);
      assert (w + t)[0] == w[0];
      assert (w + t)[1..] == w[1..] + t;
      assert [w[0]] + (w[1..] + SplitLines(t)[0]) == w + SplitLines(t)[0];
    }
  }

  /** Joining newline-free pieces and splitting again gives the pieces back. */
  lemma {:induction false} SplitLinesJoin(lines: seq<string>)
    requires |lines| >= 1
    requires forall l <- lines :: '\n' !in l
    ensures SplitLines(Join(lines, "\n")) == lines
  {
    if |lines| == 1 {
      SplitLinesPrepend(lines[0], "");
      assert lines[0] + "" == lines[0];
      assert SplitLines("") == [""];
      assert Join(lines, "\n") == lines[0] + "";
    } else {
      var tail := Join(lines[1..], "\n");
      SplitLinesJoin(lines[1..]);
      SplitLinesPrepend(lines[0], "\n" + tail);
      assert ("\n" + tail)[0] == '\n' && ("\n" + tail)[1..] == tail;
      assert SplitLines("\n" + tail) == [""] + lines[1..];
      assert Join(lines, "\n") == lines[0] + ("\n" + tail);
      assert lines[0] + "" == lines[0];
      assert [lines[0]] + lines[1..] == lines;
    }
  }

  /** A newline-free string is a single line. */
  lemma SplitLinesSingle(w: string)
    requires '\n' !in w
    ensures SplitLines(w) == [w]
  {
    SplitLinesJoin([w]);
  }

  /** `s` without its leading whitespace. */
  function TrimStart(s: string): (r: string)
    ensures |r| <= |s| && r == s[|s| - |r|..]
    ensures forall i | 0 <= i < |s| - |r| :: IsJsWhitespace(s[i])
    ensures r != [] ==> !IsJsWhitespace(r[0])
  {
    if s != [] && IsJsWhitespace(s[0]) then TrimStart(s[1..]) else s
  }

  /** `s` without its trailing whitespace. */
  function TrimEnd(s: string): (r: string)
    ensures |r| <= |s| && r == s[..|r|]
    ensures forall i | |r| <= i < |s| :: IsJsWhitespace(s[i])
    ensures r != [] ==> !IsJsWhitespace(r[|r| - 1])
  {
    if s != [] && IsJsWhitespace(s[|s| - 1]) then TrimEnd(s[..|s| - 1]) else s
  }

  /** `s.trim()`. */
  function Trim(s: string): (r: string)
    ensures r != [] ==> !IsJsWhitespace(r[0]) && !IsJsWhitespace(r[|r| - 1])
  {
    TrimEnd(TrimStart(s))
  }

  /** `s.trim()` is empty exactly when every character of `s` is whitespace. */
  lemma TrimEmptyIffBlank(s: string)
    ensures Trim(s) == "" <==> forall i | 0 <= i < |s| :: IsJsWhitespace(s[i])
  {
    var t := TrimStart(s);
    if Trim(s) == "" {
      assert t == [];
    } else {
      assert t != [];
    }
  }

  /** Trimming keeps a prefix that begins and ends with non-whitespace. */
  lemma TrimKeepsPrefix(s: string, p: string)
    requires StartsWith(s, p) && p != []
    requires !IsJsWhitespace(p[0]) && !IsJsWhitespace(p[|p| - 1])
    ensures StartsWith(Trim(s), p)
  {
    assert s[0] == p[0] && s[|p| - 1] == p[|p| - 1];
    assert TrimStart(s) == s;
    var r := TrimEnd(s);
    assert |r| >= |p|;
    assert r[..|p|] == s[..|p|];
  }

  predicate IsDigit(c: char) {
    '0' <= c <= '9'
  }

  /** The number a string of decimal digits denotes. */
  function DigitsValue(s: string): nat
    requires forall c <- s :: IsDigit(c)
  {
    if s == [] then 0
    else
      assert IsDigit(s[|s| - 1]) by { assert s[|s| - 1] in s; }
      DigitsValue(s[..|s| - 1]) * 10 + (s[|s| - 1] as int - '0' as int)
  }

  /** The decimal rendering of `n`, as `${n}` writes a non-negative integer. */
  function DecimalString(n: nat): (r: string)
    ensures r != "" && forall c <- r :: IsDigit(c)
    ensures DigitsValue(r) == n
    ensures |r| == 1 || r[0] != '0'
  {
    var last := ('0' as int + n % 10) as char;
    if n < 10 then [last]
    else
      var front := DecimalString(n / 10);
      assert (front + [last])[..|front|] == front;
      front + [last]
  }
}

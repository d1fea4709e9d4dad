/** The JavaScript string and array built-ins the front end's logic relies on:
    `trim`, `split` on a one-character separator, `join`, `startsWith`,
    `toUpperCase` (ASCII letters only), `substring` and `slice`. */
module JsText {

  /** White space and line terminators as `String.prototype.trim` strips them:
      tab, line feed, vertical tab, form feed, carriage return, the space
      separators of Unicode category Zs, the byte order mark, and the line
      and paragraph separators. */
  predicate IsTrimmable(c: char) {
    c == '\t' || c == '\n' || c == '\U{000B}' || c == '\U{000C}' || c == '\r'
    || c == ' ' || c == '\U{00A0}' || c == '\U{1680}'
    || ('\U{2000}' <= c <= '\U{200A}')
    || c == '\U{2028}' || c == '\U{2029}' || c == '\U{202F}' || c == '\U{205F}'
    || c == '\U{3000}' || c == '\U{FEFF}'
  }

  predicate AllTrimmable(s: string) {
    forall k :: 0 <= k < |s| ==> IsTrimmable(s[k])
  }

  /** Drops leading white space. */
  function TrimStart(s: string): string
    decreases |s|
  {
    if |s| > 0 && IsTrimmable(s[0]) then TrimStart(s[1..]) else s
  }

  /** Drops trailing white space. */
  function TrimEnd(s: string): string
    decreases |s|
  {
    if |s| > 0 && IsTrimmable(s[|s| - 1]) then TrimEnd(s[..|s| - 1]) else s
  }

  /** `s.trim()`. */
  function Trim(s: string): string {
    TrimEnd(TrimStart(s))
  }

  /** `TrimStart` keeps the suffix of `s` that starts at its first
      non-white-space character: all it drops is white space. */
  lemma {:induction false} TrimStartSpec(s: string)
    ensures var r := TrimStart(s);
            |r| <= |s| && r == s[|s| - |r|..]
            && (r == [] || !IsTrimmable(r[0]))
            && AllTrimmable(s[..|s| - |r|])
    decreases |s|
  {
    if |s| > 0 && IsTrimmable(s[0]) {
      TrimStartSpec(s[1..]);
      var r := TrimStart(s);
      assert s[1..][|s| - 1 - |r|..] == s[|s| - |r|..];
      assert s[..|s| - |r|] == [s[0]] + s[1..][..|s| - 1 - |r|];
    }
  }

  /** `TrimEnd` keeps the prefix of `s` that ends at its last
      non-white-space character: all it drops is white space. */
  lemma {:induction false} TrimEndSpec(s: string)
    ensures var r := TrimEnd(s);
            |r| <= |s| && r == s[..|r|]
            && (r == [] || !IsTrimmable(r[|r| - 1]))
            && AllTrimmable(s[|r|..])
    decreases |s|
  {
    if |s| > 0 && IsTrimmable(s[|s| - 1]) {
      var t := s[..|s| - 1];
      TrimEndSpec(t);
      var r := TrimEnd(s);
      assert t[..|r|] == s[..|r|];
      assert s[|r|..] == t[|r|..] + [s[|s| - 1]];
    }
  }

  /** A string trims to the empty string exactly when every character of it
      is white space. */
  lemma TrimEmptyIff(s: string)
    ensures Trim(s) == [] <==> AllTrimmable(s)
  {
    var t := TrimStart(s);
    TrimStartSpec(s);
    TrimEndSpec(t);
    if Trim(s) == [] {
      assert AllTrimmable(t[0..]);
      assert s == s[..|s| - |t|] + t;
    } else {
      assert !IsTrimmable(t[0]);
      assert s[|s| - |t|] == t[0];
    }
  }

  /** The trimmed string has no white space at either end, and trimming it
      again changes nothing. */
  lemma TrimEnds(s: string)
    ensures var r := Trim(s); r == [] || (!IsTrimmable(r[0]) && !IsTrimmable(r[|r| - 1]))
    ensures Trim(Trim(s)) == Trim(s)
  {
    var t := TrimStart(s);
    var r := TrimEnd(t);
    TrimStartSpec(s);
    TrimEndSpec(t);
    TrimStartSpec(r);
    TrimEndSpec(r);
    if r != [] {
      assert r[0] == t[0];
    }
    assert TrimStart(r) == r;
    assert TrimEnd(r) == r;
  }

  /** `s.split(sep)` for a one-character separator: the pieces between the
      occurrences of `sep`, empty pieces included. */
  function Split(s: string, sep: char): (r: seq<string>)
    ensures |r| >= 1
    ensures forall k :: 0 <= k < |r| ==> sep !in r[k]
    decreases |s|
  {
    if |s| == 0 then [""]
    else if s[0] == sep then [""] + Split(s[1..], sep)
    else
      var rest := Split(s[1..], sep);
      [[s[0]] + rest[0]] + rest[1..]
  }

  /** `parts.join(sep)`. */
  function Join(parts: seq<string>, sep: char): string {
    if |parts| == 0 then ""
    else if |parts| == 1 then parts[0]
    else parts[0] + [sep] + Join(parts[1..], sep)
  }

  /** Splitting and joining again on the same separator gives back the string. */
  lemma {:induction false} JoinSplit(s: string, sep: char)
    ensures Join(Split(s, sep), sep) == s
    decreases |s|
  {
    if |s| > 0 {
      var rest := Split(s[1..], sep);
      JoinSplit(s[1..], sep);
      if s[0] == sep {
        assert s == [sep] + s[1..];
      } else {
        var r := Split(s, sep);
        assert r[1..] == rest[1..];
        if |rest| == 1 {
          assert s == [s[0]] + rest[0];
        } else {
          assert Join(rest, sep) == rest[0] + [sep] + Join(rest[1..], sep);
          assert s == [s[0]] + rest[0] + [sep] + Join(rest[1..], sep);
        }
      }
    }
  }

  /** ASCII case mapping as `toUpperCase` performs it on ASCII letters. */
  function UpperChar(c: char): (u: char)
    ensures 'a' <= c <= 'z' ==> u as int == c as int - 32
    ensures !('a' <= c <= 'z') ==> u == c
  {
    if 'a' <= c <= 'z' then (c as int - 32) as char else c
  }

  /** `s.toUpperCase()` restricted to ASCII: same length, each character mapped. */
  function ToUpper(s: string): (r: string)
    ensures |r| == |s|
    ensures forall k :: 0 <= k < |s| ==> r[k] == UpperChar(s[k])
  {
    if |s| == 0 then "" else [UpperChar(s[0])] + ToUpper(s[1..])
  }

  /** Clamps a `substring` argument into `[0, len]`. */
  function ClampIndex(i: int, len: nat): (r: nat)
    ensures r <= len
  {
    if i < 0 then 0 else if i > len then len else i
  }

  /** `s.substring(start, end)`: both bounds clamped to the string, swapped
      when the start lies after the end. */
  function Substring(s: string, start: int, end: int): (r: string)
    ensures |r| <= |s|
    ensures 0 <= start <= end <= |s| ==> r == s[start..end]
  {
    var a := ClampIndex(start, |s|);
    var b := ClampIndex(end, |s|);
    if a <= b then s[a..b] else s[b..a]
  }

  /** Resolves a `slice` argument: a negative one counts from the end, and
      the result is clamped into `[0, len]`. */
  function RelativeIndex(i: int, len: nat): (r: nat)
    ensures r <= len
  {
    if i < 0 then (if len + i < 0 then 0 else len + i) else if i > len then len else i
  }

  /** `xs.slice(start, end)`: empty when the resolved start is not before the
      resolved end. */
  function Slice<T>(xs: seq<T>, start: int, end: int): (r: seq<T>)
    ensures |r| <= |xs|
  {
    var a := RelativeIndex(start, |xs|);
    var b := RelativeIndex(end, |xs|);
    if a < b then xs[a..b] else []
  }

  /** `s.startsWith(search)`: the first `|search|` characters of `s` are `search`. */
  predicate StartsWith(s: string, search: string) {
    |search| <= |s| && s[..|search|] == search
  }
}

/**
 * String operations the dashboard (JavaScript) and the detectors (Python) rely on:
 * prefix and substring tests, lower-casing, Python's strip/split/splitlines and
 * decimal formatting. Strings are sequences of Unicode scalar values.
 */
module Text {

  /** `s.startswith(p)` in Python, `s.startsWith(p)` in JavaScript. */
  predicate StartsWith(s: string, p: string) {
    |p| <= |s| && s[..|p|] == p
  }

  /** `s.includes(sub)` in JavaScript, `sub in s` in Python. */
  predicate Contains(s: string, sub: string)
    decreases |s|
  {
    StartsWith(s, sub) || (|s| > 0 && Contains(s[1..], sub))
  }

  /** `sub` occurs in `s` at position `i`. */
  predicate OccursAt(s: string, sub: string, i: int) {
    0 <= i <= |s| - |sub| && s[i..i + |sub|] == sub
  }

  /** Contains means there is a position where `sub` occurs. */
  lemma {:induction false} ContainsAt(s: string, sub: string)
    ensures Contains(s, sub) <==> exists i :: OccursAt(s, sub, i)
    decreases |s|
  {
    if |s| > 0 {
      ContainsAt(s[1..], sub);
      if Contains(s[1..], sub) {
        var i :| OccursAt(s[1..], sub, i);
        assert s[i + 1..i + 1 + |sub|] == sub;
        assert OccursAt(s, sub, i + 1);
      }
      if StartsWith(s, sub) {
        assert OccursAt(s, sub, 0);
      }
      if exists i :: OccursAt(s, sub, i) {
        var i :| OccursAt(s, sub, i);
        if i > 0 {
          assert s[1..][i - 1..i - 1 + |sub|] == sub;
          assert OccursAt(s[1..], sub, i - 1);
        } else {
          assert StartsWith(s, sub);
        }
      }
    } else {
      if exists i :: OccursAt(s, sub, i) {
        var i :| OccursAt(s, sub, i);
        assert i == 0 && |sub| == 0;
        assert StartsWith(s, sub);
      }
      if StartsWith(s, sub) {
        assert OccursAt(s, sub, 0);
      }
    }
  }

  /** A non-empty text that occurs in `s` has its first character in `s`. */
  lemma {:induction false} ContainsFirstChar(s: string, sub: string)
    requires |sub| > 0 && Contains(s, sub)
    ensures sub[0] in s
    decreases |s|
  {
    if StartsWith(s, sub) {
      assert s[0] == sub[0];
    } else {
      ContainsFirstChar(s[1..], sub);
    }
  }

  /** ASCII lower-casing of one character. */
  function LowerChar(c: char): (r: char)
    ensures 'A' <= c <= 'Z' ==> 'a' <= r <= 'z' && r as int == c as int + 32
    ensures !('A' <= c <= 'Z') ==> r == c
  {
    if 'A' <= c <= 'Z' then (c as int + 32) as char else c
  }

  /** `toLowerCase()` / `lower()`, restricted to the ASCII letters. */
  function Lower(s: string): (r: string)
    ensures |r| == |s|
    ensures forall i :: 0 <= i < |s| ==> r[i] == LowerChar(s[i])
  {
    seq(|s|, i requires 0 <= i < |s| => LowerChar(s[i]))
  }

  /** Lower-casing twice is lower-casing once. */
  lemma LowerIdempotent(s: string)
    ensures Lower(Lower(s)) == Lower(s)
  {
  }

  /** The characters for which Python's `str.isspace()` holds. */
  predicate IsSpace(c: char) {
    c == ' ' || ('\t' <= c <= '\r') || ('\U{1C}' <= c <= '\U{1F}') || c == '\U{85}' || c == '\U{A0}'
    || c == '\U{1680}' || ('\U{2000}' <= c <= '\U{200A}') || c == '\U{2028}' || c == '\U{2029}'
    || c == '\U{202F}' || c == '\U{205F}' || c == '\U{3000}'
  }

  function StripLeft(s: string): (r: string)
    ensures |r| <= |s| && r == s[|s| - |r|..]
    ensures r == [] || !IsSpace(r[0])
    ensures forall i :: 0 <= i < |s| - |r| ==> IsSpace(s[i])
    decreases |s|
  {
    if |s| > 0 && IsSpace(s[0]) then StripLeft(s[1..]) else s
  }

  function StripRight(s: string): (r: string)
    ensures |r| <= |s| && r == s[..|r|]
    ensures r == [] || !IsSpace(r[|r| - 1])
    ensures forall i :: |r| <= i < |s| ==> IsSpace(s[i])
    decreases |s|
  {
    if |s| > 0 && IsSpace(s[|s| - 1]) then StripRight(s[..|s| - 1]) else s
  }

  /** Python's `str.strip()` with no arguments. */
  function Strip(s: string): (r: string)
  {
    StripRight(StripLeft(s))
  }

  /** What strip keeps: a slice of the input with no white space at either end,
      and only white space around it. */
  lemma StripSpec(s: string)
    ensures exists i :: OccursAt(s, Strip(s), i)
    ensures Strip(s) == [] || (!IsSpace(Strip(s)[0]) && !IsSpace(Strip(s)[|Strip(s)| - 1]))
    ensures Strip(s) == [] <==> forall i :: 0 <= i < |s| ==> IsSpace(s[i])
  {
    StripSlice(s);
    var l := StripLeft(s);
    var r := StripRight(l);
    if r != [] {
      assert r[0] == l[0];
    }
    StripEmpty(s);
  }

  /** Strip keeps the slice that starts where the leading white space ends. */
  lemma StripSlice(s: string)
    ensures OccursAt(s, Strip(s), |s| - |StripLeft(s)|)
  {
    var l := StripLeft(s);
    var r := StripRight(l);
    var i := |s| - |l|;
    assert l == s[i..];
    assert r == l[..|r|];
    PrefixOfSuffix(s, i, |r|);
    assert Strip(s) == s[i..i + |r|];
  }

  lemma PrefixOfSuffix(s: string, i: nat, n: nat)
    requires i + n <= |s|
    ensures s[i..][..n] == s[i..i + n]
  {
  }

  /** Strip leaves nothing exactly when every character is white space. */
  lemma StripEmpty(s: string)
    ensures Strip(s) == [] <==> forall i :: 0 <= i < |s| ==> IsSpace(s[i])
  {
    var l := StripLeft(s);
    if Strip(s) == [] {
      assert l == [];
    } else if l != [] {
      assert s[|s| - |l|] == l[0];
    }
  }

  /** Python's `s.split(sep)` for a one-character separator: keeps empty pieces, and
      always returns at least one piece. */
  function SplitOn(s: string, sep: char): (r: seq<string>)
    ensures |r| >= 1
    ensures forall k :: 0 <= k < |r| ==> sep !in r[k]
    decreases |s|
  {
    if |s| == 0 then [""]
    else if s[0] == sep then [""] + SplitOn(s[1..], sep)
    else
      var rest := SplitOn(s[1..], sep);
      [[s[0]] + rest[0]] + rest[1..]
  }

  /** `sep.join(pieces)`. */
  function JoinOn(pieces: seq<string>, sep: char): string
    decreases |pieces|
  {
    if |pieces| == 0 then ""
    else if |pieces| == 1 then pieces[0]
    else pieces[0] + [sep] + JoinOn(pieces[1..], sep)
  }

  /** Splitting and re-joining gives the text back. */
  lemma {:induction false} SplitJoin(s: string, sep: char)
    ensures JoinOn(SplitOn(s, sep), sep) == s
    decreases |s|
  {
    if |s| > 0 {
      var rest := SplitOn(s[1..], sep);
      SplitJoin(s[1..], sep);
      if s[0] == sep {
        assert SplitOn(s, sep) == [""] + rest;
        assert ([""] + rest)[1..] == rest;
      } else {
        var r := SplitOn(s, sep);
        assert r == [[s[0]] + rest[0]] + rest[1..];
        if |rest| == 1 {
          assert JoinOn(r, sep) == [s[0]] + rest[0];
          assert s == [s[0]] + s[1..];
        } else {
          assert r[1..] == rest[1..];
          assert JoinOn(rest, sep) == rest[0] + [sep] + JoinOn(rest[1..], sep);
          assert JoinOn(r, sep) == [s[0]] + rest[0] + [sep] + JoinOn(rest[1..], sep);
          assert s == [s[0]] + s[1..];
        }
      }
    }
  }

  /** Characters of a piece also occur in the text it was split from. */
  lemma {:induction false} SplitOnFactor(s: string, sep: char, k: nat, j: nat)
    requires k < |SplitOn(s, sep)| && j < |SplitOn(s, sep)[k]|
    ensures SplitOn(s, sep)[k][j] in s
    decreases |s|
  {
    if s[0] == sep {
      SplitOnFactor(s[1..], sep, k - 1, j);
    } else if !(k == 0 && j == 0) {
      if k == 0 {
        SplitOnFactor(s[1..], sep, 0, j - 1);
      } else {
        SplitOnFactor(s[1..], sep, k, j);
      }
    }
  }

  /** A text without the separator is one piece. */
  lemma {:induction false} SplitOnPlain(a: string, sep: char)
    requires sep !in a
    ensures SplitOn(a, sep) == [a]
    decreases |a|
  {
    if |a| > 0 {
      SplitOnPlain(a[1..], sep);
      assert [a[0]] + a[1..] == a;
    }
  }

  /** A separator after a plain piece ends that piece. */
  lemma {:induction false} SplitOnAfter(a: string, sep: char, b: string)
    requires sep !in a
    ensures SplitOn(a + [sep] + b, sep) == [a] + SplitOn(b, sep)
    decreases |a|
  {
    var s := a + [sep] + b;
    if |a| == 0 {
      assert s[0] == sep && s[1..] == b;
    } else {
      assert s[0] == a[0] && s[1..] == a[1..] + [sep] + b;
      SplitOnAfter(a[1..], sep, b);
      assert [a[0]] + a[1..] == a;
    }
  }

  /** Joining pieces that hold no separator and splitting again gives the pieces
      back. */
  lemma {:induction false} JoinSplit(pieces: seq<string>, sep: char)
    requires |pieces| >= 1
    requires forall k :: 0 <= k < |pieces| ==> sep !in pieces[k]
    ensures SplitOn(JoinOn(pieces, sep), sep) == pieces
    decreases |pieces|
  {
    if |pieces| == 1 {
      SplitOnPlain(pieces[0], sep);
    } else {
      JoinSplit(pieces[1..], sep);
      SplitOnAfter(pieces[0], sep, JoinOn(pieces[1..], sep));
      assert [pieces[0]] + pieces[1..] == pieces;
    }
  }

  /** A text that ends with the separator splits into an empty last piece. */
  lemma {:induction false} SplitOnTrailing(s: string, sep: char)
    ensures SplitOn(s + [sep], sep) == SplitOn(s, sep) + [""]
    decreases |s|
  {
    var t := s + [sep];
    if |s| == 0 {
      assert t[1..] == [];
    } else {
      assert t[0] == s[0] && t[1..] == s[1..] + [sep];
      SplitOnTrailing(s[1..], sep);
    }
  }

  /** Strip keeps only characters of its input. */
  lemma StripWithin(s: string, c: char)
    ensures c in Strip(s) ==> c in s
  {
    var l := StripLeft(s);
    assert l == s[|s| - |l|..];
    assert Strip(s) == l[..|Strip(s)|];
  }

  /** The line boundaries of Python's `str.splitlines()`. */
  predicate IsLineBreak(c: char) {
    c == '\n' || c == '\r' || c == '\U{0B}' || c == '\U{0C}' || ('\U{1C}' <= c <= '\U{1E}')
    || c == '\U{85}' || c == '\U{2028}' || c == '\U{2029}'
  }

  /** Python's `str.splitlines()`: "\r\n" is one boundary, and a final boundary does
      not start an empty last line. */
  function SplitLines(s: string): (r: seq<string>)
    ensures forall k, j :: 0 <= k < |r| && 0 <= j < |r[k]| ==> !IsLineBreak(r[k][j])
    ensures |r| <= |s|
    ensures s == [] <==> r == []
    decreases |s|
  {
    if |s| == 0 then []
    else if IsLineBreak(s[0]) then
      var skip := if s[0] == '\r' && |s| > 1 && s[1] == '\n' then 2 else 1;
      [""] + SplitLines(s[skip..])
    else
      var rest := SplitLines(s[1..]);
      if rest == [] then [[s[0]]] else [[s[0]] + rest[0]] + rest[1..]
  }

  /** A text without line boundaries is one line. */
  lemma {:induction false} SplitLinesSingle(s: string)
    requires s != [] && forall j :: 0 <= j < |s| ==> !IsLineBreak(s[j])
    ensures SplitLines(s) == [s]
    decreases |s|
  {
    if |s| > 1 {
      SplitLinesSingle(s[1..]);
      assert [s[0]] + s[1..] == s;
    } else {
      assert SplitLines(s[1..]) == [];
      assert [s[0]] == s;
    }
  }

  /** Characters of a text also occur in the text a line came from. */
  lemma {:induction false} SplitLinesFactor(s: string, k: nat, j: nat)
    requires k < |SplitLines(s)| && j < |SplitLines(s)[k]|
    ensures SplitLines(s)[k][j] in s
    decreases |s|
  {
    var c := SplitLines(s)[k][j];
    if IsLineBreak(s[0]) {
      var skip := if s[0] == '\r' && |s| > 1 && s[1] == '\n' then 2 else 1;
      var tail := SplitLines(s[skip..]);
      assert SplitLines(s) == [""] + tail;
      assert c == tail[k - 1][j];
      SplitLinesFactor(s[skip..], k - 1, j);
      InSuffix(s, skip, c);
    } else {
      var rest := SplitLines(s[1..]);
      if rest == [] || (k == 0 && j == 0) {
        assert c == s[0];
      } else if k == 0 {
        assert SplitLines(s) == [[s[0]] + rest[0]] + rest[1..];
        assert c == rest[0][j - 1];
        SplitLinesFactor(s[1..], 0, j - 1);
        InSuffix(s, 1, c);
      } else {
        assert SplitLines(s) == [[s[0]] + rest[0]] + rest[1..];
        assert c == rest[k][j];
        SplitLinesFactor(s[1..], k, j);
        InSuffix(s, 1, c);
      }
    }
  }

  lemma InSuffix(s: string, i: nat, c: char)
    requires i <= |s| && c in s[i..]
    ensures c in s
  {
    var m :| 0 <= m < |s[i..]| && s[i..][m] == c;
    assert s[i + m] == c;
  }

  predicate IsDigit(c: char) {
    '0' <= c <= '9'
  }

  function DigitVal(c: char): (d: nat)
    requires IsDigit(c)
    ensures d < 10
  {
    c as int - '0' as int
  }

  function DigitChar(d: nat): (c: char)
    requires d < 10
    ensures IsDigit(c) && DigitVal(c) == d
  {
    ('0' as int + d) as char
  }

  /** Decimal form of a natural number, as JavaScript's template strings and Python's
      `str` print it. */
  function NatToString(n: nat): (r: string)
    ensures |r| > 0
    ensures forall i :: 0 <= i < |r| ==> IsDigit(r[i])
    ensures r[0] == '0' ==> n == 0 && r == "0"
    decreases n
  {
    if n < 10 then [DigitChar(n)] else NatToString(n / 10) + [DigitChar(n % 10)]
  }

  /** The value of a text of decimal digits. */
  function DigitsValue(s: string): nat
    requires forall i :: 0 <= i < |s| ==> IsDigit(s[i])
    decreases |s|
  {
    if |s| == 0 then 0 else DigitsValue(s[..|s| - 1]) * 10 + DigitVal(s[|s| - 1])
  }

  /** Reading back the decimal form gives the number. */
  lemma {:induction false} NatToStringValue(n: nat)
    ensures DigitsValue(NatToString(n)) == n
    decreases n
  {
    if n >= 10 {
      NatToStringValue(n / 10);
      var r := NatToString(n);
      assert r[..|r| - 1] == NatToString(n / 10);
    }
  }

  /** Different numbers print differently. */
  lemma NatToStringInjective(a: nat, b: nat)
    requires NatToString(a) == NatToString(b)
    ensures a == b
  {
    NatToStringValue(a);
    NatToStringValue(b);
  }

  /** `String(n)` for an integer. */
  function IntToString(n: int): (r: string)
    ensures |r| > 0
  {
    if n < 0 then "-" + NatToString(-n) else NatToString(n)
  }

  /** The UTF-16 encoding of one character: itself below U+10000, otherwise a high
      and a low surrogate. */
  function Utf16Units(c: char): (r: seq<int>)
    ensures c as int < 0x1_0000 ==> r == [c as int]
    ensures c as int >= 0x1_0000 ==> |r| == 2 && 0xD800 <= r[0] < 0xDC00 && 0xDC00 <= r[1] < 0xE000
    ensures c as int >= 0x1_0000 ==> (r[0] - 0xD800) * 0x400 + (r[1] - 0xDC00) + 0x1_0000 == c as int
  {
    var n := c as int;
    if n < 0x1_0000 then [n]
    else [0xD800 + (n - 0x1_0000) / 0x400, 0xDC00 + (n - 0x1_0000) % 0x400]
  }

  /** The UTF-16 code units of a text, the order JavaScript's `<` on strings
      compares. */
  function CodeUnits(s: string): (r: seq<int>)
    ensures |s| <= |r| <= 2 * |s|
    ensures forall k :: 0 <= k < |r| ==> 0 <= r[k] < 0x1_0000
    decreases |s|
  {
    if |s| == 0 then [] else Utf16Units(s[0]) + CodeUnits(s[1..])
  }

  /** A text without characters beyond U+FFFF is its own code units. */
  lemma {:induction false} CodeUnitsBmp(s: string)
    requires forall i :: 0 <= i < |s| ==> s[i] as int < 0x1_0000
    ensures CodeUnits(s) == seq(|s|, i requires 0 <= i < |s| => s[i] as int)
    decreases |s|
  {
    if |s| > 0 {
      CodeUnitsBmp(s[1..]);
    }
  }

  /** Code-unit order is not code-point order: an emoji sorts before U+FFFF. */
  lemma SurrogatesSortLow()
    ensures '\U{1F600}' as int > '\U{FFFF}' as int
    ensures CodeUnits("\U{1F600}")[0] < CodeUnits("\U{FFFF}")[0]
  {
    assert "\U{1F600}"[1..] == [];
    assert "\U{FFFF}"[1..] == [];
  }
}

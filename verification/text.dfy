/**
 * String operations the source takes from its languages' runtimes: splitting and joining
 * on a separator, whitespace stripping (JavaScript's `trim` and Python's `strip` disagree on
 * what whitespace is), ASCII lower-casing, substring search and decimal rendering.
 */
module Text {

  /** Whitespace as JavaScript's `String.prototype.trim` and the regular-expression class `\s` see it. */
  predicate IsJsSpace(c: char) {
    c == '\t' || c == '\n' || c == '\U{000B}' || c == '\U{000C}' || c == '\r' || c == ' ' ||
    c == '\U{00A0}' || c == '\U{1680}' || ('\U{2000}' <= c <= '\U{200A}') ||
    c == '\U{2028}' || c == '\U{2029}' || c == '\U{202F}' || c == '\U{205F}' ||
    c == '\U{3000}' || c == '\U{FEFF}'
  }

  /** Whitespace as Python's `str.strip()` without argument sees it (`str.isspace`). */
  predicate IsPySpace(c: char) {
    ('\t' <= c <= '\r') || ('\U{001C}' <= c <= '\U{001F}') || c == ' ' ||
    c == '\U{0085}' || c == '\U{00A0}' || c == '\U{1680}' || ('\U{2000}' <= c <= '\U{200A}') ||
    c == '\U{2028}' || c == '\U{2029}' || c == '\U{202F}' || c == '\U{205F}' || c == '\U{3000}'
  }

  predicate IsDigit(c: char) {
    '0' <= c <= '9'
  }

  predicate StartsWith(s: string, prefix: string) {
    prefix <= s
  }

  /** `sub` occurs in `s` starting at index `i`. */
  predicate IsAt(s: string, sub: string, i: int) {
    0 <= i && i + |sub| <= |s| && s[i..i + |sub|] == sub
  }

  /** Substring test: JavaScript's `includes`, Python's `in` on strings. */
  predicate Contains(s: string, sub: string) {
    exists i | 0 <= i <= |s| - |sub| :: IsAt(s, sub, i)
  }

  function LowerChar(c: char): char {
    if 'A' <= c <= 'Z' then (c as int + 32) as char else c
  }

  /** Lower-casing, for the ASCII letters only. */
  function Lower(s: string): (r: string)
    ensures |r| == |s|
    ensures forall k | 0 <= k < |s| :: r[k] == LowerChar(s[k])
  {
    seq(|s|, k requires 0 <= k < |s| => LowerChar(s[k]))
  }

  lemma LowerAppend(a: string, b: string)
    ensures Lower(a + b) == Lower(a) + Lower(b)
  {
    assert forall k | 0 <= k < |a + b| :: Lower(a + b)[k] == (Lower(a) + Lower(b))[k];
  }

  /** `sep.join(parts)` in Python, `parts.join(sep)` in JavaScript. */
  function Join(parts: seq<string>, sep: string): string
  {
    if |parts| == 0 then ""
    else if |parts| == 1 then parts[0]
    else parts[0] + sep + Join(parts[1..], sep)
  }

  lemma JoinHead(parts: seq<string>, sep: string)
    requires |parts| >= 1
    ensures parts[0] <= Join(parts, sep)
    ensures |parts| >= 2 ==> Join(parts, sep) == parts[0] + sep + Join(parts[1..], sep)
  {
  }

  /** Adding a character in front of the first part adds it in front of the joined text. */
  lemma JoinPrepend(c: char, parts: seq<string>, sep: string)
    requires |parts| >= 1
    ensures Join([[c] + parts[0]] + parts[1..], sep) == [c] + Join(parts, sep)
  {
    var moved := [[c] + parts[0]] + parts[1..];
    if |parts| >= 2 {
      assert moved[1..] == parts[1..];
    }
  }

  /** The cut predicate that accepts every position: a plain split on a separator. */
  predicate Always(rest: string) {
    true
  }

  /**
   * Splits `s` at every `sep` whose following text satisfies `cut` and drops that separator.
   * `cut` looks only at the text after the separator, which is how a split on a separator
   * followed by a lookahead behaves.
   */
  function SplitAt(s: string, sep: char, cut: string -> bool): (r: seq<string>)
    ensures |r| >= 1
    decreases |s|
  {
    if s == [] then [""]
    else if s[0] == sep && cut(s[1..]) then [""] + SplitAt(s[1..], sep, cut)
    else
      var rest := SplitAt(s[1..], sep, cut);
      [[s[0]] + rest[0]] + rest[1..]
  }

  /** Position `j` of `t` is a separator that `SplitAt` cuts at. */
  predicate CutsAt(t: string, j: int, sep: char, cut: string -> bool) {
    0 <= j < |t| && t[j] == sep && cut(t[j + 1..])
  }

  lemma CutsAtShift(s: string, j: int, sep: char, cut: string -> bool)
    requires |s| >= 1 && j >= 1
    ensures CutsAt(s, j, sep, cut) == CutsAt(s[1..], j - 1, sep, cut)
  {
    if j < |s| {
      assert s[j + 1..] == s[1..][j..];
    }
  }

  /** Joining the parts with the separator gives back the text: only the separators are removed. */
  lemma {:induction false} SplitAtJoin(s: string, sep: char, cut: string -> bool)
    ensures Join(SplitAt(s, sep, cut), [sep]) == s
    decreases |s|
  {
    if s == [] {
    } else if s[0] == sep && cut(s[1..]) {
      SplitAtJoin(s[1..], sep, cut);
      var rest := SplitAt(s[1..], sep, cut);
      assert ([""] + rest)[1..] == rest;
      assert s == [sep] + s[1..];
    } else {
      SplitAtJoin(s[1..], sep, cut);
      JoinPrepend(s[0], SplitAt(s[1..], sep, cut), [sep]);
      assert s == [s[0]] + s[1..];
    }
  }

  /** Part `i` (after the first) begins where a cut was allowed. */
  lemma {:induction false} SplitAtCutBefore(s: string, sep: char, cut: string -> bool, i: nat)
    requires 1 <= i < |SplitAt(s, sep, cut)|
    ensures cut(Join(SplitAt(s, sep, cut)[i..], [sep]))
    decreases |s|
  {
    var r := SplitAt(s, sep, cut);
    var rest := SplitAt(s[1..], sep, cut);
    if s[0] == sep && cut(s[1..]) {
      assert r == [""] + rest;
      assert r[i..] == rest[i - 1..];
      if i == 1 {
        SplitAtJoin(s[1..], sep, cut);
        assert rest[0..] == rest;
      } else {
        SplitAtCutBefore(s[1..], sep, cut, i - 1);
      }
    } else {
      assert r == [[s[0]] + rest[0]] + rest[1..];
      assert r[i..] == rest[i..];
      SplitAtCutBefore(s[1..], sep, cut, i);
    }
  }

  /** Every part after the first one begins where a cut was allowed. */
  lemma SplitAtCuts(s: string, sep: char, cut: string -> bool)
    ensures var r := SplitAt(s, sep, cut);
      forall i | 1 <= i < |r| :: cut(Join(r[i..], [sep]))
  {
    var r := SplitAt(s, sep, cut);
    forall i | 1 <= i < |r| ensures cut(Join(r[i..], [sep])) {
      SplitAtCutBefore(s, sep, cut, i);
    }
  }

  /** Position `j` of part `i` is not a separator that could have been cut. */
  lemma {:induction false} SplitAtNoCutInside(s: string, sep: char, cut: string -> bool, i: nat, j: nat)
    requires i < |SplitAt(s, sep, cut)| && j < |SplitAt(s, sep, cut)[i]|
    ensures !CutsAt(Join(SplitAt(s, sep, cut)[i..], [sep]), j, sep, cut)
    decreases |s|
  {
    var r := SplitAt(s, sep, cut);
    var rest := SplitAt(s[1..], sep, cut);
    if s[0] == sep && cut(s[1..]) {
      assert r == [""] + rest;
      assert r[i..] == rest[i - 1..] && r[i] == rest[i - 1];
      SplitAtNoCutInside(s[1..], sep, cut, i - 1, j);
    } else {
      assert r == [[s[0]] + rest[0]] + rest[1..];
      if i == 0 {
        SplitAtJoin(s, sep, cut);
        assert r[0..] == r;
        if j >= 1 {
          SplitAtJoin(s[1..], sep, cut);
          CutsAtShift(s, j, sep, cut);
          assert rest[0..] == rest;
          SplitAtNoCutInside(s[1..], sep, cut, 0, j - 1);
        }
      } else {
        assert r[i..] == rest[i..] && r[i] == rest[i];
        SplitAtNoCutInside(s[1..], sep, cut, i, j);
      }
    }
  }

  /** No part holds a separator that could have been cut. */
  lemma SplitAtMaximal(s: string, sep: char, cut: string -> bool)
    ensures var r := SplitAt(s, sep, cut);
      forall i, j | 0 <= i < |r| && 0 <= j < |r[i]| :: !CutsAt(Join(r[i..], [sep]), j, sep, cut)
  {
    var r := SplitAt(s, sep, cut);
    forall i, j | 0 <= i < |r| && 0 <= j < |r[i]| ensures !CutsAt(Join(r[i..], [sep]), j, sep, cut) {
      SplitAtNoCutInside(s, sep, cut, i, j);
    }
  }

  /**
   * The three properties above determine the split: any parts that join back to `s`, start
   * each later part at an allowed cut and hold no allowed cut inside are `SplitAt(s, sep, cut)`.
   */
  lemma {:induction false} SplitAtUnique(s: string, sep: char, cut: string -> bool, parts: seq<string>)
    requires |parts| >= 1
    requires Join(parts, [sep]) == s
    requires forall i | 1 <= i < |parts| :: cut(Join(parts[i..], [sep]))
    requires forall i, j | 0 <= i < |parts| && 0 <= j < |parts[i]| :: !CutsAt(Join(parts[i..], [sep]), j, sep, cut)
    ensures parts == SplitAt(s, sep, cut)
    decreases |s|
  {
    if parts[0] == [] {
      if |parts| >= 2 {
        var tail := parts[1..];
        assert s == [sep] + Join(tail, [sep]);
        assert parts[1..] == tail;
        assert s[1..] == Join(tail, [sep]);
        forall i | 1 <= i < |tail| ensures cut(Join(tail[i..], [sep])) {
          assert tail[i..] == parts[i + 1..];
        }
        forall i, j | 0 <= i < |tail| && 0 <= j < |tail[i]| ensures !CutsAt(Join(tail[i..], [sep]), j, sep, cut) {
          assert tail[i..] == parts[i + 1..];
        }
        SplitAtUnique(s[1..], sep, cut, tail);
        assert parts == [""] + tail;
      }
    } else {
      var first := parts[0];
      var moved := [first[1..]] + parts[1..];
      assert parts[0..] == parts;
      JoinPrepend(first[0], moved, [sep]);
      assert [first[0]] + first[1..] == first;
      assert [[first[0]] + moved[0]] + moved[1..] == parts;
      assert s == [first[0]] + Join(moved, [sep]);
      assert s[1..] == Join(moved, [sep]);
      assert !CutsAt(s, 0, sep, cut);
      forall i | 1 <= i < |moved| ensures cut(Join(moved[i..], [sep])) {
        assert moved[i..] == parts[i..];
      }
      forall i, j | 0 <= i < |moved| && 0 <= j < |moved[i]| ensures !CutsAt(Join(moved[i..], [sep]), j, sep, cut) {
        if i == 0 {
          assert moved[0..] == moved;
          CutsAtShift(s, j + 1, sep, cut);
          assert !CutsAt(Join(parts[0..], [sep]), j + 1, sep, cut);
        } else {
          assert moved[i..] == parts[i..];
        }
      }
      SplitAtUnique(s[1..], sep, cut, moved);
    }
  }

  /** A plain split on one separator character: Python's and JavaScript's `split(sep)`. */
  function Split(s: string, sep: char): (r: seq<string>)
    ensures |r| >= 1
  {
    SplitAt(s, sep, Always)
  }

  /** The pieces of a plain split join back to the text and contain no separator. */
  lemma SplitJoinAndNoSeparator(s: string, sep: char)
    ensures Join(Split(s, sep), [sep]) == s
    ensures forall i | 0 <= i < |Split(s, sep)| :: sep !in Split(s, sep)[i]
  {
    var r := Split(s, sep);
    SplitAtJoin(s, sep, Always);
    SplitAtMaximal(s, sep, Always);
    forall i | 0 <= i < |r| ensures sep !in r[i] {
      forall j | 0 <= j < |r[i]| ensures r[i][j] != sep {
        JoinHead(r[i..], [sep]);
        assert Join(r[i..], [sep])[j] == r[i][j];
        assert !CutsAt(Join(r[i..], [sep]), j, sep, Always);
      }
    }
  }

  /** Text without the separator splits into itself alone. */
  lemma {:induction false} SplitWithoutSeparator(s: string, sep: char, cut: string -> bool)
    requires sep !in s
    ensures SplitAt(s, sep, cut) == [s]
    decreases |s|
  {
    if s != [] {
      SplitWithoutSeparator(s[1..], sep, cut);
      assert [s[0]] + s[1..] == s;
    }
  }

  /**
   * A separator-free head stays at the front of the first part:
   * `SplitAt(h + q)` is `SplitAt(q)` with `h` put in front of its first part.
   */
  lemma {:induction false} SplitAtHead(h: string, q: string, sep: char, cut: string -> bool)
    requires sep !in h
    ensures var rest := SplitAt(q, sep, cut);
      SplitAt(h + q, sep, cut) == [h + rest[0]] + rest[1..]
    decreases |h|
  {
    if h != [] {
      assert (h + q)[1..] == h[1..] + q;
      SplitAtHead(h[1..], q, sep, cut);
      assert [h[0]] + (h[1..] + SplitAt(q, sep, cut)[0]) == h + SplitAt(q, sep, cut)[0];
    } else {
      var rest := SplitAt(q, sep, cut);
      assert h + q == q;
      assert h + rest[0] == rest[0];
      assert rest == [rest[0]] + rest[1..];
    }
  }

  /** Removes the leading characters that satisfy `strip` (Python's `lstrip(chars)`). */
  function LStrip(s: string, strip: char -> bool): (r: string)
    ensures |r| <= |s| && r == s[|s| - |r|..]
    ensures r != [] ==> !strip(r[0])
    ensures forall k | 0 <= k < |s| - |r| :: strip(s[k])
    decreases |s|
  {
    if s != [] && strip(s[0]) then LStrip(s[1..], strip) else s
  }

  /** Removes the trailing characters that satisfy `strip`. */
  function RStrip(s: string, strip: char -> bool): (r: string)
    ensures |r| <= |s| && r == s[..|r|]
    ensures r != [] ==> !strip(r[|r| - 1])
    ensures forall k | |r| <= k < |s| :: strip(s[k])
    decreases |s|
  {
    if s != [] && strip(s[|s| - 1]) then RStrip(s[..|s| - 1], strip) else s
  }

  /** `s` holds `r` as a contiguous piece starting at `a`. */
  predicate InfixAt(s: string, r: string, a: int) {
    0 <= a && a + |r| <= |s| && s[a..a + |r|] == r
  }

  /**
   * Both-sided stripping: JavaScript's `trim()` with `IsJsSpace`, Python's `strip()` with
   * `IsPySpace`. The result is the piece of `s` after the leading stripped characters, and has
   * no stripped character at either end.
   */
  function Strip(s: string, strip: char -> bool): (r: string)
    ensures r != [] ==> !strip(r[0]) && !strip(r[|r| - 1])
    ensures InfixAt(s, r, |s| - |LStrip(s, strip)|)
  {
    RStrip(LStrip(s, strip), strip)
  }

  /** Stripping brings in no character, and keeps every character it does not strip. */
  lemma StripKeeps(s: string, strip: char -> bool, c: char)
    ensures c in Strip(s, strip) ==> c in s
    ensures !strip(c) ==> (c in Strip(s, strip) <==> c in s)
  {
    var r := Strip(s, strip);
    var left := LStrip(s, strip);
    var a := |s| - |left|;
    assert s[a..a + |r|] == r;
    if c in r {
      var k :| 0 <= k < |r| && r[k] == c;
      assert s[a + k] == c;
    }
    if !strip(c) && c in s {
      var k :| 0 <= k < |s| && s[k] == c;
      assert a <= k < a + |r|;
      assert r[k - a] == c;
    }
  }

  function DigitChar(d: nat): char
    requires d < 10
  {
    ('0' as int + d) as char
  }

  /** Decimal rendering of a natural number, as JavaScript's template literals print it. */
  function NatToString(n: nat): (r: string)
    ensures |r| >= 1
    ensures forall k | 0 <= k < |r| :: IsDigit(r[k])
    decreases n
  {
    if n < 10 then [DigitChar(n)] else NatToString(n / 10) + [DigitChar(n % 10)]
  }

  /** The value of a run of decimal digits, read left to right. */
  function DigitsValue(s: string): nat
    decreases |s|
  {
    if s == [] then 0
    else
      var d := s[|s| - 1] as int - '0' as int;
      DigitsValue(s[..|s| - 1]) * 10 + (if 0 <= d < 10 then d else 0)
  }

  /** Reading the rendering of `n` back gives `n`. */
  lemma {:induction false} NatToStringRoundTrip(n: nat)
    ensures DigitsValue(NatToString(n)) == n
    decreases n
  {
    var r := NatToString(n);
    if n >= 10 {
      NatToStringRoundTrip(n / 10);
      assert r[..|r| - 1] == NatToString(n / 10);
    }
  }

  /** Different numbers render differently. */
  lemma NatToStringInjective(m: nat, n: nat)
    ensures NatToString(m) == NatToString(n) <==> m == n
  {
    if NatToString(m) == NatToString(n) {
      NatToStringRoundTrip(m);
      NatToStringRoundTrip(n);
    }
  }
}

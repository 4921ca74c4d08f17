/**
 * The string operations the components use: `trim`, ASCII case mapping,
 * `includes`, the global `'_'` to `' '` replacement, first-letter
 * capitalisation and the decimal rendering of an integer.
 */
module Text {

  /** The characters `String.prototype.trim` removes: ECMAScript WhiteSpace and LineTerminator. */
  predicate IsWhitespace(c: char) {
    || c == '\t' || c == '\n' || c == '\U{000B}' || c == '\U{000C}' || c == '\r'
    || c == ' ' || c == '\U{00A0}' || c == '\U{1680}'
    || ('\U{2000}' <= c <= '\U{200A}')
    || c == '\U{2028}' || c == '\U{2029}' || c == '\U{202F}' || c == '\U{205F}'
    || c == '\U{3000}' || c == '\U{FEFF}'
  }

  function TrimStart(s: string): string {
    if s != [] && IsWhitespace(s[0]) then TrimStart(s[1..]) else s
  }

  function TrimEnd(s: string): string {
    if s != [] && IsWhitespace(s[|s| - 1]) then TrimEnd(s[..|s| - 1]) else s
  }

  /** `s.trim()` */
  function Trim(s: string): string {
    TrimEnd(TrimStart(s))
  }

  /** `!s.trim()`: the trimmed string is empty, hence falsy. */
  predicate IsBlank(s: string) {
    Trim(s) == ""
  }

  predicate AllWhitespace(s: string) {
    forall i :: 0 <= i < |s| ==> IsWhitespace(s[i])
  }

  lemma {:induction false} TrimStartEmpty(s: string)
    ensures TrimStart(s) == "" <==> AllWhitespace(s)
  {
    if s != [] && IsWhitespace(s[0]) {
      TrimStartEmpty(s[1..]);
      assert AllWhitespace(s[1..]) ==> AllWhitespace(s) by {
        if AllWhitespace(s[1..]) {
          forall i | 0 <= i < |s| ensures IsWhitespace(s[i]) {
            if i > 0 { assert s[i] == s[1..][i - 1]; }
          }
        }
      }
    }
  }

  lemma {:induction false} TrimEndEmpty(s: string)
    ensures TrimEnd(s) == "" <==> AllWhitespace(s)
  {
    if s != [] && IsWhitespace(s[|s| - 1]) {
      var p := s[..|s| - 1];
      TrimEndEmpty(p);
      assert AllWhitespace(p) ==> AllWhitespace(s) by {
        if AllWhitespace(p) {
          forall i | 0 <= i < |s| ensures IsWhitespace(s[i]) {
            if i < |s| - 1 { assert s[i] == p[i]; }
          }
        }
      }
    }
  }

  lemma {:induction false} TrimStartKeepsNonWhitespace(s: string)
    requires !AllWhitespace(s)
    ensures !AllWhitespace(TrimStart(s))
  {
    if s != [] && IsWhitespace(s[0]) {
      var i :| 0 <= i < |s| && !IsWhitespace(s[i]);
      assert s[1..][i - 1] == s[i];
      TrimStartKeepsNonWhitespace(s[1..]);
    }
  }

  /** A string is blank for `trim` exactly when every character of it is whitespace. */
  lemma BlankIffAllWhitespace(s: string)
    ensures IsBlank(s) <==> AllWhitespace(s)
  {
    TrimStartEmpty(s);
    TrimEndEmpty(TrimStart(s));
    if !AllWhitespace(s) {
      TrimStartKeepsNonWhitespace(s);
    }
  }

  /** ASCII part of `toLowerCase` for one character. */
  function LowerChar(c: char): (r: char)
    ensures 'A' <= c <= 'Z' ==> 'a' <= r <= 'z' && r as int == c as int + 32
    ensures !('A' <= c <= 'Z') ==> r == c
  {
    if 'A' <= c <= 'Z' then (c as int + 32) as char else c
  }

  /** ASCII part of `toUpperCase` for one character. */
  function UpperChar(c: char): (r: char)
    ensures 'a' <= c <= 'z' ==> 'A' <= r <= 'Z' && r as int == c as int - 32
    ensures !('a' <= c <= 'z') ==> r == c
  {
    if 'a' <= c <= 'z' then (c as int - 32) as char else c
  }

  /** `s.toLowerCase()`, ASCII letters only. */
  function Lower(s: string): (r: string)
    ensures |r| == |s|
    ensures forall i :: 0 <= i < |s| ==> r[i] == LowerChar(s[i])
  {
    if s == [] then [] else [LowerChar(s[0])] + Lower(s[1..])
  }

  /** `s.includes(t)`: `t` occurs in `s` at some position. */
  predicate Includes(s: string, t: string) {
    t <= s || (s != [] && Includes(s[1..], t))
  }

  predicate OccursAt(s: string, t: string, i: int) {
    0 <= i && i + |t| <= |s| && s[i..i + |t|] == t
  }

  /** `Includes` searches every position: it holds iff `t` occurs at some index of `s`. */
  lemma {:induction false} IncludesIffOccurs(s: string, t: string)
    ensures Includes(s, t) <==> exists i :: OccursAt(s, t, i)
  {
    if t <= s {
      assert OccursAt(s, t, 0);
    } else if s == [] {
      assert forall i :: !OccursAt(s, t, i);
    } else {
      IncludesIffOccurs(s[1..], t);
      if i :| OccursAt(s[1..], t, i) {
        assert s[1..][i..i + |t|] == s[i + 1..i + 1 + |t|];
        assert OccursAt(s, t, i + 1);
      }
      if i :| OccursAt(s, t, i) {
        assert i != 0;
        assert s[1..][i - 1..i - 1 + |t|] == s[i..i + |t|];
        assert OccursAt(s[1..], t, i - 1);
      }
    }
  }

  /** `s.replace(/_/g, ' ')` */
  function SpaceUnderscores(s: string): (r: string)
    ensures |r| == |s|
    ensures forall i :: 0 <= i < |s| ==> r[i] == if s[i] == '_' then ' ' else s[i]
    ensures '_' !in r
    ensures '_' !in s ==> r == s
  {
    if s == [] then [] else [if s[0] == '_' then ' ' else s[0]] + SpaceUnderscores(s[1..])
  }

  /** `s.charAt(0).toUpperCase() + s.slice(1)`, ASCII letters only. */
  function CapitalizeFirst(s: string): (r: string)
    ensures |r| == |s|
    ensures s != [] ==> r[0] == UpperChar(s[0]) && r[1..] == s[1..]
  {
    if s == [] then "" else [UpperChar(s[0])] + s[1..]
  }

  predicate IsDigit(c: char) {
    '0' <= c <= '9'
  }

  function DigitChar(d: nat): (c: char)
    requires d < 10
    ensures IsDigit(c)
  {
    ['0', '1', '2', '3', '4', '5', '6', '7', '8', '9'][d]
  }

  /** Decimal digits of a natural number, as template-literal interpolation writes them. */
  function NatToString(n: nat): (r: string)
    ensures |r| >= 1
    ensures forall i :: 0 <= i < |r| ==> IsDigit(r[i])
  {
    if n < 10 then [DigitChar(n)] else NatToString(n / 10) + [DigitChar(n % 10)]
  }

  function IntToString(n: int): (r: string)
    ensures |r| >= 1
  {
    if n < 0 then "-" + NatToString(-n) else NatToString(n)
  }
}

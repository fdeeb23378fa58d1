/**
 * The JavaScript string operations the gateway relies on: number-to-string conversion,
 * `parseInt` without a radix, `startsWith`, `substring`, `includes` and `split` on a
 * one-character separator. Strings are sequences of characters.
 */
module JsString {
  import opened Base

  predicate IsDigit(c: char)
  {
    '0' <= c <= '9'
  }

  predicate AllDigits(s: string)
  {
    forall i | 0 <= i < |s| :: IsDigit(s[i])
  }

  function DigitChar(d: nat): (c: char)
    requires d < 10
    ensures IsDigit(c) && c as int - '0' as int == d
  {
    (d + '0' as int) as char
  }

  /** The decimal spelling of a natural number, as `String(n)` gives it. */
  function NatToString(n: nat): (s: string)
    ensures |s| >= 1 && AllDigits(s)
    ensures s[0] == '0' ==> n == 0 && s == "0"
  {
    if n < 10 then [DigitChar(n)] else NatToString(n / 10) + [DigitChar(n % 10)]
  }

  function IntToString(n: int): (s: string)
  {
    if n < 0 then "-" + NatToString(-n) else NatToString(n)
  }

  /** The value of a string of decimal digits. */
  function DigitsValue(s: string): nat
    requires AllDigits(s)
  {
    if s == [] then 0 else DigitsValue(s[..|s| - 1]) * 10 + (s[|s| - 1] as int - '0' as int)
  }

  /** Reading back the decimal spelling gives the number. */
  lemma {:induction false} DigitsValueOfNatToString(n: nat)
    ensures DigitsValue(NatToString(n)) == n
  {
    if n >= 10 {
      var s := NatToString(n);
      assert s[..|s| - 1] == NatToString(n / 10);
      DigitsValueOfNatToString(n / 10);
    }
  }

  /** Different numbers have different decimal spellings. */
  lemma NatToStringInjective(m: nat, n: nat)
    requires NatToString(m) == NatToString(n)
    ensures m == n
  {
    DigitsValueOfNatToString(m);
    DigitsValueOfNatToString(n);
  }

  /** The white space `parseInt` skips: the ECMAScript WhiteSpace and LineTerminator characters. */
  predicate IsJsSpace(c: char)
  {
    c == ' ' || c == '\t' || c == '\n' || c == '\r' || c == '\U{000B}' || c == '\U{000C}'
    || c == '\U{00A0}' || c == '\U{1680}' || ('\U{2000}' <= c <= '\U{200A}')
    || c == '\U{2028}' || c == '\U{2029}' || c == '\U{202F}' || c == '\U{205F}'
    || c == '\U{3000}' || c == '\U{FEFF}'
  }

  function TrimStart(s: string): (r: string)
    ensures |r| <= |s| && (r == [] || !IsJsSpace(r[0]))
  {
    if s != [] && IsJsSpace(s[0]) then TrimStart(s[1..]) else s
  }

  /** The longest prefix of `s` made of characters satisfying `ok`. */
  function LongestPrefix(s: string, ok: char -> bool): (p: string)
    ensures |p| <= |s| && p == s[..|p|]
    ensures forall i | 0 <= i < |p| :: ok(p[i])
    ensures |p| < |s| ==> !ok(s[|p|])
  {
    if s != [] && ok(s[0]) then [s[0]] + LongestPrefix(s[1..], ok) else []
  }

  predicate IsHexDigit(c: char)
  {
    IsDigit(c) || ('a' <= c <= 'f') || ('A' <= c <= 'F')
  }

  function HexValue(s: string): nat
    requires forall i | 0 <= i < |s| :: IsHexDigit(s[i])
  {
    if s == [] then 0
    else
      var c := s[|s| - 1];
      var d: nat := if IsDigit(c) then c as int - '0' as int
               else if 'a' <= c <= 'f' then c as int - 'a' as int + 10
               else if 'A' <= c <= 'F' then c as int - 'A' as int + 10
               else 0;
      HexValue(s[..|s| - 1]) * 16 + d
  }

  /**
   * `parseInt(s)` with no radix: leading white space is skipped, one sign is read, a
   * `0x`/`0X` prefix switches to hexadecimal, and the longest run of digits that follows is
   * the value; `None` is NaN (no digit at all).
   */
  function ParseInt(s: string): (r: Option<int>)
    ensures s != [] && AllDigits(s) ==> r == Some(DigitsValue(s))
  {
    assert s != [] && AllDigits(s) ==> TrimStart(s) == s && ParseUnsigned(s) == Some(DigitsValue(s)) by {
      if s != [] && AllDigits(s) {
        assert !IsJsSpace(s[0]) && !(|s| >= 2 && (s[1] == 'x' || s[1] == 'X'));
        LongestPrefixOfAll(s, IsDigit);
      }
    }
    var t := TrimStart(s);
    var negative := t != [] && t[0] == '-';
    var u := if t != [] && (t[0] == '-' || t[0] == '+') then t[1..] else t;
    match ParseUnsigned(u)
    case None => None
    case Some(v) => Some(if negative then -(v as int) else v as int)
  }

  /** The digits after the sign: hexadecimal after `0x`/`0X`, else decimal. */
  function ParseUnsigned(u: string): Option<nat>
  {
    if |u| >= 2 && u[0] == '0' && (u[1] == 'x' || u[1] == 'X') then
      var h := LongestPrefix(u[2..], IsHexDigit);
      if h == [] then None else Some(HexValue(h))
    else
      var d := LongestPrefix(u, IsDigit);
      if d == [] then None else Some(DigitsValue(d))
  }

  lemma {:induction false} LongestPrefixOfAll(s: string, ok: char -> bool)
    requires forall i | 0 <= i < |s| :: ok(s[i])
    ensures LongestPrefix(s, ok) == s
  {
    if s != [] {
      LongestPrefixOfAll(s[1..], ok);
    }
  }

  lemma UnsignedOfNatToString(m: nat)
    ensures ParseUnsigned(NatToString(m)) == Some(m)
  {
    var digits := NatToString(m);
    assert !(|digits| >= 2 && digits[0] == '0');
    LongestPrefixOfAll(digits, IsDigit);
    DigitsValueOfNatToString(m);
  }

  /** `parseInt` reads back the decimal spelling of a natural number. */
  lemma ParseIntOfNatToString(m: nat)
    ensures ParseInt(NatToString(m)) == Some(m)
  {
    var digits := NatToString(m);
    assert !IsJsSpace(digits[0]) && digits[0] != '-' && digits[0] != '+';
    assert TrimStart(digits) == digits;
    UnsignedOfNatToString(m);
  }

  /** `parseInt(String(n))` reads back every integer. */
  lemma ParseIntOfIntToString(n: int)
    ensures ParseInt(IntToString(n)) == Some(n)
  {
    if n < 0 {
      var digits := NatToString(-n);
      var s := IntToString(n);
      assert s[0] == '-' && s[1..] == digits;
      assert TrimStart(s) == s;
      UnsignedOfNatToString(-n);
    } else {
      ParseIntOfNatToString(n);
    }
  }

  predicate StartsWith(s: string, prefix: string)
  {
    |prefix| <= |s| && s[..|prefix|] == prefix
  }

  /** `s.substring(from)`: the characters from index `from` on, or "" past the end. */
  function Substring(s: string, from: nat): (r: string)
    ensures from <= |s| ==> s == s[..from] + r
    ensures from >= |s| ==> r == ""
  {
    if from <= |s| then s[from..] else ""
  }

  /** `s.includes(sub)`. */
  predicate Includes(s: string, sub: string)
  {
    exists i | 0 <= i <= |s| - |sub| :: OccursAt(s, sub, i)
  }

  predicate OccursAt(s: string, sub: string, i: nat)
  {
    i + |sub| <= |s| && s[i..i + |sub|] == sub
  }

  /** Index of the first `c` in `s`. */
  function IndexOf(s: string, c: char): (i: nat)
    requires c in s
    ensures i < |s| && s[i] == c && c !in s[..i]
  {
    if s[0] == c then 0 else 1 + IndexOf(s[1..], c)
  }

  /** The inverse of `Split`: the parts with one separator between neighbours. */
  function Join(parts: seq<string>, sep: char): string
  {
    if |parts| == 0 then ""
    else if |parts| == 1 then parts[0]
    else parts[0] + [sep] + Join(parts[1..], sep)
  }

  /**
   * `s.split(sep)` for a one-character separator: the maximal pieces between separators,
   * empty pieces included, so there is always at least one piece.
   */
  function Split(s: string, sep: char): (parts: seq<string>)
    ensures |parts| >= 1
    ensures |parts| > 1 <==> sep in s
    ensures forall i | 0 <= i < |parts| :: sep !in parts[i]
    ensures Join(parts, sep) == s
    decreases |s|
  {
    if sep !in s then [s]
    else
      var i := IndexOf(s, sep);
      var rest := Split(s[i + 1..], sep);
      assert s == s[..i] + [sep] + s[i + 1..];
      [s[..i]] + rest
  }

  lemma {:induction false} IndexOfAfter(a: string, sep: char, b: string)
    requires sep !in a
    ensures IndexOf(a + [sep] + b, sep) == |a|
  {
    if a != [] {
      assert (a + [sep] + b)[1..] == a[1..] + [sep] + b;
      IndexOfAfter(a[1..], sep, b);
    }
  }

  /** `piece` is the text of `s` from `start` up to the next `sep`, or to the end. */
  predicate PieceAt(s: string, sep: char, start: nat, piece: string)
  {
    start + |piece| <= |s| && s[start..start + |piece|] == piece && sep !in piece &&
    (start + |piece| == |s| || s[start + |piece|] == sep)
  }

  /** `s.split(sep)[0]` runs from the start up to the first separator. */
  lemma SplitFirst(s: string, sep: char)
    ensures PieceAt(s, sep, 0, Split(s, sep)[0])
    ensures sep in s ==> Split(s, sep)[0] == s[..IndexOf(s, sep)]
  {
  }

  /** `s.split(sep)[1]` runs from just after the first separator up to the next one. */
  lemma SplitSecond(s: string, sep: char)
    requires sep in s
    ensures PieceAt(s, sep, IndexOf(s, sep) + 1, Split(s, sep)[1])
  {
    var i := IndexOf(s, sep);
    var rest := s[i + 1..];
    SplitFirst(rest, sep);
    assert Split(s, sep)[1] == Split(rest, sep)[0];
    PieceAtSuffix(s, sep, i + 1, Split(rest, sep)[0]);
  }

  /** A piece at the start of a suffix is a piece of the whole string. */
  lemma PieceAtSuffix(s: string, sep: char, start: nat, piece: string)
    requires start <= |s| && PieceAt(s[start..], sep, 0, piece)
    ensures PieceAt(s, sep, start, piece)
  {
    assert s[start..][..|piece|] == s[start..start + |piece|];
    assert start + |piece| < |s| ==> s[start..][|piece|] == s[start + |piece|];
  }

  /** A piece without the separator, then the separator, then the rest, splits as expected. */
  lemma SplitCons(a: string, sep: char, b: string)
    requires sep !in a
    ensures Split(a + [sep] + b, sep) == [a] + Split(b, sep)
  {
    var s := a + [sep] + b;
    IndexOfAfter(a, sep, b);
    assert s[..|a|] == a;
    assert s[|a| + 1..] == b;
  }
}

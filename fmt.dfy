/**
 * Rust's text formatting as far as the core uses it: `Display` of
 * integers (`{}`) and `Debug` of a string slice (`{:?}`), which wraps the
 * text in double quotes and escapes it.
 */
module Fmt {
  import opened Wrappers

  function DigitChar(d: nat): (c: char)
    requires d < 10
    ensures '0' <= c <= '9' && c as int - '0' as int == d
  {
    (d + '0' as int) as char
  }

  /** Decimal digits of `n`, most significant first, no leading zeros. */
  function NatText(n: nat): (s: string)
    ensures 1 <= |s|
    ensures forall i :: 0 <= i < |s| ==> '0' <= s[i] <= '9'
    ensures |s| > 1 ==> s[0] != '0'
  {
    if n < 10 then [DigitChar(n)] else NatText(n / 10) + [DigitChar(n % 10)]
  }

  /** The value of a string of decimal digits. */
  function DigitsValue(s: string): nat
    requires forall i :: 0 <= i < |s| ==> '0' <= s[i] <= '9'
  {
    if s == [] then 0
    else 10 * DigitsValue(s[..|s| - 1]) + (s[|s| - 1] as int - '0' as int)
  }

  /** Display of a signed integer: an optional minus sign, then the digits. */
  function IntText(n: int): (s: string)
    ensures n < 0 <==> (|s| > 0 && s[0] == '-')
    ensures n >= 0 ==> s == NatText(n)
    ensures n < 0 ==> s == "-" + NatText(-n)
  {
    if n < 0 then "-" + NatText(-n) else NatText(n)
  }

  /** Reading the digits back gives the number: `NatText` is injective. */
  lemma {:induction false} NatTextValue(n: nat)
    ensures DigitsValue(NatText(n)) == n
  {
    if n >= 10 {
      var s := NatText(n);
      assert s[..|s| - 1] == NatText(n / 10);
      NatTextValue(n / 10);
    }
  }

  /** Lower-case hexadecimal digit. */
  function HexChar(d: nat): char
    requires d < 16
  {
    if d < 10 then DigitChar(d) else (d - 10 + 'a' as int) as char
  }

  predicate IsHexChar(c: char) {
    '0' <= c <= '9' || 'a' <= c <= 'f'
  }

  function HexValue(c: char): nat
    requires IsHexChar(c)
  {
    if c <= '9' then c as int - '0' as int else c as int - 'a' as int + 10
  }

  lemma HexRoundTrip(d: nat)
    requires d < 16
    ensures IsHexChar(HexChar(d)) && HexValue(HexChar(d)) == d
  {
  }

  /** Characters that `Debug` prints as `\u{..}` among those modelled: the C0
      control characters other than the four with a short escape, DEL and the
      C1 control characters. */
  predicate IsControl(c: char) {
    (c as int < 0x20 || 0x7f <= c as int < 0xa0) && c != '\0' && c != '\t' && c != '\r' && c != '\n'
  }

  /** How `Debug` for `str` prints one character. */
  function EscapeDebugChar(c: char): (s: string)
    ensures 1 <= |s|
    ensures |s| == 1 <==> (s == [c] && c != '\\')
  {
    if c == '\0' then "\\0"
    else if c == '\t' then "\\t"
    else if c == '\r' then "\\r"
    else if c == '\n' then "\\n"
    else if c == '\\' then "\\\\"
    else if c == '"' then "\\\""
    else if IsControl(c) then
      var v := c as int;
      if v < 16 then "\\u{" + [HexChar(v)] + "}"
      else "\\u{" + [HexChar(v / 16), HexChar(v % 16)] + "}"
    else [c]
  }

  function EscapeDebug(s: string): string {
    if s == [] then [] else EscapeDebugChar(s[0]) + EscapeDebug(s[1..])
  }

  /** `format!("{:?}", s)` for a string slice `s`. */
  function DebugStr(s: string): (q: string)
    ensures |q| >= 2 && q[0] == '"' && q[|q| - 1] == '"'
  {
    "\"" + EscapeDebug(s) + "\""
  }

  /** Reads back what `EscapeDebug` prints; `None` on a malformed escape. */
  function UnescapeDebug(s: string): Option<string>
    decreases |s|
  {
    if s == [] then Some([])
    else if s[0] != '\\' then Prepend(s[0], UnescapeDebug(s[1..]))
    else if |s| < 2 then None
    else if s[1] == '0' then Prepend('\0', UnescapeDebug(s[2..]))
    else if s[1] == 't' then Prepend('\t', UnescapeDebug(s[2..]))
    else if s[1] == 'r' then Prepend('\r', UnescapeDebug(s[2..]))
    else if s[1] == 'n' then Prepend('\n', UnescapeDebug(s[2..]))
    else if s[1] == '\\' then Prepend('\\', UnescapeDebug(s[2..]))
    else if s[1] == '"' then Prepend('"', UnescapeDebug(s[2..]))
    else if s[1] == 'u' && |s| >= 5 && s[2] == '{' && IsHexChar(s[3]) && s[4] == '}' then
      Prepend(HexValue(s[3]) as char, UnescapeDebug(s[5..]))
    else if s[1] == 'u' && |s| >= 6 && s[2] == '{' && IsHexChar(s[3]) && IsHexChar(s[4]) && s[5] == '}' then
      Prepend((16 * HexValue(s[3]) + HexValue(s[4])) as char, UnescapeDebug(s[6..]))
    else None
  }

  function Prepend(c: char, rest: Option<string>): Option<string> {
    match rest
    case None => None
    case Some(t) => Some([c] + t)
  }

  lemma UnescapeOneChar(c: char, t: string)
    ensures UnescapeDebug(EscapeDebugChar(c) + t) == Prepend(c, UnescapeDebug(t))
  {
    var e := EscapeDebugChar(c);
    var s := e + t;
    if IsControl(c) && c != '\\' && c != '"' {
      var v := c as int;
      if v < 16 {
        HexRoundTrip(v);
        assert s[5..] == t;
      } else {
        HexRoundTrip(v / 16);
        HexRoundTrip(v % 16);
        assert s[6..] == t;
        assert (16 * (v / 16) + v % 16) as char == c;
      }
    } else if |e| == 2 {
      assert s[2..] == t;
    } else {
      assert s[1..] == t;
    }
  }

  /** Debug-escaping loses nothing: the text can be read back exactly. */
  lemma {:induction false} EscapeDebugRoundTrip(s: string)
    ensures UnescapeDebug(EscapeDebug(s)) == Some(s)
  {
    if s != [] {
      UnescapeOneChar(s[0], EscapeDebug(s[1..]));
      EscapeDebugRoundTrip(s[1..]);
      assert [s[0]] + s[1..] == s;
    }
  }

  /** Two different strings never print alike under `{:?}`. */
  lemma DebugStrInjective(a: string, b: string)
    requires DebugStr(a) == DebugStr(b)
    ensures a == b
  {
    var qa, qb := DebugStr(a), DebugStr(b);
    assert EscapeDebug(a) == qa[1..|qa| - 1];
    assert EscapeDebug(b) == qb[1..|qb| - 1];
    EscapeDebugRoundTrip(a);
    EscapeDebugRoundTrip(b);
  }
}

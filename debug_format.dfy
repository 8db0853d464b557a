/** Rust's `{:?}` (Debug) rendering of the two field types a record prints:
    `str` (quoted, with escapes) and integers (decimal, leading `-` when
    negative), together with parsers that read such text back.  The parsers
    exist to prove that the rendering loses nothing. */
module DebugFormat {
  import opened Wrappers

  // ---------------------------------------------------------------------
  // Strings

  /** The ASCII characters that Debug writes as `\u{..}`: the control
      characters without a short escape, and DEL. */
  predicate IsHexEscaped(c: char) {
    (c < ' ' && c != '\0' && c != '\t' && c != '\n' && c != '\r') || c == '\U{7f}'
  }

  /** The characters Debug does not copy verbatim. */
  predicate NeedsEscape(c: char) {
    c == '"' || c == '\\' || c == '\0' || c == '\t' || c == '\n' || c == '\r' || IsHexEscaped(c)
  }

  function HexDigit(d: nat): char
    requires d < 16
  {
    if d < 10 then ('0' as int + d) as char else ('a' as int + d - 10) as char
  }

  /** Lower-case hexadecimal, no leading zeros, of a value below 0x100. */
  function HexText(n: nat): string
    requires n < 0x100
  {
    if n < 16 then [HexDigit(n)] else [HexDigit(n / 16), HexDigit(n % 16)]
  }

  /** The escape sequence Debug writes for a character it does not copy. */
  function EscapeSequence(c: char): string
    requires NeedsEscape(c)
  {
    if c == '"' then "\\\""
    else if c == '\\' then "\\\\"
    else if c == '\0' then "\\0"
    else if c == '\t' then "\\t"
    else if c == '\n' then "\\n"
    else if c == '\r' then "\\r"
    else "\\u{" + HexText(c as int) + "}"
  }

  /** How Debug writes one character inside a quoted string. */
  function EscapeChar(c: char): string {
    if NeedsEscape(c) then EscapeSequence(c) else [c]
  }

  /** The body Debug writes between the quotes: each character verbatim or
      as its escape, so never shorter than `s`. */
  function Escaped(s: string): (r: string)
    ensures |r| >= |s|
  {
    if s == [] then [] else EscapeChar(s[0]) + Escaped(s[1..])
  }

  /** `format!("{:?}", s)` for a string whose non-ASCII characters Rust
      prints as they are. */
  function DebugStr(s: string): (r: string)
    ensures |r| >= |s| + 2 && r[0] == '"' && r[|r| - 1] == '"'
  {
    "\"" + Escaped(s) + "\""
  }

  function HexValue(c: char): (r: Option<nat>)
    ensures r.Some? ==> r.value < 16
  {
    if '0' <= c <= '9' then Some(c as int - '0' as int)
    else if 'a' <= c <= 'f' then Some(c as int - 'a' as int + 10)
    else None
  }

  /** Reads the escape sequence that follows a backslash; gives the
      character it stands for and the text after it. Only the `\u{..}`
      forms of one or two digits are read, the ones `EscapeChar` writes. */
  function Unescape(s: string): (r: Option<(char, string)>)
    ensures r.Some? ==> |r.value.1| < |s|
  {
    if s == [] then None
    else if s[0] == '"' then Some(('"', s[1..]))
    else if s[0] == '\\' then Some(('\\', s[1..]))
    else if s[0] == '0' then Some(('\0', s[1..]))
    else if s[0] == 't' then Some(('\t', s[1..]))
    else if s[0] == 'n' then Some(('\n', s[1..]))
    else if s[0] == 'r' then Some(('\r', s[1..]))
    else if s[0] == 'u' && |s| >= 4 && s[1] == '{' then
      if s[3] == '}' then
        match HexValue(s[2])
        case None => None
        case Some(d) => Some((d as char, s[4..]))
      else if |s| >= 5 && s[4] == '}' then
        match (HexValue(s[2]), HexValue(s[3]))
        case (Some(h), Some(l)) => Some(((16 * h + l) as char, s[5..]))
        case _ => None
      else None
    else None
  }

  /** Reads the body of a quoted string up to its closing quote; gives the
      unescaped text and what follows the closing quote. */
  function UnquoteBody(s: string): (r: Option<(string, string)>)
    ensures r.Some? ==> |r.value.1| < |s|
    decreases |s|
  {
    if s == [] then None
    else if s[0] == '"' then Some(([], s[1..]))
    else if s[0] == '\\' then
      match Unescape(s[1..])
      case None => None
      case Some((c, rest)) =>
        match UnquoteBody(rest)
        case None => None
        case Some((body, after)) => Some(([c] + body, after))
    else
      match UnquoteBody(s[1..])
      case None => None
      case Some((body, after)) => Some(([s[0]] + body, after))
  }

  /** Reads one Debug-quoted string from the front of `s`. */
  function ParseQuoted(s: string): Option<(string, string)> {
    if s != [] && s[0] == '"' then UnquoteBody(s[1..]) else None
  }

  /** Every escape `EscapeChar` writes is a backslash followed by text
      that `Unescape` reads back to the original character. */
  lemma UnescapeEscapeChar(c: char, rest: string)
    requires NeedsEscape(c)
    ensures |EscapeChar(c)| >= 2 && EscapeChar(c)[0] == '\\'
    ensures Unescape(EscapeChar(c)[1..] + rest) == Some((c, rest))
  {
    if IsHexEscaped(c) {
      var n := c as int;
      var e := EscapeChar(c);
      assert e == "\\u{" + HexText(n) + "}";
      var s := e[1..] + rest;
      if n < 16 {
        assert s == ['u', '{', HexDigit(n), '}'] + rest;
        assert HexValue(HexDigit(n)) == Some(n);
      } else {
        assert s == ['u', '{', HexDigit(n / 16), HexDigit(n % 16), '}'] + rest;
        assert HexValue(HexDigit(n / 16)) == Some(n / 16);
        assert HexValue(HexDigit(n % 16)) == Some(n % 16);
      }
    }
  }

  /** Reading one escaped character in front of a body that reads back
      puts that character in front of the result. */
  lemma UnquoteStep(c: char, x: string, t: string, rest: string)
    requires UnquoteBody(x) == Some((t, rest))
    ensures UnquoteBody(EscapeChar(c) + x) == Some(([c] + t, rest))
  {
    var e := EscapeChar(c);
    if NeedsEscape(c) {
      UnescapeEscapeChar(c, x);
      assert (e + x)[0] == '\\';
      assert (e + x)[1..] == e[1..] + x;
    } else {
      assert e + x == [c] + x;
      assert ([c] + x)[1..] == x;
    }
  }

  lemma EscapedQuotedCons(s: string, rest: string)
    requires s != []
    ensures Escaped(s) + "\"" + rest == EscapeChar(s[0]) + (Escaped(s[1..]) + "\"" + rest)
  {
    var e, t := EscapeChar(s[0]), Escaped(s[1..]);
    assert Escaped(s) == e + t;
    AppendAssoc(e, t, "\"", rest);
  }

  lemma AppendAssoc(a: string, b: string, c: string, d: string)
    ensures (a + b) + c + d == a + (b + c + d)
  {
  }

  lemma {:induction false} UnquoteEscaped(s: string, rest: string)
    ensures UnquoteBody(Escaped(s) + "\"" + rest) == Some((s, rest))
    decreases |s|
  {
    if s == [] {
      assert Escaped(s) + "\"" + rest == "\"" + rest;
    } else {
      var c, t := s[0], s[1..];
      var x := Escaped(t) + "\"" + rest;
      UnquoteEscaped(t, rest);
      UnquoteStep(c, x, t, rest);
      EscapedQuotedCons(s, rest);
      assert [c] + t == s;
    }
  }

  /** Debug-quoting a string and reading it back gives the string and
      leaves whatever followed untouched. */
  lemma QuotedRoundTrip(s: string, rest: string)
    ensures ParseQuoted(DebugStr(s) + rest) == Some((s, rest))
  {
    UnquoteEscaped(s, rest);
    var body := Escaped(s) + "\"" + rest;
    AppendAssoc("\"", Escaped(s), "\"", rest);
    assert ("\"" + body)[1..] == body;
  }

  /** A string with nothing to escape prints as itself between quotes. */
  lemma {:induction false} EscapedPlain(s: string)
    requires forall i | 0 <= i < |s| :: !NeedsEscape(s[i])
    ensures Escaped(s) == s
  {
    if s != [] {
      EscapedPlain(s[1..]);
      assert [s[0]] + s[1..] == s;
    }
  }

  /** Such a string's Debug text is the string itself between quotes. */
  lemma DebugStrPlain(s: string)
    requires forall i | 0 <= i < |s| :: !NeedsEscape(s[i])
    ensures DebugStr(s) == "\"" + s + "\""
  {
    EscapedPlain(s);
  }

  // ---------------------------------------------------------------------
  // Integers

  predicate IsDigit(c: char) {
    '0' <= c <= '9'
  }

  predicate AllDigits(s: string) {
    forall i | 0 <= i < |s| :: IsDigit(s[i])
  }

  function DigitChar(d: nat): char
    requires d < 10
  {
    ('0' as int + d) as char
  }

  /** Decimal text of a natural number, without leading zeros. */
  function NatText(n: nat): (r: string)
    ensures |r| > 0 && AllDigits(r)
    decreases n
  {
    if n < 10 then [DigitChar(n)] else NatText(n / 10) + [DigitChar(n % 10)]
  }

  /** `format!("{:?}", n)` for an integer `n`: a leading `-` exactly when
      `n` is negative, then a non-empty run of digits. */
  function DebugInt(n: int): (r: string)
    ensures |r| > 0 && (r[0] == '-' <==> n < 0)
    ensures AllDigits(if n < 0 then r[1..] else r)
    ensures n < 0 ==> |r| > 1
  {
    if n < 0 then "-" + NatText(-n) else NatText(n)
  }

  /** Length of the run of digits at the front of `s`. */
  function DigitRun(s: string): (k: nat)
    ensures k <= |s| && AllDigits(s[..k])
    ensures k < |s| ==> !IsDigit(s[k])
  {
    if s != [] && IsDigit(s[0]) then
      var k := 1 + DigitRun(s[1..]);
      assert s[..k] == [s[0]] + s[1..][..k - 1];
      k
    else 0
  }

  function DigitsValue(ds: string): nat
    requires AllDigits(ds)
  {
    if ds == [] then 0
    else 10 * DigitsValue(ds[..|ds| - 1]) + (ds[|ds| - 1] as int - '0' as int)
  }

  /** Reads the longest run of digits at the front of `s` as a number. */
  function ParseNat(s: string): Option<(nat, string)> {
    var k := DigitRun(s);
    if k == 0 then None else Some((DigitsValue(s[..k]), s[k..]))
  }

  /** Reads an optionally negative decimal integer from the front of `s`. */
  function ParseInt(s: string): Option<(int, string)> {
    if s != [] && s[0] == '-' then
      match ParseNat(s[1..])
      case None => None
      case Some((v, rest)) => var neg: int := -(v as int); Some((neg, rest))
    else ParseNat(s)
  }

  lemma {:induction false} NatTextDigits(n: nat)
    ensures DigitsValue(NatText(n)) == n
    decreases n
  {
    if n >= 10 {
      NatTextDigits(n / 10);
      var t := NatText(n);
      assert t[..|t| - 1] == NatText(n / 10);
    }
  }

  lemma {:induction false} DigitRunOf(ds: string, rest: string)
    requires AllDigits(ds)
    requires rest == [] || !IsDigit(rest[0])
    ensures DigitRun(ds + rest) == |ds|
    decreases |ds|
  {
    if ds == [] {
      assert ds + rest == rest;
    } else {
      DigitRunOf(ds[1..], rest);
      assert (ds + rest)[1..] == ds[1..] + rest;
    }
  }

  /** Printing a natural number and reading it back gives the number,
      provided the text that follows does not start with a digit. */
  lemma NatRoundTrip(m: nat, rest: string)
    requires rest == [] || !IsDigit(rest[0])
    ensures ParseNat(NatText(m) + rest) == Some((m, rest))
  {
    var t := NatText(m);
    NatTextDigits(m);
    DigitRunOf(t, rest);
    assert (t + rest)[..|t|] == t;
    assert (t + rest)[|t|..] == rest;
  }

  lemma NegativeRoundTrip(n: int, rest: string)
    requires n < 0
    requires rest == [] || !IsDigit(rest[0])
    ensures ParseInt(DebugInt(n) + rest) == Some((n, rest))
  {
    var m: nat := -n;
    NatRoundTrip(m, rest);
    ParseMinus(NatText(m) + rest, m, rest);
    assert DebugInt(n) + rest == ['-'] + (NatText(m) + rest);
  }

  /** A `-` in front of a natural's text reads as its negation. */
  lemma ParseMinus(x: string, m: nat, rest: string)
    requires ParseNat(x) == Some((m, rest))
    ensures ParseInt(['-'] + x).Some?
    ensures ParseInt(['-'] + x).value == (-(m as int), rest)
  {
    assert (['-'] + x)[1..] == x;
  }

  lemma NonNegativeRoundTrip(n: nat, rest: string)
    requires rest == [] || !IsDigit(rest[0])
    ensures ParseInt(DebugInt(n) + rest) == Some((n, rest))
  {
    var s := DebugInt(n) + rest;
    NatRoundTrip(n, rest);
    NatTextDigits(n);
    assert s[0] == NatText(n)[0];
  }

  /** Printing an integer and reading it back gives the integer, provided
      the text that follows does not start with a digit. */
  lemma IntRoundTrip(n: int, rest: string)
    requires rest == [] || !IsDigit(rest[0])
    ensures ParseInt(DebugInt(n) + rest) == Some((n, rest))
  {
    if n < 0 {
      NegativeRoundTrip(n, rest);
    } else {
      NonNegativeRoundTrip(n, rest);
    }
  }
}

/** Value-level helpers shared by every module of the model: an Option type,
    ASCII case folding, substring search, splitting and trimming of text, and
    JavaScript's `parseInt` without a radix (decimal, or hexadecimal after
    `0x`) together with the integer-to-text conversion it inverts. */
module Common {

  datatype Option<T> = None | Some(value: T)

  // ---------------------------------------------------------------------------
  // Case folding (String.prototype.toLowerCase, restricted to ASCII letters)

  function LowerChar(c: char): char
  {
    if 'A' <= c <= 'Z' then (c as int + 32) as char else c
  }

  function Lower(s: string): (r: string)
    ensures |r| == |s|
    ensures forall i :: 0 <= i < |s| ==> r[i] == LowerChar(s[i])
  {
    if s == [] then [] else [LowerChar(s[0])] + Lower(s[1..])
  }

  // ---------------------------------------------------------------------------
  // Substring search (String.prototype.includes)

  predicate OccursAt(hay: string, needle: string, i: int)
  {
    0 <= i && i + |needle| <= |hay| && hay[i..i + |needle|] == needle
  }

  predicate Includes(hay: string, needle: string)
  {
    exists i | 0 <= i <= |hay| :: OccursAt(hay, needle, i)
  }

  /** The empty string occurs in every string. */
  lemma IncludesEmpty(hay: string)
    ensures Includes(hay, "")
  {
    assert OccursAt(hay, "", 0);
  }

  /** The first position at which `needle` occurs in `hay`, searching from `from`. */
  function FirstOccurrence(hay: string, needle: string, from: nat): (r: Option<nat>)
    decreases |hay| - from
    ensures r.Some? ==> from <= r.value && OccursAt(hay, needle, r.value)
    ensures r.Some? ==> forall j :: from <= j < r.value ==> !OccursAt(hay, needle, j)
    ensures r.None? ==> forall j :: from <= j ==> !OccursAt(hay, needle, j)
  {
    if from + |needle| > |hay| then None
    else if OccursAt(hay, needle, from) then Some(from)
    else FirstOccurrence(hay, needle, from + 1)
  }

  /** String.prototype.replace with a string pattern: only the first occurrence
      is replaced. */
  function ReplaceFirst(s: string, pattern: string, replacement: string): string
  {
    match FirstOccurrence(s, pattern, 0)
    case None => s
    case Some(i) => s[..i] + replacement + s[i + |pattern|..]
  }

  /** Replacing a pattern that the text starts with removes exactly that prefix. */
  lemma ReplaceFirstOfPrefix(pattern: string, rest: string)
    ensures ReplaceFirst(pattern + rest, pattern, "") == rest
  {
    var s := pattern + rest;
    assert s[0..|pattern|] == pattern;
    assert OccursAt(s, pattern, 0);
    assert FirstOccurrence(s, pattern, 0) == Some(0);
    assert s[|pattern|..] == rest;
  }

  // ---------------------------------------------------------------------------
  // Whitespace, trimming and splitting

  /** The characters JavaScript's trim and parseInt skip: the white-space
      characters (tab, vertical tab, form feed, space, no-break space, the
      byte order mark and the other space separators) and the line
      terminators (line feed, carriage return, U+2028 and U+2029). */
  predicate IsSpace(c: char)
  {
    var n := c as int;
    9 <= n <= 13 || n == 0x20 || n == 0xA0 || n == 0x1680 || 0x2000 <= n <= 0x200A
    || n == 0x2028 || n == 0x2029 || n == 0x202F || n == 0x205F || n == 0x3000 || n == 0xFEFF
  }

  function TrimStart(s: string): (r: string)
    ensures |r| <= |s| && r == s[|s| - |r|..]
    ensures r == [] || !IsSpace(r[0])
  {
    if s != [] && IsSpace(s[0]) then
      var r := TrimStart(s[1..]);
      assert s[1..][|s| - 1 - |r|..] == s[|s| - |r|..];
      r
    else s
  }

  function TrimEnd(s: string): (r: string)
    ensures |r| <= |s| && r == s[..|r|]
    ensures r == [] || !IsSpace(r[|r| - 1])
  {
    if s != [] && IsSpace(s[|s| - 1]) then TrimEnd(s[..|s| - 1]) else s
  }

  /** String.prototype.trim */
  function Trim(s: string): string
  {
    TrimEnd(TrimStart(s))
  }

  /** String.prototype.split with a one-character separator. */
  function Split(s: string, sep: char): (r: seq<string>)
    ensures |r| >= 1
    ensures forall k :: 0 <= k < |r| ==> sep !in r[k]
  {
    if s == [] then [""]
    else
      var rest := Split(s[1..], sep);
      if s[0] == sep then [""] + rest else [[s[0]] + rest[0]] + rest[1..]
  }

  /** Array.prototype.join with a one-character separator. */
  function Join(pieces: seq<string>, sep: char): string
  {
    if pieces == [] then ""
    else if |pieces| == 1 then pieces[0]
    else pieces[0] + [sep] + Join(pieces[1..], sep)
  }

  /** Splitting loses nothing: joining the pieces back gives the text again. */
  lemma {:induction false} JoinSplit(s: string, sep: char)
    ensures Join(Split(s, sep), sep) == s
  {
    if s != [] {
      var rest := Split(s[1..], sep);
      JoinSplit(s[1..], sep);
      if s[0] == sep {
        assert Split(s, sep) == [""] + rest;
        assert ([""] + rest)[1..] == rest;
      } else {
        var r := Split(s, sep);
        assert r == [[s[0]] + rest[0]] + rest[1..];
        if |rest| == 1 {
          assert Join(rest, sep) == rest[0];
        } else {
          assert Join(rest, sep) == rest[0] + [sep] + Join(rest[1..], sep);
          assert r[1..] == rest[1..];
        }
      }
    }
  }

  // ---------------------------------------------------------------------------
  // Numerals: JavaScript's parseInt and Number-to-string for integers

  predicate IsDigit(c: char)
  {
    '0' <= c <= '9'
  }

  predicate IsHexDigit(c: char)
  {
    IsDigit(c) || 'a' <= c <= 'f' || 'A' <= c <= 'F'
  }

  /** parseInt without a radix reads decimal, or hexadecimal after `0x`. */
  predicate IsRadixDigit(c: char, hex: bool)
  {
    if hex then IsHexDigit(c) else IsDigit(c)
  }

  predicate AllRadixDigits(s: string, hex: bool)
  {
    forall i :: 0 <= i < |s| ==> IsRadixDigit(s[i], hex)
  }

  predicate AllDigits(s: string)
  {
    forall i :: 0 <= i < |s| ==> IsDigit(s[i])
  }

  function Base(hex: bool): nat
  {
    if hex then 16 else 10
  }

  /** The value of a decimal or hexadecimal digit (a character that is not a
      digit counts as 0; the callers only pass digits). */
  function DigitValue(c: char): nat
  {
    if IsDigit(c) then c as int - '0' as int
    else if 'a' <= c <= 'f' then c as int - 'a' as int + 10
    else if 'A' <= c <= 'F' then c as int - 'A' as int + 10
    else 0
  }

  function DigitChar(d: nat): (c: char)
    requires d < 10
    ensures IsDigit(c) && DigitValue(c) == d
  {
    ('0' as int + d) as char
  }

  /** The length of the run of decimal (or, when `hex`, hexadecimal) digits
      that `s` starts with. */
  function LeadingDigits(s: string, hex: bool): (n: nat)
    ensures n <= |s|
  {
    if s == [] || !IsRadixDigit(s[0], hex) then 0 else 1 + LeadingDigits(s[1..], hex)
  }

  /** The run LeadingDigits measures is made of digits and is the longest. */
  lemma {:induction false} LeadingDigitsRun(s: string, hex: bool)
    ensures AllRadixDigits(s[..LeadingDigits(s, hex)], hex)
    ensures LeadingDigits(s, hex) < |s| ==> !IsRadixDigit(s[LeadingDigits(s, hex)], hex)
  {
    if s != [] && IsRadixDigit(s[0], hex) {
      LeadingDigitsRun(s[1..], hex);
      var n := LeadingDigits(s, hex);
      assert s[..n] == [s[0]] + s[1..][..n - 1];
    }
  }

  /** The value of digits read most significant first. */
  function DigitsValue(s: string, hex: bool): nat
  {
    if s == [] then 0 else DigitsValue(s[..|s| - 1], hex) * Base(hex) + DigitValue(s[|s| - 1])
  }

  /** `0x` or `0X`, which makes parseInt read the rest in radix 16. */
  predicate HexPrefixed(s: string)
  {
    |s| >= 2 && s[0] == '0' && (s[1] == 'x' || s[1] == 'X')
  }

  /** The digits parseInt reads once white space and sign are gone: a `0x` or
      `0X` switches to hexadecimal, then the longest run of digits is read.
      With no digit the result is NaN, written None. */
  function ParseMagnitude(u: string): Option<nat>
  {
    if HexPrefixed(u) then ReadDigits(u[2..], true) else ReadDigits(u, false)
  }

  /** The value of the longest run of digits that `body` starts
      with; None when it starts with none. */
  function ReadDigits(body: string, hex: bool): Option<nat>
  {
    var k := LeadingDigits(body, hex);
    if k == 0 then None else Some(DigitsValue(body[..k], hex))
  }

  /** parseInt(s) without a radix: leading white space is skipped and one
      sign is accepted before the magnitude. */
  function ParseInt(s: string): Option<int>
  {
    if s == [] then None
    else if IsSpace(s[0]) then ParseInt(s[1..])
    else if s[0] == '-' then Signed(ParseMagnitude(s[1..]), true)
    else if s[0] == '+' then Signed(ParseMagnitude(s[1..]), false)
    else Signed(ParseMagnitude(s), false)
  }

  function Signed(m: Option<nat>, negative: bool): Option<int>
  {
    match m
    case None => None
    case Some(v) => Some(if negative then -(v as int) else v)
  }

  function NatToString(n: nat): (r: string)
    ensures |r| >= 1 && AllDigits(r)
  {
    if n < 10 then [DigitChar(n)] else NatToString(n / 10) + [DigitChar(n % 10)]
  }

  /** The decimal text JavaScript prints for an integer. */
  function IntToString(i: int): (r: string)
    ensures |r| >= 1
  {
    if i < 0 then "-" + NatToString(-i) else NatToString(i)
  }

  lemma {:induction false} NatToStringValue(n: nat)
    ensures DigitsValue(NatToString(n), false) == n
  {
    if n >= 10 {
      var s := NatToString(n);
      NatToStringValue(n / 10);
      assert s[..|s| - 1] == NatToString(n / 10);
    }
  }

  lemma {:induction false} LeadingDigitsOfDigits(s: string, hex: bool)
    requires AllRadixDigits(s, hex)
    ensures LeadingDigits(s, hex) == |s|
  {
    if s != [] {
      LeadingDigitsOfDigits(s[1..], hex);
    }
  }

  lemma {:induction false} ParseIntOfDigits(d: string)
    requires |d| >= 1 && AllDigits(d)
    ensures ParseInt(d) == Some(DigitsValue(d, false))
    ensures ParseInt("-" + d) == Some(-(DigitsValue(d, false) as int))
  {
    ParseIntOfUnsigned(d);
    ParseIntOfNegative(d);
  }

  lemma {:induction false} MagnitudeOfDigits(d: string)
    requires |d| >= 1 && AllDigits(d)
    ensures ParseMagnitude(d) == Some(DigitsValue(d, false))
  {
    LeadingDigitsOfDigits(d, false);
    assert d[..|d|] == d;
    assert !HexPrefixed(d) by { if |d| >= 2 { assert IsDigit(d[1]); } }
  }

  lemma {:induction false} TrimStartOfNonSpace(s: string)
    requires s != [] && !IsSpace(s[0])
    ensures TrimStart(s) == s
  {
  }

  lemma {:induction false} TrimEndOfNonSpace(s: string)
    requires s != [] && !IsSpace(s[|s| - 1])
    ensures TrimEnd(s) == s
  {
  }

  /** Text that starts with neither white space nor a sign is read as its
      magnitude. */
  lemma {:induction false} ParseIntPlain(u: string)
    requires u != [] && !IsSpace(u[0]) && u[0] != '-' && u[0] != '+'
    ensures ParseInt(u) == Signed(ParseMagnitude(u), false)
  {
  }

  /** After a `-` the magnitude is negated. */
  lemma {:induction false} ParseIntMinus(u: string)
    ensures ParseInt("-" + u) == Signed(ParseMagnitude(u), true)
  {
    assert ("-" + u)[1..] == u;
  }

  lemma {:induction false} DigitNotSpace(c: char)
    requires IsDigit(c)
    ensures !IsSpace(c) && c != '-' && c != '+'
  {
  }

  lemma {:induction false} ParseIntOfUnsigned(d: string)
    requires |d| >= 1 && AllDigits(d)
    ensures ParseInt(d) == Some(DigitsValue(d, false))
  {
    MagnitudeOfDigits(d);
    DigitNotSpace(d[0]);
    ParseIntPlain(d);
  }

  lemma {:induction false} ParseIntOfNegative(d: string)
    requires |d| >= 1 && AllDigits(d)
    ensures ParseInt("-" + d) == Some(-(DigitsValue(d, false) as int))
  {
    MagnitudeOfDigits(d);
    ParseIntMinus(d);
    SignedNegative(DigitsValue(d, false));
  }

  lemma {:induction false} SignedNegative(v: nat)
    ensures Signed(Some(v), true) == Some(-(v as int))
  {
  }

  /** parseInt reads back exactly the integer that was printed. */
  lemma {:induction false} ParseIntOfIntToString(i: int)
    ensures ParseInt(IntToString(i)) == Some(i)
  {
    var n: nat := if i < 0 then -i else i;
    NatToStringValue(n);
    ParseIntOfDigits(NatToString(n));
  }

  lemma {:induction false} LeadingHexRun(h: string, rest: string)
    requires AllRadixDigits(h, true) && (rest == [] || !IsRadixDigit(rest[0], true))
    ensures LeadingDigits(h + rest, true) == |h|
  {
    if h != [] {
      assert (h + rest)[1..] == h[1..] + rest;
      LeadingHexRun(h[1..], rest);
    } else {
      assert h + rest == rest;
    }
  }

  lemma {:induction false} MagnitudeOfHex(x: char, h: string, rest: string)
    requires x == 'x' || x == 'X'
    requires AllRadixDigits(h, true) && (rest == [] || !IsRadixDigit(rest[0], true))
    ensures ParseMagnitude(['0', x] + h + rest) == if h == [] then None else Some(DigitsValue(h, true))
  {
    var u := ['0', x] + h + rest;
    assert HexPrefixed(u);
    assert u[2..] == h + rest;
    LeadingHexRun(h, rest);
    assert (h + rest)[..|h|] == h;
  }

  /** The value parseInt gives for the hexadecimal digits `h` after a `0x`
      prefix: NaN when there are none, negated after a `-`. */
  function HexValue(h: string, negative: bool): Option<int>
  {
    Signed(if h == [] then None else Some(DigitsValue(h, true)), negative)
  }

  /** A `0x` or `0X` numeral is read in hexadecimal, after an optional `-`,
      and reading stops at the first character that is not a hexadecimal
      digit; with no digit after the prefix the result is NaN. */
  lemma {:induction false} ParseIntHex(x: char, h: string, rest: string)
    requires x == 'x' || x == 'X'
    requires AllRadixDigits(h, true) && (rest == [] || !IsRadixDigit(rest[0], true))
    ensures ParseInt(['0', x] + h + rest) == HexValue(h, false)
    ensures ParseInt("-" + (['0', x] + h + rest)) == HexValue(h, true)
  {
    var u := ['0', x] + h + rest;
    assert ParseMagnitude(u) == if h == [] then None else Some(DigitsValue(h, true)) by {
      MagnitudeOfHex(x, h, rest);
    }
    ParseIntPlain(u);
    ParseIntMinus(u);
  }

  /** Two hexadecimal digits `d1 d2` have the value 16 * d1 + d2, so `0x1A`
      is 26 where a decimal reading would stop at 1. */
  lemma {:induction false} HexTwoDigits(a: char, b: char)
    requires IsRadixDigit(a, true) && IsRadixDigit(b, true)
    ensures DigitsValue([a, b], true) == 16 * DigitValue(a) + DigitValue(b)
  {
    assert [a, b][..1] == [a];
    assert [a][..0] == [];
    assert DigitsValue([a], true) == DigitValue(a);
  }

  /** trim removes one white-space character from each end of a text whose
      own ends are not white space. */
  lemma {:induction false} TrimOneEach(c: char, w: string, e: char)
    requires IsSpace(c) && IsSpace(e)
    requires w != [] && !IsSpace(w[0]) && !IsSpace(w[|w| - 1])
    ensures Trim([c] + w + [e]) == w
  {
    var t := w + [e];
    assert ([c] + t)[1..] == t;
    assert [c] + w + [e] == [c] + t;
    TrimStartOfNonSpace(t);
    assert t[..|t| - 1] == w;
    TrimEndOfNonSpace(w);
  }

  /** The no-break space and the byte order mark are white space to trim and
      parseInt, as are the line and paragraph separators. */
  lemma UnicodeSpaces()
    ensures IsSpace('\U{A0}') && IsSpace('\U{FEFF}') && IsSpace('\U{2028}') && IsSpace('\U{3000}')
    ensures !IsSpace('\U{200B}') && !IsSpace('x')
  {
  }
}

/**
 * The JavaScript string built-ins the application relies on, over Dafny
 * strings (`seq<char>`): `split` on a one-character separator, `trim`,
 * `String(n)` for an integer, `padStart` with a one-character filler and
 * `String.fromCharCode`.
 */
module Strings {

  // ---------------------------------------------------------------------------
  // split
  // ---------------------------------------------------------------------------

  /** Number of occurrences of `c` in `s`. */
  function Count(s: string, c: char): nat
  {
    if s == [] then 0 else (if s[0] == c then 1 else 0) + Count(s[1..], c)
  }

  /** `s.split(sep)`: the maximal pieces of `s` between occurrences of `sep`. */
  function Split(s: string, sep: char): (parts: seq<string>)
    ensures |parts| == Count(s, sep) + 1
    ensures forall k :: 0 <= k < |parts| ==> sep !in parts[k]
  {
    if s == [] then [""]
    else if s[0] == sep then [""] + Split(s[1..], sep)
    else
      var rest := Split(s[1..], sep);
      [[s[0]] + rest[0]] + rest[1..]
  }

  /** `parts.join(sep)`, the inverse of `Split`. */
  function Join(parts: seq<string>, sep: char): string
    requires |parts| >= 1
  {
    if |parts| == 1 then parts[0] else parts[0] + [sep] + Join(parts[1..], sep)
  }

  /** Splitting and joining again gives the original string back. */
  lemma {:induction false} JoinOfSplit(s: string, sep: char)
    ensures Join(Split(s, sep), sep) == s
  {
    if s == [] {
    } else if s[0] == sep {
      JoinOfSplit(s[1..], sep);
      assert Split(s, sep)[1..] == Split(s[1..], sep);
    } else {
      JoinOfSplit(s[1..], sep);
      var rest := Split(s[1..], sep);
      if |rest| > 1 {
        assert Split(s, sep)[1..] == rest[1..];
        assert [s[0]] + (rest[0] + [sep] + Join(rest[1..], sep)) == s;
      }
    }
  }

  lemma {:induction false} SplitNoSeparator(s: string, sep: char)
    requires sep !in s
    ensures Split(s, sep) == [s]
  {
    if s != [] {
      assert s[0] != sep && sep !in s[1..];
      SplitNoSeparator(s[1..], sep);
      assert [s[0]] + s[1..] == s;
    }
  }

  lemma {:induction false} SplitAfterPiece(p: string, rest: string, sep: char)
    requires sep !in p
    ensures Split(p + [sep] + rest, sep) == [p] + Split(rest, sep)
  {
    if p == [] {
      assert p + [sep] + rest == [sep] + rest;
      assert ([sep] + rest)[1..] == rest;
    } else {
      SplitAfterPiece(p[1..], rest, sep);
      assert (p + [sep] + rest)[1..] == p[1..] + [sep] + rest;
      assert [p[0]] + p[1..] == p;
    }
  }

  /** Joining pieces free of `sep` and splitting again gives the pieces back. */
  lemma {:induction false} SplitOfJoin(parts: seq<string>, sep: char)
    requires |parts| >= 1
    requires forall k :: 0 <= k < |parts| ==> sep !in parts[k]
    ensures Split(Join(parts, sep), sep) == parts
  {
    if |parts| == 1 {
      SplitNoSeparator(parts[0], sep);
    } else {
      SplitOfJoin(parts[1..], sep);
      SplitAfterPiece(parts[0], Join(parts[1..], sep), sep);
    }
  }

  /** A string with exactly one separator splits into the pieces around it. */
  lemma SplitOnce(a: string, b: string, sep: char)
    requires sep !in a && sep !in b
    ensures Split(a + [sep] + b, sep) == [a, b]
  {
    SplitAfterPiece(a, b, sep);
    SplitNoSeparator(b, sep);
  }

  // ---------------------------------------------------------------------------
  // trim
  // ---------------------------------------------------------------------------

  /** The characters `String.prototype.trim` removes: ECMAScript WhiteSpace
      (tab, vertical tab, form feed, space, no-break space, byte order mark and
      the Unicode space separators) and LineTerminator (LF, CR, LS, PS). */
  predicate IsSpace(c: char)
  {
    || c == '\t' || c == '\n' || c == '\U{000B}' || c == '\U{000C}' || c == '\r'
    || c == ' ' || c == '\U{00A0}' || c == '\U{1680}'
    || ('\U{2000}' <= c <= '\U{200A}')
    || c == '\U{2028}' || c == '\U{2029}' || c == '\U{202F}' || c == '\U{205F}'
    || c == '\U{3000}' || c == '\U{FEFF}'
  }

  predicate AllSpace(s: string)
  {
    forall k :: 0 <= k < |s| ==> IsSpace(s[k])
  }

  /** Drops the longest all-space prefix. */
  function TrimStart(s: string): (t: string)
    ensures |t| <= |s| && t == s[|s| - |t|..]
    ensures AllSpace(s[..|s| - |t|])
    ensures t == [] || !IsSpace(t[0])
  {
    if s != [] && IsSpace(s[0]) then TrimStart(s[1..]) else s
  }

  /** Drops the longest all-space suffix. */
  function TrimEnd(s: string): (t: string)
    ensures |t| <= |s| && t == s[..|t|]
    ensures AllSpace(s[|t|..])
    ensures t == [] || !IsSpace(t[|t| - 1])
  {
    if s != [] && IsSpace(s[|s| - 1]) then TrimEnd(s[..|s| - 1]) else s
  }

  /** `s.trim()`. */
  function Trim(s: string): string
  {
    TrimEnd(TrimStart(s))
  }

  /** Trimming a string that neither starts nor ends with a space leaves it as it is. */
  lemma TrimUntouched(s: string)
    requires s == [] || (!IsSpace(s[0]) && !IsSpace(s[|s| - 1]))
    ensures Trim(s) == s
  {
  }

  /** Trimming a word followed by one space gives the word. */
  lemma TrimTrailingSpace(s: string, c: char)
    requires s != [] && !IsSpace(s[0]) && !IsSpace(s[|s| - 1]) && IsSpace(c)
    ensures Trim(s + [c]) == s
  {
    var t := s + [c];
    TrimStartKeeps(t);
    TrimEndDrops(t);
    assert t[..|t| - 1] == s;
    TrimEndKeeps(s);
  }

  lemma TrimStartKeeps(s: string)
    requires s != [] && !IsSpace(s[0])
    ensures TrimStart(s) == s
  {
  }

  lemma TrimEndKeeps(s: string)
    requires s != [] && !IsSpace(s[|s| - 1])
    ensures TrimEnd(s) == s
  {
  }

  lemma TrimEndDrops(s: string)
    requires s != [] && IsSpace(s[|s| - 1])
    ensures TrimEnd(s) == TrimEnd(s[..|s| - 1])
  {
  }

  /** Trimming twice is trimming once. */
  lemma TrimIdempotent(s: string)
    ensures Trim(Trim(s)) == Trim(s)
  {
    var u := TrimStart(s);
    var t := TrimEnd(u);
    assert t == Trim(s);
    if t != [] {
      assert t[0] == u[..|t|][0] == u[0];
    }
    TrimUntouched(t);
  }

  // ---------------------------------------------------------------------------
  // String(n) and padStart
  // ---------------------------------------------------------------------------

  predicate IsDigit(c: char)
  {
    '0' <= c <= '9'
  }

  function DigitChar(d: nat): (c: char)
    requires d < 10
    ensures IsDigit(c) && c as int - '0' as int == d
  {
    ('0' as int + d) as char
  }

  /** Decimal notation of a natural number, without leading zeros. */
  function NatToString(n: nat): (s: string)
    ensures |s| >= 1
    ensures (n < 10) == (|s| == 1)
  {
    if n < 10 then [DigitChar(n)] else NatToString(n / 10) + [DigitChar(n % 10)]
  }

  /** The decimal notation holds digits only. */
  lemma {:induction false} NatToStringDigits(n: nat)
    ensures forall k :: 0 <= k < |NatToString(n)| ==> IsDigit(NatToString(n)[k])
  {
    if n >= 10 {
      NatToStringDigits(n / 10);
    }
  }

  /** `String(n)` for an integral JavaScript number below 10^21 in magnitude;
      from there JavaScript writes exponent notation, which is not modelled. */
  function IntToString(n: int): string
  {
    if n < 0 then "-" + NatToString(-n) else NatToString(n)
  }

  /** The value of a string of decimal digits (leading zeros allowed). */
  function DigitsValue(s: string): nat
  {
    if s == [] then 0
    else
      var c := s[|s| - 1];
      DigitsValue(s[..|s| - 1]) * 10 + (if IsDigit(c) then c as int - '0' as int else 0)
  }

  /** Reads back an optionally signed decimal integer. */
  function ParseInt(s: string): int
  {
    if s != [] && s[0] == '-' then -(DigitsValue(s[1..]) as int) else DigitsValue(s)
  }

  function Repeat(c: char, n: nat): (r: string)
    ensures |r| == n && forall k :: 0 <= k < n ==> r[k] == c
  {
    if n == 0 then [] else [c] + Repeat(c, n - 1)
  }

  /** `s.padStart(width, [fill])`. */
  function PadStart(s: string, width: int, fill: char): (r: string)
    ensures |r| == if width <= |s| then |s| else width
    ensures r[|r| - |s|..] == s
    ensures forall k :: 0 <= k < |r| - |s| ==> r[k] == fill
  {
    if width <= |s| then s else Repeat(fill, width - |s|) + s
  }

  lemma {:induction false} DigitsOfNatToString(n: nat)
    ensures DigitsValue(NatToString(n)) == n
  {
    var s := NatToString(n);
    if n >= 10 {
      DigitsOfNatToString(n / 10);
      assert s[..|s| - 1] == NatToString(n / 10);
    }
  }

  lemma {:induction false} DigitsLeadingZeros(z: nat, s: string)
    ensures DigitsValue(Repeat('0', z) + s) == DigitsValue(s)
    decreases |s|, z
  {
    var t := Repeat('0', z) + s;
    if s == [] {
      if z > 0 {
        assert t[..|t| - 1] == Repeat('0', z - 1) + [];
        DigitsLeadingZeros(z - 1, []);
      }
    } else {
      assert t[..|t| - 1] == Repeat('0', z) + s[..|s| - 1];
      DigitsLeadingZeros(z, s[..|s| - 1]);
    }
  }

  /** A number written with `String(n).padStart(2, '0')` reads back as `n`,
      and the writing holds nothing but digits after an optional minus sign. */
  lemma PaddedNumberRoundTrip(n: int)
    ensures ParseInt(PadStart(IntToString(n), 2, '0')) == n
    ensures var p := PadStart(IntToString(n), 2, '0');
      && (n >= 0 ==> forall k :: 0 <= k < |p| ==> IsDigit(p[k]))
      && (n < 0 ==> p[0] == '-' && forall k :: 1 <= k < |p| ==> IsDigit(p[k]))
  {
    PaddedNumberDigits(n);
    PaddedNumberValue(n);
  }

  lemma PaddedNumberValue(n: int)
    ensures ParseInt(PadStart(IntToString(n), 2, '0')) == n
  {
    if n < 0 {
      var s := "-" + NatToString(-n);
      assert PadStart(IntToString(n), 2, '0') == s;
      assert s[1..] == NatToString(-n);
      DigitsOfNatToString(-n);
    } else {
      var d := NatToString(n);
      var z := if 2 <= |d| then 0 else 2 - |d|;
      assert PadStart(d, 2, '0') == Repeat('0', z) + d;
      NatToStringDigits(n);
      assert IsDigit(d[0]);
      DigitsLeadingZeros(z, d);
      DigitsOfNatToString(n);
    }
  }

  lemma PaddedNumberDigits(n: int)
    ensures var p := PadStart(IntToString(n), 2, '0');
      && (n >= 0 ==> forall k :: 0 <= k < |p| ==> IsDigit(p[k]))
      && (n < 0 ==> p[0] == '-' && forall k :: 1 <= k < |p| ==> IsDigit(p[k]))
  {
    if n < 0 {
      var d := NatToString(-n);
      var s := "-" + d;
      assert PadStart(IntToString(n), 2, '0') == s;
      NatToStringDigits(-n);
      assert forall k :: 1 <= k < |s| ==> s[k] == d[k - 1];
    } else {
      var d := NatToString(n);
      var z := if 2 <= |d| then 0 else 2 - |d|;
      var p := Repeat('0', z) + d;
      assert PadStart(d, 2, '0') == p;
      NatToStringDigits(n);
      forall k | 0 <= k < |p|
        ensures IsDigit(p[k])
      {
        if k >= z {
          assert p[k] == d[k - z];
        }
      }
    }
  }

  /** Numbers 0..99 take exactly two characters once padded; 0..9 get a leading '0'. */
  lemma PaddedNumberWidth(n: int)
    requires 0 <= n < 100
    ensures |PadStart(IntToString(n), 2, '0')| == 2
    ensures n < 10 ==> PadStart(IntToString(n), 2, '0') == ['0', DigitChar(n)]
  {
    if n >= 10 {
      assert NatToString(n / 10) == [DigitChar(n / 10)];
    }
  }

  // ---------------------------------------------------------------------------
  // String.fromCharCode
  // ---------------------------------------------------------------------------

  /** `String.fromCharCode(code)` for an integral code: the code is reduced to a
      16-bit code unit. A lone surrogate code unit is not a Dafny `char`; it is
      represented by U+FFFD. */
  function FromCharCode(code: int): (c: char)
    ensures 0 <= code < 0xD800 ==> c as int == code
  {
    var unit := code % 0x1_0000;
    if 0xD800 <= unit < 0xE000 then '\U{FFFD}' else unit as char
  }
}

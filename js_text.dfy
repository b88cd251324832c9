/** The few string and number primitives of the JavaScript runtime that the
    core relies on, written out: `String.prototype.trim`, `parseInt(s, 10)`,
    `Number.prototype.toString`, `Array.prototype.join` and
    `encodeURIComponent`. Characters are Unicode scalar values. */
module JsText {
  import opened Types

  /** ECMAScript WhiteSpace and LineTerminator code points: the characters
      `trim` removes and `parseInt` skips. */
  predicate IsWhiteSpace(c: char)
  {
    || c == '\U{9}' || c == '\U{B}' || c == '\U{C}' || c == ' '
    || c == '\U{A0}' || c == '\U{FEFF}' || c == '\U{1680}'
    || ('\U{2000}' <= c <= '\U{200A}') || c == '\U{202F}' || c == '\U{205F}' || c == '\U{3000}'
    || c == '\n' || c == '\r' || c == '\U{2028}' || c == '\U{2029}'
  }

  /** Every character of `s` is white space (so `s.trim()` is empty). */
  predicate IsBlank(s: string)
  {
    forall i :: 0 <= i < |s| ==> IsWhiteSpace(s[i])
  }

  /** `s.trimStart()`: drops the leading white space. */
  function TrimStart(s: string): (r: string)
    ensures |r| <= |s| && r == s[|s| - |r|..]
  {
    if |s| > 0 && IsWhiteSpace(s[0]) then TrimStart(s[1..]) else s
  }

  /** What `TrimStart` drops is white space, and what it keeps does not start
      with white space. */
  lemma {:induction false} TrimStartDropsBlank(s: string)
    ensures var k := |s| - |TrimStart(s)|;
            (k == |s| || !IsWhiteSpace(s[k])) && forall i :: 0 <= i < k ==> IsWhiteSpace(s[i])
  {
    if |s| > 0 && IsWhiteSpace(s[0]) {
      var t := s[1..];
      TrimStartDropsBlank(t);
      var k := |t| - |TrimStart(t)|;
      assert TrimStart(s) == TrimStart(t);
      assert k == |t| || s[k + 1] == t[k];
      forall i | 0 <= i < k + 1
        ensures IsWhiteSpace(s[i])
      {
        if i > 0 {
          assert s[i] == t[i - 1];
        }
      }
    }
  }

  /** `s.trimEnd()`: drops the trailing white space. */
  function TrimEnd(s: string): (r: string)
    ensures |r| <= |s| && r == s[..|r|]
  {
    if |s| > 0 && IsWhiteSpace(s[|s| - 1]) then TrimEnd(s[..|s| - 1]) else s
  }

  /** What `TrimEnd` drops is white space, and what it keeps does not end
      with white space. */
  lemma {:induction false} TrimEndDropsBlank(s: string)
    ensures var k := |TrimEnd(s)|;
            (k == 0 || !IsWhiteSpace(s[k - 1])) && forall i :: k <= i < |s| ==> IsWhiteSpace(s[i])
  {
    if |s| > 0 && IsWhiteSpace(s[|s| - 1]) {
      var t := s[..|s| - 1];
      TrimEndDropsBlank(t);
      var k := |TrimEnd(t)|;
      assert TrimEnd(s) == TrimEnd(t);
      assert k == 0 || s[k - 1] == t[k - 1];
      forall i | k <= i < |s|
        ensures IsWhiteSpace(s[i])
      {
        if i < |s| - 1 {
          assert s[i] == t[i];
        }
      }
    }
  }

  /** `s.trim()`. */
  function Trim(s: string): string
  {
    TrimEnd(TrimStart(s))
  }

  /** `s.trim() === ''` exactly when every character of `s` is white space. */
  lemma TrimEmptyIffBlank(s: string)
    ensures Trim(s) == [] <==> IsBlank(s)
  {
    var t := TrimStart(s);
    TrimStartDropsBlank(s);
    if Trim(s) == [] {
      TrimEndDropsBlank(t);
      assert t == [];
    } else if IsBlank(s) {
      TrimStartOfBlank(s);
    }
  }

  lemma {:induction false} TrimStartOfBlank(s: string)
    requires IsBlank(s)
    ensures TrimStart(s) == []
  {
    if s != [] {
      TrimStartOfBlank(s[1..]);
    }
  }

  // ---------------------------------------------------------------- numbers

  /** A JavaScript number as the client's counter can hold it: an integer,
      or NaN when the stored text does not start with a number. */
  datatype Count = NaN | Num(n: int)

  predicate IsDigit(c: char) { '0' <= c <= '9' }

  function DigitValue(c: char): nat
    requires IsDigit(c)
  {
    (c as int) - ('0' as int)
  }

  function DigitChar(d: nat): (c: char)
    requires d < 10
    ensures IsDigit(c) && DigitValue(c) == d
  {
    (('0' as int) + d) as char
  }

  /** The longest prefix of `s` made of decimal digits. */
  function LeadingDigits(s: string): (r: string)
    ensures |r| <= |s| && r == s[..|r|]
    ensures forall i :: 0 <= i < |r| ==> IsDigit(r[i])
    ensures |r| == |s| || !IsDigit(s[|r|])
  {
    if |s| > 0 && IsDigit(s[0]) then [s[0]] + LeadingDigits(s[1..]) else []
  }

  /** The value of a string of decimal digits, most significant first. */
  function DigitsValue(d: string): nat
    requires forall i :: 0 <= i < |d| ==> IsDigit(d[i])
  {
    if d == [] then 0 else 10 * DigitsValue(d[..|d| - 1]) + DigitValue(d[|d| - 1])
  }

  /** `parseInt(s, 10)`: skip leading white space, read an optional sign,
      then as many decimal digits as there are; no digit at all gives NaN. */
  function ParseInt(s: string): Count
  {
    ParseSigned(TrimStart(s))
  }

  function ParseSigned(t: string): Count
  {
    if |t| > 0 && t[0] == '-' then Negate(ParseUnsigned(t[1..]))
    else if |t| > 0 && t[0] == '+' then ParseUnsigned(t[1..])
    else ParseUnsigned(t)
  }

  function ParseUnsigned(u: string): Count
  {
    var z := LeadingDigits(u);
    if z == [] then NaN else Num(DigitsValue(z))
  }

  function Negate(c: Count): Count
  {
    match c
    case NaN => NaN
    case Num(n) => Num(0 - n)
  }

  /** The decimal digits of a natural number, without leading zeros. */
  function NatDigits(n: nat): (r: string)
    ensures |r| > 0
    ensures forall i :: 0 <= i < |r| ==> IsDigit(r[i])
    decreases n
  {
    if n < 10 then [DigitChar(n)] else NatDigits(n / 10) + [DigitChar(n % 10)]
  }

  /** `n.toString()` for an integral JavaScript number, and "NaN". */
  function CountToString(c: Count): string
  {
    match c
    case NaN => "NaN"
    case Num(n) => if n < 0 then "-" + NatDigits(-n) else NatDigits(n)
  }

  lemma {:induction false} NatDigitsValue(n: nat)
    ensures DigitsValue(NatDigits(n)) == n
    decreases n
  {
    if n >= 10 {
      var r := NatDigits(n);
      assert r[..|r| - 1] == NatDigits(n / 10);
      NatDigitsValue(n / 10);
    }
  }

  lemma LeadingDigitsOfDigits(d: string)
    requires forall i :: 0 <= i < |d| ==> IsDigit(d[i])
    ensures LeadingDigits(d) == d
  {
    var r := LeadingDigits(d);
    assert |r| == |d|;
  }

  /** `parseInt` skips nothing in front of a character that is not white space. */
  lemma TrimStartKeeps(s: string)
    requires |s| > 0 && !IsWhiteSpace(s[0])
    ensures TrimStart(s) == s
  {
  }

  /** A non-empty run of digits reads back as its value. */
  lemma ParseIntOfDigits(d: string)
    requires d != [] && forall i :: 0 <= i < |d| ==> IsDigit(d[i])
    ensures ParseInt(d) == Num(DigitsValue(d))
  {
    assert IsDigit(d[0]);
    TrimStartKeeps(d);
    LeadingDigitsOfDigits(d);
    assert ParseSigned(d) == ParseUnsigned(d);
  }

  lemma TrimStartOfMinus(d: string)
    ensures TrimStart("-" + d) == "-" + d
  {
    var m := "-" + d;
    assert m[0] == '-';
    TrimStartKeeps(m);
  }

  lemma ParseSignedOfMinus(d: string)
    ensures ParseSigned("-" + d) == Negate(ParseUnsigned(d))
  {
    var m := "-" + d;
    assert m[0] == '-' && m[1..] == d;
  }

  /** `parseInt` reads a leading minus sign as a negation of what follows. */
  lemma ParseIntOfMinus(d: string)
    ensures ParseInt("-" + d) == Negate(ParseUnsigned(d))
  {
    TrimStartOfMinus(d);
    ParseSignedOfMinus(d);
  }

  lemma ParseUnsignedOfDigits(d: string)
    requires d != [] && forall i :: 0 <= i < |d| ==> IsDigit(d[i])
    ensures ParseUnsigned(d) == Num(DigitsValue(d))
  {
    LeadingDigitsOfDigits(d);
  }

  lemma ParseIntOfNaNText()
    ensures ParseInt("NaN") == NaN
  {
    var s := "NaN";
    assert !IsWhiteSpace(s[0]) && !IsDigit(s[0]);
    assert TrimStart(s) == s;
    assert LeadingDigits(s) == [];
  }

  /** Writing a counter with `toString` and reading it back with `parseInt`
      gives the same counter, NaN included. */
  lemma ParseIntOfCountToString(c: Count)
    ensures ParseInt(CountToString(c)) == c
  {
    var s := CountToString(c);
    if c.NaN? {
      assert s == "NaN";
      ParseIntOfNaNText();
    } else {
      var m: nat := if c.n < 0 then -c.n else c.n;
      var d := NatDigits(m);
      assert s == if c.n < 0 then "-" + d else d;
      NatDigitsValue(m);
      if c.n < 0 {
        ParseIntOfMinus(d);
        ParseUnsignedOfDigits(d);
      } else {
        ParseIntOfDigits(d);
      }
    }
  }

  // ---------------------------------------------------------------- arrays

  /** `xs.join(sep)`. */
  function Join(xs: seq<string>, sep: string): (r: string)
    ensures xs == [] ==> r == []
    ensures |xs| == 1 ==> r == xs[0]
  {
    if xs == [] then []
    else if |xs| == 1 then xs[0]
    else xs[0] + sep + Join(xs[1..], sep)
  }

  // ---------------------------------------------------------------- URIs

  /** The characters `encodeURIComponent` leaves as they are. */
  predicate IsUnreserved(c: char)
  {
    ('A' <= c <= 'Z') || ('a' <= c <= 'z') || ('0' <= c <= '9')
    || c == '-' || c == '_' || c == '.' || c == '!' || c == '~'
    || c == '*' || c == '\'' || c == '(' || c == ')'
  }

  /** A character that may appear in the output of `encodeURIComponent`. */
  predicate IsUriSafe(c: char)
  {
    IsUnreserved(c) || c == '%'
  }

  /** The UTF-8 encoding of one code point. */
  function Utf8(cp: nat): (bytes: seq<nat>)
    requires cp <= 0x10FFFF
    ensures 1 <= |bytes| <= 4
    ensures forall i :: 0 <= i < |bytes| ==> bytes[i] < 256
  {
    if cp < 0x80 then [cp]
    else if cp < 0x800 then [0xC0 + cp / 0x40, 0x80 + cp % 0x40]
    else if cp < 0x10000 then [0xE0 + cp / 0x1000, 0x80 + (cp / 0x40) % 0x40, 0x80 + cp % 0x40]
    else [0xF0 + cp / 0x40000, 0x80 + (cp / 0x1000) % 0x40, 0x80 + (cp / 0x40) % 0x40, 0x80 + cp % 0x40]
  }

  function HexDigit(d: nat): (c: char)
    requires d < 16
    ensures IsUnreserved(c)
  {
    if d < 10 then (('0' as int) + d) as char else (('A' as int) + d - 10) as char
  }

  /** `%XY` for each byte, upper-case hexadecimal. */
  function PercentEncode(bytes: seq<nat>): (r: string)
    requires forall i :: 0 <= i < |bytes| ==> bytes[i] < 256
    ensures |r| == 3 * |bytes|
    ensures forall i :: 0 <= i < |r| ==> IsUriSafe(r[i])
  {
    if bytes == [] then []
    else ['%', HexDigit(bytes[0] / 16), HexDigit(bytes[0] % 16)] + PercentEncode(bytes[1..])
  }

  function EncodeChar(c: char): (r: string)
    ensures |r| > 0
  {
    if IsUnreserved(c) then [c] else PercentEncode(Utf8(c as int))
  }

  /** `encodeURIComponent(s)`. */
  function EncodeUriComponent(s: string): string
  {
    if s == [] then [] else EncodeChar(s[0]) + EncodeUriComponent(s[1..])
  }

  /** Every character of `s` may appear in the output of `encodeURIComponent`. */
  predicate AllUriSafe(s: string)
  {
    forall i :: 0 <= i < |s| ==> IsUriSafe(s[i])
  }

  lemma EncodeCharIsSafe(c: char)
    ensures AllUriSafe(EncodeChar(c))
  {
    if !IsUnreserved(c) {
      var bytes := Utf8(c as int);
      assert EncodeChar(c) == PercentEncode(bytes);
    }
  }

  lemma SafeConcat(h: string, t: string)
    requires AllUriSafe(h) && AllUriSafe(t)
    ensures AllUriSafe(h + t)
  {
    forall i | 0 <= i < |h + t| ensures IsUriSafe((h + t)[i]) {
      if i < |h| { assert (h + t)[i] == h[i]; } else { assert (h + t)[i] == t[i - |h|]; }
    }
  }

  /** The encoding holds only unreserved characters and `%`, so it contains no
      `/`, `?` or `#` and stays inside one path segment of a URL; it is empty
      only for the empty string. */
  lemma {:induction false} EncodeUriComponentIsSafe(s: string)
    ensures AllUriSafe(EncodeUriComponent(s))
    ensures |EncodeUriComponent(s)| >= |s|
  {
    if s != [] {
      EncodeUriComponentIsSafe(s[1..]);
      EncodeCharIsSafe(s[0]);
      SafeConcat(EncodeChar(s[0]), EncodeUriComponent(s[1..]));
    }
  }
}

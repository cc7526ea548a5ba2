/** The JavaScript string semantics the application relies on, stated over `seq<char>`:
    truthiness and `||` on nullable strings, `trim`, `parseInt`, number-to-string,
    `slice`, `toUpperCase` on ASCII, `includes`, `join`, the two URL encoders and the
    query decoder. */
module Text {
  import opened Wrappers

  // ---------------------------------------------------------------- truthiness

  /** `!!s` for a nullable string: present and non-empty. */
  predicate Truthy(s: Option<string>) { s.Some? && s.value != "" }

  /** `a || b` with a string fallback. */
  function OrElse(a: Option<string>, b: string): string { if Truthy(a) then a.value else b }

  /** `a || b` where both sides may be null. */
  function OrNull(a: Option<string>, b: Option<string>): Option<string> { if Truthy(a) then a else b }

  /** A nullable JavaScript number used as a condition: present and non-zero. */
  predicate TruthyNumber(n: Option<int>) { n.Some? && n.value != 0 }

  /** The keys every object literal inherits from `Object.prototype`: `record[key]` on one
      of them gives a built-in (a function, or the prototype for `__proto__`), which is
      truthy, rather than `undefined`. */
  predicate InheritedKey(s: string)
  {
    s in {"constructor", "hasOwnProperty", "isPrototypeOf", "propertyIsEnumerable", "toLocaleString",
          "toString", "valueOf", "__proto__", "__defineGetter__", "__defineSetter__",
          "__lookupGetter__", "__lookupSetter__"}
  }

  // ---------------------------------------------------------------- whitespace and trim

  /** The characters `String.prototype.trim` and `parseInt` skip:
      WhiteSpace and LineTerminator of ECMAScript. */
  predicate IsJsWhitespace(c: char) {
    var n := c as int;
    if n < 0xA0 then n == 0x20 || 0x9 <= n <= 0xD
    else n == 0xA0 || n == 0x1680 || 0x2000 <= n <= 0x200A || n == 0x2028 || n == 0x2029
         || n == 0x202F || n == 0x205F || n == 0x3000 || n == 0xFEFF
  }

  predicate IsBlank(s: string) { forall i :: 0 <= i < |s| ==> IsJsWhitespace(s[i]) }

  function TrimStart(s: string): (r: string)
    ensures |r| <= |s| && r == s[|s| - |r|..]
    ensures r == [] || !IsJsWhitespace(r[0])
  {
    if s != [] && IsJsWhitespace(s[0]) then TrimStart(s[1..]) else s
  }

  /** What `TrimStart` cuts off is whitespace. */
  lemma {:induction false} TrimStartCutsBlank(s: string)
    ensures IsBlank(s[..|s| - |TrimStart(s)|])
  {
    if s != [] && IsJsWhitespace(s[0]) {
      var r := TrimStart(s[1..]);
      TrimStartCutsBlank(s[1..]);
      assert s[1..][..|s| - 1 - |r|] == s[1..|s| - |r|];
    }
  }

  function TrimEnd(s: string): (r: string)
    ensures |r| <= |s| && r == s[..|r|]
    ensures r == [] || !IsJsWhitespace(r[|r| - 1])
  {
    if s != [] && IsJsWhitespace(s[|s| - 1]) then TrimEnd(s[..|s| - 1]) else s
  }

  /** What `TrimEnd` cuts off is whitespace. */
  lemma {:induction false} TrimEndCutsBlank(s: string)
    ensures IsBlank(s[|TrimEnd(s)|..])
  {
    if s != [] && IsJsWhitespace(s[|s| - 1]) {
      var r := TrimEnd(s[..|s| - 1]);
      TrimEndCutsBlank(s[..|s| - 1]);
      assert s[..|s| - 1][|r|..] + [s[|s| - 1]] == s[|r|..];
    }
  }

  /** `s.trim()`: the longest infix of `s` that neither starts nor ends with whitespace,
      everything cut off being whitespace. */
  function Trim(s: string): (r: string)
    ensures |r| <= |s|
    ensures r == [] || (!IsJsWhitespace(r[0]) && !IsJsWhitespace(r[|r| - 1]))
  {
    TrimEnd(TrimStart(s))
  }

  /** A string trims to the empty string exactly when all of it is whitespace. */
  lemma {:induction false} TrimEmptyIffBlank(s: string)
    ensures Trim(s) == [] <==> IsBlank(s)
  {
    var t := TrimStart(s);
    TrimStartCutsBlank(s);
    TrimEndCutsBlank(t);
    if Trim(s) == [] {
      assert IsBlank(t) by {
        assert t[0..] == t;
      }
      assert t == [];
      assert s[..|s|] == s;
    }
  }

  /** Trimming twice is trimming once. */
  lemma TrimIdempotent(s: string)
    ensures Trim(Trim(s)) == Trim(s)
  {
    var r := Trim(s);
    assert TrimStart(r) == r;
    assert TrimEnd(r) == r;
  }

  // ---------------------------------------------------------------- digits and numbers

  predicate IsDigit(c: char) { '0' <= c <= '9' }

  predicate AllDigits(s: string) { forall i :: 0 <= i < |s| ==> IsDigit(s[i]) }

  function DigitValue(c: char): (d: nat)
    requires IsDigit(c)
    ensures d < 10
  {
    (c as int) - ('0' as int)
  }

  function DigitChar(d: nat): (c: char)
    requires d < 10
    ensures IsDigit(c) && DigitValue(c) == d
  {
    ('0' as int + d) as char
  }

  /** `s.replace(/[^0-9]/g, '')`: only the decimal digits remain. */
  function StripNonDigits(s: string): (r: string)
    ensures AllDigits(r)
    ensures |r| <= |s|
  {
    if s == [] then []
    else if IsDigit(s[0]) then [s[0]] + StripNonDigits(s[1..])
    else StripNonDigits(s[1..])
  }

  /** Stripping removes exactly the non-digits: every digit keeps its number of
      occurrences, and a string of digits is left as it is. */
  lemma {:induction false} StripNonDigitsKeepsDigits(s: string, c: char)
    requires IsDigit(c)
    ensures multiset(StripNonDigits(s))[c] == multiset(s)[c]
  {
    if s != [] {
      StripNonDigitsKeepsDigits(s[1..], c);
      assert s == [s[0]] + s[1..];
    }
  }

  lemma {:induction false} StripNonDigitsOfDigits(s: string)
    requires AllDigits(s)
    ensures StripNonDigits(s) == s
  {
    if s != [] {
      StripNonDigitsOfDigits(s[1..]);
    }
  }

  /** The value of a string of decimal digits (the empty string has value 0). */
  function DigitsValue(s: string): nat
    requires AllDigits(s)
  {
    if s == [] then 0 else DigitsValue(s[..|s| - 1]) * 10 + DigitValue(s[|s| - 1])
  }

  /** The longest prefix of `s` made of decimal digits. */
  function LeadingDigits(s: string): (r: string)
    ensures AllDigits(r) && r <= s
    ensures r == s || !IsDigit(s[|r|])
  {
    if s != [] && IsDigit(s[0]) then [s[0]] + LeadingDigits(s[1..]) else []
  }

  /** `parseInt(s, 10)`, with `None` for NaN: leading whitespace is skipped, an optional
      sign is read, then the longest run of digits; no digit at all gives NaN. */
  function ParseInt(s: string): Option<int>
  {
    var t := TrimStart(s);
    if t != [] && (t[0] == '-' || t[0] == '+') then
      var d := LeadingDigits(t[1..]);
      if d == [] then None else Some(if t[0] == '-' then 0 - DigitsValue(d) else DigitsValue(d))
    else
      var d := LeadingDigits(t);
      if d == [] then None else Some(DigitsValue(d))
  }

  /** `parseInt(s, 10) || 0`: NaN becomes 0. */
  function ParseIntOrZero(s: string): int
  {
    match ParseInt(s)
    case None => 0
    case Some(v) => v
  }

  /** `n.toString()` for a non-negative integer. */
  function NatToString(n: nat): (s: string)
    ensures AllDigits(s) && |s| >= 1
    ensures |s| > 1 ==> s[0] != '0'
  {
    if n < 10 then [DigitChar(n)] else NatToString(n / 10) + [DigitChar(n % 10)]
  }

  /** `i.toString()` for an integer. */
  function IntToString(i: int): string
  {
    if i < 0 then "-" + NatToString(0 - i) else NatToString(i)
  }

  lemma {:induction false} DigitsValueOfNatToString(n: nat)
    ensures DigitsValue(NatToString(n)) == n
  {
    if n >= 10 {
      var s := NatToString(n);
      assert s[..|s| - 1] == NatToString(n / 10);
      DigitsValueOfNatToString(n / 10);
    }
  }

  lemma {:induction false} LeadingDigitsOfDigits(s: string)
    requires AllDigits(s)
    ensures LeadingDigits(s) == s
  {
    if s != [] {
      LeadingDigitsOfDigits(s[1..]);
    }
  }

  /** On a string of digits `parseInt(s, 10) || 0` is the digits' value. */
  lemma ParseIntOrZeroOfDigits(s: string)
    requires AllDigits(s)
    ensures ParseIntOrZero(s) == DigitsValue(s)
  {
    LeadingDigitsOfDigits(s);
    if s != [] {
      DigitIsNotWhitespace(s[0]);
    }
    TrimStartKeeps(s);
  }

  lemma DigitIsNotWhitespace(c: char)
    requires IsDigit(c)
    ensures !IsJsWhitespace(c)
  {
  }

  lemma TrimStartKeeps(s: string)
    requires s == [] || !IsJsWhitespace(s[0])
    ensures TrimStart(s) == s
  {
  }

  /** Round trip: `parseInt(i.toString(), 10) == i`. */
  lemma ParseIntOfIntToString(i: int)
    ensures ParseInt(IntToString(i)) == Some(i)
  {
    ParseIntOfIntToStringThen(i, []);
    assert IntToString(i) + [] == IntToString(i);
  }

  lemma {:induction false} LeadingDigitsThen(d: string, rest: string)
    requires AllDigits(d) && (rest == [] || !IsDigit(rest[0]))
    ensures LeadingDigits(d + rest) == d
  {
    if d != [] {
      assert (d + rest)[1..] == d[1..] + rest;
      LeadingDigitsThen(d[1..], rest);
    } else {
      assert d + rest == rest;
    }
  }

  /** `parseInt` reads an integer's text back even when a non-digit follows it. */
  lemma ParseIntOfIntToStringThen(i: int, rest: string)
    requires rest == [] || !IsDigit(rest[0])
    ensures ParseInt(IntToString(i) + rest) == Some(i)
  {
    var s := IntToString(i) + rest;
    if i < 0 {
      var n: nat := 0 - i;
      var d := NatToString(n);
      NegativeTextShape(i, n, d, rest, s);
      DigitsValueOfNatToString(n);
      LeadingDigitsThen(d, rest);
      ParseIntOfMinus(s, d);
    } else {
      ParseIntOfNatThen(i, rest);
    }
  }

  /** The text of a negative integer followed by `rest` is a minus sign, the digits of
      its magnitude, then `rest`. */
  lemma NegativeTextShape(i: int, n: nat, d: string, rest: string, s: string)
    requires i < 0 && n == 0 - i && d == NatToString(n) && s == IntToString(i) + rest
    ensures s != [] && s[0] == '-' && s[1..] == d + rest
  {
    assert IntToString(i) == ['-'] + d;
    assert s == ['-'] + (d + rest);
  }

  lemma ParseIntOfNatThen(n: nat, rest: string)
    requires rest == [] || !IsDigit(rest[0])
    ensures ParseInt(NatToString(n) + rest) == Some(n)
  {
    var d := NatToString(n);
    DigitsValueOfNatToString(n);
    ParseIntOfDigitsThen(d, rest);
  }

  lemma ParseIntOfDigitsThen(d: string, rest: string)
    requires AllDigits(d) && d != [] && (rest == [] || !IsDigit(rest[0]))
    ensures ParseInt(d + rest) == Some(DigitsValue(d))
  {
    var s := d + rest;
    assert s[0] == d[0];
    DigitIsNotWhitespace(s[0]);
    TrimStartKeeps(s);
    LeadingDigitsThen(d, rest);
    ParseIntOfDigits(s, d);
  }

  /** A text starting with a digit is read as the value of its leading digits. */
  lemma ParseIntOfDigits(t: string, d: string)
    requires t != [] && IsDigit(t[0]) && d != [] && LeadingDigits(t) == d
    ensures ParseInt(t) == Some(DigitsValue(d))
  {
    DigitIsNotWhitespace(t[0]);
    TrimStartKeeps(t);
  }

  /** A text starting with `-` is read as the negated value of the digits after it. */
  lemma ParseIntOfMinus(t: string, d: string)
    requires t != [] && t[0] == '-' && d != [] && LeadingDigits(t[1..]) == d
    ensures ParseInt(t) == Some(0 - DigitsValue(d))
  {
    TrimStartKeeps(t);
  }

  // ---------------------------------------------------------------- other string operations

  /** `s.slice(0, n)`. */
  function Prefix(s: string, n: nat): (r: string)
    ensures r <= s && |r| == if n < |s| then n else |s|
  {
    if n < |s| then s[..n] else s
  }

  function UpperChar(c: char): (u: char)
    ensures 'a' <= c <= 'z' ==> u as int == c as int - 32
    ensures !('a' <= c <= 'z') ==> u == c
  {
    if 'a' <= c <= 'z' then (c as int - 32) as char else c
  }

  /** `s.toUpperCase()` on ASCII letters; other characters are kept. */
  function ToUpperAscii(s: string): (r: string)
    ensures |r| == |s| && forall i :: 0 <= i < |s| ==> r[i] == UpperChar(s[i])
  {
    if s == [] then [] else [UpperChar(s[0])] + ToUpperAscii(s[1..])
  }

  /** `s.includes(sub)`. */
  predicate Contains(s: string, sub: string)
  {
    sub <= s || (s != [] && Contains(s[1..], sub))
  }

  /** A string never contains one longer than itself. */
  lemma {:induction false} ShorterNotContains(s: string, sub: string)
    requires |s| < |sub|
    ensures !Contains(s, sub)
  {
    if s != [] {
      ShorterNotContains(s[1..], sub);
    }
  }

  /** `parts.join(sep)`. */
  function Join(parts: seq<string>, sep: string): string
  {
    if |parts| == 0 then ""
    else if |parts| == 1 then parts[0]
    else parts[0] + sep + Join(parts[1..], sep)
  }

  predicate IsAsciiAlnum(c: char) {
    ('a' <= c <= 'z') || ('A' <= c <= 'Z') || ('0' <= c <= '9')
  }

  // ---------------------------------------------------------------- URL encoding

  /** The UTF-8 bytes of a Unicode scalar value. */
  function Utf8(c: char): (bytes: seq<nat>)
    ensures 1 <= |bytes| <= 4
    ensures forall i :: 0 <= i < |bytes| ==> bytes[i] < 256
  {
    var v := c as int;
    if v < 0x80 then [v]
    else if v < 0x800 then [0xC0 + v / 64, 0x80 + v % 64]
    else if v < 0x10000 then [0xE0 + v / 4096, 0x80 + (v / 64) % 64, 0x80 + v % 64]
    else [0xF0 + v / 262144, 0x80 + (v / 4096) % 64, 0x80 + (v / 64) % 64, 0x80 + v % 64]
  }

  predicate IsUpperHex(c: char) { ('0' <= c <= '9') || ('A' <= c <= 'F') }

  function HexChar(d: nat): (c: char)
    requires d < 16
    ensures IsUpperHex(c)
  {
    if d < 10 then DigitChar(d) else ('A' as int + (d - 10)) as char
  }

  /** `%XY` for each byte. */
  function PercentBytes(bytes: seq<nat>): (r: string)
    requires forall i :: 0 <= i < |bytes| ==> bytes[i] < 256
    ensures |r| == 3 * |bytes|
    ensures forall i :: 0 <= i < |r| ==> r[i] == '%' || IsUpperHex(r[i])
  {
    if bytes == [] then []
    else ['%', HexChar(bytes[0] / 16), HexChar(bytes[0] % 16)] + PercentBytes(bytes[1..])
  }

  /** The characters `encodeURIComponent` leaves as they are. */
  predicate UriUnreserved(c: char) {
    IsAsciiAlnum(c) || c == '-' || c == '_' || c == '.' || c == '!' || c == '~'
    || c == '*' || c == '\'' || c == '(' || c == ')'
  }

  /** `encodeURIComponent(s)`: unreserved characters stay, every other character
      becomes the `%XY` escapes of its UTF-8 bytes. */
  function EncodeUriComponent(s: string): (r: string)
    ensures forall i :: 0 <= i < |r| ==> UriUnreserved(r[i]) || r[i] == '%' || IsUpperHex(r[i])
    ensures |r| >= |s|
  {
    if s == [] then []
    else (if UriUnreserved(s[0]) then [s[0]] else PercentBytes(Utf8(s[0]))) + EncodeUriComponent(s[1..])
  }

  /** A string made of unreserved characters is its own encoding. */
  lemma {:induction false} EncodeUriComponentOfUnreserved(s: string)
    requires forall i :: 0 <= i < |s| ==> UriUnreserved(s[i])
    ensures EncodeUriComponent(s) == s
  {
    if s != [] {
      EncodeUriComponentOfUnreserved(s[1..]);
    }
  }

  /** The characters `URLSearchParams` serialisation leaves as they are. */
  predicate FormUnreserved(c: char) {
    IsAsciiAlnum(c) || c == '*' || c == '-' || c == '.' || c == '_'
  }

  /** The `application/x-www-form-urlencoded` byte serialiser behind
      `URLSearchParams.toString()`: a space becomes `+`, unreserved characters stay,
      everything else is percent-encoded. */
  function FormEncode(s: string): (r: string)
    ensures forall i :: 0 <= i < |r| ==> FormUnreserved(r[i]) || r[i] == '+' || r[i] == '%' || IsUpperHex(r[i])
  {
    if s == [] then []
    else (if FormUnreserved(s[0]) then [s[0]] else if s[0] == ' ' then "+" else PercentBytes(Utf8(s[0])))
         + FormEncode(s[1..])
  }

  // ---------------------------------------------------------------- decoding

  predicate IsAscii(s: string) { forall i :: 0 <= i < |s| ==> s[i] as int < 128 }

  predicate IsHexDigit(c: char) { IsUpperHex(c) || ('a' <= c <= 'f') }

  function HexValue(c: char): (d: nat)
    requires IsHexDigit(c)
    ensures d < 16
  {
    if '0' <= c <= '9' then c as int - '0' as int
    else if 'A' <= c <= 'F' then c as int - 'A' as int + 10
    else c as int - 'a' as int + 10
  }

  lemma HexValueOfHexChar(d: nat)
    requires d < 16
    ensures IsHexDigit(HexChar(d)) && HexValue(HexChar(d)) == d
  {
  }

  /** The value decoding of `application/x-www-form-urlencoded` text that
      `URLSearchParams.get` applies, for escapes of ASCII bytes: `+` is a space and
      `%XY` the byte `XY`. Escapes of larger bytes, which would be gathered and read as
      UTF-8, are kept as they are. */
  function FormDecode(s: string): (r: string)
    ensures |r| <= |s|
  {
    if s == [] then []
    else if |s| >= 3 && s[0] == '%' && IsHexDigit(s[1]) && IsHexDigit(s[2])
         && 16 * HexValue(s[1]) + HexValue(s[2]) < 128 then
      [(16 * HexValue(s[1]) + HexValue(s[2])) as char] + FormDecode(s[3..])
    else if s[0] == '+' then [' '] + FormDecode(s[1..])
    else [s[0]] + FormDecode(s[1..])
  }

  /** Text without `%` and `+` decodes to itself. */
  lemma {:induction false} FormDecodePlain(s: string)
    requires forall i :: 0 <= i < |s| ==> s[i] != '%' && s[i] != '+'
    ensures FormDecode(s) == s
  {
    if s != [] {
      FormDecodePlain(s[1..]);
    }
  }

  /** The escape of one ASCII character decodes back to it. */
  lemma DecodeEscape(c: char, rest: string)
    requires c as int < 128
    ensures FormDecode(PercentBytes(Utf8(c)) + rest) == [c] + FormDecode(rest)
  {
    var v := c as int;
    assert Utf8(c) == [v];
    HexValueOfHexChar(v / 16);
    HexValueOfHexChar(v % 16);
    var e := PercentBytes([v]);
    assert e == ['%', HexChar(v / 16), HexChar(v % 16)];
    var t := e + rest;
    assert t[0] == '%' && t[1] == HexChar(v / 16) && t[2] == HexChar(v % 16);
    assert t[3..] == rest;
    assert 16 * HexValue(t[1]) + HexValue(t[2]) == v;
  }

  /** A character left as it is, other than `%` and `+`, decodes to itself. */
  lemma DecodeKept(c: char, rest: string)
    requires c != '%' && c != '+'
    ensures FormDecode([c] + rest) == [c] + FormDecode(rest)
  {
    assert ([c] + rest)[1..] == rest;
  }

  /** `URLSearchParams.get` recovers an ASCII string from its `encodeURIComponent` form. */
  lemma {:induction false} FormDecodeOfEncodeUriComponent(s: string)
    requires IsAscii(s)
    ensures FormDecode(EncodeUriComponent(s)) == s
  {
    if s != [] {
      var rest := EncodeUriComponent(s[1..]);
      FormDecodeOfEncodeUriComponent(s[1..]);
      if UriUnreserved(s[0]) {
        assert EncodeUriComponent(s) == [s[0]] + rest;
        DecodeKept(s[0], rest);
      } else {
        assert EncodeUriComponent(s) == PercentBytes(Utf8(s[0])) + rest;
        DecodeEscape(s[0], rest);
      }
      assert s == [s[0]] + s[1..];
    }
  }

  /** The `URLSearchParams` serialisation of an ASCII string decodes back to it. */
  lemma {:induction false} FormDecodeOfFormEncode(s: string)
    requires IsAscii(s)
    ensures FormDecode(FormEncode(s)) == s
  {
    if s != [] {
      var rest := FormEncode(s[1..]);
      FormDecodeOfFormEncode(s[1..]);
      if FormUnreserved(s[0]) {
        assert FormEncode(s) == [s[0]] + rest;
        DecodeKept(s[0], rest);
      } else if s[0] == ' ' {
        assert FormEncode(s) == "+" + rest;
        assert ("+" + rest)[1..] == rest;
      } else {
        assert FormEncode(s) == PercentBytes(Utf8(s[0])) + rest;
        DecodeEscape(s[0], rest);
      }
      assert s == [s[0]] + s[1..];
    }
  }

  /** ASCII lower-casing of one character. */
  function LowerChar(c: char): (l: char)
    ensures 'A' <= c <= 'Z' ==> l as int == c as int + 32
    ensures !('A' <= c <= 'Z') ==> l == c
  {
    if 'A' <= c <= 'Z' then (c as int + 32) as char else c
  }
}

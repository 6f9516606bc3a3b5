/** The string primitives the JavaScript code relies on: `toLowerCase` (ASCII only
    here), `includes`, `trim`, the `\s` class, `String(n)` for integers and
    `parseInt` without a radix. Strings are sequences of characters. */
module Text {
  import opened Wrappers

  // ---------------------------------------------------------------- case

  /** ASCII lower-casing of one character; every other character is kept. */
  function LowerChar(c: char): char
  {
    if 'A' <= c <= 'Z' then (c as int + 32) as char else c
  }

  function ToLower(s: string): (r: string)
    ensures |r| == |s|
    ensures forall i :: 0 <= i < |s| ==> r[i] == LowerChar(s[i])
  {
    seq(|s|, i requires 0 <= i < |s| => LowerChar(s[i]))
  }

  predicate IsAsciiLetter(c: char)
  {
    'a' <= c <= 'z' || 'A' <= c <= 'Z'
  }

  predicate IsDigit(c: char)
  {
    '0' <= c <= '9'
  }

  // ---------------------------------------------------------------- includes

  predicate IsPrefix(p: string, s: string)
  {
    |p| <= |s| && s[..|p|] == p
  }

  /** `s.includes(sub)`: `sub` occurs in `s` at some position. */
  predicate Contains(s: string, sub: string)
    decreases |s|
  {
    IsPrefix(sub, s) || (|s| > 0 && Contains(s[1..], sub))
  }

  /** `sub` occurs in `s` starting at index `i`. */
  predicate OccursAt(s: string, sub: string, i: int)
  {
    0 <= i <= |s| - |sub| && s[i..i + |sub|] == sub
  }

  /** `Contains` agrees with the positional definition of an occurrence. */
  lemma {:induction false} ContainsIffOccurs(s: string, sub: string)
    ensures Contains(s, sub) <==> exists i :: OccursAt(s, sub, i)
    decreases |s|
  {
    if IsPrefix(sub, s) {
      assert OccursAt(s, sub, 0);
    } else if |s| == 0 {
      assert forall i :: !OccursAt(s, sub, i);
    } else {
      ContainsIffOccurs(s[1..], sub);
      if Contains(s[1..], sub) {
        var i :| OccursAt(s[1..], sub, i);
        assert s[i + 1..i + 1 + |sub|] == s[1..][i..i + |sub|];
        assert OccursAt(s, sub, i + 1);
      }
      if exists i :: OccursAt(s, sub, i) {
        var i :| OccursAt(s, sub, i);
        assert i != 0;
        assert s[1..][i - 1..i - 1 + |sub|] == s[i..i + |sub|];
        assert OccursAt(s[1..], sub, i - 1);
      }
    }
  }

  /** The empty string occurs in every string, so an empty search term matches everything. */
  lemma ContainsEmpty(s: string)
    ensures Contains(s, "")
  {
    assert IsPrefix("", s);
  }

  /** Every string contains itself. */
  lemma ContainsSelf(s: string)
    ensures Contains(s, s)
  {
    assert IsPrefix(s, s);
  }

  /** Case-insensitive `includes`: both sides lower-cased first. */
  predicate ContainsIgnoreCase(s: string, sub: string)
  {
    Contains(ToLower(s), ToLower(sub))
  }

  lemma ContainsIgnoreCaseEmpty(s: string)
    ensures ContainsIgnoreCase(s, "")
  {
    ContainsEmpty(ToLower(s));
  }

  // ---------------------------------------------------------------- whitespace

  /** The characters JavaScript's `\s` and `String.prototype.trim` treat as white space
      (white space and line terminators). */
  predicate IsSpace(c: char)
  {
    var n := c as int;
    (9 <= n <= 13) || n == 32 || n == 0xA0 || n == 0x1680 || (0x2000 <= n <= 0x200A)
    || n == 0x2028 || n == 0x2029 || n == 0x202F || n == 0x205F || n == 0x3000 || n == 0xFEFF
  }

  predicate AllSpace(s: string)
  {
    forall i :: 0 <= i < |s| ==> IsSpace(s[i])
  }

  /** The string without its leading white space. */
  function TrimStart(s: string): (r: string)
    ensures |r| <= |s| && r == s[|s| - |r|..]
    ensures AllSpace(s[..|s| - |r|])
    ensures r != [] ==> !IsSpace(r[0])
  {
    if |s| > 0 && IsSpace(s[0]) then
      var r := TrimStart(s[1..]);
      assert s[..|s| - |r|] == [s[0]] + s[1..][..|s| - 1 - |r|];
      r
    else s
  }

  /** The string without its trailing white space. */
  function TrimEnd(s: string): (r: string)
    ensures |r| <= |s| && r == s[..|r|]
    ensures AllSpace(s[|r|..])
    ensures r != [] ==> !IsSpace(r[|r| - 1])
  {
    if |s| > 0 && IsSpace(s[|s| - 1]) then
      var r := TrimEnd(s[..|s| - 1]);
      assert s[|r|..] == s[..|s| - 1][|r|..] + [s[|s| - 1]];
      r
    else s
  }

  /** `s.trim()`. */
  function Trim(s: string): string
  {
    TrimEnd(TrimStart(s))
  }

  lemma TrimStartAllSpace(s: string)
    ensures TrimStart(s) == "" <==> AllSpace(s)
  {
    var t := TrimStart(s);
    var k := |s| - |t|;
    if t == "" {
      assert s[..k] == s;
    } else {
      assert t[0] == s[k];
    }
  }

  /** A string is blank (`!s.trim()` holds) exactly when every character is white space. */
  lemma BlankIffAllSpace(s: string)
    ensures Trim(s) == "" <==> AllSpace(s)
  {
    var t := TrimStart(s);
    TrimStartAllSpace(s);
    if Trim(s) == "" {
      assert t[0..] == t;
      assert AllSpace(t);
    } else {
      assert t != "";
    }
  }

  /** `!s.trim()`: the string is empty once trimmed. */
  function IsBlank(s: string): (r: bool)
    ensures r <==> AllSpace(s)
  {
    BlankIffAllSpace(s);
    Trim(s) == ""
  }

  /** Trimming keeps a string whose ends are not white space. */
  lemma TrimNoSpaceEnds(s: string)
    requires s != [] && !IsSpace(s[0]) && !IsSpace(s[|s| - 1])
    ensures Trim(s) == s
  {
  }

  // ---------------------------------------------------------------- numbers

  function DigitChar(d: nat): char
    requires d < 10
  {
    ('0' as int + d) as char
  }

  /** `String(n)` for a natural number: its decimal digits, without leading zeros. */
  function NatToString(n: nat): (r: string)
    ensures |r| >= 1
    ensures forall i :: 0 <= i < |r| ==> IsDigit(r[i])
    ensures r[0] == '0' ==> n == 0
    decreases n
  {
    if n < 10 then [DigitChar(n)] else NatToString(n / 10) + [DigitChar(n % 10)]
  }

  /** `String(i)` for an integer: a minus sign before negative numbers. */
  function IntToString(i: int): string
  {
    if i < 0 then "-" + NatToString(-i) else NatToString(i)
  }

  /** The value of a digit in a radix (10 or 16), if the character is one. */
  function DigitValue(c: char, radix: nat): Option<nat>
  {
    if '0' <= c <= '9' && (c as int - '0' as int) < radix then Some(c as int - '0' as int)
    else if radix == 16 && 'a' <= c <= 'f' then Some(c as int - 'a' as int + 10)
    else if radix == 16 && 'A' <= c <= 'F' then Some(c as int - 'A' as int + 10)
    else None
  }

  /** The longest prefix of `s` made of digits of the radix. */
  function DigitRun(s: string, radix: nat): (r: string)
    ensures IsPrefix(r, s)
    ensures forall i :: 0 <= i < |r| ==> DigitValue(r[i], radix).Some?
    ensures |r| < |s| ==> DigitValue(s[|r|], radix).None?
  {
    if |s| > 0 && DigitValue(s[0], radix).Some? then [s[0]] + DigitRun(s[1..], radix) else []
  }

  /** The value of a string of digits, most significant first. */
  function DigitsValue(s: string, radix: nat): nat
    requires forall i :: 0 <= i < |s| ==> DigitValue(s[i], radix).Some?
  {
    if s == [] then 0
    else DigitsValue(s[..|s| - 1], radix) * radix + DigitValue(s[|s| - 1], radix).value
  }

  predicate HasHexPrefix(s: string)
  {
    |s| >= 2 && s[0] == '0' && (s[1] == 'x' || s[1] == 'X')
  }

  /** The unsigned part of `parseInt`: a `0x`/`0X` prefix selects radix 16, then the longest
      run of digits is read; `None` when there is no digit. */
  function ParseUnsigned(body: string): Option<nat>
  {
    var radix := if HasHexPrefix(body) then 16 else 10;
    var digits := DigitRun(if HasHexPrefix(body) then body[2..] else body, radix);
    if digits == [] then None else Some(DigitsValue(digits, radix))
  }

  function Negate(v: Option<nat>): Option<int>
  {
    match v
    case None => None
    case Some(n) => Some(-(n as int))
  }

  function Widen(v: Option<nat>): Option<int>
  {
    match v
    case None => None
    case Some(n) => Some(n)
  }

  /** `parseInt(s)` without a radix: leading white space is skipped, an optional sign is
      read, then the unsigned part. `None` is JavaScript's `NaN` (no digit at all). */
  function ParseInt(s: string): Option<int>
  {
    var t := TrimStart(s);
    if |t| > 0 && t[0] == '-' then Negate(ParseUnsigned(t[1..]))
    else if |t| > 0 && t[0] == '+' then Widen(ParseUnsigned(t[1..]))
    else Widen(ParseUnsigned(t))
  }

  lemma {:induction false} DigitRunOfDigits(s: string)
    requires forall i :: 0 <= i < |s| ==> IsDigit(s[i])
    ensures DigitRun(s, 10) == s
  {
    if |s| > 0 {
      DigitRunOfDigits(s[1..]);
    }
  }

  lemma {:induction false} NatToStringValue(n: nat)
    ensures DigitsValue(NatToString(n), 10) == n
    decreases n
  {
    var r := NatToString(n);
    if n >= 10 {
      NatToStringValue(n / 10);
      assert r[..|r| - 1] == NatToString(n / 10);
    }
  }

  lemma ParseUnsignedOfNat(n: nat)
    ensures ParseUnsigned(NatToString(n)) == Some(n)
  {
    var s := NatToString(n);
    if |s| >= 2 {
      assert IsDigit(s[1]);
    }
    assert !HasHexPrefix(s);
    DigitRunOfDigits(s);
    NatToStringValue(n);
  }

  /** Reading back a printed natural number gives the number. */
  lemma NatToStringRoundTrip(n: nat)
    ensures ParseInt(NatToString(n)) == Some(n)
  {
    var s := NatToString(n);
    assert !IsSpace(s[0]) && s[0] != '-' && s[0] != '+' by {
      assert IsDigit(s[0]);
    }
    assert TrimStart(s) == s;
    ParseUnsignedOfNat(n);
  }

  /** `parseInt(String(i)) == i` for every integer. */
  lemma IntToStringRoundTrip(i: int)
    ensures ParseInt(IntToString(i)) == Some(i)
  {
    if i >= 0 {
      NatToStringRoundTrip(i);
    } else {
      var s := IntToString(i);
      assert TrimStart(s) == s;
      assert s[1..] == NatToString(-i);
      ParseUnsignedOfNat(-i);
    }
  }

  lemma {:induction false} DigitRunStops(d: string, rest: string)
    requires forall i :: 0 <= i < |d| ==> IsDigit(d[i])
    requires rest == [] || DigitValue(rest[0], 10).None?
    ensures DigitRun(d + rest, 10) == d
  {
    if d != [] {
      DigitRunStops(d[1..], rest);
      assert (d + rest)[1..] == d[1..] + rest;
    } else {
      assert d + rest == rest;
    }
  }

  lemma ParseUnsignedPrefix(n: nat, rest: string)
    requires rest == [] || (!IsDigit(rest[0]) && rest[0] != 'x' && rest[0] != 'X')
    ensures ParseUnsigned(NatToString(n) + rest) == Some(n)
  {
    var d := NatToString(n);
    var body := d + rest;
    assert body[0] == d[0];
    if |d| >= 2 {
      assert body[1] == d[1] && IsDigit(d[1]);
    } else if rest != [] {
      assert body[1] == rest[0];
    }
    assert !HasHexPrefix(body);
    DigitRunStops(d, rest);
    NatToStringValue(n);
  }

  lemma TrimStartNoSpace(s: string)
    requires s != [] && !IsSpace(s[0])
    ensures TrimStart(s) == s
  {
  }

  lemma ParseIntNegative(body: string, n: nat)
    requires ParseUnsigned(body) == Some(n)
    ensures ParseInt("-" + body) == Some(-(n as int))
  {
    var t := "-" + body;
    TrimStartNoSpace(t);
    assert t[1..] == body;
  }

  lemma ParseIntUnsigned(t: string, n: nat)
    requires t != [] && IsDigit(t[0])
    requires ParseUnsigned(t) == Some(n)
    ensures ParseInt(t) == Some(n)
  {
    TrimStartNoSpace(t);
  }

  lemma PrefixRoundTripNegative(i: int, rest: string)
    requires i < 0
    requires rest == [] || (!IsDigit(rest[0]) && rest[0] != 'x' && rest[0] != 'X')
    ensures ParseInt(IntToString(i) + rest) == Some(i)
  {
    var n: nat := -i;
    var body := NatToString(n) + rest;
    assert IntToString(i) + rest == "-" + body by {
      var minus, digits := "-", NatToString(n);
      assert IntToString(i) == minus + digits;
      assert (minus + digits) + rest == minus + (digits + rest);
    }
    assert ParseInt("-" + body) == Some(i) by {
      ParseUnsignedPrefix(n, rest);
      ParseIntNegative(body, n);
    }
  }

  lemma PrefixRoundTripNonNegative(n: nat, rest: string)
    requires rest == [] || (!IsDigit(rest[0]) && rest[0] != 'x' && rest[0] != 'X')
    ensures ParseInt(IntToString(n) + rest) == Some(n)
  {
    var t := NatToString(n) + rest;
    ParseUnsignedPrefix(n, rest);
    assert t[0] == NatToString(n)[0];
    ParseIntUnsigned(t, n);
  }

  /** A printed integer followed by text that does not continue the number (`"5h ago"`,
      `"3 answers"`) reads back as that integer. */
  lemma IntToStringPrefixRoundTrip(i: int, rest: string)
    requires rest == [] || (!IsDigit(rest[0]) && rest[0] != 'x' && rest[0] != 'X')
    ensures ParseInt(IntToString(i) + rest) == Some(i)
  {
    if i < 0 {
      PrefixRoundTripNegative(i, rest);
    } else {
      PrefixRoundTripNonNegative(i, rest);
    }
  }

  /** Distinct numbers print differently. */
  lemma NatToStringInjective(m: nat, n: nat)
    requires NatToString(m) == NatToString(n)
    ensures m == n
  {
    NatToStringRoundTrip(m);
    NatToStringRoundTrip(n);
  }
}

/** Text operations the frontend relies on: ASCII case mapping (the model of
    `toLowerCase`/`toUpperCase`), substring search (`String.prototype.includes`),
    the chart-label capitalisation, and ECMAScript `parseInt` without a radix
    (ECMA-262, section 19.2.5) together with the decimal rendering of integers
    that an `<input type="number">` shows. */
module Text {
  import opened Common

  // ---------------------------------------------------------------------
  // Case mapping (ASCII only)
  // ---------------------------------------------------------------------

  predicate IsUpper(c: char) { 'A' <= c <= 'Z' }
  predicate IsLower(c: char) { 'a' <= c <= 'z' }

  function LowerChar(c: char): (d: char)
    ensures !IsUpper(d)
    ensures IsUpper(c) ==> d as int == c as int + 32 && IsLower(d)
    ensures !IsUpper(c) ==> d == c
  {
    if IsUpper(c) then (c as int + 32) as char else c
  }

  function UpperChar(c: char): (d: char)
    ensures !IsLower(d)
    ensures IsLower(c) ==> d as int == c as int - 32 && IsUpper(d)
    ensures !IsLower(c) ==> d == c
  {
    if IsLower(c) then (c as int - 32) as char else c
  }

  /** `s.toLowerCase()`, restricted to ASCII letters. */
  function Lower(s: string): (r: string)
    ensures |r| == |s|
    ensures forall i :: 0 <= i < |r| ==> r[i] == LowerChar(s[i]) && !IsUpper(r[i])
  {
    seq(|s|, i requires 0 <= i < |s| => LowerChar(s[i]))
  }

  lemma LowerIdempotent(s: string)
    ensures Lower(Lower(s)) == Lower(s)
  {
    assert forall i :: 0 <= i < |s| ==> LowerChar(LowerChar(s[i])) == LowerChar(s[i]);
  }

  // ---------------------------------------------------------------------
  // Substring search
  // ---------------------------------------------------------------------

  /** `hay.includes(needle)`: `needle` occurs at some position of `hay`. */
  predicate Contains(hay: string, needle: string) {
    exists i | 0 <= i <= |hay| - |needle| :: OccursAt(hay, needle, i)
  }

  predicate OccursAt(hay: string, needle: string, i: int) {
    0 <= i && i + |needle| <= |hay| && hay[i..i + |needle|] == needle
  }

  /** Every string includes the empty string, so an empty search term hides nothing. */
  lemma ContainsEmpty(hay: string)
    ensures Contains(hay, "")
  {
    assert OccursAt(hay, "", 0);
  }

  // ---------------------------------------------------------------------
  // Label capitalisation
  // ---------------------------------------------------------------------

  /** `name.charAt(0).toUpperCase() + name.slice(1)`. */
  function Capitalize(s: string): (r: string)
    ensures |r| == |s|
    ensures s == [] ==> r == []
    ensures s != [] ==> r[0] == UpperChar(s[0]) && !IsLower(r[0]) && r[1..] == s[1..]
  {
    if s == [] then [] else [UpperChar(s[0])] + s[1..]
  }

  lemma {:induction false} CapitalizeIdempotent(s: string)
    ensures Capitalize(Capitalize(s)) == Capitalize(s)
  {
    if s != [] {
      assert UpperChar(UpperChar(s[0])) == UpperChar(s[0]);
    }
  }

  // ---------------------------------------------------------------------
  // parseInt(value) without a radix
  // ---------------------------------------------------------------------

  /** WhiteSpace and LineTerminator code points that `parseInt` skips. */
  predicate IsJsSpace(c: char) {
    c == '\t' || c == '\n' || c == '\U{B}' || c == '\U{C}' || c == '\r' || c == ' ' ||
    c == '\U{A0}' || c == '\U{1680}' || ('\U{2000}' <= c <= '\U{200A}') ||
    c == '\U{2028}' || c == '\U{2029}' || c == '\U{202F}' || c == '\U{205F}' ||
    c == '\U{3000}' || c == '\U{FEFF}'
  }

  /** The string with its leading white space removed. */
  function TrimStart(s: string): (r: string)
    ensures |r| <= |s| && r == s[|s| - |r|..]
    ensures forall i :: 0 <= i < |s| - |r| ==> IsJsSpace(s[i])
    ensures r == [] || !IsJsSpace(r[0])
    ensures s != [] && !IsJsSpace(s[0]) ==> r == s
  {
    if s != [] && IsJsSpace(s[0]) then
      var r := TrimStart(s[1..]);
      assert forall i :: 1 <= i < |s| - |r| ==> s[i] == s[1..][i - 1];
      r
    else s
  }

  /** The value of `c` as a digit in any radix up to 36, or 36 when it is no digit. */
  function DigitValue(c: char): (v: nat)
    ensures v <= 36
  {
    if '0' <= c <= '9' then c as int - '0' as int
    else if 'a' <= c <= 'z' then c as int - 'a' as int + 10
    else if 'A' <= c <= 'Z' then c as int - 'A' as int + 10
    else 36
  }

  /** The longest prefix of `s` made of digits of `radix`. */
  function DigitRun(s: string, radix: nat): (r: string)
    ensures r <= s
    ensures forall i :: 0 <= i < |r| ==> DigitValue(r[i]) < radix
    ensures |r| < |s| ==> DigitValue(s[|r|]) >= radix
  {
    if s == [] || DigitValue(s[0]) >= radix then [] else [s[0]] + DigitRun(s[1..], radix)
  }

  /** The number that the digit string `ds` denotes in `radix`. */
  function DigitsValue(ds: string, radix: nat): nat
    requires forall i :: 0 <= i < |ds| ==> DigitValue(ds[i]) < radix
  {
    if ds == [] then 0
    else DigitsValue(ds[..|ds| - 1], radix) * radix + DigitValue(ds[|ds| - 1])
  }

  /** The unsigned part of `parseInt`: a `0x`/`0X` prefix selects radix 16,
      otherwise radix 10; the longest run of digits is read, and no digit is NaN. */
  function ParseMagnitude(u: string): (r: Option<int>)
    ensures r.Some? ==> r.value >= 0
    ensures u == [] || DigitValue(u[0]) >= 10 ==> r == None
  {
    if |u| >= 2 && u[0] == '0' && (u[1] == 'x' || u[1] == 'X') then
      var z := DigitRun(u[2..], 16);
      if z == [] then None else Some(DigitsValue(z, 16))
    else
      var z := DigitRun(u, 10);
      if z == [] then None else Some(DigitsValue(z, 10))
  }

  /** `parseInt(s)`: leading white space is skipped and one sign is read; `None` stands for NaN. */
  function ParseInt(s: string): (r: Option<int>)
    ensures var t := TrimStart(s);
      t == [] || !(t[0] == '-' || t[0] == '+' || DigitValue(t[0]) < 10) ==> r == None
  {
    ParseSigned(TrimStart(s))
  }

  /** `parseInt` after the white space: an optional sign, then the magnitude. */
  function ParseSigned(t: string): Option<int> {
    if t != [] && t[0] == '-' then Negated(ParseMagnitude(t[1..]))
    else if t != [] && t[0] == '+' then ParseMagnitude(t[1..])
    else ParseMagnitude(t)
  }

  function Negated(r: Option<int>): Option<int> {
    match r
    case None => None
    case Some(m) => Some(-m)
  }

  /** `parseInt(value) || 0`: NaN (and zero) become 0. */
  function ParseIntOrZero(s: string): (n: int)
    ensures ParseInt(s).Some? ==> n == ParseInt(s).value
    ensures ParseInt(s).None? ==> n == 0
  {
    ParseInt(s).GetOr(0)
  }

  // ---------------------------------------------------------------------
  // Decimal rendering, the inverse of parseInt on integers
  // ---------------------------------------------------------------------

  function DigitChar(d: nat): (c: char)
    requires d < 10
    ensures DigitValue(c) == d && '0' <= c <= '9'
  {
    ('0' as int + d) as char
  }

  function DecimalDigits(n: nat): (r: string)
    ensures r != []
    ensures forall i :: 0 <= i < |r| ==> '0' <= r[i] <= '9'
  {
    if n < 10 then [DigitChar(n)] else DecimalDigits(n / 10) + [DigitChar(n % 10)]
  }

  /** `String(n)` for an integer `n`. */
  function IntToDecimal(n: int): string {
    if n < 0 then "-" + DecimalDigits(-n) else DecimalDigits(n)
  }

  lemma {:induction false} DecimalDigitsValue(n: nat)
    ensures DigitsValue(DecimalDigits(n), 10) == n
  {
    var ds := DecimalDigits(n);
    if n >= 10 {
      DecimalDigitsValue(n / 10);
      assert ds[..|ds| - 1] == DecimalDigits(n / 10);
    }
  }

  lemma {:induction false} DigitRunOfDigits(ds: string)
    requires forall i :: 0 <= i < |ds| ==> '0' <= ds[i] <= '9'
    ensures DigitRun(ds, 10) == ds
  {
    if ds != [] {
      DigitRunOfDigits(ds[1..]);
    }
  }

  lemma MagnitudeOfDecimal(m: nat)
    ensures ParseMagnitude(DecimalDigits(m)) == Some(m)
  {
    var ds := DecimalDigits(m);
    DecimalDigitsValue(m);
    DigitRunOfDigits(ds);
    assert !(|ds| >= 2 && ds[0] == '0' && (ds[1] == 'x' || ds[1] == 'X')) by {
      if |ds| >= 2 { assert '0' <= ds[1] <= '9'; }
    }
    var z := DigitRun(ds, 10);
    assert z == ds && z != [];
  }

  lemma TrimStartKeeps(s: string)
    requires s != [] && (s[0] == '-' || '0' <= s[0] <= '9')
    ensures TrimStart(s) == s
  {
    assert !IsJsSpace(s[0]);
  }

  lemma ParseIntOfNatural(n: int)
    requires n >= 0
    ensures ParseInt(IntToDecimal(n)) == Some(n)
  {
    var ds := DecimalDigits(n);
    assert IntToDecimal(n) == ds;
    assert '0' <= ds[0] <= '9';
    TrimStartKeeps(ds);
    MagnitudeOfDecimal(n);
  }

  /** A leading minus sign negates what follows. */
  lemma ParseIntNegated(u: string, m: int)
    requires ParseMagnitude(u) == Some(m)
    ensures ParseInt("-" + u) == Some(-m)
  {
    var s := "-" + u;
    assert s[0] == '-' && s[1..] == u;
    TrimStartKeeps(s);
    assert ParseSigned(s) == Negated(ParseMagnitude(u));
  }

  lemma ParseIntOfNegative(n: int)
    requires n < 0
    ensures ParseInt(IntToDecimal(n)) == Some(n)
  {
    MagnitudeOfDecimal(-n);
    ParseIntNegated(DecimalDigits(-n), -n);
  }

  /** Typing back the number a counter field displays gives the same number. */
  lemma ParseIntRoundTrip(n: int)
    ensures ParseInt(IntToDecimal(n)) == Some(n)
  {
    if n < 0 {
      ParseIntOfNegative(n);
    } else {
      ParseIntOfNatural(n);
    }
  }
}

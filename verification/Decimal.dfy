/** `cwdaemon_get_long` of src/utils.c: the strict decimal parser behind every numeric request and option. */
module Decimal {
  import opened Basics

  const LONG_MIN: int := -0x8000_0000_0000_0000
  const LONG_MAX: int := 0x7FFF_FFFF_FFFF_FFFF

  predicate IsSpace(c: char) { c == ' ' || 9 <= c as int <= 13 }

  /** What isspace() takes in the C locale. */
  lemma SpacesAre(c: char)
    ensures IsSpace(c) <==> c in {' ', '\t', '\n', 11 as char, 12 as char, '\r'}
  {
  }

  predicate IsDigit(c: char) { '0' <= c <= '9' }

  function Digit(c: char): nat
    requires IsDigit(c)
  {
    c as int - '0' as int
  }

  predicate AllDigits(s: string) { forall k :: 0 <= k < |s| ==> IsDigit(s[k]) }

  predicate AllSpaces(s: string) { forall k :: 0 <= k < |s| ==> IsSpace(s[k]) }

  function Value(s: string): (v: int)
    requires AllDigits(s)
    ensures v >= 0
  {
    if s == "" then 0 else 10 * Value(s[..|s| - 1]) + Digit(s[|s| - 1])
  }

  // ---------- strtol, base 10 (section 7.20.1.4 of ISO C99) ----------

  /** What strtol reports: the value, where it stopped, and whether it set ERANGE. */
  datatype Subject = Subject(value: int, end: nat, rangeError: bool)

  function SpacesEnd(s: string, i: nat): (e: nat)
    requires i <= |s|
    ensures i <= e <= |s| && AllSpaces(s[i..e])
    ensures e < |s| ==> !IsSpace(s[e])
    decreases |s| - i
  {
    if i < |s| && IsSpace(s[i]) then
      var e := SpacesEnd(s, i + 1);
      assert s[i..e] == [s[i]] + s[i + 1..e];
      e
    else i
  }

  function DigitsEnd(s: string, i: nat): (e: nat)
    requires i <= |s|
    ensures i <= e <= |s| && AllDigits(s[i..e])
    ensures e < |s| ==> !IsDigit(s[e])
    decreases |s| - i
  {
    if i < |s| && IsDigit(s[i]) then
      var e := DigitsEnd(s, i + 1);
      assert s[i..e] == [s[i]] + s[i + 1..e];
      e
    else i
  }

  function Strtol(s: string): (r: Subject)
    ensures r.end <= |s|
  {
    var i := SpacesEnd(s, 0);
    var j := if i < |s| && (s[i] == '+' || s[i] == '-') then i + 1 else i;
    var k := DigitsEnd(s, j);
    if k == j then Subject(0, 0, false)
    else
      var v := if i < j && s[i] == '-' then -Value(s[j..k]) else Value(s[j..k]);
      if v < LONG_MIN then Subject(LONG_MIN, k, true)
      else if v > LONG_MAX then Subject(LONG_MAX, k, true)
      else Subject(v, k, false)
  }

  /** `cwdaemon_get_long`: nothing may be left over, and the value must not have been cut to range. */
  function GetLong(buf: string): Option<int> {
    if buf == "" then None
    else
      var r := Strtol(buf);
      if r.end < |buf| then None
      else if r.rangeError && (r.value == LONG_MAX || r.value == LONG_MIN) then None
      else Some(r.value)
  }

  // ---------- what is accepted ----------

  /** Reference grammar: `s` is spaces, an optional sign and at least one digit. */
  ghost predicate Numeral(s: string, spaces: string, sign: string, digits: string) {
    && s == spaces + sign + digits
    && AllSpaces(spaces)
    && (sign == "" || sign == "+" || sign == "-")
    && digits != "" && AllDigits(digits)
  }

  function Signed(sign: string, digits: string): int
    requires AllDigits(digits)
  {
    if sign == "-" then -Value(digits) else Value(digits)
  }

  lemma SpacesEndIs(s: string, i: nat, e: nat)
    requires i <= e <= |s| && AllSpaces(s[i..e]) && (e < |s| ==> !IsSpace(s[e]))
    ensures SpacesEnd(s, i) == e
  {
    var f := SpacesEnd(s, i);
    assert forall k :: i <= k < e ==> s[k] == s[i..e][k - i];
    assert forall k :: i <= k < f ==> s[k] == s[i..f][k - i];
  }

  lemma DigitsEndIs(s: string, i: nat, e: nat)
    requires i <= e <= |s| && AllDigits(s[i..e]) && (e < |s| ==> !IsDigit(s[e]))
    ensures DigitsEnd(s, i) == e
  {
    var f := DigitsEnd(s, i);
    assert forall k :: i <= k < e ==> s[k] == s[i..e][k - i];
    assert forall k :: i <= k < f ==> s[k] == s[i..f][k - i];
  }

  /** A numeral is accepted exactly when its value fits a C long, and then it yields that value. */
  lemma NumeralIsParsed(s: string, spaces: string, sign: string, digits: string)
    requires Numeral(s, spaces, sign, digits)
    ensures var v := Signed(sign, digits);
      GetLong(s) == if LONG_MIN <= v <= LONG_MAX then Some(v) else None
  {
    var i := |spaces|;
    var j := i + |sign|;
    assert s[0..i] == spaces;
    assert s[j..] == digits;
    assert s[j..|s|] == digits;
    assert s[j] == digits[0];
    SpacesEndIs(s, 0, i);
    DigitsEndIs(s, j, |s|);
  }

  lemma WholeTail(s: string, j: nat)
    requires j <= |s|
    ensures s[j..|s|] == s[j..]
  {
  }

  /** Anything accepted is a numeral. */
  lemma ParsedIsNumeral(s: string) returns (spaces: string, sign: string, digits: string)
    requires GetLong(s).Some?
    ensures Numeral(s, spaces, sign, digits)
    ensures GetLong(s) == Some(Signed(sign, digits))
  {
    hide Value;
    var i := SpacesEnd(s, 0);
    var j := if s[i] == '+' || s[i] == '-' then i + 1 else i;
    spaces, sign, digits := s[..i], s[i..j], s[j..];
    assert s[0..i] == s[..i];
    assert DigitsEnd(s, j) == |s|;
    WholeTail(s, j);
    assert i < j ==> sign == [s[i]];
  }

  /** The accepted strings are the in-range numerals, no more and no fewer. */
  lemma AcceptedExactly(s: string, v: int)
    ensures GetLong(s) == Some(v) <==>
      exists spaces, sign, digits ::
        Numeral(s, spaces, sign, digits) && Signed(sign, digits) == v && LONG_MIN <= v <= LONG_MAX
  {
    if GetLong(s) == Some(v) {
      var spaces, sign, digits := ParsedIsNumeral(s);
      NumeralIsParsed(s, spaces, sign, digits);
    }
    forall spaces, sign, digits | Numeral(s, spaces, sign, digits) && Signed(sign, digits) == v
      && LONG_MIN <= v <= LONG_MAX
      ensures GetLong(s) == Some(v)
    {
      NumeralIsParsed(s, spaces, sign, digits);
    }
  }

  // ---------- round trips ----------

  function PrintNat(n: nat): (s: string)
    ensures s != "" && AllDigits(s) && Value(s) == n
  {
    var last := [('0' as int + n % 10) as char];
    assert last[..0] == "" && Value(last) == n % 10;
    if n < 10 then last
    else
      var head := PrintNat(n / 10);
      assert (head + last)[..|head|] == head;
      head + last
  }

  function Print(v: int): string {
    if v < 0 then "-" + PrintNat(-v) else PrintNat(v)
  }

  function Power10(k: nat): nat { if k == 0 then 1 else 10 * Power10(k - 1) }

  lemma {:induction false} DigitCount(n: nat, k: nat)
    requires k > 0 && n < Power10(k)
    ensures |PrintNat(n)| <= k
    decreases k
  {
    if n >= 10 {
      assert k > 1;
      DigitCount(n / 10, k - 1);
    }
  }

  /** A C long has at most 19 digits and a sign. */
  lemma PrintIsShort(v: int)
    requires LONG_MIN <= v <= LONG_MAX
    ensures |Print(v)| <= 20
  {
    assert Power10(5) == 100_000;
    assert Power10(10) == 10_000_000_000;
    assert Power10(15) == 1_000_000_000_000_000;
    assert Power10(19) == 10_000_000_000_000_000_000;
    DigitCount(if v < 0 then -v else v, 19);
  }

  /** Printing a number and parsing it gives it back, exactly if it is a C long. */
  lemma PrintThenParse(v: int)
    ensures GetLong(Print(v))
      == if -0x8000_0000_0000_0000 <= v <= 0x7FFF_FFFF_FFFF_FFFF then Some(v) else None
  {
    hide GetLong, Value, PrintNat;
    if v < 0 {
      assert Print(v) == "" + "-" + PrintNat(-v);
      NumeralIsParsed(Print(v), "", "-", PrintNat(-v));
    } else {
      assert Print(v) == "" + "" + PrintNat(v);
      NumeralIsParsed(Print(v), "", "", PrintNat(v));
    }
  }

  function Zeros(n: nat): (s: string)
    ensures |s| == n && AllDigits(s)
  {
    if n == 0 then "" else Zeros(n - 1) + "0"
  }

  lemma {:induction false} LeadingZerosKeepValue(n: nat, digits: string)
    requires AllDigits(digits)
    ensures AllDigits(Zeros(n) + digits) && Value(Zeros(n) + digits) == Value(digits)
    decreases n + |digits|
  {
    var s := Zeros(n) + digits;
    if digits != "" {
      assert s[..|s| - 1] == Zeros(n) + digits[..|digits| - 1];
      LeadingZerosKeepValue(n, digits[..|digits| - 1]);
    } else if n > 0 {
      assert s == Zeros(n) && s[..|s| - 1] == Zeros(n - 1) + "";
      LeadingZerosKeepValue(n - 1, "");
    }
  }

  /** Zeros written in front of the digits change nothing. */
  lemma LeadingZeros(s: string, spaces: string, sign: string, digits: string, n: nat)
    requires Numeral(s, spaces, sign, digits)
    ensures GetLong(spaces + sign + (Zeros(n) + digits)) == GetLong(s)
  {
    LeadingZerosKeepValue(n, digits);
    NumeralIsParsed(s, spaces, sign, digits);
    NumeralIsParsed(spaces + sign + (Zeros(n) + digits), spaces, sign, Zeros(n) + digits);
  }
}

/**
 * Decimal integers as text: Python's `str(n)` and `int(text)`, and the stricter
 * integer syntax Redis accepts in INCR. Redis keeps every value as a string, so each
 * counter the service stores goes through these conversions.
 */
module Numbers {
  import opened Wrappers
  import opened Strings

  predicate IsDigit(c: char) {
    '0' <= c <= '9'
  }

  predicate AllDigits(s: string) {
    forall i :: 0 <= i < |s| ==> IsDigit(s[i])
  }

  function DigitChar(d: nat): (c: char)
    requires d < 10
    ensures IsDigit(c)
  {
    ('0' as int + d) as char
  }

  function DigitValue(c: char): (d: nat)
    requires IsDigit(c)
    ensures d < 10 && DigitChar(d) == c
  {
    c as int - '0' as int
  }

  /** The value of a string of decimal digits (most significant first). */
  function DigitsToNat(s: string): nat
    requires AllDigits(s)
    decreases |s|
  {
    if s == [] then 0 else DigitsToNat(s[..|s| - 1]) * 10 + DigitValue(s[|s| - 1])
  }

  /** `str(n)` for a natural number: no sign and no leading zero. */
  function NatToString(n: nat): (r: string)
    ensures |r| >= 1 && AllDigits(r)
    ensures |r| > 1 ==> r[0] != '0'
    ensures r[0] == '0' ==> n == 0
  {
    if n < 10 then [DigitChar(n)] else NatToString(n / 10) + [DigitChar(n % 10)]
  }

  /** `str(n)` for any integer. */
  function IntToString(n: int): (r: string)
    ensures r != []
  {
    if n < 0 then "-" + NatToString(-n) else NatToString(n)
  }

  /** Reading back the digits of a number gives the number. */
  lemma {:induction false} DigitsOfNat(n: nat)
    ensures DigitsToNat(NatToString(n)) == n
  {
    if n >= 10 {
      var s := NatToString(n);
      assert s[..|s| - 1] == NatToString(n / 10);
      DigitsOfNat(n / 10);
    }
  }

  /** A digit string without a leading zero is the printed form of its value. */
  lemma {:induction false} NatOfDigits(s: string)
    requires s != [] && AllDigits(s)
    requires |s| > 1 ==> s[0] != '0'
    ensures NatToString(DigitsToNat(s)) == s
    decreases |s|
  {
    if |s| > 1 {
      var p := s[..|s| - 1];
      assert p[0] == s[0];
      NatOfDigits(p);
      var n := DigitsToNat(s);
      assert n / 10 == DigitsToNat(p) && n % 10 == DigitValue(s[|s| - 1]);
      assert s == p + [s[|s| - 1]];
    }
  }

  /** Python's `int()` digit body: digits with single underscores between them (`1_000`). */
  predicate IsDigitGroup(s: string) {
    && s != []
    && IsDigit(s[0]) && IsDigit(s[|s| - 1])
    && (forall i :: 0 <= i < |s| ==> IsDigit(s[i]) || s[i] == '_')
    && (forall i :: 0 <= i < |s| - 1 ==> !(s[i] == '_' && s[i + 1] == '_'))
  }

  function DropUnderscores(s: string): (r: string)
    requires forall i :: 0 <= i < |s| ==> IsDigit(s[i]) || s[i] == '_'
    ensures AllDigits(r)
  {
    if s == [] then [] else (if s[0] == '_' then [] else [s[0]]) + DropUnderscores(s[1..])
  }

  /**
   * Python's `int(text)` in base 10: surrounding white space, an optional sign, then
   * ASCII digits with single underscores between them; `None` stands for ValueError.
   */
  function PyInt(text: string): (r: Option<int>)
    ensures r.Some? ==> Strip(text) != ""
  {
    var t := Strip(text);
    if t == "" then None
    else
      var negative := t[0] == '-';
      var body := if t[0] == '-' || t[0] == '+' then t[1..] else t;
      if !IsDigitGroup(body) then None
      else
        var magnitude: int := DigitsToNat(DropUnderscores(body));
        Some(if negative then -magnitude else magnitude)
  }

  /** A digit string is its own underscore-free form. */
  lemma {:induction false} DropUnderscoresOfDigits(s: string)
    requires AllDigits(s)
    ensures DropUnderscores(s) == s
    decreases |s|
  {
    if s != [] {
      DropUnderscoresOfDigits(s[1..]);
    }
  }

  /** `int(str(n)) == n`: Python reads back every integer it prints. */
  lemma PyIntOfIntToString(n: int)
    ensures PyInt(IntToString(n)) == Some(n)
  {
    var s := IntToString(n);
    var m: nat := if n < 0 then -n else n;
    var digits := NatToString(m);
    assert !IsSpace(s[0]) && !IsSpace(s[|s| - 1]);
    StripOfTrimmed(s);
    var body := if s[0] == '-' || s[0] == '+' then s[1..] else s;
    assert body == digits;
    assert IsDigitGroup(body);
    DropUnderscoresOfDigits(digits);
    DigitsOfNat(m);
  }

  const Int64Min: int := -0x8000_0000_0000_0000
  const Int64Max: int := 0x7FFF_FFFF_FFFF_FFFF

  /**
   * The integer Redis finds in a stored string (INCR): the canonical decimal form of a
   * signed 64-bit integer, with no sign but `-`, no leading zero and no `-0`.
   */
  function RedisInt(s: string): (r: Option<int>)
    ensures r.Some? ==> Int64Min <= r.value <= Int64Max
  {
    var negative := |s| >= 2 && s[0] == '-';
    var digits := if negative then s[1..] else s;
    if digits == [] || !AllDigits(digits) then None
    else if |digits| > 1 && digits[0] == '0' then None
    else if negative && digits == "0" then None
    else
      var magnitude: int := DigitsToNat(digits);
      var n := if negative then -magnitude else magnitude;
      if Int64Min <= n <= Int64Max then Some(n) else None
  }

  /** Redis reads back every 64-bit integer written as `str(n)`. */
  lemma RedisIntOfIntToString(n: int)
    requires Int64Min <= n <= Int64Max
    ensures RedisInt(IntToString(n)) == Some(n)
  {
    DigitsOfNat(if n < 0 then -n else n);
    if n < 0 {
      assert IntToString(n)[1..] == NatToString(-n);
    }
  }

  /** What Redis accepts as an integer is exactly `str(n)` of that integer. */
  lemma RedisIntIsCanonical(s: string)
    requires RedisInt(s).Some?
    ensures IntToString(RedisInt(s).value) == s
  {
    var negative := |s| >= 2 && s[0] == '-';
    var digits := if negative then s[1..] else s;
    NatOfDigits(digits);
    if negative {
      assert s == "-" + digits;
    }
  }
}

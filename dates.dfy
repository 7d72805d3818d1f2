/**
 * `normalize_date`: a bill date read by OCR, rewritten to `yyyy-mm-dd`. Text with a `/`
 * is read as `%d/%m/%Y`, any other text as `%Y-%m-%d`; the fields follow the patterns
 * Python's `strptime` matches for those directives, and the date must exist in the
 * proleptic Gregorian calendar.
 */
module Dates {
  import opened Wrappers
  import opened Numbers
  import opened JsonValues

  datatype Date = Date(year: int, month: int, day: int)

  predicate IsLeapYear(y: int) {
    y % 4 == 0 && (y % 100 != 0 || y % 400 == 0)
  }

  function DaysInMonth(y: int, m: int): int {
    if m == 2 then (if IsLeapYear(y) then 29 else 28)
    else if m == 4 || m == 6 || m == 9 || m == 11 then 30
    else 31
  }

  /** A date `datetime` accepts. */
  predicate ValidDate(d: Date) {
    1 <= d.year <= 9999 && 1 <= d.month <= 12 && 1 <= d.day <= DaysInMonth(d.year, d.month)
  }

  predicate IsNonZeroDigit(c: char) {
    '1' <= c <= '9'
  }

  /** `%d`: `3[01]`, `[12]` and a digit, `0[1-9]`, `[1-9]`, or a space and `[1-9]`. */
  function DayField(f: string): (r: Option<int>)
    ensures r.Some? ==> 1 <= r.value <= 31
  {
    if |f| == 2 && IsDigit(f[0]) && IsDigit(f[1])
       && ((f[0] == '3' && f[1] <= '1') || f[0] == '1' || f[0] == '2' || (f[0] == '0' && f[1] != '0'))
    then Some(DigitValue(f[0]) * 10 + DigitValue(f[1]))
    else if |f| == 1 && IsNonZeroDigit(f[0]) then Some(DigitValue(f[0]))
    else if |f| == 2 && f[0] == ' ' && IsNonZeroDigit(f[1]) then Some(DigitValue(f[1]))
    else None
  }

  /** `%m`: `1[0-2]`, `0[1-9]` or `[1-9]`. */
  function MonthField(f: string): (r: Option<int>)
    ensures r.Some? ==> 1 <= r.value <= 12
  {
    if |f| == 2 && IsDigit(f[0]) && IsDigit(f[1])
       && ((f[0] == '1' && f[1] <= '2') || (f[0] == '0' && f[1] != '0'))
    then Some(DigitValue(f[0]) * 10 + DigitValue(f[1]))
    else if |f| == 1 && IsNonZeroDigit(f[0]) then Some(DigitValue(f[0]))
    else None
  }

  /** `%Y`: exactly four digits. */
  function YearField(f: string): (r: Option<int>)
    ensures r.Some? ==> 0 <= r.value <= 9999
  {
    if |f| == 4 && AllDigits(f)
    then Some(((DigitValue(f[0]) * 10 + DigitValue(f[1])) * 10 + DigitValue(f[2])) * 10 + DigitValue(f[3]))
    else None
  }

  /** The position of the first `c` in `s`, or `|s|` when there is none. */
  function FindChar(s: string, c: char): (i: nat)
    ensures i <= |s|
    ensures forall j :: 0 <= j < i ==> s[j] != c
    ensures i < |s| ==> s[i] == c
  {
    if s == [] then 0
    else if s[0] == c then 0
    else 1 + FindChar(s[1..], c)
  }

  /** `FindChar` finds the first `c`: the position of a `c` with no `c` before it. */
  lemma {:induction false} FindCharAt(s: string, c: char, i: nat)
    requires i < |s| && s[i] == c
    requires forall j :: 0 <= j < i ==> s[j] != c
    ensures FindChar(s, c) == i
  {
    if i > 0 {
      FindCharAt(s[1..], c, i - 1);
    }
  }

  /** A date, if it exists. */
  function Checked(y: int, m: int, d: int): (r: Option<Date>)
    ensures r.Some? ==> ValidDate(r.value)
  {
    if ValidDate(Date(y, m, d)) then Some(Date(y, m, d)) else None
  }

  /** `strptime(s, "%d/%m/%Y")`: day up to the first `/`, month up to the next, then the year to the end. */
  function ParseDayMonthYear(s: string): (r: Option<Date>)
    ensures r.Some? ==> ValidDate(r.value)
  {
    var i := FindChar(s, '/');
    if i == |s| then None
    else
      var rest := s[i + 1..];
      var j := FindChar(rest, '/');
      if j == |rest| then None
      else match (DayField(s[..i]), MonthField(rest[..j]), YearField(rest[j + 1..]))
        case (Some(d), Some(m), Some(y)) => Checked(y, m, d)
        case _ => None
  }

  /** `strptime(s, "%Y-%m-%d")`: four digits and a `-`, month up to the next `-`, then the day to the end. */
  function ParseYearMonthDay(s: string): (r: Option<Date>)
    ensures r.Some? ==> ValidDate(r.value)
  {
    if |s| < 5 || s[4] != '-' then None
    else
      var rest := s[5..];
      var j := FindChar(rest, '-');
      if j == |rest| then None
      else match (YearField(s[..4]), MonthField(rest[..j]), DayField(rest[j + 1..]))
        case (Some(y), Some(m), Some(d)) => Checked(y, m, d)
        case _ => None
  }

  /** Two digits, zero-padded. */
  function Pad2(n: int): (r: string)
    requires 0 <= n < 100
    ensures |r| == 2 && AllDigits(r)
  {
    [DigitChar(n / 10), DigitChar(n % 10)]
  }

  /** Four digits, zero-padded. */
  function Pad4(n: int): (r: string)
    requires 0 <= n < 10000
    ensures |r| == 4 && AllDigits(r)
  {
    [DigitChar(n / 10 / 10 / 10), DigitChar(n / 10 / 10 % 10), DigitChar(n / 10 % 10), DigitChar(n % 10)]
  }

  /** `strftime("%Y-%m-%d")`. */
  function Format(d: Date): (r: string)
    requires ValidDate(d)
    ensures |r| == 10 && r[4] == '-' && r[7] == '-'
  {
    Pad4(d.year) + "-" + Pad2(d.month) + "-" + Pad2(d.day)
  }

  /** The date `normalize_date` reads from a bill field, if any. */
  function NormalizedDate(v: Json): (r: Option<Date>)
    ensures r.Some? ==> ValidDate(r.value)
    ensures r.Some? ==> Truthy(v) && v.JStr?
  {
    if !Truthy(v) then None
    else match v
      case JStr(s) => if '/' in s then ParseDayMonthYear(s) else ParseYearMonthDay(s)
      case _ => None
  }

  /**
   * `normalize_date`: the ISO form of the date in `v`; `None` for a falsy value, a value
   * that is not a string, or text that does not parse to an existing date.
   */
  function NormalizeDate(v: Json): (r: Option<string>)
    ensures r.Some? <==> NormalizedDate(v).Some?
    ensures r.Some? ==> r.value == Format(NormalizedDate(v).value)
  {
    match NormalizedDate(v)
    case Some(d) => Some(Format(d))
    case None => None
  }

  lemma Pad2Fields(n: int)
    requires 1 <= n <= 31
    ensures DayField(Pad2(n)) == Some(n)
    ensures n <= 12 ==> MonthField(Pad2(n)) == Some(n)
  {
    var p := Pad2(n);
    assert DigitValue(p[0]) == n / 10 && DigitValue(p[1]) == n % 10;
  }

  lemma Pad4Field(n: int)
    requires 0 <= n < 10000
    ensures YearField(Pad4(n)) == Some(n)
  {
    var p := Pad4(n);
    var q1, q2 := n / 10, n / 10 / 10;
    assert n == q1 * 10 + n % 10 && q1 == q2 * 10 + q1 % 10 && q2 == q2 / 10 * 10 + q2 % 10;
    assert DigitValue(p[0]) == q2 / 10 && DigitValue(p[1]) == q2 % 10;
    assert DigitValue(p[2]) == q1 % 10 && DigitValue(p[3]) == n % 10;
  }

  /** The ISO text of an existing date reads back as that date. */
  lemma FormatParses(d: Date)
    requires ValidDate(d)
    ensures ParseYearMonthDay(Format(d)) == Some(d)
    ensures '/' !in Format(d)
  {
    var s := Format(d);
    Pad4Field(d.year);
    Pad2Fields(d.month);
    Pad2Fields(d.day);
    assert s[..4] == Pad4(d.year);
    var rest := s[5..];
    assert rest == Pad2(d.month) + "-" + Pad2(d.day);
    FindCharAt(rest, '-', 2);
    assert rest[..2] == Pad2(d.month) && rest[3..] == Pad2(d.day);
  }

  /** A date already in `yyyy-mm-dd` form is returned unchanged. */
  lemma CanonicalUnchanged(d: Date)
    requires ValidDate(d)
    ensures NormalizeDate(JStr(Format(d))) == Some(Format(d))
  {
    FormatParses(d);
  }

  /** A `dd/mm/yyyy` date is rewritten to `yyyy-mm-dd`. */
  lemma DayMonthYearRewritten(d: Date)
    requires ValidDate(d)
    ensures NormalizeDate(JStr(Pad2(d.day) + "/" + Pad2(d.month) + "/" + Pad4(d.year))) == Some(Format(d))
  {
    var s := Pad2(d.day) + "/" + Pad2(d.month) + "/" + Pad4(d.year);
    Pad4Field(d.year);
    Pad2Fields(d.month);
    Pad2Fields(d.day);
    assert '/' in s by { assert s[2] == '/'; }
    FindCharAt(s, '/', 2);
    var rest := s[3..];
    assert rest == Pad2(d.month) + "/" + Pad4(d.year);
    FindCharAt(rest, '/', 2);
    assert s[..2] == Pad2(d.day) && rest[..2] == Pad2(d.month) && rest[3..] == Pad4(d.year);
  }

  /** Normalising a normalised date changes nothing. */
  lemma NormalizeIdempotent(v: Json)
    requires NormalizeDate(v).Some?
    ensures NormalizeDate(JStr(NormalizeDate(v).value)) == NormalizeDate(v)
  {
    CanonicalUnchanged(NormalizedDate(v).value);
  }

  /** An empty or missing date, or one that is not text, gives `None`. */
  lemma NoDateWithoutText(v: Json)
    requires !Truthy(v) || !v.JStr?
    ensures NormalizeDate(v) == None
  {
  }

  /** February 29 exists only in a leap year. */
  lemma NonLeapDayExample()
    ensures NormalizeDate(JStr("2023-02-29")) == None
  {
    NonLeapDayRead();
    assert '/' !in "2023-02-29";
  }

  lemma NonLeapDayRead()
    ensures ParseYearMonthDay("2023-02-29") == None
  {
    var s := "2023-02-29";
    assert s[4] == '-' && s[5..] == "02-29" && s[..4] == "2023";
    FindCharAt("02-29", '-', 2);
    assert "02-29"[..2] == "02" && "02-29"[3..] == "29";
    assert YearField("2023") == Some(2023);
    assert MonthField("02") == Some(2);
    assert DayField("29") == Some(29);
    assert !IsLeapYear(2023);
  }

  lemma UnpaddedRead()
    ensures ParseYearMonthDay("2024-1-5") == Some(Date(2024, 1, 5))
  {
    var s := "2024-1-5";
    assert s[4] == '-' && s[5..] == "1-5" && s[..4] == "2024";
    FindCharAt("1-5", '-', 1);
    assert "1-5"[..1] == "1" && "1-5"[2..] == "5";
    assert YearField("2024") == Some(2024);
    assert MonthField("1") == Some(1);
    assert DayField("5") == Some(5);
  }

  /** Month and day may be written without zero padding; the output always pads them. */
  lemma UnpaddedExample()
    ensures NormalizeDate(JStr("2024-1-5")) == Some("2024-01-05")
  {
    UnpaddedRead();
    assert '/' !in "2024-1-5";
    assert Pad4(2024) == "2024" && Pad2(1) == "01" && Pad2(5) == "05";
    assert Format(Date(2024, 1, 5)) == "2024-01-05";
  }

  /** A month outside 1 to 12 gives `None`. */
  lemma BadMonthExample()
    ensures NormalizeDate(JStr("2024-13-01")) == None
  {
    BadMonthRead();
    assert '/' !in "2024-13-01";
  }

  lemma BadMonthRead()
    ensures ParseYearMonthDay("2024-13-01") == None
  {
    var s := "2024-13-01";
    assert s[4] == '-' && s[5..] == "13-01";
    FindCharAt("13-01", '-', 2);
    assert "13-01"[..2] == "13";
    assert MonthField("13") == None;
  }
}

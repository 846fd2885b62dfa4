/**
 * `validate_date_format` and `validate_url_format`: each passes or raises
 * `ValidationError`. Both are modelled the way the code computes them (a
 * regular expression under `re.match`, then `strptime` for dates) and are
 * proved equal to a direct description of the strings they accept.
 */
module Validators {
  import opened Wrappers
  import opened Errors
  import opened Text

  // ---------------------------------------------------------------- digits

  /** What `\d` matches, restricted to ASCII. */
  predicate IsDigit(c: char) {
    '0' <= c <= '9'
  }

  function DigitValue(c: char): (n: nat)
    requires IsDigit(c)
    ensures n < 10
  {
    c as int - '0' as int
  }

  function DigitChar(n: nat): (c: char)
    requires n < 10
    ensures IsDigit(c) && DigitValue(c) == n
  {
    ('0' as int + n) as char
  }

  /** The value of two decimal digits. */
  function Num2(s: string): (n: nat)
    requires |s| == 2 && IsDigit(s[0]) && IsDigit(s[1])
    ensures n < 100
  {
    10 * DigitValue(s[0]) + DigitValue(s[1])
  }

  /** The value of four decimal digits. */
  function Num4(s: string): (n: nat)
    requires |s| == 4 && IsDigit(s[0]) && IsDigit(s[1]) && IsDigit(s[2]) && IsDigit(s[3])
    ensures n < 10000
  {
    100 * Num2(s[0..2]) + Num2(s[2..4])
  }

  /** `n` written with exactly two digits, zero-padded. */
  function Pad2(n: nat): (s: string)
    requires n < 100
  {
    [DigitChar(n / 10), DigitChar(n % 10)]
  }

  /** `n` written with exactly four digits, zero-padded. */
  function Pad4(n: nat): (s: string)
    requires n < 10000
  {
    Pad2(n / 100) + Pad2(n % 100)
  }

  lemma Pad2Num2(s: string)
    requires |s| == 2 && IsDigit(s[0]) && IsDigit(s[1])
    ensures Pad2(Num2(s)) == s
  {
  }

  lemma Num2Pad2(n: nat)
    requires n < 100
    ensures Num2(Pad2(n)) == n
  {
  }

  lemma Pad4Num4(s: string)
    requires |s| == 4 && IsDigit(s[0]) && IsDigit(s[1]) && IsDigit(s[2]) && IsDigit(s[3])
    ensures Pad4(Num4(s)) == s
  {
    var high, low := Num2(s[0..2]), Num2(s[2..4]);
    assert Num4(s) == 100 * high + low;
    assert Num4(s) / 100 == high && Num4(s) % 100 == low;
    Pad2Num2(s[0..2]);
    Pad2Num2(s[2..4]);
    assert s == s[0..2] + s[2..4];
  }

  lemma Num4Pad4(n: nat)
    requires n < 10000
    ensures Num4(Pad4(n)) == n
  {
    var s := Pad4(n);
    assert s[0..2] == Pad2(n / 100) && s[2..4] == Pad2(n % 100);
    Num2Pad2(n / 100);
    Num2Pad2(n % 100);
  }

  // ----------------------------------------------------------------- dates

  datatype Date = Date(year: int, month: int, day: int)

  /** Gregorian leap years. */
  predicate IsLeapYear(y: int) {
    y % 4 == 0 && (y % 100 != 0 || y % 400 == 0)
  }

  function DaysInMonth(y: int, m: int): (n: int)
    requires 1 <= m <= 12
    ensures 28 <= n <= 31
    ensures n == 29 <==> m == 2 && IsLeapYear(y)
  {
    if m == 2 then (if IsLeapYear(y) then 29 else 28)
    else if m == 4 || m == 6 || m == 9 || m == 11 then 30
    else 31
  }

  /** A date `datetime.date` accepts: years 1 to 9999, real months and days. */
  predicate IsRealDate(d: Date) {
    && 1 <= d.year <= 9999
    && 1 <= d.month <= 12
    && 1 <= d.day <= DaysInMonth(d.year, d.month)
  }

  /**
   * `DATE_RE` (`^\d{4}-\d{2}-\d{2}$`) under `re.match`. Python's `$` also
   * matches just before a final newline, so an eleventh character `\n` is let
   * through here.
   */
  predicate MatchesDatePattern(s: string) {
    && (|s| == 10 || (|s| == 11 && s[10] == '\n'))
    && IsDigit(s[0]) && IsDigit(s[1]) && IsDigit(s[2]) && IsDigit(s[3])
    && s[4] == '-'
    && IsDigit(s[5]) && IsDigit(s[6])
    && s[7] == '-'
    && IsDigit(s[8]) && IsDigit(s[9])
  }

  /** The only string longer than ten characters the pattern admits is ten plus a newline. */
  lemma DatePatternTrailingNewline(s: string)
    ensures MatchesDatePattern(s + "\n") <==> |s| == 10 && MatchesDatePattern(s)
    ensures |s| > 11 ==> !MatchesDatePattern(s)
  {
    if |s| == 10 && MatchesDatePattern(s) {
      assert (s + "\n")[..10] == s;
    }
  }

  /**
   * `datetime.strptime(s, "%Y-%m-%d")` on a string the pattern admitted: a
   * leftover newline is "unconverted data", and the fields must name a date
   * that `datetime` can represent.
   */
  function Strptime(s: string): (r: Option<Date>)
    requires MatchesDatePattern(s)
    ensures r.Some? ==> IsRealDate(r.value)
  {
    if |s| != 10 then None
    else
      var d := Date(Num4(s[0..4]), Num2(s[5..7]), Num2(s[8..10]));
      if IsRealDate(d) then Some(d) else None
  }

  /** `validate_date_format`. */
  function ValidateDateFormat(s: string): (r: Outcome<Error>)
    ensures r.Fail? ==> r.error == Validation
  {
    if !MatchesDatePattern(s) then Fail(Validation)
    else if Strptime(s).None? then Fail(Validation)
    else Pass
  }

  /** The canonical `YYYY-MM-DD` spelling of a date. */
  function FormatDate(d: Date): (s: string)
    requires 0 <= d.year < 10000 && 0 <= d.month < 100 && 0 <= d.day < 100
    ensures |s| == 10
  {
    Pad4(d.year) + "-" + Pad2(d.month) + "-" + Pad2(d.day)
  }

  /** The strings that spell a real calendar date as `YYYY-MM-DD`. */
  ghost predicate IsDateLiteral(s: string) {
    exists d: Date :: IsRealDate(d) && FormatDate(d) == s
  }

  /** Every real date, written out, is accepted and read back as itself. */
  lemma DateRoundTrip(d: Date)
    requires IsRealDate(d)
    ensures MatchesDatePattern(FormatDate(d))
    ensures Strptime(FormatDate(d)) == Some(d)
    ensures ValidateDateFormat(FormatDate(d)) == Pass
  {
    var s := FormatDate(d);
    assert s[0..4] == Pad4(d.year);
    assert s[5..7] == Pad2(d.month);
    assert s[8..10] == Pad2(d.day);
    Num4Pad4(d.year);
    Num2Pad2(d.month);
    Num2Pad2(d.day);
  }

  /** Every accepted string is the spelling of the date it was read as. */
  lemma DateAcceptedIsFormatted(s: string)
    requires ValidateDateFormat(s) == Pass
    ensures MatchesDatePattern(s) && Strptime(s).Some?
    ensures FormatDate(Strptime(s).value) == s
  {
    var d := Strptime(s).value;
    Pad4Num4(s[0..4]);
    Pad2Num2(s[5..7]);
    Pad2Num2(s[8..10]);
    assert s == s[0..4] + "-" + s[5..7] + "-" + s[8..10];
  }

  /** `validate_date_format` accepts exactly the spellings of real dates. */
  lemma ValidateDateIff(s: string)
    ensures ValidateDateFormat(s) == Pass <==> IsDateLiteral(s)
  {
    if ValidateDateFormat(s) == Pass {
      DateAcceptedIsFormatted(s);
      assert IsRealDate(Strptime(s).value);
    }
    if IsDateLiteral(s) {
      var d: Date :| IsRealDate(d) && FormatDate(d) == s;
      DateRoundTrip(d);
    }
  }

  /** Leap days are accepted in leap years, including years divisible by 400. */
  lemma LeapDayExamples()
    ensures ValidateDateFormat("2024-02-29") == Pass
    ensures ValidateDateFormat("2000-02-29") == Pass
  {
    DateRoundTrip(Date(2024, 2, 29));
    assert FormatDate(Date(2024, 2, 29)) == "2024-02-29";
    DateRoundTrip(Date(2000, 2, 29));
    assert FormatDate(Date(2000, 2, 29)) == "2000-02-29";
  }

  /** Impossible days pass the pattern but not `strptime`. */
  lemma ImpossibleDayExamples()
    ensures MatchesDatePattern("2024-02-30") && ValidateDateFormat("2024-02-30").Fail?
    ensures MatchesDatePattern("2023-02-29") && ValidateDateFormat("2023-02-29").Fail?
    ensures MatchesDatePattern("1900-02-29") && ValidateDateFormat("1900-02-29").Fail?
  {
    var notLeap := "1900-02-29";
    assert Num4(notLeap[0..4]) == 1900 && !IsLeapYear(1900);
  }

  /** A one-digit month or day does not match the pattern. */
  lemma MalformedDateExamples()
    ensures !MatchesDatePattern("2024-1-01") && ValidateDateFormat("2024-1-01").Fail?
    ensures !MatchesDatePattern("2024-01-1") && ValidateDateFormat("2024-01-1").Fail?
  {
  }

  /** Month 13, year zero and the newline `$` lets through match the pattern but fail `strptime`. */
  lemma UnparsableDateExamples()
    ensures MatchesDatePattern("2024-13-01") && ValidateDateFormat("2024-13-01").Fail?
    ensures MatchesDatePattern("0000-01-01") && ValidateDateFormat("0000-01-01").Fail?
    ensures MatchesDatePattern("2024-01-01\n") && ValidateDateFormat("2024-01-01\n").Fail?
  {
  }

  // ------------------------------------------------------------------ URLs

  predicate HasPrefix(s: string, p: string) {
    |p| <= |s| && s[..|p|] == p
  }

  /**
   * How much of `s` the `^https?://` part of `URL_RE` consumes; 0 when it
   * does not match. Trying `https://` first and `http://` second is the
   * backtracking of the greedy `s?`.
   */
  function SchemeLength(s: string): (n: nat)
    ensures n == 0 || n == 7 || n == 8
  {
    if HasPrefix(s, "https://") then 8
    else if HasPrefix(s, "http://") then 7
    else 0
  }

  /** Where the greedy run of `\S` that starts at `i` ends. */
  function NonSpaceRunEnd(s: string, i: nat): (k: nat)
    requires i <= |s|
    ensures i <= k <= |s|
    ensures NoSpace(s[i..k])
    ensures k == |s| || IsSpace(s[k])
    decreases |s| - i
  {
    if i < |s| && !IsSpace(s[i]) then NonSpaceRunEnd(s, i + 1) else i
  }

  /** Python's `$`: the end of the string, or just before a final newline. */
  predicate AtEnd(s: string, k: nat) {
    k == |s| || (k == |s| - 1 && s[k] == '\n')
  }

  /** `validate_url_format`: `URL_RE` (`^https?://\S+$`) under `re.match`. */
  function ValidateUrlFormat(url: string): (r: Outcome<Error>)
    ensures r.Fail? ==> r.error == Validation
  {
    var p := SchemeLength(url);
    if p == 0 then Fail(Validation)
    else
      var k := NonSpaceRunEnd(url, p);
      if p < k && AtEnd(url, k) then Pass else Fail(Validation)
  }

  /** What may follow the scheme: non-whitespace, optionally one final newline. */
  predicate IsUrlTail(t: string) {
    || (|t| >= 1 && NoSpace(t))
    || (|t| >= 2 && t[|t| - 1] == '\n' && NoSpace(t[..|t| - 1]))
  }

  /** `http://` or `https://` followed by one or more non-whitespace characters. */
  predicate IsHttpUrl(s: string) {
    || (HasPrefix(s, "http://") && IsUrlTail(s[7..]))
    || (HasPrefix(s, "https://") && IsUrlTail(s[8..]))
  }

  /** `validate_url_format` accepts exactly the `http(s)://` strings described above. */
  lemma ValidateUrlIff(s: string)
    ensures ValidateUrlFormat(s) == Pass <==> IsHttpUrl(s)
  {
    var p := SchemeLength(s);
    if p != 0 {
      var k := NonSpaceRunEnd(s, p);
      var t := s[p..];
      assert s[p..k] == t[..k - p];
      if ValidateUrlFormat(s) == Pass {
        if k == |s| {
          assert t[..k - p] == t;
        } else {
          assert t[..|t| - 1] == s[p..k];
        }
        assert IsUrlTail(t);
      }
      if IsUrlTail(t) && k < |s| {
        assert s[k] == t[k - p];
      }
    }
    if HasPrefix(s, "http://") {
      assert s[4] == ':';
      assert p == 7;
    } else if HasPrefix(s, "https://") {
      assert p == 8;
    }
  }

  /** Both schemes, and the final newline that `$` lets through. */
  lemma AcceptedUrlExamples()
    ensures ValidateUrlFormat("http://x") == Pass
    ensures ValidateUrlFormat("https://x") == Pass
    ensures ValidateUrlFormat("http://x\n") == Pass
  {
    assert NonSpaceRunEnd("http://x", 7) == 8;
    assert NonSpaceRunEnd("https://x", 8) == 9;
    assert NonSpaceRunEnd("http://x\n", 7) == 8;
  }

  /** A bare scheme, whitespace inside or after the URL, and another scheme. */
  lemma RejectedUrlExamples()
    ensures ValidateUrlFormat("http://").Fail?
    ensures ValidateUrlFormat("https://").Fail?
    ensures ValidateUrlFormat("http://a b").Fail?
    ensures ValidateUrlFormat("http://x\n\n").Fail?
    ensures ValidateUrlFormat("ftp://x").Fail?
  {
    assert NonSpaceRunEnd("http://a b", 7) == 8;
    assert NonSpaceRunEnd("http://x\n\n", 7) == 8;
  }
}

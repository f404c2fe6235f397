/**
 * Small helpers of util/util.go: the referral-code generator and the parser
 * of expiry settings such as "7d".
 *
 * Instants and durations are integers counting nanoseconds (instants from the
 * Unix epoch). The clock, the random source and time.ParseDuration are
 * parameters.
 */
module Util {
  import opened Wrappers
  import opened Seqs

  const Hour: int := 3_600_000_000_000
  const Day: int := 24 * Hour

  /** time.Time{}, midnight of January 1 of year 1 UTC, as nanoseconds from the Unix epoch. */
  const ZeroTime: int := -62_135_596_800 * 1_000_000_000

  const MinInt64: int := -0x8000_0000_0000_0000
  const MaxInt64: int := 0x7FFF_FFFF_FFFF_FFFF

  // ---------------------------------------------------------------------------
  // GenerateUniqueCode
  // ---------------------------------------------------------------------------

  const Charset: string := "abcdefghijklmnopqrstuvwxyzABCDEFGHIJKLMNOPQRSTUVWXYZ0123456789"
  const CodeLength: nat := 10

  /** A value r.Intn(len(charset)) can return. */
  type CharIndex = i: int | 0 <= i < 62

  /** The shape of every code the generator produces. */
  predicate IsCode(s: string)
  {
    |s| == CodeLength && forall i :: 0 <= i < |s| ==> s[i] in Charset
  }

  /** The code spelled by the first ten draws of the random source. */
  function CodeFromDraws(intn: nat -> CharIndex): (code: string)
    ensures IsCode(code)
  {
    seq(CodeLength, i requires 0 <= i < CodeLength => Charset[intn(i)])
  }

  /**
   * Fills a ten-character buffer, position by position, with the charset
   * character at the index drawn from the random source; `intn(i)` is the
   * i-th call of r.Intn(62).
   */
  method GenerateUniqueCode(intn: nat -> CharIndex) returns (code: string)
    ensures |code| == CodeLength
    ensures forall i :: 0 <= i < |code| ==> code[i] == Charset[intn(i)]
    ensures code == CodeFromDraws(intn)
  {
    var url := new char[CodeLength];
    for i := 0 to CodeLength
      invariant forall k :: 0 <= k < i ==> url[k] == Charset[intn(k)]
    {
      url[i] := Charset[intn(i)];
    }
    code := url[..];
  }

  /** The position of a charset character, the draw that selects it. */
  function IndexInCharset(c: char): (k: CharIndex)
    requires c in Charset
    ensures Charset[k] == c
  {
    FirstIndex(Charset, (x: char) => x == c).value
  }

  /** Draws that select the characters of `code`, one per position. */
  function DrawsFor(code: string): nat -> CharIndex
    requires IsCode(code)
  {
    (k: nat) => if k < |code| then IndexInCharset(code[k]) else 0
  }

  /** Every well-shaped code is produced by some sequence of draws. */
  lemma {:induction false} EveryCodeIsGenerated(code: string)
    requires IsCode(code)
    ensures CodeFromDraws(DrawsFor(code)) == code
  {
    var intn := DrawsFor(code);
    forall i | 0 <= i < CodeLength
      ensures CodeFromDraws(intn)[i] == code[i]
    {
      assert code[i] in Charset;
    }
  }

  // ---------------------------------------------------------------------------
  // strconv.Atoi and ParseDurationString
  // ---------------------------------------------------------------------------

  predicate IsDigit(c: char)
  {
    '0' <= c <= '9'
  }

  predicate AllDigits(s: string)
  {
    forall i :: 0 <= i < |s| ==> IsDigit(s[i])
  }

  function DigitValue(c: char): nat
    requires IsDigit(c)
  {
    c as int - '0' as int
  }

  /** The number a string of decimal digits denotes. */
  function DigitsValue(s: string): nat
    requires AllDigits(s)
  {
    if |s| == 0 then 0 else 10 * DigitsValue(s[..|s| - 1]) + DigitValue(s[|s| - 1])
  }

  /** The part of `s` after an optional leading '+' or '-'. */
  function Unsigned(s: string): string
  {
    if |s| > 0 && (s[0] == '-' || s[0] == '+') then s[1..] else s
  }

  /** An optional sign followed by at least one decimal digit. */
  predicate IsDecimal(s: string)
  {
    |Unsigned(s)| > 0 && AllDigits(Unsigned(s))
  }

  /** The signed value a decimal string denotes (leading zeros allowed). */
  function DecimalValue(s: string): int
    requires IsDecimal(s)
  {
    if s[0] == '-' then -(DigitsValue(Unsigned(s)) as int) else DigitsValue(Unsigned(s))
  }

  /**
   * strconv.Atoi on a 64-bit platform: an optional sign and at least one
   * decimal digit, denoting a value in the int64 range; anything else is a
   * syntax or range error.
   */
  function Atoi(s: string): (r: Option<int>)
    ensures r.Some? <==> IsDecimal(s) && MinInt64 <= DecimalValue(s) <= MaxInt64
    ensures r.Some? ==> |s| > 0 && r.value == DecimalValue(s)
    ensures r.Some? ==> MinInt64 <= r.value <= MaxInt64
  {
    if IsDecimal(s) && MinInt64 <= DecimalValue(s) <= MaxInt64 then Some(DecimalValue(s)) else None
  }

  /** A '+' sign and leading zeros are accepted; a trailing non-digit or an empty string is not. */
  lemma AtoiAcceptsSignAndLeadingZeros()
    ensures Atoi("+7") == Some(7) && Atoi("07") == Some(7) && Atoi("-07") == Some(-7)
    ensures Atoi("-0") == Some(0)
    ensures Atoi("7a").None? && Atoi("").None? && Atoi("-").None?
  {
    assert Unsigned("+7") == "7" && Unsigned("-07") == "07";
    assert DigitsValue("07") == 10 * DigitsValue("0") + 7;
    assert !AllDigits("7a") by { assert !IsDigit("7a"[1]); }
  }

  /** Decimal rendering of a natural number (strconv.Itoa for n >= 0). */
  function Digits(n: nat): (s: string)
    ensures |s| > 0 && AllDigits(s)
  {
    if n < 10 then [('0' as int + n) as char]
    else Digits(n / 10) + [('0' as int + n % 10) as char]
  }

  /** strconv.Itoa. */
  function Itoa(n: int): string
  {
    if n < 0 then "-" + Digits(-n) else Digits(n)
  }

  lemma {:induction false} DigitsRoundTrip(n: nat)
    ensures DigitsValue(Digits(n)) == n
  {
    var s := Digits(n);
    if n >= 10 {
      DigitsRoundTrip(n / 10);
      assert s[..|s| - 1] == Digits(n / 10);
    }
  }

  /** Atoi reads back every int64 that Itoa writes. */
  lemma AtoiItoaRoundTrip(n: int)
    requires MinInt64 <= n <= MaxInt64
    ensures Atoi(Itoa(n)) == Some(n)
  {
    var s := Itoa(n);
    if n < 0 {
      DigitsRoundTrip(-n);
      assert s[1..] == Digits(-n);
      assert Unsigned(s) == Digits(-n);
      assert DecimalValue(s) == n;
    } else {
      DigitsRoundTrip(n);
      var d := Digits(n);
      assert IsDigit(d[0]);
      assert Unsigned(s) == d;
      assert DecimalValue(s) == n;
    }
  }

  /** Two's-complement wrap-around of int64 arithmetic. */
  function Wrap64(x: int): (r: int)
    ensures MinInt64 <= r <= MaxInt64
    ensures MinInt64 <= x <= MaxInt64 ==> r == x
    ensures (x - r) % 0x1_0000_0000_0000_0000 == 0
  {
    var m := x % 0x1_0000_0000_0000_0000;
    if m <= MaxInt64 then m else m - 0x1_0000_0000_0000_0000
  }

  /** time.Duration(value) * 24 * time.Hour, each product wrapping as int64 does. */
  function DaysDuration(value: int): (d: int)
    ensures MinInt64 <= d <= MaxInt64
    ensures -MaxDays <= value <= MaxDays ==> d == value * Day
  {
    Wrap64(Wrap64(value * 24) * Hour)
  }

  /** What the failing branches of ParseDurationString report. */
  datatype ParseFailure = AtoiFailed | ParseDurationFailed

  /** Go's (time.Time, error) pair. */
  datatype TimeOrError = TimeOrError(t: int, err: Option<ParseFailure>)

  predicate HasDaySuffix(s: string)
  {
    |s| > 0 && s[|s| - 1] == 'd'
  }

  /**
   * A duration setting turned into an absolute instant after `now`. A string
   * ending in 'd' is a day count read by Atoi; any other string goes to the
   * standard duration parser `parseDuration` (time.ParseDuration). Every
   * error comes with the zero time.
   */
  function ParseDurationString(s: string, now: int, parseDuration: string -> Option<int>): (r: TimeOrError)
    ensures r.err.Some? ==> r.t == ZeroTime
    ensures HasDaySuffix(s) ==> (r.err == Some(AtoiFailed) <==> Atoi(s[..|s| - 1]).None?)
    ensures !HasDaySuffix(s) ==> (r.err == Some(ParseDurationFailed) <==> parseDuration(s).None?)
    ensures HasDaySuffix(s) && Atoi(s[..|s| - 1]).Some? ==>
      r == TimeOrError(now + DaysDuration(Atoi(s[..|s| - 1]).value), None)
    ensures !HasDaySuffix(s) && parseDuration(s).Some? ==> r == TimeOrError(now + parseDuration(s).value, None)
  {
    if HasDaySuffix(s) then
      match Atoi(s[..|s| - 1])
      case None => TimeOrError(ZeroTime, Some(AtoiFailed))
      case Some(value) => TimeOrError(now + DaysDuration(value), None)
    else
      match parseDuration(s)
      case None => TimeOrError(ZeroTime, Some(ParseDurationFailed))
      case Some(d) => TimeOrError(now + d, None)
  }

  /** The largest day count whose duration fits in an int64. */
  const MaxDays: int := 106_751

  /** "Nd" for any int64 day count N written in decimal: N days after now, wrapped as int64. */
  lemma DayCountSetting(n: int, now: int, parseDuration: string -> Option<int>)
    requires MinInt64 <= n <= MaxInt64
    ensures ParseDurationString(Itoa(n) + "d", now, parseDuration) == TimeOrError(now + DaysDuration(n), None)
    ensures -MaxDays <= n <= MaxDays ==>
      ParseDurationString(Itoa(n) + "d", now, parseDuration) == TimeOrError(now + n * Day, None)
  {
    var s := Itoa(n) + "d";
    assert s[..|s| - 1] == Itoa(n);
    AtoiItoaRoundTrip(n);
  }

  /** "7d", "+7d" and "07d" all set an instant exactly seven days after now. */
  lemma SevenDaySettings(now: int, parseDuration: string -> Option<int>)
    ensures ParseDurationString("7d", now, parseDuration) == TimeOrError(now + 7 * Day, None)
    ensures ParseDurationString("+7d", now, parseDuration) == TimeOrError(now + 7 * Day, None)
    ensures ParseDurationString("07d", now, parseDuration) == TimeOrError(now + 7 * Day, None)
  {
    AtoiAcceptsSignAndLeadingZeros();
    assert "+7d"[..2] == "+7" && "07d"[..2] == "07" && "7d"[..1] == "7";
    assert Atoi("7") == Some(7) by { assert Unsigned("7") == "7"; }
  }

  /** A 'd'-suffixed string never reaches the standard parser. */
  lemma DaySuffixIgnoresStandardParser(s: string, now: int, p1: string -> Option<int>, p2: string -> Option<int>)
    requires HasDaySuffix(s)
    ensures ParseDurationString(s, now, p1) == ParseDurationString(s, now, p2)
  {
  }

  /** "d" alone has an empty day count, which Atoi rejects. */
  lemma BareDayUnitIsRejected(now: int, parseDuration: string -> Option<int>)
    ensures ParseDurationString("d", now, parseDuration) == TimeOrError(ZeroTime, Some(AtoiFailed))
  {
  }

  /** Day counts past MaxDays overflow silently: one day more than MaxDays lands before now. */
  lemma DayCountOverflowWraps(now: int, parseDuration: string -> Option<int>)
    ensures ParseDurationString(Itoa(MaxDays + 1) + "d", now, parseDuration).err.None?
    ensures ParseDurationString(Itoa(MaxDays + 1) + "d", now, parseDuration).t < now
  {
    DayCountSetting(MaxDays + 1, now, parseDuration);
  }
}

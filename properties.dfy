/** The two message properties both publish paths compute before handing a message to the
    transport (messaging.go:152-159, exchange.go:52-59): the automatic timestamp and the
    expiration, which AMQP carries as a decimal count of milliseconds. */
module Properties {
  import opened Transport

  const NanosPerMilli: nat := 1_000_000

  /** `time.Duration.Milliseconds()`: Go's integer division, which truncates toward zero. */
  function Milliseconds(d: Duration): (ms: int)
    ensures d >= 0 ==> 0 <= ms && ms * NanosPerMilli <= d < (ms + 1) * NanosPerMilli
    ensures d < 0 ==> ms <= 0 && (ms - 1) * NanosPerMilli < d <= ms * NanosPerMilli
  {
    if d >= 0 then d / NanosPerMilli else -((-d) / NanosPerMilli)
  }

  predicate IsDigit(c: char)
  {
    '0' <= c <= '9'
  }

  function DigitChar(v: nat): (c: char)
    requires v < 10
    ensures IsDigit(c) && c as int - '0' as int == v
  {
    ['0', '1', '2', '3', '4', '5', '6', '7', '8', '9'][v]
  }

  /** A decimal numeral as `strconv.FormatInt(n, 10)` writes a non-negative number: digits
      only, and no leading zero unless the number is zero itself. */
  predicate IsCanonicalDecimal(s: string)
  {
    |s| > 0 && (forall i :: 0 <= i < |s| ==> IsDigit(s[i])) && (|s| > 1 ==> s[0] != '0')
  }

  /** `strconv.FormatInt(n, 10)` for `n >= 0`. */
  function Decimal(n: nat): (s: string)
    ensures IsCanonicalDecimal(s)
  {
    if n < 10 then [DigitChar(n)] else Decimal(n / 10) + [DigitChar(n % 10)]
  }

  /** The value of a string of decimal digits, most significant first. */
  function ParseDecimal(s: string): nat
    requires forall i :: 0 <= i < |s| ==> IsDigit(s[i])
  {
    if s == [] then 0
    else 10 * ParseDecimal(s[..|s| - 1]) + DigitValue(s[|s| - 1])
  }

  function DigitValue(c: char): (v: nat)
    requires IsDigit(c)
    ensures v < 10 && DigitChar(v) == c
  {
    c as int - '0' as int
  }

  /** Reading the numeral back gives the number it was written from. */
  lemma {:induction false} ParseDecimalOfDecimal(n: nat)
    ensures ParseDecimal(Decimal(n)) == n
  {
    if n >= 10 {
      var s := Decimal(n);
      assert s[..|s| - 1] == Decimal(n / 10);
      ParseDecimalOfDecimal(n / 10);
    }
  }

  /** A canonical numeral with a first digit other than 0 denotes a positive number. */
  lemma {:induction false} ParseDecimalPositive(s: string)
    requires IsCanonicalDecimal(s) && s[0] != '0'
    ensures ParseDecimal(s) > 0
  {
    if |s| > 1 {
      ParseDecimalPositive(s[..|s| - 1]);
    }
  }

  /** Every canonical numeral is what `Decimal` writes for its value: `Decimal` is a bijection
      onto canonical numerals. */
  lemma {:induction false} DecimalOfParseDecimal(s: string)
    requires IsCanonicalDecimal(s)
    ensures Decimal(ParseDecimal(s)) == s
  {
    var n := |s|;
    if n > 1 {
      var front := s[..n - 1];
      ParseDecimalPositive(front);
      DecimalOfParseDecimal(front);
      var v := ParseDecimal(s);
      assert v / 10 == ParseDecimal(front) && v % 10 == DigitValue(s[n - 1]);
      assert s == front + [s[n - 1]];
    }
  }

  /** The `Expiration` property sent for a message: empty when the duration is not positive,
      otherwise the duration in whole milliseconds, rounded toward zero, as a decimal numeral. */
  function Expiration(d: Duration): (s: string)
    ensures s == "" <==> d <= 0
    ensures d > 0 ==> IsCanonicalDecimal(s)
  {
    if d > 0 then Decimal(Milliseconds(d)) else ""
  }

  /** A positive expiration is sent as the canonical numeral of its whole milliseconds. */
  lemma ExpirationValue(d: Duration)
    requires d > 0
    ensures IsCanonicalDecimal(Expiration(d))
    ensures ParseDecimal(Expiration(d)) == d / NanosPerMilli
  {
    ParseDecimalOfDecimal(d / NanosPerMilli);
  }

  /** A positive duration under one millisecond still sets an expiration, of "0". */
  lemma SubMillisecondExpiration(d: Duration)
    requires 0 < d < NanosPerMilli
    ensures Expiration(d) == "0"
  {
  }

  /** The timestamp a message is published with: the caller's, unless automatic timestamps are
      on and the caller left it zero, in which case the current time. */
  function FillTimestamp(autoTimestamp: bool, timestamp: Time, now: Time): (t: Time)
    ensures timestamp != 0 ==> t == timestamp
    ensures t != timestamp ==> autoTimestamp && timestamp == 0 && t == now
    ensures autoTimestamp && timestamp == 0 ==> t == now
  {
    if autoTimestamp && timestamp == 0 then now else timestamp
  }

  /** Filling is idempotent: a message that went through it once is not changed again
      (a clock never reads Go's zero instant). */
  lemma FillTimestampIdempotent(autoTimestamp: bool, timestamp: Time, now: Time, later: Time)
    requires now != 0
    ensures FillTimestamp(autoTimestamp, FillTimestamp(autoTimestamp, timestamp, now), later)
         == FillTimestamp(autoTimestamp, timestamp, now)
  {
  }
}

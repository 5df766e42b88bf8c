/**
 * Where the script writes its CSV files: `year/<key>.csv` for each period,
 * where `<key>` is Python's `str` of the period's key, and `data.csv` for
 * the aggregate.
 */
module Paths {
  import opened Wrappers

  /** A period's key as read from the corpus: an integer year or a text label. */
  datatype Key = Year(n: int) | Label(s: string)

  /** The file the aggregate of all periods is written to. */
  const AggregatePath: string := "data.csv"

  const PathPrefix: string := "year/"
  const PathSuffix: string := ".csv"

  function DigitChar(d: nat): (c: char)
    requires d < 10
    ensures '0' <= c <= '9'
  {
    ('0' as int + d) as char
  }

  function DigitValue(c: char): (d: nat)
    requires '0' <= c <= '9'
    ensures d < 10 && DigitChar(d) == c
  {
    c as int - '0' as int
  }

  /** Decimal digits of a natural number, most significant first, no leading zero. */
  function Digits(n: nat): (s: string)
    ensures |s| >= 1
    ensures forall k :: 0 <= k < |s| ==> '0' <= s[k] <= '9'
    ensures s[0] == '0' ==> n == 0
  {
    if n < 10 then [DigitChar(n)] else Digits(n / 10) + [DigitChar(n % 10)]
  }

  /** `str(n)` for a Python integer: a minus sign for negatives, then the digits. */
  function IntText(n: int): string {
    if n < 0 then "-" + Digits(-n) else Digits(n)
  }

  /** `str(key)`. */
  function KeyText(k: Key): string {
    match k
    case Year(n) => IntText(n)
    case Label(s) => s
  }

  /** The value of a string of decimal digits, or None if it is not one. */
  function ParseDigits(s: string): Option<nat>
    decreases |s|
  {
    if |s| == 0 || !('0' <= s[|s| - 1] <= '9') then None
    else if |s| == 1 then Some(DigitValue(s[0]))
    else match ParseDigits(s[..|s| - 1])
      case None => None
      case Some(v) => Some(v * 10 + DigitValue(s[|s| - 1]))
  }

  /** Reads back the text `str` gives for an integer. */
  function ParseInt(s: string): Option<int> {
    if |s| > 0 && s[0] == '-' then
      match ParseDigits(s[1..])
      case None => None
      case Some(v) => Some(-(v as int))
    else ParseDigits(s)
  }

  /** `r'year/' + str(key) + r'.csv'` */
  function PeriodPath(k: Key): string {
    PathPrefix + KeyText(k) + PathSuffix
  }

  /** The key text a period path was built from, or None if it is not such a path. */
  function KeyTextOfPath(p: string): Option<string> {
    if |p| >= |PathPrefix| + |PathSuffix| && p[..|PathPrefix|] == PathPrefix && p[|p| - |PathSuffix|..] == PathSuffix
    then Some(p[|PathPrefix|..|p| - |PathSuffix|])
    else None
  }

  /** Reading the digits of `n` back gives `n`. */
  lemma {:induction false} DigitsRoundTrip(n: nat)
    ensures ParseDigits(Digits(n)) == Some(n)
  {
    if n >= 10 {
      var s := Digits(n);
      DigitsRoundTrip(n / 10);
      assert s[..|s| - 1] == Digits(n / 10);
    }
  }

  /** `int(str(n)) == n`: the decimal text of every integer reads back as that integer. */
  lemma {:induction false} IntTextRoundTrip(n: int)
    ensures ParseInt(IntText(n)) == Some(n)
  {
    var s := IntText(n);
    if n < 0 {
      var d := Digits(-n);
      assert s == "-" + d;
      assert s[1..] == d;
      DigitsRoundTrip(-n);
      assert ParseDigits(s[1..]) == Some(-n);
    } else {
      var d := Digits(n);
      assert s == d;
      assert '0' <= d[0] <= '9';
      DigitsRoundTrip(n);
    }
  }

  /**
   * A period path starts with `year/`, ends with `.csv`, and between them
   * holds exactly `str(key)`.
   */
  lemma {:induction false} PeriodPathRoundTrip(k: Key)
    ensures KeyTextOfPath(PeriodPath(k)) == Some(KeyText(k))
  {
  }

  /** Two different years are written to two different files. */
  lemma {:induction false} YearPathsDistinct(a: int, b: int)
    requires a != b
    ensures PeriodPath(Year(a)) != PeriodPath(Year(b))
  {
    PeriodPathRoundTrip(Year(a));
    PeriodPathRoundTrip(Year(b));
    IntTextRoundTrip(a);
    IntTextRoundTrip(b);
  }

  /** No period file is the aggregate file, so per-period output never overwrites it. */
  lemma {:induction false} PeriodPathIsNotAggregate(k: Key)
    ensures PeriodPath(k) != AggregatePath
  {
  }
}

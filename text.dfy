/**
 * Decimal rendering of integers as the feedback texts use it: Python's
 * format with 'd' and '+d', and JavaScript's conversion of an integer in a
 * template string, which renders like 'd'.
 */
module Text {

  function Digit(d: nat): (c: char)
    requires d < 10
    ensures '0' <= c <= '9'
  {
    (('0' as int) + d) as char
  }

  predicate IsDigit(c: char)
  {
    '0' <= c <= '9'
  }

  predicate AllDigits(s: string)
  {
    forall i :: 0 <= i < |s| ==> IsDigit(s[i])
  }

  /** The digits of n, most significant first, without leading zeros. */
  function Decimal(n: nat): (s: string)
    ensures |s| > 0 && AllDigits(s)
    ensures |s| > 1 ==> s[0] != '0'
    decreases n
  {
    if n < 10 then [Digit(n)] else Decimal(n / 10) + [Digit(n % 10)]
  }

  /** Reading a string of digits back as a number. */
  function ParseDecimal(s: string): nat
    requires AllDigits(s)
  {
    if s == [] then 0 else ParseDecimal(s[..|s| - 1]) * 10 + (s[|s| - 1] as int - '0' as int)
  }

  lemma {:induction false} DecimalRoundTrip(n: nat)
    ensures ParseDecimal(Decimal(n)) == n
    decreases n
  {
    if n >= 10 {
      DecimalRoundTrip(n / 10);
      var s := Decimal(n);
      assert s[..|s| - 1] == Decimal(n / 10);
    }
  }

  /** format(n, 'd'): a minus sign before negative numbers only. */
  function IntText(n: int): (s: string)
    ensures |s| > 0 && (s[0] == '-' <==> n < 0)
  {
    if n < 0 then "-" + Decimal(-n) else Decimal(n)
  }

  /** format(n, '+d'): a sign before every number, '+' before zero. */
  function SignedText(n: int): (s: string)
    ensures |s| > 1 && AllDigits(s[1..])
    ensures s[0] == (if n < 0 then '-' else '+')
  {
    (if n < 0 then "-" else "+") + Decimal(if n < 0 then -n else n)
  }

  /** Reading an optionally signed decimal back. */
  function ParseInt(s: string): int
    requires |s| > 0
    requires if s[0] == '-' || s[0] == '+' then AllDigits(s[1..]) else AllDigits(s)
  {
    if s[0] == '-' then -(ParseDecimal(s[1..]) as int)
    else if s[0] == '+' then ParseDecimal(s[1..])
    else ParseDecimal(s)
  }

  /** Both renderings lose nothing: the number reads back unchanged. */
  lemma IntTextRoundTrip(n: int)
    ensures ParseInt(SignedText(n)) == n
    ensures ParseInt(IntText(n)) == n
  {
    var m := if n < 0 then -n else n;
    DecimalRoundTrip(m);
    assert SignedText(n)[1..] == Decimal(m);
    if n < 0 {
      assert IntText(n)[1..] == Decimal(m);
    } else {
      var d := Decimal(m);
      assert d[0] != '-' && d[0] != '+';
    }
  }

  lemma NoNewlineInDecimal(n: nat)
    ensures '\n' !in Decimal(n)
  {
  }

  /** The JavaScript template `+${points} Cent` of the monetary feedback. */
  function CentText(points: int): (s: string)
    ensures |s| > 6 && s[0] == '+' && s[|s| - 5..] == " Cent"
    ensures s[1..|s| - 5] == IntText(points)
  {
    var s := "+" + IntText(points) + " Cent";
    assert s[1..|s| - 5] == IntText(points);
    s
  }

  /** The amount reads back from the text between the '+' and " Cent". */
  lemma CentTextReadsBack(points: int)
    ensures var s := CentText(points); ParseInt(s[1..|s| - 5]) == points
  {
    IntTextRoundTrip(points);
  }
}

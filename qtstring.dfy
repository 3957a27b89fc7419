/** The Qt string primitives the protocol layer and the card model rely on:
    `QString::number(int)` (decimal text of a 32-bit int) and `QString::toInt`
    (strict decimal parsing with an `ok` flag, or 0 when no flag is asked for). */
module QtString {

  datatype Option<T> = None | Some(value: T)

  const MinInt32: int := -0x8000_0000
  const MaxInt32: int := 0x7fff_ffff

  /** The C++ `int` of the platform the server runs on. */
  newtype int32 = x: int | -0x8000_0000 <= x < 0x8000_0000

  predicate IsDigit(ch: char) { '0' <= ch <= '9' }

  function DigitValue(ch: char): (d: nat)
    requires IsDigit(ch)
    ensures d < 10
  {
    ch as int - '0' as int
  }

  function DigitChar(d: nat): (ch: char)
    requires d < 10
    ensures IsDigit(ch) && DigitValue(ch) == d
  {
    ('0' as int + d) as char
  }

  predicate AllDigits(s: string) {
    forall i :: 0 <= i < |s| ==> IsDigit(s[i])
  }

  /** The value of a run of decimal digits, most significant first. */
  function DigitsValue(s: string): nat
    requires AllDigits(s)
  {
    if s == [] then 0 else DigitsValue(s[..|s| - 1]) * 10 + DigitValue(s[|s| - 1])
  }

  /** The shortest decimal text of a natural number (no leading zeros). */
  function NatDigits(n: nat): (s: string)
    ensures |s| > 0 && AllDigits(s)
    ensures n > 0 ==> s[0] != '0'
  {
    if n < 10 then [DigitChar(n)] else NatDigits(n / 10) + [DigitChar(n % 10)]
  }

  /** `QString::number(int)`: an optional minus sign followed by the digits of the magnitude. */
  function Number(i: int32): (s: string)
    ensures |s| > 0
    ensures s[0] == '-' <==> i < 0
    ensures AllDigits(if i < 0 then s[1..] else s)
  {
    if i < 0 then "-" + NatDigits(-(i as int)) else NatDigits(i as int)
  }

  /** Length of the optional leading sign accepted by `toInt`. */
  function SignLength(s: string): (k: nat)
    ensures k <= |s| && k <= 1
  {
    if |s| > 0 && (s[0] == '+' || s[0] == '-') then 1 else 0
  }

  /** `QString::toInt(&ok)` in base 10: an optional sign and at least one digit,
      whose value must fit in a 32-bit int; anything else is rejected (`ok` false). */
  function ToInt(s: string): (r: Option<int32>)
    ensures r.Some? ==> |s| > SignLength(s) && AllDigits(s[SignLength(s)..])
  {
    var k := SignLength(s);
    var digits := s[k..];
    if digits == [] || !AllDigits(digits) then None
    else
      var v: int := if k == 1 && s[0] == '-' then -(DigitsValue(digits) as int) else DigitsValue(digits);
      if MinInt32 <= v <= MaxInt32 then Some(v as int32) else None
  }

  /** `QString::toInt()` with no `ok` flag: a rejected text reads as 0. */
  function ToIntOrZero(s: string): int32
  {
    match ToInt(s)
    case Some(v) => v
    case None => 0
  }

  lemma {:induction false} DigitsValueOfNatDigits(n: nat)
    ensures DigitsValue(NatDigits(n)) == n
  {
    if n >= 10 {
      var s := NatDigits(n);
      assert s[..|s| - 1] == NatDigits(n / 10);
      DigitsValueOfNatDigits(n / 10);
    }
  }

  /** Parsing the text `QString::number` produces gives back the same int. */
  lemma NumberRoundTrip(i: int32)
    ensures ToInt(Number(i)) == Some(i)
    ensures ToIntOrZero(Number(i)) == i
  {
    var s := Number(i);
    if i < 0 {
      var m := -(i as int);
      assert s[1..] == NatDigits(m);
      DigitsValueOfNatDigits(m);
    } else {
      assert IsDigit(s[0]);
      DigitsValueOfNatDigits(i as int);
    }
  }

  /** Two ints have the same decimal text only if they are equal. */
  lemma NumberInjective(i: int32, j: int32)
    ensures Number(i) == Number(j) ==> i == j
  {
    NumberRoundTrip(i);
    NumberRoundTrip(j);
  }

  /** Strictness: a character that is neither a digit nor the leading sign makes the text invalid. */
  lemma ToIntRejectsNonDigit(s: string, k: nat)
    requires k < |s| && !IsDigit(s[k])
    requires k > 0 || (s[0] != '+' && s[0] != '-')
    ensures ToInt(s) == None
    ensures ToIntOrZero(s) == 0
  {
    var n := SignLength(s);
    assert n <= k;
    assert s[n..][k - n] == s[k];
  }

  /** Strictness: text without any digit (empty, or a bare sign) is invalid. */
  lemma ToIntRejectsNoDigits(s: string)
    requires s == [] || s == "+" || s == "-"
    ensures ToInt(s) == None
  {
  }

  /** On a run of digits with an optional sign, `toInt` accepts exactly the values that
      fit in 32 bits: up to 2147483647 unsigned or with `+`, up to 2147483648 with `-`. */
  lemma ToIntOnDigits(d: string)
    requires d != [] && AllDigits(d)
    ensures ToInt(d) == None <==> DigitsValue(d) > MaxInt32
    ensures ToInt(d).Some? ==> ToInt(d).value as int == DigitsValue(d)
    ensures ToInt("+" + d) == ToInt(d)
    ensures ToInt("-" + d) == None <==> DigitsValue(d) > 0x8000_0000
    ensures ToInt("-" + d).Some? ==> ToInt("-" + d).value as int == -(DigitsValue(d) as int)
  {
    assert IsDigit(d[0]);
    assert ("+" + d)[1..] == d;
    assert ("-" + d)[1..] == d;
  }

  /** `toInt()` without the `ok` flag on a run of digits with an optional minus: the
      value when it fits in 32 bits, and 0 otherwise. */
  lemma ToIntOrZeroOnDigits(d: string)
    requires d != [] && AllDigits(d)
    ensures ToIntOrZero(d) as int == (if DigitsValue(d) <= MaxInt32 then DigitsValue(d) else 0)
    ensures ToIntOrZero("-" + d) as int == (if DigitsValue(d) <= 0x8000_0000 then -(DigitsValue(d) as int) else 0)
  {
    ToIntOnDigits(d);
  }

  /** Strictness: the first value past the 32-bit range is invalid. */
  lemma ToIntRejectsOverflow()
    ensures ToInt("214748364" + "8") == None
    ensures ToInt("214748364" + "7") == Some(0x7fff_ffff as int32)
  {
    var p := "214748364";
    assert DigitsValue(p[..1]) == 2;
    assert p[..2][..1] == p[..1] && p[..2][1] == p[1];
    assert DigitsValue(p[..2]) == 21;
    assert p[..3][..2] == p[..2] && p[..3][2] == p[2];
    assert DigitsValue(p[..3]) == 214;
    assert p[..4][..3] == p[..3] && p[..4][3] == p[3];
    assert DigitsValue(p[..4]) == 2147;
    assert p[..5][..4] == p[..4] && p[..5][4] == p[4];
    assert DigitsValue(p[..5]) == 21474;
    assert p[..6][..5] == p[..5] && p[..6][5] == p[5];
    assert DigitsValue(p[..6]) == 214748;
    assert p[..7][..6] == p[..6] && p[..7][6] == p[6];
    assert DigitsValue(p[..7]) == 2147483;
    assert p[..8][..7] == p[..7] && p[..8][7] == p[7];
    assert DigitsValue(p[..8]) == 21474836;
    assert p[..9][..8] == p[..8] && p[..9][8] == p[8];
    assert DigitsValue(p[..9]) == 214748364;
    assert p[..9] == p;
    assert (p + "8")[..9] == p && (p + "7")[..9] == p;
  }
}

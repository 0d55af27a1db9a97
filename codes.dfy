/** The password-reset code: a number drawn from [1000, 9999] and stored as
    its decimal text. */
module Codes {

  function DigitChar(d: nat): (c: char)
    requires d < 10
    ensures '0' <= c <= '9'
  {
    "0123456789"[d]
  }

  function DigitValue(c: char): (d: nat)
    requires '0' <= c <= '9'
    ensures d < 10
  {
    (c - '0') as nat
  }

  predicate AllDigits(s: string)
  {
    forall i :: 0 <= i < |s| ==> '0' <= s[i] <= '9'
  }

  /** The decimal text of `n`, most significant digit first, as `toString` writes it. */
  function Decimal(n: nat): (s: string)
    ensures |s| >= 1 && AllDigits(s)
    ensures n >= 10 ==> s[0] != '0'
    decreases n
  {
    if n < 10 then [DigitChar(n)] else Decimal(n / 10) + [DigitChar(n % 10)]
  }

  /** The number a text of digits stands for. */
  function ParseDecimal(s: string): nat
    requires AllDigits(s)
  {
    if s == [] then 0 else 10 * ParseDecimal(s[..|s| - 1]) + DigitValue(s[|s| - 1])
  }

  /** Reading back the text gives the number. */
  lemma {:induction false} ParseDecimalOfDecimal(n: nat)
    ensures ParseDecimal(Decimal(n)) == n
    decreases n
  {
    var s := Decimal(n);
    if n >= 10 {
      ParseDecimalOfDecimal(n / 10);
      assert s[..|s| - 1] == Decimal(n / 10);
    }
  }

  /** Different numbers have different texts. */
  lemma DecimalInjective(a: nat, b: nat)
    requires Decimal(a) == Decimal(b)
    ensures a == b
  {
    ParseDecimalOfDecimal(a);
    ParseDecimalOfDecimal(b);
  }

  lemma DecimalFourDigits(n: nat)
    requires 1000 <= n <= 9999
    ensures |Decimal(n)| == 4
  {
    var n1, n2, n3 := n / 10, n / 10 / 10, n / 10 / 10 / 10;
    assert 100 <= n1 <= 999 && 10 <= n2 <= 99 && 1 <= n3 <= 9;
    assert |Decimal(n3)| == 1;
    assert |Decimal(n2)| == 2;
    assert |Decimal(n1)| == 3;
  }

  /** The reset code for a random draw in [0, 9000): four digits, no leading
      zero, standing for a number in [1000, 9999], one code per draw. */
  function ResetCode(draw: int): (code: string)
    requires 0 <= draw < 9000
    ensures |code| == 4 && AllDigits(code) && code[0] != '0'
    ensures ParseDecimal(code) == 1000 + draw
    ensures 1000 <= ParseDecimal(code) <= 9999
  {
    DecimalFourDigits(1000 + draw);
    ParseDecimalOfDecimal(1000 + draw);
    Decimal(1000 + draw)
  }

  lemma ResetCodeInjective(a: int, b: int)
    requires 0 <= a < 9000 && 0 <= b < 9000
    requires ResetCode(a) == ResetCode(b)
    ensures a == b
  {
  }
}

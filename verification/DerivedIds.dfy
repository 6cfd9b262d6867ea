/** The deterministic work unit id of an order line, "{order}-line-{n}". */
module DerivedIds {

  const INFIX := "-line-"

  function Digit(n: nat): char
    requires n < 10
  {
    ['0', '1', '2', '3', '4', '5', '6', '7', '8', '9'][n]
  }

  /** Decimal notation without leading zeros. */
  function Digits(n: nat): string {
    if n < 10 then [Digit(n)] else Digits(n / 10) + [Digit(n % 10)]
  }

  /** A signed integer as %d prints it. */
  function Decimal(n: int): string {
    if n < 0 then "-" + Digits(-n) else Digits(n)
  }

  function LineId(order: string, lineNo: int): string {
    order + INFIX + Decimal(lineNo)
  }

  predicate IsDigit(c: char) { '0' <= c <= '9' }

  lemma {:induction false} DigitsAreDigits(n: nat)
    ensures |Digits(n)| > 0 && forall i :: 0 <= i < |Digits(n)| ==> IsDigit(Digits(n)[i])
  {
    if n >= 10 { DigitsAreDigits(n / 10); }
  }

  lemma DigitInjective(a: nat, b: nat)
    requires a < 10 && b < 10 && Digit(a) == Digit(b)
    ensures a == b
  {
  }

  lemma {:induction false} DigitsInjective(a: nat, b: nat)
    requires Digits(a) == Digits(b)
    ensures a == b
  {
    DigitsAreDigits(a / 10);
    DigitsAreDigits(b / 10);
    var s, t := Digits(a), Digits(b);
    assert s[|s| - 1] == Digit(a % 10) && t[|t| - 1] == Digit(b % 10);
    DigitInjective(a % 10, b % 10);
    if a >= 10 && b >= 10 {
      assert s[..|s| - 1] == Digits(a / 10) && t[..|t| - 1] == Digits(b / 10);
      DigitsInjective(a / 10, b / 10);
    }
  }

  /** The number a string of digits denotes. */
  function NumberOf(s: string): int {
    if s == [] then 0 else 10 * NumberOf(s[..|s| - 1]) + (s[|s| - 1] as int - '0' as int)
  }

  /** The notation denotes the number, and has no zero in front of another digit. */
  lemma {:induction false} DigitsDenote(n: nat)
    ensures NumberOf(Digits(n)) == n
    ensures |Digits(n)| > 1 ==> Digits(n)[0] != '0'
    ensures n > 0 ==> Digits(n)[0] != '0'
  {
    var s := Digits(n);
    if n < 10 {
      assert s[..0] == [];
    } else {
      DigitsDenote(n / 10);
      DigitsAreDigits(n / 10);
      assert s[..|s| - 1] == Digits(n / 10);
    }
  }

  /** A sign at most in front, digits everywhere else. */
  lemma DecimalShape(n: int)
    ensures |Decimal(n)| > 0
    ensures forall i :: 1 <= i < |Decimal(n)| ==> IsDigit(Decimal(n)[i])
    ensures n < 0 <==> Decimal(n)[0] == '-'
    ensures n >= 0 ==> IsDigit(Decimal(n)[0])
  {
    DigitsAreDigits(if n < 0 then -n else n);
  }

  lemma DecimalInjective(a: int, b: int)
    requires Decimal(a) == Decimal(b)
    ensures a == b
  {
    DecimalShape(a);
    DecimalShape(b);
    if a < 0 {
      assert Decimal(a)[1..] == Digits(-a) && Decimal(b)[1..] == Digits(-b);
      DigitsInjective(-a, -b);
    } else {
      DigitsInjective(a, b);
    }
  }

  /** Read from the end: digits, perhaps a sign, then the '-' and the 'e' of the infix. */
  lemma LineIdShape(s: string, order: string, n: int)
    requires s == LineId(order, n)
    ensures var start := |s| - |Decimal(n)|;
      && start >= 6 && s[start..] == Decimal(n)
      && s[start - 1] == '-' && s[start - 2] == 'e'
      && (s[start] == '-' || IsDigit(s[start]))
      && forall i :: start < i < |s| ==> IsDigit(s[i])
  {
    DecimalShape(n);
    var start := |order| + |INFIX|;
    assert s[start - 1] == INFIX[5] && s[start - 2] == INFIX[4];
    assert s[start..] == Decimal(n);
    forall i | start < i < |s| ensures IsDigit(s[i]) {
      assert s[i] == Decimal(n)[i - start];
    }
  }

  /** A longer number would have to swallow the 'e' of the infix, which no number contains. */
  lemma SameLength(s: string, order1: string, n1: int, order2: string, n2: int)
    requires s == LineId(order1, n1) == LineId(order2, n2)
    ensures |Decimal(n1)| >= |Decimal(n2)|
  {
    LineIdShape(s, order1, n1);
    LineIdShape(s, order2, n2);
  }

  /** Two order lines with the same derived id are the same line of the same order. */
  lemma LineIdInjective(order1: string, n1: int, order2: string, n2: int)
    requires LineId(order1, n1) == LineId(order2, n2)
    ensures order1 == order2 && n1 == n2
  {
    var s := LineId(order1, n1);
    SameLength(s, order1, n1, order2, n2);
    SameLength(s, order2, n2, order1, n1);
    assert s[|order1| + 6..] == Decimal(n1) && s[|order2| + 6..] == Decimal(n2);
    DecimalInjective(n1, n2);
    assert s[..|order1|] == order1 && s[..|order2|] == order2;
  }
}

/** The text of a one-time code: `fmt.Sprintf("%06d", n)` for a number n drawn below MaxValue. */
module Codes {

  const CODE_WIDTH := 6

  function Digit(d: nat): char
    requires d < 10
  {
    '0' + d as char
  }

  function Decimal(n: nat): string {
    if n < 10 then [Digit(n)] else Decimal(n / 10) + [Digit(n % 10)]
  }

  function PadLeft(s: string, width: nat): string
    decreases width - |s|
  {
    if |s| >= width then s else PadLeft("0" + s, width)
  }

  function FormatCode(n: nat): string {
    PadLeft(Decimal(n), CODE_WIDTH)
  }

  function DigitValue(c: char): nat {
    if '0' <= c <= '9' then (c - '0') as nat else 0
  }

  /** Reading a decimal numeral, most significant digit first. */
  function Parse(s: string): nat {
    if s == "" then 0 else 10 * Parse(s[..|s| - 1]) + DigitValue(s[|s| - 1])
  }

  function Pow10(k: nat): nat {
    if k == 0 then 1 else 10 * Pow10(k - 1)
  }

  lemma {:induction false} ParseDecimal(n: nat)
    ensures Parse(Decimal(n)) == n
  {
    if n < 10 {
      assert Decimal(n)[..0] == "";
    } else {
      ParseDecimal(n / 10);
      assert Decimal(n)[..|Decimal(n)| - 1] == Decimal(n / 10);
    }
  }

  lemma {:induction false} LeadingZero(s: string)
    ensures Parse("0" + s) == Parse(s)
  {
    if s != "" {
      LeadingZero(s[..|s| - 1]);
      assert ("0" + s)[..|s|] == "0" + s[..|s| - 1];
    }
  }

  lemma {:induction false} ParsePadLeft(s: string, width: nat)
    ensures Parse(PadLeft(s, width)) == Parse(s)
    decreases width - |s|
  {
    if |s| < width {
      ParsePadLeft("0" + s, width);
      LeadingZero(s);
    }
  }

  /** A numeral of k digits stands for a number from 10^(k-1) up to 10^k. */
  lemma {:induction false} DecimalLength(n: nat)
    ensures var k := |Decimal(n)|; k >= 1 && n < Pow10(k) && (k > 1 ==> Pow10(k - 1) <= n)
  {
    if n >= 10 {
      DecimalLength(n / 10);
    } else {
      assert Pow10(1) == 10;
    }
  }

  lemma {:induction false} Pow10Grows(i: nat, j: nat)
    requires i <= j
    ensures 1 <= Pow10(i) <= Pow10(j)
  {
    if i < j {
      Pow10Grows(i, j - 1);
    } else if j > 0 {
      Pow10Grows(i - 1, j - 1);
    }
  }

  lemma {:induction false} PadLeftLength(s: string, width: nat)
    ensures |PadLeft(s, width)| == if |s| >= width then |s| else width
    decreases width - |s|
  {
    if |s| < width {
      PadLeftLength("0" + s, width);
    }
  }

  /** The code is as long as the number needs, but never shorter than six characters. */
  lemma FormatCodeLength(n: nat)
    ensures var k := |FormatCode(n)|;
      && k == (if |Decimal(n)| > CODE_WIDTH then |Decimal(n)| else CODE_WIDTH)
      && n < Pow10(k)
      && (k > CODE_WIDTH ==> Pow10(k - 1) <= n)
  {
    DecimalLength(n);
    PadLeftLength(Decimal(n), CODE_WIDTH);
    Pow10Grows(|Decimal(n)|, |FormatCode(n)|);
  }

  predicate Digits(s: string) {
    forall i | 0 <= i < |s| :: '0' <= s[i] <= '9'
  }

  lemma {:induction false} DecimalDigits(n: nat)
    ensures Digits(Decimal(n))
  {
    if n >= 10 {
      DecimalDigits(n / 10);
    }
  }

  lemma {:induction false} PadLeftDigits(s: string, width: nat)
    requires Digits(s)
    ensures Digits(PadLeft(s, width))
    decreases width - |s|
  {
    if |s| < width {
      PadLeftDigits("0" + s, width);
    }
  }

  /** Every character of a code is a digit. */
  lemma FormatCodeDigits(n: nat)
    ensures forall i | 0 <= i < |FormatCode(n)| :: '0' <= FormatCode(n)[i] <= '9'
  {
    DecimalDigits(n);
    PadLeftDigits(Decimal(n), CODE_WIDTH);
  }

  /** Reading a code gives back the number drawn, so different draws give different codes. */
  lemma FormatCodeRoundTrip(n: nat)
    ensures Digits(FormatCode(n)) && Parse(FormatCode(n)) == n
    ensures forall m: nat | FormatCode(m) == FormatCode(n) :: m == n
  {
    FormatCodeDigits(n);
    forall m: nat ensures Parse(FormatCode(m)) == m {
      ParseDecimal(m);
      ParsePadLeft(Decimal(m), CODE_WIDTH);
    }
  }

  /** Numerals of digits that are equally long and read the same are the same text. */
  lemma {:induction false} DigitsDetermine(s: string, t: string)
    requires Digits(s) && Digits(t) && |s| == |t| && Parse(s) == Parse(t)
    ensures s == t
  {
    if s != "" {
      var n := |s| - 1;
      assert Parse(s) == 10 * Parse(s[..n]) + DigitValue(s[n]);
      assert Parse(t) == 10 * Parse(t[..n]) + DigitValue(t[n]);
      LastDigit(Parse(s[..n]), s[n], Parse(t[..n]), t[n]);
      DigitsDetermine(s[..n], t[..n]);
      assert s == s[..n] + [s[n]] && t == t[..n] + [t[n]];
    }
  }

  lemma LastDigit(a: nat, c: char, b: nat, d: char)
    requires '0' <= c <= '9' && '0' <= d <= '9' && 10 * a + DigitValue(c) == 10 * b + DigitValue(d)
    ensures a == b && c == d
  {
    assert DigitValue(c) < 10 && DigitValue(d) < 10;
    assert a == b;
  }

  /**
    * The code is the numeral of the number with zeros before it: of all texts of digits that read
    * as the number, it is the one that is six characters long, or as long as the number needs.
    */
  lemma FormatCodeExactly(n: nat, s: string)
    requires Digits(s) && Parse(s) == n
    requires |s| == if |Decimal(n)| > 6 then |Decimal(n)| else 6
    ensures Digits(FormatCode(n)) && s == FormatCode(n)
  {
    PadLeftLength(Decimal(n), CODE_WIDTH);
    FormatCodeRoundTrip(n);
    DigitsDetermine(s, FormatCode(n));
  }

  /** Every code that can be drawn has exactly six characters just when MaxValue is at most a million. */
  lemma SixCharactersExactly(maxValue: nat)
    requires maxValue > 0
    ensures (forall n: nat | n < maxValue :: |FormatCode(n)| == CODE_WIDTH) <==> maxValue <= 1000000
  {
    assert Pow10(6) == 1000000 by {
      assert Pow10(3) == 1000;
      assert Pow10(5) == 100000;
    }
    forall n: nat ensures |FormatCode(n)| == CODE_WIDTH <==> n < 1000000 {
      FormatCodeLength(n);
      if |FormatCode(n)| > CODE_WIDTH {
        Pow10Grows(6, |FormatCode(n)| - 1);
      }
    }
    if maxValue > 1000000 {
      assert |FormatCode(1000000)| != CODE_WIDTH;
    }
  }
}

/** `Number.prototype.toFixed(2)`, the two-decimal rendering the pages use
    for amounts, on an exact (real) amount. */
module Money {
  import opened Text

  /** The integer n for which n / 100 is nearest to x (x >= 0), the larger
      one on a tie. */
  function Cents(x: real): (n: int)
    requires x >= 0.0
    ensures n >= 0
    ensures (n as real) - 0.5 <= 100.0 * x < (n as real) + 0.5
  {
    (100.0 * x + 0.5).Floor
  }

  /** The digits of n / 100: the integer part, '.', and two decimals. */
  function Fixed2(n: nat): string
  {
    NatStr(n / 100) + "." + PadNat(n % 100, 2)
  }

  /** `x.toFixed(2)`: a negative amount gets a '-' in front of the
      rendering of its magnitude (so a tiny negative amount reads "-0.00"). */
  function ToFixed2(x: real): string
  {
    if x < 0.0 then "-" + Fixed2(Cents(-x)) else Fixed2(Cents(x))
  }

  /** The rendering of a non-negative amount is an integer part, a point
      and exactly two decimals, and it reads back as the amount rounded to
      the nearest cent, within half a cent of it. */
  lemma ToFixed2Reads(x: real)
    requires x >= 0.0
    ensures var s := ToFixed2(x);
            var k := |s| - 3;
            k >= 1 && AllDigits(s[..k]) && s[k] == '.' && AllDigits(s[k + 1..])
            && DigitsValue(s[..k]) * 100 + DigitsValue(s[k + 1..]) == Cents(x)
    ensures -0.5 <= 100.0 * x - (Cents(x) as real) < 0.5
  {
    var n := Cents(x);
    var a, b := NatStr(n / 100), PadNat(n % 100, 2);
    var s := a + "." + b;
    assert ToFixed2(x) == s;
    assert Pow10(2) == 100 by {
      assert Pow10(1) == 10;
    }
    PadNatValue(n % 100, 2);
    NatStrValue(n / 100);
    var k := |a|;
    assert s[..k] == a;
    assert s[k + 1..] == b;
  }

  /** Rendering a negative amount puts a '-' before the rendering of its
      magnitude. */
  lemma ToFixed2Negative(x: real)
    requires x < 0.0
    ensures ToFixed2(x) == "-" + ToFixed2(-x)
  {
  }
}

/** Calendar months and the three fixed date formats the application prints
    with date-fns: 'yyyy-MM' (revenue keys), 'MM/yyyy' (payroll periods) and
    'MMM/yy' in the pt-BR locale (labels). Months are counted on one line,
    Index = 12 * year + (month - 1), so "the month before" is Index - 1. */
module Calendar {
  import opened Common
  import opened Text

  datatype YearMonth = YearMonth(year: int, month: int)

  predicate Valid(ym: YearMonth) { 1 <= ym.month <= 12 }

  /** A year that 'yyyy' prints with exactly four digits. */
  predicate FourDigitYear(ym: YearMonth) { Valid(ym) && 0 <= ym.year <= 9999 }

  function Index(ym: YearMonth): int { ym.year * 12 + (ym.month - 1) }

  function FromIndex(k: int): (ym: YearMonth)
    ensures Valid(ym) && Index(ym) == k
  {
    YearMonth(k / 12, k % 12 + 1)
  }

  /** Index is a one-to-one numbering of valid months. */
  lemma FromIndexIndex(ym: YearMonth)
    requires Valid(ym)
    ensures FromIndex(Index(ym)) == ym
  {
    var k := Index(ym);
    assert k == ym.year * 12 + (ym.month - 1);
    assert k / 12 == ym.year && k % 12 == ym.month - 1;
  }

  /** A calendar day as date-fns holds it after parsing (midnight, local time). */
  datatype Date = Date(year: int, month: int, day: int)

  function MonthOf(d: Date): YearMonth { YearMonth(d.year, d.month) }

  /** `d > startOfMonth(ym)` for the midnight instants JavaScript compares. */
  predicate AfterMonthStart(d: Date, ym: YearMonth)
  {
    d.year > ym.year || (d.year == ym.year && (d.month > ym.month || (d.month == ym.month && d.day > 1)))
  }

  /** `startOfMonth(ym) >= startOfMonth(d)`. */
  predicate MonthStartOnOrAfter(ym: YearMonth, d: Date)
  {
    ym.year > d.year || (ym.year == d.year && ym.month >= d.month)
  }

  /** date-fns' abbreviated month names in the pt-BR locale. */
  const PtBrAbbrev: seq<string> :=
    ["jan", "fev", "mar", "abr", "mai", "jun", "jul", "ago", "set", "out", "nov", "dez"]

  /** `format(d, 'MMM/yy', { locale: ptBR }).replace('.', '')`. */
  function Label(ym: YearMonth): string
    requires FourDigitYear(ym)
  {
    PtBrAbbrev[ym.month - 1] + "/" + PadNat(ym.year % 100, 2)
  }

  /** `format(d, 'yyyy-MM')`. */
  function KeyYearMonth(ym: YearMonth): string
    requires FourDigitYear(ym)
  {
    PadNat(ym.year, 4) + "-" + PadNat(ym.month, 2)
  }

  /** `format(d, 'MM/yyyy')`. */
  function KeyMonthYear(ym: YearMonth): string
    requires FourDigitYear(ym)
  {
    PadNat(ym.month, 2) + "/" + PadNat(ym.year, 4)
  }

  /** `parse(s, 'yyyy-MM')` on a key of the exact shape the model writes. */
  function ParseKeyYearMonth(s: string): Option<YearMonth>
  {
    if |s| == 7 && AllDigits(s[..4]) && s[4] == '-' && AllDigits(s[5..]) then
      var ym := YearMonth(DigitsValue(s[..4]), DigitsValue(s[5..]));
      if Valid(ym) then Some(ym) else None
    else None
  }

  lemma Pow10Small()
    ensures Pow10(2) == 100 && Pow10(4) == 10000
  {
    assert Pow10(1) == 10;
    assert Pow10(3) == 1000;
  }

  /** The 'yyyy-MM' key has seven characters and reads back as its month, so
      re-parsing a key (as the source does before comparing months) gives the
      month it was made from, and two different months never share a key. */
  lemma {:induction false} KeyYearMonthRoundTrip(ym: YearMonth)
    requires FourDigitYear(ym)
    ensures |KeyYearMonth(ym)| == 7
    ensures ParseKeyYearMonth(KeyYearMonth(ym)) == Some(ym)
  {
    Pow10Small();
    PadNatValue(ym.year, 4);
    PadNatValue(ym.month, 2);
    var y, m := PadNat(ym.year, 4), PadNat(ym.month, 2);
    var s := KeyYearMonth(ym);
    assert s == y + "-" + m;
    assert s[..4] == y && s[4] == '-' && s[5..] == m;
  }

  lemma KeyYearMonthInjective(a: YearMonth, b: YearMonth)
    requires FourDigitYear(a) && FourDigitYear(b)
    ensures KeyYearMonth(a) == KeyYearMonth(b) <==> a == b
  {
    KeyYearMonthRoundTrip(a);
    KeyYearMonthRoundTrip(b);
  }

  /** The 'MM/yyyy' key always has seven characters. */
  lemma KeyMonthYearLength(ym: YearMonth)
    requires FourDigitYear(ym)
    ensures |KeyMonthYear(ym)| == 7
  {
    Pow10Small();
    PadNatValue(ym.year, 4);
    PadNatValue(ym.month, 2);
  }
}

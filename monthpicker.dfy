/** The month picker (components/MonthPicker.tsx): its value is a 'MM/YYYY'
    string owned by the parent; the picker shows the month it parses from
    it, steps it a month at a time, and keeps a dropdown with its own
    `viewYear` and a grid of twelve months. */
module MonthPicker {
  import opened Common
  import opened Text

  datatype MonthYear = MonthYear(month: int, year: int)

  /** `parseValue`: split at '/', `parseInt` each side; a side that is not
      a number falls back to the current month or year (`now`, which the
      source reads from the clock). A missing second part is `undefined`,
      which `parseInt` also reads as NaN. */
  function ParseValue(value: string, now: MonthYear): MonthYear
  {
    var parts := Split(value, '/');
    var month := ParseInt(parts[0]);
    var year := if |parts| >= 2 then ParseInt(parts[1]) else None;
    MonthYear(if month.Some? then month.value else now.month, if year.Some? then year.value else now.year)
  }

  /** `formatValue`: the month padded to two characters with '0', '/', the
      year. */
  function FormatValue(month: int, year: int): string
  {
    PadStart(IntStr(month), 2, '0') + "/" + IntStr(year)
  }

  lemma FormatValueHead(month: int, year: int)
    requires 1 <= month <= 12
    ensures PadStart(IntStr(month), 2, '0') == PadNat(month, 2)
    ensures |PadNat(month, 2)| == 2
    ensures |IntStr(year)| >= 1
  {
    assert Pow10(2) == 100 by {
      assert Pow10(1) == 10;
    }
    PadNatValue(month, 2);
  }

  /** A number printed by `String` has no '/'. */
  lemma IntStrNoSlash(i: int)
    ensures '/' !in IntStr(i)
  {
    var d := NatStr(if i < 0 then -i else i);
    assert forall k :: 0 <= k < |d| ==> IsDigit(d[k]);
    if i < 0 {
      assert IntStr(i) == "-" + d;
      assert forall k :: 1 <= k < |IntStr(i)| ==> IntStr(i)[k] == d[k - 1];
    }
  }

  lemma SplitFormat(month: int, year: int)
    requires 1 <= month <= 12
    ensures Split(FormatValue(month, year), '/') == [PadNat(month, 2), IntStr(year)]
  {
    var mm, yy := PadNat(month, 2), IntStr(year);
    assert FormatValue(month, year) == mm + ['/'] + yy by {
      FormatValueHead(month, year);
    }
    assert Split(mm + ['/'] + yy, '/') == Split(mm, '/') + Split(yy, '/') by {
      SplitAppend(mm, '/', yy);
    }
    assert Split(mm, '/') == [mm] by {
      assert AllDigits(mm);
      assert '/' !in mm;
      SplitNoSep(mm, '/');
    }
    assert Split(yy, '/') == [yy] by {
      IntStrNoSlash(year);
      SplitNoSep(yy, '/');
    }
  }

  /** For a real month, `parseValue` reads back what `formatValue` wrote,
      whatever the clock says. */
  lemma {:induction false} ParseFormat(month: int, year: int, now: MonthYear)
    requires 1 <= month <= 12
    ensures ParseValue(FormatValue(month, year), now) == MonthYear(month, year)
  {
    SplitFormat(month, year);
    ParseIntPadded(month, 2);
    ParseIntStr(year);
  }

  /** An empty value has neither a month nor a year: both fall back to the
      current ones. */
  lemma ParseValueEmpty(now: MonthYear)
    ensures ParseValue("", now) == now
  {
    assert Split("", '/') == [""];
  }

  /** A value without '/' has no year part: the year falls back to the
      current one, and the month is the value read as a number, or the
      current month when it is not one. */
  lemma ParseValueNoYear(a: string, now: MonthYear)
    requires '/' !in a
    ensures ParseValue(a, now).year == now.year
    ensures ParseValue(a, now).month == if ParseInt(a).Some? then ParseInt(a).value else now.month
  {
    SplitNoSep(a, '/');
  }

  /** A value with '/' is read part by part: the month from what comes
      before the first '/', the year from what comes between it and the
      next '/', and each part that is not a number falls back on its own. */
  lemma ParseValueWithSlash(a: string, b: string, now: MonthYear)
    requires '/' !in a
    ensures var y := ParseInt(Split(b, '/')[0]);
            ParseValue(a + "/" + b, now)
              == MonthYear(if ParseInt(a).Some? then ParseInt(a).value else now.month,
                           if y.Some? then y.value else now.year)
  {
    assert a + "/" + b == a + ['/'] + b;
    SplitAppend(a, '/', b);
    SplitNoSep(a, '/');
  }

  /** "03" keeps its month and takes the current year. */
  lemma ParseValueMonthOnly(now: MonthYear)
    ensures ParseValue("03", now) == MonthYear(3, now.year)
  {
    assert ParseInt("03") == Some(3) by {
      TrimStartNone("03");
      ParseSignedDigits("03");
      assert "03"[..1] == "0" && "0"[..0] == "";
    }
    ParseValueNoYear("03", now);
  }

  /** "xx/2025" keeps its year and takes the current month. */
  lemma ParseValueYearOnly(now: MonthYear)
    ensures ParseValue("xx/2025", now) == MonthYear(now.month, 2025)
  {
    var parts := Split("xx/2025", '/');
    SplitYearOnly();
    ParseIntBadMonth();
    assert ParseInt(parts[0]) == None && ParseInt(parts[1]) == Some(2025);
  }

  /** A step of ParseValueYearOnly: the parts of "xx/2025". */
  lemma SplitYearOnly()
    ensures Split("xx/2025", '/') == ["xx", "2025"]
  {
    var a, b := "xx", "2025";
    assert "xx/2025" == a + ['/'] + b;
    SplitAppend(a, '/', b);
    SplitNoSep(a, '/');
    SplitNoSep(b, '/');
  }

  lemma ParseIntBadMonth()
    ensures ParseInt("xx") == None && ParseInt("2025") == Some(2025)
  {
    var a, b := "xx", "2025";
    TrimStartNone(a);
    assert ParseSigned(a) == None by {
      assert a[0] == 'x' && !IsDigit(a[0]);
    }
    TrimStartNone(b);
    assert AllDigits(b);
    ParseSignedDigits(b);
    assert DigitsValue(b) == 2025 by {
      assert "2"[..0] == "";
      assert DigitsValue("2") == 2;
      assert "20"[..1] == "2";
      assert DigitsValue("20") == 20;
      assert "202"[..2] == "20";
      assert DigitsValue("202") == 202;
      assert b[..3] == "202";
    }
  }

  /** `goMonth(dir)`: one step of `dir` months, with a single wrap at
      either end of the year. */
  function Shift(p: MonthYear, dir: int): MonthYear
  {
    var m := p.month + dir;
    var q := if m > 12 then MonthYear(1, p.year + 1) else MonthYear(m, p.year);
    if q.month < 1 then MonthYear(12, q.year - 1) else q
  }

  /** Stepping always lands on a real month; from a real month, forward
      from December is January of the next year, back from January is
      December of the previous year, and every other step keeps the year. */
  lemma ShiftMonths(p: MonthYear, dir: int)
    ensures 1 <= Shift(p, dir).month <= 12
    ensures 1 <= p.month <= 12 && dir == 1 ==>
              Shift(p, dir) == if p.month == 12 then MonthYear(1, p.year + 1) else MonthYear(p.month + 1, p.year)
    ensures 1 <= p.month <= 12 && dir == -1 ==>
              Shift(p, dir) == if p.month == 1 then MonthYear(12, p.year - 1) else MonthYear(p.month - 1, p.year)
  {
  }

  /** A step forward then a step back, or back then forward, returns to the
      month one started from. */
  lemma ShiftForwardBack(p: MonthYear)
    requires 1 <= p.month <= 12
    ensures Shift(Shift(p, 1), -1) == p
    ensures Shift(Shift(p, -1), 1) == p
  {
    ShiftMonths(p, 1);
    ShiftMonths(p, -1);
  }

  class Picker {
    /** The parent's state behind `value`/`onChange`. */
    var value: string
    var viewYear: int
    var open: bool

    constructor (value0: string, now: MonthYear)
      ensures value == value0 && viewYear == ParseValue(value0, now).year && !open
    {
      value := value0;
      viewYear := ParseValue(value0, now).year;
      open := false;
    }

    /** `onChange(v)` followed by the effect on `[value]`, which re-syncs
        `viewYear` only when the value really changed. */
    method Emit(v: string, now: MonthYear)
      modifies this
      ensures value == v && open == old(open)
      ensures viewYear == if v != old(value) then ParseValue(v, now).year else old(viewYear)
    {
      var previous := value;
      value := v;
      if v != previous {
        viewYear := ParseValue(v, now).year;
      }
    }

    /** `isSelected(m)`. */
    function IsSelected(m: int, now: MonthYear): bool
      reads this
    {
      var p := ParseValue(value, now);
      m == p.month && viewYear == p.year
    }

    /** The arrows beside the label. */
    method GoMonth(dir: int, now: MonthYear)
      modifies this
      ensures var q := Shift(ParseValue(old(value), now), dir);
              value == FormatValue(q.month, q.year) && 1 <= q.month <= 12
              && ParseValue(value, now) == q
              && viewYear == (if value != old(value) then q.year else old(viewYear))
      ensures open == old(open)
    {
      var p := ParseValue(value, now);
      var m := p.month + dir;
      var y := p.year;
      if m > 12 {
        m := 1;
        y := y + 1;
      }
      if m < 1 {
        m := 12;
        y := y - 1;
      }
      ParseFormat(m, y, now);
      Emit(FormatValue(m, y), now);
    }

    /** A month of the grid: emits it with `viewYear` (not the year on
        show) and closes the dropdown; that month, and only it, is then
        highlighted, and the year in view stays. */
    method SelectMonth(m: int, now: MonthYear)
      requires 1 <= m <= 12
      modifies this
      ensures value == FormatValue(m, old(viewYear))
      ensures viewYear == old(viewYear) && !open
      ensures forall k :: 1 <= k <= 12 ==> (IsSelected(k, now) <==> k == m)
    {
      ParseFormat(m, viewYear, now);
      Emit(FormatValue(m, viewYear), now);
      open := false;
    }

    /** The label button: `setOpen(o => !o)`. */
    method Toggle()
      modifies this
      ensures open == !old(open) && value == old(value) && viewYear == old(viewYear)
    {
      open := !open;
    }

    /** A mousedown outside the picker closes it. */
    method ClickOutside()
      modifies this
      ensures !open && value == old(value) && viewYear == old(viewYear)
    {
      open := false;
    }

    /** The dropdown's year arrows move only the year in view. */
    method PrevYear()
      modifies this
      ensures viewYear == old(viewYear) - 1 && value == old(value) && open == old(open)
    {
      viewYear := viewYear - 1;
    }

    method NextYear()
      modifies this
      ensures viewYear == old(viewYear) + 1 && value == old(value) && open == old(open)
    {
      viewYear := viewYear + 1;
    }
  }
}

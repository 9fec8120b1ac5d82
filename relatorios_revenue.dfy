/** The revenue table of the monthly report (`gerarPdf` in
    pages/Relatorios.tsx): the dictionary `faturamentoPorMes` keyed by
    'yyyy-MM', filled from the client's Receita documents, then turned into
    one row per window month and a grand total. */
module RelatoriosRevenue {
  import opened Common
  import opened Calendar
  import opened RelatoriosPeriod

  /** A Receita document: its `data` ('YYYY-MM-DD', None when missing) and
      its `valor`, None when `Number(valor)` is NaN. */
  datatype Receita = Receita(data: Option<string>, valor: Option<real>)

  /** `Number(valor) || 0`. */
  function Amount(r: Receita): real
  {
    match r.valor
    case None => 0.0
    case Some(v) => v
  }

  /** `s.substring(0, 7)`. */
  function Prefix7(s: string): (p: string)
    ensures p <= s && |p| == if |s| >= 7 then 7 else |s|
  {
    if |s| >= 7 then s[..7] else s
  }

  /** The document counts for month key k. */
  predicate Matches(r: Receita, k: string)
  {
    r.data.Some? && Prefix7(r.data.value) == k
  }

  /** Revenue of month key k: the sum of the amounts of the documents whose
      date starts with k. */
  function MonthTotal(rs: seq<Receita>, k: string): real
  {
    if rs == [] then 0.0
    else MonthTotal(rs[..|rs| - 1], k) + (if Matches(rs[|rs| - 1], k) then Amount(rs[|rs| - 1]) else 0.0)
  }

  /** One table row, `{ mesAno, label, total }`. */
  datatype Row = Row(mesAno: string, labelText: string, total: real)

  /** `rows.reduce((s, r) => s + r.total, 0)`. */
  function SumTotals(rows: seq<Row>): real
  {
    if rows == [] then 0.0 else SumTotals(rows[..|rows| - 1]) + rows[|rows| - 1].total
  }

  predicate AllFourDigit(meses: seq<Month>)
  {
    forall i :: 0 <= i < |meses| ==> FourDigitYear(meses[i].ym)
  }

  function Keys(meses: seq<Month>): (ks: seq<string>)
    requires AllFourDigit(meses)
    ensures |ks| == |meses| && forall i :: 0 <= i < |meses| ==> ks[i] == MesAno(meses[i])
  {
    seq(|meses|, i requires 0 <= i < |meses| => MesAno(meses[i]))
  }

  /** Each key has seven characters and parses back to its own month, as
      the page's `parse(m.mesAno, 'yyyy-MM')` relies on; keys of different
      months differ. */
  lemma KeysParseBack(meses: seq<Month>)
    requires AllFourDigit(meses)
    ensures forall i :: 0 <= i < |meses| ==>
              |Keys(meses)[i]| == 7 && ParseKeyYearMonth(Keys(meses)[i]) == Some(meses[i].ym)
    ensures forall i, j :: 0 <= i < |meses| && 0 <= j < |meses| && meses[i].ym != meses[j].ym ==>
              Keys(meses)[i] != Keys(meses)[j]
  {
    forall i | 0 <= i < |meses|
      ensures |Keys(meses)[i]| == 7 && ParseKeyYearMonth(Keys(meses)[i]) == Some(meses[i].ym)
    {
      KeyYearMonthRoundTrip(meses[i].ym);
    }
  }

  /** Step 1 of `gerarPdf`: an entry at 0 for every key of the window. */
  method EmptyTotals(ks: seq<string>) returns (porMes: map<string, real>)
    ensures forall k :: k in porMes <==> k in ks
    ensures forall k :: k in porMes ==> porMes[k] == 0.0
  {
    porMes := map[];
    for i := 0 to |ks|
      invariant forall k :: k in porMes <==> k in ks[..i]
      invariant forall k :: k in porMes ==> porMes[k] == 0.0
    {
      assert ks[..i + 1] == ks[..i] + [ks[i]];
      porMes := porMes[ks[i] := 0.0];
    }
    assert ks[..|ks|] == ks;
  }

  /** Step 2 of `gerarPdf`: each document with a date adds its amount to the
      entry of its month, when that month is in the window; the others are
      skipped. */
  method AddReceitas(ks: seq<string>, receitas: seq<Receita>, start: map<string, real>)
    returns (porMes: map<string, real>)
    requires "" !in ks
    requires forall k :: k in start <==> k in ks
    requires forall k :: k in start ==> start[k] == 0.0
    ensures forall k :: k in porMes <==> k in ks
    ensures forall k :: k in porMes ==> porMes[k] == MonthTotal(receitas, k)
  {
    porMes := start;
    for j := 0 to |receitas|
      invariant forall k :: k in porMes <==> k in ks
      invariant forall k :: k in porMes ==> porMes[k] == MonthTotal(receitas[..j], k)
    {
      var r := receitas[j];
      assert receitas[..j + 1] == receitas[..j] + [r];
      if r.data.Some? {
        var mesAno := Prefix7(r.data.value);
        if mesAno != "" && mesAno in porMes {
          porMes := porMes[mesAno := porMes[mesAno] + Amount(r)];
        }
      }
    }
    assert receitas[..|receitas|] == receitas;
  }

  /** No month key is empty. */
  lemma KeysNotEmpty(meses: seq<Month>)
    requires AllFourDigit(meses)
    ensures "" !in Keys(meses)
  {
    var ks := Keys(meses);
    forall j | 0 <= j < |meses| ensures ks[j] != "" {
      KeyYearMonthRoundTrip(meses[j].ym);
    }
  }

  /** Steps 1 and 2 of `gerarPdf`: every row holds the revenue of its month,
      the rows follow the window, and the grand total adds the rows. */
  method AggregateRevenue(meses: seq<Month>, receitas: seq<Receita>)
    returns (rows: seq<Row>, totalGeral: real)
    requires AllFourDigit(meses)
    ensures |rows| == |meses|
    ensures forall i :: 0 <= i < |meses| ==>
              rows[i] == Row(MesAno(meses[i]), meses[i].labelText, MonthTotal(receitas, MesAno(meses[i])))
    ensures totalGeral == SumTotals(rows)
  {
    var ks := Keys(meses);
    KeysNotEmpty(meses);
    var porMes := EmptyTotals(ks);
    porMes := AddReceitas(ks, receitas, porMes);
    rows := seq(|meses|, i requires 0 <= i < |meses| => Row(ks[i], meses[i].labelText, porMes[ks[i]]));
    totalGeral := SumTotals(rows);
  }

  /** Sum of the revenue of each key in ks. */
  function SumOverKeys(ks: seq<string>, rs: seq<Receita>): real
  {
    if ks == [] then 0.0 else SumOverKeys(ks[..|ks| - 1], rs) + MonthTotal(rs, ks[|ks| - 1])
  }

  /** Sum of the amounts of the documents that fall in one of the keys. */
  function InWindow(rs: seq<Receita>, ks: seq<string>): real
  {
    if rs == [] then 0.0
    else InWindow(rs[..|rs| - 1], ks)
         + (if rs[|rs| - 1].data.Some? && Prefix7(rs[|rs| - 1].data.value) in ks
            then Amount(rs[|rs| - 1]) else 0.0)
  }

  /** What one document adds to the sum over the keys ks: its amount once
      for every key it matches. */
  function Contribution(ks: seq<string>, r: Receita): real
  {
    if ks == [] then 0.0
    else Contribution(ks[..|ks| - 1], r) + (if Matches(r, ks[|ks| - 1]) then Amount(r) else 0.0)
  }

  predicate Distinct(ks: seq<string>)
  {
    forall i, j :: 0 <= i < j < |ks| ==> ks[i] != ks[j]
  }

  /** With distinct keys, a document adds its amount once when its month is
      one of them and nothing otherwise. */
  lemma {:induction false} ContributionDistinct(ks: seq<string>, r: Receita)
    requires Distinct(ks)
    ensures Contribution(ks, r) == if r.data.Some? && Prefix7(r.data.value) in ks then Amount(r) else 0.0
    decreases |ks|
  {
    if ks != [] {
      var init := ks[..|ks| - 1];
      ContributionDistinct(init, r);
      if r.data.Some? {
        var k := Prefix7(r.data.value);
        assert k in ks <==> k in init || ks[|ks| - 1] == k;
        if ks[|ks| - 1] == k {
          assert k !in init;
        }
      }
    }
  }

  /** Adding one document to the list adds its contribution. */
  lemma {:induction false} SumOverKeysSnoc(ks: seq<string>, rs: seq<Receita>, r: Receita)
    ensures SumOverKeys(ks, rs + [r]) == SumOverKeys(ks, rs) + Contribution(ks, r)
    decreases |ks|
  {
    if ks != [] {
      var rs2 := rs + [r];
      assert rs2[..|rs2| - 1] == rs && rs2[|rs2| - 1] == r;
      SumOverKeysSnoc(ks[..|ks| - 1], rs, r);
    }
  }

  /** With distinct keys, summing month by month is summing the documents
      that fall in the window: documents outside it contribute nothing, and
      none is counted twice. */
  lemma {:induction false} SumOverKeysIsInWindow(ks: seq<string>, rs: seq<Receita>)
    requires Distinct(ks)
    ensures SumOverKeys(ks, rs) == InWindow(rs, ks)
    decreases |rs|
  {
    if rs == [] {
      SumOverKeysEmpty(ks);
    } else {
      var init, r := rs[..|rs| - 1], rs[|rs| - 1];
      assert rs == init + [r];
      SumOverKeysIsInWindow(ks, init);
      SumOverKeysSnoc(ks, init, r);
      ContributionDistinct(ks, r);
    }
  }

  lemma {:induction false} SumOverKeysEmpty(ks: seq<string>)
    ensures SumOverKeys(ks, []) == 0.0
    decreases |ks|
  {
    if ks != [] { SumOverKeysEmpty(ks[..|ks| - 1]); }
  }

  lemma {:induction false} SumTotalsByKeys(rows: seq<Row>, ks: seq<string>, rs: seq<Receita>)
    requires |rows| == |ks|
    requires forall i :: 0 <= i < |rows| ==> rows[i].total == MonthTotal(rs, ks[i])
    ensures SumTotals(rows) == SumOverKeys(ks, rs)
    decreases |rows|
  {
    if rows != [] {
      SumTotalsByKeys(rows[..|rows| - 1], ks[..|ks| - 1], rs);
    }
  }

  /** Months of a consecutive window have pairwise different keys. */
  lemma WindowKeysDistinct(meses: seq<Month>, s: int)
    requires AllFourDigit(meses) && Consecutive(meses, s)
    ensures Distinct(Keys(meses))
  {
    var ks := Keys(meses);
    forall i, j | 0 <= i < j < |ks| ensures ks[i] != ks[j] {
      KeyYearMonthInjective(meses[i].ym, meses[j].ym);
    }
  }

  /** The grand total of a report over a consecutive window is the revenue
      of the documents dated inside the window. */
  lemma TotalGeralIsWindowRevenue(meses: seq<Month>, s: int, receitas: seq<Receita>, rows: seq<Row>)
    requires AllFourDigit(meses) && Consecutive(meses, s)
    requires |rows| == |meses|
    requires forall i :: 0 <= i < |meses| ==> rows[i].total == MonthTotal(receitas, MesAno(meses[i]))
    ensures SumTotals(rows) == InWindow(receitas, Keys(meses))
  {
    var ks := Keys(meses);
    WindowKeysDistinct(meses, s);
    SumTotalsByKeys(rows, ks, receitas);
    SumOverKeysIsInWindow(ks, receitas);
  }

  /** A zero amount and 150.50 in one month: the month totals 150.50. */
  lemma MonthTotalExample(k: string)
    requires |k| == 7
    ensures MonthTotal([Receita(Some(k + "-03"), Some(0.0)), Receita(Some(k + "-20"), Some(150.5))], k) == 150.5
  {
    var rs := [Receita(Some(k + "-03"), Some(0.0)), Receita(Some(k + "-20"), Some(150.5))];
    assert (k + "-03")[..7] == k && (k + "-20")[..7] == k;
    assert rs[..1] == [rs[0]] && [rs[0]][..0] == [];
    assert MonthTotal([], k) == 0.0;
    assert MonthTotal([rs[0]], k) == 0.0;
    assert MonthTotal(rs, k) == MonthTotal([rs[0]], k) + 150.5;
  }
}

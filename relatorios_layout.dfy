/** The page `gerarPdf` draws (pages/Relatorios.tsx): an A4 page with the
    client header box, the legal declaration box, the title, the revenue
    table and the two signature blocks. pdf-lib itself is not modelled; the
    page is the list of drawing calls with the coordinates and sizes the
    code computes, and a mutable `y` cursor walks down the page. Text widths
    (`widthOfTextAtSize`) come from an abstract measure. */
module RelatoriosLayout {
  import opened Common
  import opened Text
  import Calendar
  import RelatoriosPeriod
  import opened RelatoriosRevenue
  import opened RelatoriosWrap

  /** pdf-lib's `PageSizes.A4`. */
  const PageW: real := 595.28
  const PageH: real := 841.89
  const MarginX: real := 48.0
  const ContentW: real := PageW - MarginX * 2.0
  /** Where the cursor starts: `height - 40`. */
  const Top: real := PageH - 40.0

  const RazaoSize: real := 13.0
  const RazaoLineH: real := RazaoSize + 5.0
  const RazaoMaxW: real := ContentW - 24.0
  const CnpjSize: real := 10.0
  const DeclSize: real := 7.5
  const DeclLineH: real := DeclSize + 3.0
  const DeclMaxW: real := ContentW - 16.0
  const TituloSize: real := 14.0

  const TableW: real := ContentW * 0.5
  const Col1X: real := MarginX + (ContentW - TableW) / 2.0
  const Col2X: real := Col1X + TableW * 0.5
  const RowH: real := 18.0
  const TextOffY: real := RowH / 2.0 - 4.0

  const SigW: real := ContentW * 0.55
  const SigCX: real := MarginX + (ContentW - SigW) / 2.0
  const ClienteLineY: real := 82.0 + 110.0
  const ContadorLineY: real := 82.0
  const DataY: real := ClienteLineY + 90.0

  const DeclText: string :=
    "Declaramos, sob as penas da lei, especialmente das previsões do artigo 298 do Código Penal Brasileiro, "
    + "nos incisos XX e XXIV do artigo 24 do Estatuto dos Conselhos Regionais de Contabilidade e "
    + "Resolução CFC nº 825/98, que as informações abaixo transcritas constituem a expressão da verdade."

  datatype Color = Black | Gray | LightGray | White | RowBorder | SeparatorGray
  datatype Font = Helvetica | HelveticaBold | HelveticaOblique

  /** One pdf-lib drawing call. */
  datatype Op =
    | DrawRect(x: real, y: real, w: real, h: real, fill: Color, border: Color, borderW: real)
    | DrawText(text: string, x: real, y: real, size: real, font: Font, color: Color)
    | DrawLine(x1: real, y1: real, x2: real, y2: real, color: Color, thickness: real)

  /** `font.widthOfTextAtSize(text, size)`. */
  type Measure = (Font, string, real) -> real

  /** The `contador_perfil` document of the signed-in accountant. */
  datatype Perfil = Perfil(nomeCompleto: string, crc: string, assinaturaUrl: string)

  /** `marginX + (contentW - w) / 2`: the text is centred on the page, and a
      text wider than the content area starts left of the margin (there is
      no clamp here). */
  function CenterX(w: real): (x: real)
    ensures x + w / 2.0 == PageW / 2.0
    ensures w > ContentW ==> x < MarginX
  {
    MarginX + (ContentW - w) / 2.0
  }

  /** `sigCX + Math.max(0, (sigW - w) / 2)`: a signature-block text never
      starts left of the signature line, and is centred on it when it fits. */
  function SigX(w: real): (x: real)
    ensures x >= SigCX
    ensures w <= SigW ==> x + w / 2.0 == SigCX + SigW / 2.0
    ensures w >= SigW ==> x == SigCX
  {
    SigCX + (if (SigW - w) / 2.0 > 0.0 then (SigW - w) / 2.0 else 0.0)
  }

  /* ── header box ── */

  function HeaderBoxH(n: nat): real
  {
    if n > 1 then 16.0 + n as real * RazaoLineH + 22.0 else 60.0
  }

  function RazaoStartY(y0: real, n: nat): real
  {
    y0 - (HeaderBoxH(n) - n as real * RazaoLineH - 20.0) / 2.0 - RazaoLineH + 4.0
  }

  function RazaoText(start: real, i: nat, line: string, measure: Measure): Op
  {
    DrawText(line, CenterX(measure(HelveticaBold, line, RazaoSize)), start - i as real * RazaoLineH,
             RazaoSize, HelveticaBold, Black)
  }

  /** The `razaoLines.forEach` drawing calls. */
  function RazaoTexts(start: real, lines: seq<string>, measure: Measure): seq<Op>
  {
    if lines == [] then []
    else RazaoTexts(start, lines[..|lines| - 1], measure)
         + [RazaoText(start, |lines| - 1, lines[|lines| - 1], measure)]
  }

  function CnpjText(y0: real, n: nat, cnpj: string, measure: Measure): Op
  {
    var t := "CNPJ: " + cnpj;
    DrawText(t, CenterX(measure(Helvetica, t, CnpjSize)), y0 - HeaderBoxH(n) + 10.0, CnpjSize, Helvetica, Black)
  }

  function HeaderOps(y0: real, lines: seq<string>, cnpj: string, measure: Measure): seq<Op>
  {
    var h := HeaderBoxH(|lines|);
    [DrawRect(MarginX, y0 - h, ContentW, h, White, Black, 1.0)]
    + RazaoTexts(RazaoStartY(y0, |lines|), lines, measure)
    + [CnpjText(y0, |lines|, cnpj, measure)]
  }

  /** The header block of `gerarPdf`: box, name lines, CNPJ; the cursor
      moves below the box and an 8-point gap. */
  method Header(y0: real, lines: seq<string>, cnpj: string, measure: Measure) returns (ops: seq<Op>, y: real)
    ensures ops == HeaderOps(y0, lines, cnpj, measure)
    ensures y == y0 - HeaderBoxH(|lines|) - 8.0
  {
    var boxH := HeaderBoxH(|lines|);
    ops := [DrawRect(MarginX, y0 - boxH, ContentW, boxH, White, Black, 1.0)];
    var start := RazaoStartY(y0, |lines|);
    for i := 0 to |lines|
      invariant ops == [DrawRect(MarginX, y0 - boxH, ContentW, boxH, White, Black, 1.0)]
                       + RazaoTexts(start, lines[..i], measure)
    {
      assert lines[..i + 1][..i] == lines[..i];
      ops := ops + [RazaoText(start, i, lines[i], measure)];
    }
    assert lines[..|lines|] == lines;
    ops := ops + [CnpjText(y0, |lines|, cnpj, measure)];
    y := y0 - (boxH + 8.0);
  }

  lemma {:induction false} RazaoTextsShape(start: real, lines: seq<string>, measure: Measure)
    ensures |RazaoTexts(start, lines, measure)| == |lines|
    ensures forall i :: 0 <= i < |lines| ==>
              RazaoTexts(start, lines, measure)[i] == RazaoText(start, i, lines[i], measure)
    decreases |lines|
  {
    if lines != [] {
      RazaoTextsShape(start, lines[..|lines| - 1], measure);
    }
  }

  /** The header box is 60 points tall for a name on one line and grows by
      a line height per line beyond; every name line lies inside the box,
      above the CNPJ line with at least 23 points between baselines. */
  lemma HeaderGeometry(y0: real, lines: seq<string>, cnpj: string, measure: Measure)
    ensures var ops := HeaderOps(y0, lines, cnpj, measure);
            var h := HeaderBoxH(|lines|);
            |ops| == |lines| + 2
            && h >= 60.0
            && (|lines| > 1 ==> h == 60.0 + (|lines| - 1) as real * RazaoLineH - 4.0)
            && ops[0] == DrawRect(MarginX, y0 - h, ContentW, h, White, Black, 1.0)
            && ops[|lines| + 1].y == y0 - h + 10.0
            && (forall i :: 0 <= i < |lines| ==>
                  ops[1 + i].DrawText? && ops[1 + i].text == lines[i]
                  && ops[|lines| + 1].y + 23.0 <= ops[1 + i].y
                  && ops[1 + i].y + RazaoSize <= y0 - 10.0)
  {
    var n := |lines|;
    var start := RazaoStartY(y0, n);
    RazaoTextsShape(start, lines, measure);
    var ops := HeaderOps(y0, lines, cnpj, measure);
    var h := HeaderBoxH(n);
    assert ops[1..n + 1] == RazaoTexts(start, lines, measure);
    forall i | 0 <= i < n
      ensures ops[1 + i] == RazaoText(start, i, lines[i], measure)
      ensures ops[n + 1].y + 23.0 <= ops[1 + i].y && ops[1 + i].y + RazaoSize <= y0 - 10.0
    {
      assert ops[1 + i] == ops[1..n + 1][i];
      RazaoLineInBox(y0, n, i);
    }
  }

  /** Name line i of n sits between the CNPJ line and the top of the box. */
  lemma RazaoLineInBox(y0: real, n: nat, i: nat)
    requires i < n
    ensures var y := RazaoStartY(y0, n) - i as real * RazaoLineH;
            y0 - HeaderBoxH(n) + 10.0 + 23.0 <= y && y + RazaoSize <= y0 - 10.0
  {
    assert 0.0 <= i as real <= n as real - 1.0;
    if n > 1 {
      assert RazaoStartY(y0, n) == y0 - 23.0;
    } else {
      assert RazaoStartY(y0, n) == y0 - 25.0;
    }
  }

  /* ── declaration box ── */

  function DeclBoxH(n: nat): real
  {
    n as real * DeclLineH + 14.0
  }

  function DeclLine(y0: real, i: nat, line: string, measure: Measure): Op
  {
    DrawText(line, CenterX(measure(HelveticaOblique, line, DeclSize)), y0 - 12.0 - i as real * DeclLineH,
             DeclSize, HelveticaOblique, Black)
  }

  function DeclLines(y0: real, lines: seq<string>, measure: Measure): seq<Op>
  {
    if lines == [] then []
    else DeclLines(y0, lines[..|lines| - 1], measure) + [DeclLine(y0, |lines| - 1, lines[|lines| - 1], measure)]
  }

  function DeclOps(y0: real, lines: seq<string>, measure: Measure): seq<Op>
  {
    var h := DeclBoxH(|lines|);
    [DrawRect(MarginX, y0 - h, ContentW, h, White, Black, 1.0)] + DeclLines(y0, lines, measure)
  }

  /** The declaration block; the cursor moves below it and a 50-point gap. */
  method Declaration(y0: real, lines: seq<string>, measure: Measure) returns (ops: seq<Op>, y: real)
    ensures ops == DeclOps(y0, lines, measure)
    ensures y == y0 - DeclBoxH(|lines|) - 50.0
  {
    var declBoxH := DeclBoxH(|lines|);
    ops := [DrawRect(MarginX, y0 - declBoxH, ContentW, declBoxH, White, Black, 1.0)];
    for i := 0 to |lines|
      invariant ops == [DrawRect(MarginX, y0 - declBoxH, ContentW, declBoxH, White, Black, 1.0)]
                       + DeclLines(y0, lines[..i], measure)
    {
      assert lines[..i + 1][..i] == lines[..i];
      ops := ops + [DeclLine(y0, i, lines[i], measure)];
    }
    assert lines[..|lines|] == lines;
    y := y0 - (declBoxH + 50.0);
  }

  lemma {:induction false} DeclLinesShape(y0: real, lines: seq<string>, measure: Measure)
    ensures |DeclLines(y0, lines, measure)| == |lines|
    ensures forall i :: 0 <= i < |lines| ==>
              DeclLines(y0, lines, measure)[i] == DeclLine(y0, i, lines[i], measure)
    decreases |lines|
  {
    if lines != [] {
      DeclLinesShape(y0, lines[..|lines| - 1], measure);
    }
  }

  /** The declaration box holds every one of its lines: each baseline is at
      least 12.5 points above the bottom edge and each line's top 4.5 points
      below the top edge. */
  lemma DeclGeometry(y0: real, lines: seq<string>, measure: Measure)
    ensures var ops := DeclOps(y0, lines, measure);
            var h := DeclBoxH(|lines|);
            |ops| == |lines| + 1
            && ops[0] == DrawRect(MarginX, y0 - h, ContentW, h, White, Black, 1.0)
            && forall i :: 0 <= i < |lines| ==>
                 ops[1 + i].DrawText? && ops[1 + i].text == lines[i]
                 && y0 - h + 12.5 <= ops[1 + i].y && ops[1 + i].y + DeclSize <= y0 - 4.5
  {
    DeclLinesShape(y0, lines, measure);
    var ops := DeclOps(y0, lines, measure);
    assert ops[1..] == DeclLines(y0, lines, measure);
    forall i | 0 <= i < |lines|
      ensures ops[1 + i] == DeclLine(y0, i, lines[i], measure)
      ensures y0 - DeclBoxH(|lines|) + 12.5 <= ops[1 + i].y && ops[1 + i].y + DeclSize <= y0 - 4.5
    {
      assert ops[1 + i] == ops[1..][i];
      DeclLineInBox(y0, |lines|, i);
    }
  }

  /** Declaration line i of n lies inside the box. */
  lemma DeclLineInBox(y0: real, n: nat, i: nat)
    requires i < n
    ensures var y := y0 - 12.0 - i as real * DeclLineH;
            y0 - DeclBoxH(n) + 12.5 <= y && y + DeclSize <= y0 - 4.5
  {
    assert 0.0 <= i as real <= n as real - 1.0;
  }

  /* ── revenue table ── */

  /** Row i's background: white for even rows, light grey for odd ones. */
  function Stripe(i: nat): Color
  {
    if i % 2 == 0 then White else LightGray
  }

  function Cell(x: real, top: real, s: string, font: Font): Op
  {
    DrawText(s, x + 8.0, top - RowH + TextOffY, 9.0, font, Black)
  }

  /** The three calls for data row i, whose top edge is `top`. */
  function RowOps(top: real, i: nat, row: Row, brl: real -> string): seq<Op>
  {
    [DrawRect(Col1X, top - RowH, TableW, RowH, Stripe(i), RowBorder, 0.5),
     Cell(Col1X, top, Upper(row.labelText), Helvetica),
     Cell(Col2X, top, brl(row.total), Helvetica)]
  }

  function RowTop(y0: real, i: nat): real
  {
    y0 - (i as real + 1.0) * RowH
  }

  function RowsOps(y0: real, rows: seq<Row>, brl: real -> string): seq<Op>
  {
    if rows == [] then []
    else RowsOps(y0, rows[..|rows| - 1], brl) + RowOps(RowTop(y0, |rows| - 1), |rows| - 1, rows[|rows| - 1], brl)
  }

  function HeadRowOps(y0: real): seq<Op>
  {
    [DrawRect(Col1X, y0 - RowH, TableW, RowH, White, Black, 1.0),
     Cell(Col1X, y0, "MÊS", HelveticaBold),
     Cell(Col2X, y0, "FATURAMENTO", HelveticaBold)]
  }

  function TotalRowOps(top: real, totalGeral: real, brl: real -> string): seq<Op>
  {
    [DrawRect(Col1X, top - RowH, TableW, RowH, White, Black, 1.0),
     Cell(Col1X, top, "TOTAL", HelveticaBold),
     Cell(Col2X, top, brl(totalGeral), HelveticaBold)]
  }

  function TableBottom(y0: real, n: nat): real
  {
    y0 - (n as real + 2.0) * RowH
  }

  function TableOps(y0: real, rows: seq<Row>, totalGeral: real, brl: real -> string): seq<Op>
  {
    HeadRowOps(y0) + RowsOps(y0, rows, brl) + TotalRowOps(RowTop(y0, |rows|), totalGeral, brl)
    + [DrawLine(Col2X, TableBottom(y0, |rows|), Col2X, y0, SeparatorGray, 0.5)]
  }

  /** The table block: header row, one row per month, total row, then the
      vertical separator from the cursor back up to the table's top. */
  method Table(y0: real, rows: seq<Row>, totalGeral: real, brl: real -> string) returns (ops: seq<Op>, y: real)
    ensures ops == TableOps(y0, rows, totalGeral, brl)
    ensures y == TableBottom(y0, |rows|)
  {
    var tableTopY := y0;
    var body: seq<Op> := [];
    y := y0 - RowH;
    for idx := 0 to |rows|
      invariant y == RowTop(y0, idx)
      invariant body == RowsOps(y0, rows[..idx], brl)
    {
      assert rows[..idx + 1][..idx] == rows[..idx];
      body := body + RowOps(y, idx, rows[idx], brl);
      y := y - RowH;
    }
    assert rows[..|rows|] == rows;
    var total := TotalRowOps(y, totalGeral, brl);
    y := y - RowH;
    ops := HeadRowOps(y0) + body + total + [DrawLine(Col2X, y, Col2X, tableTopY, SeparatorGray, 0.5)];
  }

  lemma {:induction false} RowsOpsShape(y0: real, rows: seq<Row>, brl: real -> string)
    ensures |RowsOps(y0, rows, brl)| == 3 * |rows|
    ensures forall i :: 0 <= i < |rows| ==>
              RowsOps(y0, rows, brl)[3 * i..3 * i + 3] == RowOps(RowTop(y0, i), i, rows[i], brl)
    decreases |rows|
  {
    if rows != [] {
      var init := rows[..|rows| - 1];
      RowsOpsShape(y0, init, brl);
      var a, b := RowsOps(y0, init, brl), RowOps(RowTop(y0, |rows| - 1), |rows| - 1, rows[|rows| - 1], brl);
      forall i | 0 <= i < |rows|
        ensures (a + b)[3 * i..3 * i + 3] == RowOps(RowTop(y0, i), i, rows[i], brl)
      {
        if i < |rows| - 1 {
          assert (a + b)[3 * i..3 * i + 3] == a[3 * i..3 * i + 3];
        } else {
          assert (a + b)[3 * i..3 * i + 3] == b;
        }
      }
    }
  }

  /** Every rectangle among the calls lies between heights lo and hi. */
  predicate RectsWithin(ops: seq<Op>, lo: real, hi: real)
  {
    forall i :: 0 <= i < |ops| && ops[i].DrawRect? ==> lo <= ops[i].y && ops[i].y + ops[i].h <= hi
  }

  lemma RectsWithinAppend(a: seq<Op>, b: seq<Op>, lo: real, hi: real)
    requires RectsWithin(a, lo, hi) && RectsWithin(b, lo, hi)
    ensures RectsWithin(a + b, lo, hi)
  {
    forall i | 0 <= i < |a + b| && (a + b)[i].DrawRect?
      ensures lo <= (a + b)[i].y && (a + b)[i].y + (a + b)[i].h <= hi
    {
      if i >= |a| {
        assert (a + b)[i] == b[i - |a|];
      }
    }
  }

  /** The data rows stack from the header's bottom edge down to the top of
      the total row, each one row height tall. */
  lemma {:induction false} RowsWithin(y0: real, rows: seq<Row>, brl: real -> string)
    ensures RectsWithin(RowsOps(y0, rows, brl), RowTop(y0, |rows|), y0 - RowH)
    decreases |rows|
  {
    if rows != [] {
      var n := |rows|;
      RowsWithin(y0, rows[..n - 1], brl);
      var a := RowsOps(y0, rows[..n - 1], brl);
      var b := RowOps(RowTop(y0, n - 1), n - 1, rows[n - 1], brl);
      assert RectsWithin(b, RowTop(y0, n), y0 - RowH);
      RectsWithinAppend(a, b, RowTop(y0, n), y0 - RowH);
    }
  }

  /** The table is the header row, then data row i drawn as the rectangle
      of its stripe colour one row height below row i - 1, with its
      upper-cased label and formatted total, then the total row, then the
      separator; the separator is (rows + 2) row heights long and every
      rectangle of the table lies on its span. */
  lemma TableGeometry(y0: real, rows: seq<Row>, totalGeral: real, brl: real -> string)
    ensures var ops := TableOps(y0, rows, totalGeral, brl);
            var n := |rows|;
            |ops| == 3 * n + 7
            && ops[3 * n + 6] == DrawLine(Col2X, y0 - (n as real + 2.0) * RowH, Col2X, y0, SeparatorGray, 0.5)
            && (forall i :: 0 <= i < n ==>
                  ops[3 + 3 * i..6 + 3 * i] == RowOps(RowTop(y0, i), i, rows[i], brl))
            && RectsWithin(ops[..3 * n + 6], ops[3 * n + 6].y1, ops[3 * n + 6].y2)
  {
    var n := |rows|;
    TableRowsAt(y0, rows, totalGeral, brl);
    TableRects(y0, rows, totalGeral, brl);
  }

  lemma TableRowsAt(y0: real, rows: seq<Row>, totalGeral: real, brl: real -> string)
    ensures var ops := TableOps(y0, rows, totalGeral, brl);
            var n := |rows|;
            |ops| == 3 * n + 7
            && forall i :: 0 <= i < n ==> ops[3 + 3 * i..6 + 3 * i] == RowOps(RowTop(y0, i), i, rows[i], brl)
  {
    var n := |rows|;
    RowsOpsShape(y0, rows, brl);
    var ops := TableOps(y0, rows, totalGeral, brl);
    var r := RowsOps(y0, rows, brl);
    assert ops[3..3 + 3 * n] == r;
    forall i | 0 <= i < n
      ensures ops[3 + 3 * i..6 + 3 * i] == RowOps(RowTop(y0, i), i, rows[i], brl)
    {
      assert ops[3 + 3 * i..6 + 3 * i] == r[3 * i..3 * i + 3];
    }
  }

  lemma TableRects(y0: real, rows: seq<Row>, totalGeral: real, brl: real -> string)
    ensures |RowsOps(y0, rows, brl)| == 3 * |rows|
    ensures RectsWithin(TableOps(y0, rows, totalGeral, brl)[..3 * |rows| + 6], TableBottom(y0, |rows|), y0)
  {
    var n := |rows|;
    RowsOpsShape(y0, rows, brl);
    var head, r, tot := HeadRowOps(y0), RowsOps(y0, rows, brl), TotalRowOps(RowTop(y0, n), totalGeral, brl);
    var lo, hi := TableBottom(y0, n), y0;
    HeadWithin(y0, n);
    RowsWithin(y0, rows, brl);
    RectsWithinWider(r, RowTop(y0, n), y0 - RowH, lo, hi);
    TotalWithin(y0, n, totalGeral, brl);
    RectsWithinAppend(head, r, lo, hi);
    RectsWithinAppend(head + r, tot, lo, hi);
    var body := head + r + tot;
    var line := DrawLine(Col2X, lo, Col2X, y0, SeparatorGray, 0.5);
    assert TableOps(y0, rows, totalGeral, brl) == body + [line];
    assert (body + [line])[..|body|] == body;
  }

  lemma HeadWithin(y0: real, n: nat)
    ensures RectsWithin(HeadRowOps(y0), TableBottom(y0, n), y0)
  {
  }

  lemma TotalWithin(y0: real, n: nat, totalGeral: real, brl: real -> string)
    ensures RectsWithin(TotalRowOps(RowTop(y0, n), totalGeral, brl), TableBottom(y0, n), y0)
  {
  }

  lemma RectsWithinWider(ops: seq<Op>, lo: real, hi: real, lo': real, hi': real)
    requires RectsWithin(ops, lo, hi) && lo' <= lo && hi <= hi'
    ensures RectsWithin(ops, lo', hi')
  {
  }

  /** Data row i is the rectangle of its stripe colour with the month's
      upper-cased label and its formatted total. */
  lemma RowContents(top: real, i: nat, row: Row, brl: real -> string)
    ensures var ops := RowOps(top, i, row, brl);
            ops[0].DrawRect? && ops[0].fill == Stripe(i) && ops[0].y + ops[0].h == top
            && ops[1].DrawText? && ops[1].text == Upper(row.labelText)
            && ops[2].DrawText? && ops[2].text == brl(row.total)
            && ops[1].y == ops[2].y && ops[0].y < ops[1].y < top
  {
  }

  /** Consecutive data rows never share a colour. */
  lemma StripesAlternate(i: nat)
    ensures Stripe(0) == White
    ensures Stripe(i) != Stripe(i + 1)
  {
  }

  /* ── signature blocks ── */

  function ContadorNome(perfil: Option<Perfil>): string
  {
    Upper(if perfil.Some? && perfil.value.nomeCompleto != "" then perfil.value.nomeCompleto
          else "Contador Responsável")
  }

  function CrcText(perfil: Option<Perfil>): string
  {
    if perfil.Some? then perfil.value.crc else ""
  }

  function SigText(s: string, y: real, size: real, font: Font, color: Color, measure: Measure): Op
  {
    DrawText(s, SigX(measure(font, s, size)), y, size, font, color)
  }

  /** The client's and the accountant's signature blocks and the city/date
      line. The accountant's signature image (fetched from
      `assinaturaUrl`) is not part of the model. */
  function SignatureOps(clienteName: string, cnpj: string, perfil: Option<Perfil>, hojeExtenso: string,
                        measure: Measure): seq<Op>
  {
    var cidadeData := "Sinop, " + hojeExtenso;
    var crc := CrcText(perfil);
    [DrawLine(SigCX, ClienteLineY, SigCX + SigW, ClienteLineY, Black, 0.8),
     SigText(clienteName, ClienteLineY - 14.0, 8.0, HelveticaBold, Black, measure),
     SigText("CNPJ " + cnpj, ClienteLineY - 26.0, 7.5, Helvetica, Gray, measure),
     DrawLine(SigCX, ContadorLineY, SigCX + SigW, ContadorLineY, Black, 0.8),
     SigText(ContadorNome(perfil), ContadorLineY - 14.0, 8.0, HelveticaBold, Black, measure)]
    + (if crc != "" then [SigText(crc, ContadorLineY - 26.0, 7.5, Helvetica, Gray, measure)] else [])
    + [DrawText(cidadeData, CenterX(measure(HelveticaOblique, cidadeData, 9.0)), DataY, 9.0,
                HelveticaOblique, Gray)]
  }

  /** `s => font.widthOfTextAtSize(s, size)`. */
  function Width(measure: Measure, font: Font, size: real): string -> real
  {
    s => measure(font, s, size)
  }

  /** Every text of the signature blocks starts on or right of the signature
      line's left end, and is centred on the line when it is not wider than
      it; the CRC line is drawn exactly when the profile has a CRC; the
      accountant's name falls back to "CONTADOR RESPONSÁVEL". */
  lemma SignatureGeometry(clienteName: string, cnpj: string, perfil: Option<Perfil>, hojeExtenso: string,
                          measure: Measure)
    ensures var ops := SignatureOps(clienteName, cnpj, perfil, hojeExtenso, measure);
            (|ops| == 7 <==> perfil.Some? && perfil.value.crc != "")
            && (|ops| == 6 <==> !(perfil.Some? && perfil.value.crc != ""))
            && (forall i :: 0 <= i < |ops| - 1 && ops[i].DrawText? ==>
                  ops[i].x >= SigCX
                  && (measure(ops[i].font, ops[i].text, ops[i].size) <= SigW ==>
                        ops[i].x + measure(ops[i].font, ops[i].text, ops[i].size) / 2.0 == SigCX + SigW / 2.0))
            && (perfil.None? ==> ops[4].text == Upper("Contador Responsável"))
  {
  }

  /* ── the page ── */

  function TituloOp(y: real, measure: Measure): Op
  {
    DrawText("FATURAMENTO MENSAL", CenterX(measure(HelveticaBold, "FATURAMENTO MENSAL", TituloSize)), y,
             TituloSize, HelveticaBold, Black)
  }

  /** Where the table ends for a name of nr lines, a declaration of nd lines
      and n months. */
  function TableEnd(nr: nat, nd: nat, n: nat): real
  {
    TableBottom(Top - HeaderBoxH(nr) - 8.0 - DeclBoxH(nd) - 50.0 - 20.0, n)
  }

  /** The drawing calls of the whole page: the header at the top, then the
      declaration, the title, the table and the signature block, each
      starting where the cursor left the block before. */
  function PageOps(razaoLines: seq<string>, cnpj: string, declLines: seq<string>, rows: seq<Row>,
                   totalGeral: real, clienteName: string, perfil: Option<Perfil>, hojeExtenso: string,
                   measure: Measure, brl: real -> string): seq<Op>
  {
    var y1 := Top - HeaderBoxH(|razaoLines|) - 8.0;
    var y2 := y1 - DeclBoxH(|declLines|) - 50.0;
    HeaderOps(Top, razaoLines, cnpj, measure) + DeclOps(y1, declLines, measure)
    + [TituloOp(y2, measure)] + TableOps(y2 - 20.0, rows, totalGeral, brl)
    + SignatureOps(clienteName, cnpj, perfil, hojeExtenso, measure)
  }

  /** The whole page, top to bottom, threading the cursor. */
  method Page(razaoLines: seq<string>, cnpj: string, declLines: seq<string>, rows: seq<Row>, totalGeral: real,
              clienteName: string, perfil: Option<Perfil>, hojeExtenso: string,
              measure: Measure, brl: real -> string)
    returns (ops: seq<Op>, tableEnd: real)
    ensures ops == PageOps(razaoLines, cnpj, declLines, rows, totalGeral, clienteName, perfil, hojeExtenso,
                           measure, brl)
    ensures tableEnd == TableEnd(|razaoLines|, |declLines|, |rows|)
  {
    var y := Top;
    var header, decl, table;
    header, y := Header(y, razaoLines, cnpj, measure);
    ghost var y1 := y;
    decl, y := Declaration(y, declLines, measure);
    ghost var y2 := y;
    ops := header + decl + [TituloOp(y, measure)];
    y := y - 20.0;
    table, y := Table(y, rows, totalGeral, brl);
    ops := ops + table + SignatureOps(clienteName, cnpj, perfil, hojeExtenso, measure);
    tableEnd := y;
    assert y2 - 20.0 == Top - HeaderBoxH(|razaoLines|) - 8.0 - DeclBoxH(|declLines|) - 50.0 - 20.0;
  }

  /** With at most twelve months, a name of at most three lines and a
      declaration of at most seven lines, the table ends above the city and
      date line, so nothing overlaps. */
  lemma TableClearsSignatures(nr: nat, nd: nat, n: nat)
    requires n <= 12 && nr <= 3 && nd <= 7
    ensures TableEnd(nr, nd, n) > DataY + 9.0
  {
    assert HeaderBoxH(nr) <= 92.0;
    assert DeclBoxH(nd) <= 87.5;
  }

  /** Nothing stops a long name from pushing the table into the date line:
      six name lines, a three-line declaration and twelve months do. */
  lemma LongNameOverlaps()
    ensures TableEnd(6, 3, 12) < DataY + 9.0
  {
  }

  /* ── file name ── */

  /** `s.replace(/\s+/g, '_')`: every run of white space becomes one '_'. */
  function CollapseSpaces(s: string): string
    decreases |s|
  {
    if s == [] then []
    else if IsJsSpace(s[0]) then TrimStartSpec(s[1..]); "_" + CollapseSpaces(TrimStart(s[1..]))
    else [s[0]] + CollapseSpaces(s[1..])
  }

  /** The collapsed name has no white space left and is never longer. */
  lemma {:induction false} CollapseSpacesSpec(s: string)
    ensures NoSpace(CollapseSpaces(s)) && |CollapseSpaces(s)| <= |s|
    decreases |s|
  {
    if s != [] {
      var rest := if IsJsSpace(s[0]) then TrimStart(s[1..]) else s[1..];
      TrimStartSpec(s[1..]);
      CollapseSpacesSpec(rest);
      var r := CollapseSpaces(rest);
      var h := if IsJsSpace(s[0]) then '_' else s[0];
      assert CollapseSpaces(s) == [h] + r;
      forall i | 0 <= i < |r| + 1 ensures !IsJsSpace(([h] + r)[i]) {
        if i > 0 { assert ([h] + r)[i] == r[i - 1]; }
      }
    }
  }

  predicate NoSpace(s: string)
  {
    forall i :: 0 <= i < |s| ==> !IsJsSpace(s[i])
  }

  /** A name without white space is kept as it is. */
  lemma {:induction false} CollapseSpacesKeeps(s: string)
    requires NoSpace(s)
    ensures CollapseSpaces(s) == s
    decreases |s|
  {
    if s != [] {
      CollapseSpacesKeeps(s[1..]);
      assert [s[0]] + s[1..] == s;
    }
  }

  /** A run of white space between two words becomes a single '_'. */
  lemma {:induction false} CollapseSpacesRun(a: string, run: string, b: string)
    requires NoSpace(a) && run != [] && (forall i :: 0 <= i < |run| ==> IsJsSpace(run[i]))
    requires b == [] || !IsJsSpace(b[0])
    ensures CollapseSpaces(a + run + b) == a + "_" + CollapseSpaces(b)
    decreases |a|
  {
    var s := a + run + b;
    if a == [] {
      assert s == run + b;
      SkipRun(run[1..], b);
      assert s[1..] == run[1..] + b;
    } else {
      assert s[0] == a[0] && s[1..] == a[1..] + run + b;
      CollapseSpacesRun(a[1..], run, b);
      assert [a[0]] + a[1..] == a;
    }
  }

  lemma {:induction false} SkipRun(run: string, b: string)
    requires forall i :: 0 <= i < |run| ==> IsJsSpace(run[i])
    requires b == [] || !IsJsSpace(b[0])
    ensures TrimStart(run + b) == b
    decreases |run|
  {
    if run != [] {
      assert (run + b)[1..] == run[1..] + b;
      SkipRun(run[1..], b);
    } else {
      assert run + b == b;
    }
  }

  function FirstLabel(rows: seq<Row>): string
  {
    if rows == [] then "" else rows[0].labelText
  }

  function LastLabel(rows: seq<Row>): string
  {
    if rows == [] then "" else rows[|rows| - 1].labelText
  }

  /** `Faturamento_<name>_<first>-a-<last>.pdf`: the trade name with each
      run of white space made one '_' (so no white space is left in it),
      then the first and the last month labels. */
  function ReportFileName(nomeFantasia: string, rows: seq<Row>): (p: string)
    ensures var name := CollapseSpaces(nomeFantasia);
            p == "Faturamento_" + name + "_" + FirstLabel(rows) + "-a-" + LastLabel(rows) + ".pdf"
            && NoSpace(name) && |name| <= |nomeFantasia|
  {
    CollapseSpacesSpec(nomeFantasia);
    "Faturamento_" + CollapseSpaces(nomeFantasia) + "_" + FirstLabel(rows) + "-a-" + LastLabel(rows) + ".pdf"
  }

  /** As written, the month labels keep their '/' ("nov/25"), so whenever
      the first row carries a window label, the suggested path holds a '/',
      the path separator, after the name part. */
  lemma PathHasLabelSlash(nomeFantasia: string, rows: seq<Row>, ym: Calendar.YearMonth)
    requires Calendar.FourDigitYear(ym) && rows != [] && rows[0].labelText == Calendar.Label(ym)
    ensures var p := ReportFileName(nomeFantasia, rows);
            var k := 12 + |CollapseSpaces(nomeFantasia)| + 1 + 3;
            k < |p| && p[k] == '/'
  {
    var name := CollapseSpaces(nomeFantasia);
    var abbrev := Calendar.PtBrAbbrev[ym.month - 1];
    assert |abbrev| == 3;
    var l := Calendar.Label(ym);
    assert l == abbrev + "/" + PadNat(ym.year % 100, 2);
    assert l[3] == '/';
    var p := ReportFileName(nomeFantasia, rows);
    var pre := "Faturamento_" + name + "_";
    assert p == pre + (l + "-a-" + LastLabel(rows) + ".pdf");
    assert p[|pre| + 3] == l[3];
  }

  /** "Padaria  do Zé" is saved as Faturamento_Padaria_do_Zé_... */
  lemma FileNameExample()
    ensures CollapseSpaces("Padaria  do Zé") == "Padaria_do_Zé"
  {
    CollapseDoZe();
    CollapseSpacesRun("Padaria", "  ", "do Zé");
    PadariaLiterals();
  }

  /** A step of FileNameExample: the single space of "do Zé" becomes '_'. */
  lemma CollapseDoZe()
    ensures CollapseSpaces("do Zé") == "do_Zé"
  {
    CollapseSpacesKeeps("Zé");
    CollapseSpacesRun("do", " ", "Zé");
    assert "do" + " " + "Zé" == "do Zé";
    assert "do" + "_" + "Zé" == "do_Zé";
  }

  /** A step of FileNameExample: the pieces of the literals. */
  lemma PadariaLiterals()
    ensures "Padaria" + "  " + "do Zé" == "Padaria  do Zé"
    ensures "Padaria" + "_" + "do_Zé" == "Padaria_do_Zé"
  {
  }

  /* ── gerarPdf ── */

  datatype Report = Report(rows: seq<Row>, totalGeral: real, razaoLines: seq<string>, declLines: seq<string>,
                           ops: seq<Op>, path: string)

  /** `(cliente.razaoSocial || cliente.nomeFantasia).toUpperCase()`. */
  function RazaoNome(c: RelatoriosPeriod.Cliente): string
  {
    Upper(if c.razaoSocial != "" then c.razaoSocial else c.nomeFantasia)
  }

  /** `gerarPdf(cliente, meses)`: nothing without a signed-in user or with
      no month; otherwise the rows and total of the revenue aggregation,
      the wrapped name and declaration, the page and the suggested path. */
  method GerarPdf(signedIn: bool, cliente: RelatoriosPeriod.Cliente, meses: seq<RelatoriosPeriod.Month>,
                  receitas: seq<Receita>, perfil: Option<Perfil>, hojeExtenso: string,
                  measure: Measure, brl: real -> string)
    returns (r: Option<Report>)
    requires AllFourDigit(meses)
    ensures r.None? <==> !signedIn || meses == []
    ensures r.Some? ==>
              var rep := r.value;
              |rep.rows| == |meses|
              && (forall i :: 0 <= i < |meses| ==>
                    rep.rows[i].labelText == meses[i].labelText
                    && rep.rows[i].total == MonthTotal(receitas, RelatoriosPeriod.MesAno(meses[i])))
              && rep.totalGeral == SumTotals(rep.rows)
              && rep.razaoLines == Wrapped(RazaoNome(cliente), Width(measure, HelveticaBold, RazaoSize), RazaoMaxW)
              && rep.declLines == Wrapped(DeclText, Width(measure, HelveticaOblique, DeclSize), DeclMaxW)
              && rep.path == ReportFileName(cliente.nomeFantasia, rep.rows)
    ensures r.Some? ==>
              var rep := r.value;
              (forall i :: 0 <= i < |meses| ==> rep.rows[i].mesAno == RelatoriosPeriod.MesAno(meses[i]))
              && rep.ops == PageOps(rep.razaoLines, cliente.cnpj, rep.declLines, rep.rows, rep.totalGeral,
                                    RazaoNome(cliente), perfil, hojeExtenso, measure, brl)
  {
    if !signedIn || |meses| == 0 {
      return None;
    }
    var rows, totalGeral := AggregateRevenue(meses, receitas);
    var razao := RazaoNome(cliente);
    var razaoLines := Wrap(razao, Width(measure, HelveticaBold, RazaoSize), RazaoMaxW);
    var declLines := Wrap(DeclText, Width(measure, HelveticaOblique, DeclSize), DeclMaxW);
    var ops, _ := Page(razaoLines, cliente.cnpj, declLines, rows, totalGeral, razao, perfil, hojeExtenso,
                       measure, brl);
    var path := ReportFileName(cliente.nomeFantasia, rows);
    return Some(Report(rows, totalGeral, razaoLines, declLines, ops, path));
  }
}

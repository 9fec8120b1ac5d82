/** The payslip page (pages/Holerite.tsx): the pro-labore records of the
    month typed in the filter, and for one of them a PDF (the template file
    as it is, or a drawn fallback page) saved under a sanitised file name. */
module Holerite {
  import opened Common
  import opened Text
  import opened Money

  datatype ProLabore = ProLabore(id: string, clienteId: string, nomeFantasia: string, cnpj: string,
                                 mesAno: string, salarioMinimo: real, inssPerc: real,
                                 valorInss: real, valorLiquido: real, userId: string)

  // ---------------------------------------------------------------- file name

  predicate IsAsciiAlnum(c: char)
  {
    'a' <= c <= 'z' || 'A' <= c <= 'Z' || '0' <= c <= '9'
  }

  /** One step of `replace(/[^a-z0-9]/gi, '_')`. */
  function SanitizeChar(c: char): char
  {
    if IsAsciiAlnum(c) then c else '_'
  }

  /** `replace(/[^a-z0-9]/gi, '_')`: every character outside [A-Za-z0-9]
      becomes one '_' (runs are not collapsed). */
  function Sanitize(s: string): (r: string)
    ensures |r| == |s|
    ensures forall i :: 0 <= i < |s| ==> r[i] == SanitizeChar(s[i])
  {
    if s == [] then [] else Sanitize(s[..|s| - 1]) + [SanitizeChar(s[|s| - 1])]
  }

  predicate Clean(s: string)
  {
    forall i :: 0 <= i < |s| ==> IsAsciiAlnum(s[i]) || s[i] == '_'
  }

  /** The sanitised name holds only ASCII letters, digits and '_', keeps
      every letter and digit in place, and sanitising again changes
      nothing. */
  lemma SanitizeClean(s: string)
    ensures Clean(Sanitize(s))
    ensures forall i :: 0 <= i < |s| && IsAsciiAlnum(s[i]) ==> Sanitize(s)[i] == s[i]
    ensures Sanitize(Sanitize(s)) == Sanitize(s)
  {
  }

  /** Each of the four characters between "Z" and "Cia" becomes its own
      '_'. */
  lemma SanitizeExample()
    ensures Sanitize("Zé & Cia") == "Z____Cia"
  {
    var s := "Zé & Cia";
    assert forall i :: 0 <= i < 8 ==> Sanitize(s)[i] == "Z____Cia"[i];
  }

  /** `replace('/', '-')` with a string pattern: only the first '/' is
      replaced. */
  function ReplaceFirst(s: string, c: char, d: char): (r: string)
    ensures |r| == |s|
    ensures c !in s ==> r == s
  {
    if s == [] then []
    else if s[0] == c then [d] + s[1..]
    else [s[0]] + ReplaceFirst(s[1..], c, d)
  }

  /** With k the first position of c, the result is s with position k set
      to d and nothing else changed. */
  lemma {:induction false} ReplaceFirstAt(s: string, c: char, d: char, k: nat)
    requires k < |s| && s[k] == c && c !in s[..k]
    ensures ReplaceFirst(s, c, d) == s[..k] + [d] + s[k + 1..]
    decreases k
  {
    if k > 0 {
      assert s[0] in s[..k];
      assert s[1..][..k - 1] == s[1..k];
      ReplaceFirstAt(s[1..], c, d, k - 1);
      assert s[..k] == [s[0]] + s[1..][..k - 1];
      assert s[k + 1..] == s[1..][k..];
    }
  }

  /** The saved file's name. */
  function FileName(nomeFantasia: string, mesAno: string): (f: string)
    ensures |f| == |nomeFantasia| + |mesAno| + 14
  {
    "Holerite_" + Sanitize(nomeFantasia) + "_" + ReplaceFirst(mesAno, '/', '-') + ".pdf"
  }

  /** The name is "Holerite_", the sanitised company name, '_', the month
      with its first '/' turned into '-', and ".pdf"; for a 'MM/YYYY' month
      that is 'MM-YYYY'. */
  lemma FileNameShape(nomeFantasia: string, mesAno: string)
    ensures var f := FileName(nomeFantasia, mesAno);
            var n := |nomeFantasia|;
            f[..9] == "Holerite_" && f[9..9 + n] == Sanitize(nomeFantasia) && f[9 + n] == '_'
            && f[|f| - 4..] == ".pdf" && Clean(f[9..9 + n])
    ensures |mesAno| == 7 && mesAno[2] == '/' && '/' !in mesAno[..2] ==>
              var f := FileName(nomeFantasia, mesAno);
              var n := |nomeFantasia|;
              f[10 + n..17 + n] == mesAno[..2] + "-" + mesAno[3..]
  {
    var f := FileName(nomeFantasia, mesAno);
    var n := |nomeFantasia|;
    var m := ReplaceFirst(mesAno, '/', '-');
    assert f == "Holerite_" + Sanitize(nomeFantasia) + "_" + m + ".pdf";
    assert f[..9] == "Holerite_";
    assert f[9..9 + n] == Sanitize(nomeFantasia);
    SanitizeClean(nomeFantasia);
    if |mesAno| == 7 && mesAno[2] == '/' && '/' !in mesAno[..2] {
      ReplaceFirstAt(mesAno, '/', '-', 2);
      assert f[10 + n..17 + n] == m;
    }
  }

  /** A month with two slashes keeps the second one. */
  lemma OnlyFirstSlash()
    ensures ReplaceFirst("01/02/2025", '/', '-') == "01-02/2025"
  {
    var s := "01/02/2025";
    assert s[..2] == "01" && s[3..] == "02/2025";
    ReplaceFirstAt(s, '/', '-', 2);
    SlashLiterals();
  }

  /** A step of OnlyFirstSlash: the pieces of the literals. */
  lemma SlashLiterals()
    ensures "01" + ['-'] + "02/2025" == "01-02/2025"
  {
  }

  // ---------------------------------------------------------------- the PDF

  /** A `drawText` call of the fallback page. */
  datatype TextLine = TextLine(text: string, x: real, y: real, size: real)

  /** What is saved: the template's bytes untouched, or the one-page
      fallback of the given size and lines. */
  datatype Pdf = TemplateBytes(bytes: seq<bv8>) | Drawn(width: real, height: real, lines: seq<TextLine>)

  const PageW: real := 595.0
  const PageH: real := 842.0

  /** The six lines drawn when the template cannot be read. */
  function FallbackLines(item: ProLabore): seq<TextLine>
  {
    [TextLine("RECIBO DE PRO-LABORE - " + item.mesAno, 50.0, 780.0, 20.0),
     TextLine("Empresa: " + item.nomeFantasia, 50.0, 740.0, 14.0),
     TextLine("CNPJ: " + item.cnpj, 50.0, 720.0, 14.0),
     TextLine("Salário Base: R$ " + ToFixed2(item.salarioMinimo), 50.0, 680.0, 12.0),
     TextLine("INSS Retido: R$ " + ToFixed2(item.valorInss), 50.0, 660.0, 12.0),
     TextLine("Líquido a Receber: R$ " + ToFixed2(item.valorLiquido), 50.0, 640.0, 14.0)]
  }

  /** The fallback page is one A4 page (595 x 842) with six lines down its
      left edge, top to bottom, each inside the page; the amounts are
      written with two decimals. */
  lemma FallbackLayout(item: ProLabore)
    ensures var ls := FallbackLines(item);
            |ls| == 6
            && (forall i :: 0 <= i < 6 ==> ls[i].x == 50.0 && 0.0 < ls[i].y && ls[i].y + ls[i].size <= PageH)
            && (forall i, j :: 0 <= i < j < 6 ==> ls[i].y > ls[j].y)
            && [ls[0].y, ls[1].y, ls[2].y, ls[3].y, ls[4].y, ls[5].y] == [780.0, 740.0, 720.0, 680.0, 660.0, 640.0]
            && ls[3].text == "Salário Base: R$ " + ToFixed2(item.salarioMinimo)
            && ls[4].text == "INSS Retido: R$ " + ToFixed2(item.valorInss)
            && ls[5].text == "Líquido a Receber: R$ " + ToFixed2(item.valorLiquido)
  {
    var ls := FallbackLines(item);
    FallbackPlaces(ls);
  }

  lemma FallbackPlaces(ls: seq<TextLine>)
    requires |ls| == 6 && [ls[0].y, ls[1].y, ls[2].y, ls[3].y, ls[4].y, ls[5].y] == [780.0, 740.0, 720.0, 680.0, 660.0, 640.0]
    requires forall i :: 0 <= i < 6 ==> ls[i].x == 50.0 && ls[i].size <= 20.0
    ensures forall i :: 0 <= i < 6 ==> 0.0 < ls[i].y && ls[i].y + ls[i].size <= PageH
    ensures forall i, j :: 0 <= i < j < 6 ==> ls[i].y > ls[j].y
  {
    var ys := [ls[0].y, ls[1].y, ls[2].y, ls[3].y, ls[4].y, ls[5].y];
    assert forall i :: 0 <= i < 6 ==> ls[i].y == ys[i];
  }

  /** The outcome of `window.api.savePdf`; None when the call threw. */
  datatype SaveResult = SaveResult(success: bool, canceled: bool, error: string)

  /** The alert after saving: success, nothing on cancel, the error
      otherwise; a call that threw gets the generic message. */
  function SaveAlert(saved: Option<SaveResult>): (a: Option<string>)
    ensures saved.Some? && saved.value.success ==> a == Some("PDF salvo com sucesso!")
    ensures saved.Some? && !saved.value.success && saved.value.canceled ==> a == None
    ensures saved.Some? && !saved.value.success && !saved.value.canceled ==>
              a == Some("Erro ao salvar PDF: " + saved.value.error)
    ensures saved.None? ==> a == Some("Ocorreu um erro gerando o PDF do holerite.")
  {
    match saved
    case None => Some("Ocorreu um erro gerando o PDF do holerite.")
    case Some(r) =>
      if r.success then Some("PDF salvo com sucesso!")
      else if !r.canceled then Some("Erro ao salvar PDF: " + r.error)
      else None
  }

  /** The month's records of the signed-in user, in the store's order. */
  function Query(store: seq<ProLabore>, uid: string, mesAno: string): (r: seq<ProLabore>)
    ensures |r| <= |store|
    ensures forall p :: p in r <==> p in store && p.userId == uid && p.mesAno == mesAno
    ensures forall p :: multiset(r)[p] == if p.userId == uid && p.mesAno == mesAno then multiset(store)[p] else 0
  {
    if store == [] then []
    else
      var p := store[|store| - 1];
      assert store == store[..|store| - 1] + [p];
      Query(store[..|store| - 1], uid, mesAno) + (if p.userId == uid && p.mesAno == mesAno then [p] else [])
  }

  class Page {
    var filterMonth: string
    var proLabores: seq<ProLabore>
    /** `isGeneratingPdf`: the id of the record whose PDF is being made. */
    var generating: Option<string>

    /** The filter starts at the current month, `now` ('MM/yyyy'). */
    constructor (now: string)
      ensures filterMonth == now && proLabores == [] && generating == None
    {
      filterMonth := now;
      proLabores := [];
      generating := None;
    }

    /** The effect on `[filterMonth, currentUser]`: the records are
        fetched only for a seven-character filter and a signed-in user; a
        failed fetch leaves the list as it was. */
    method Refresh(user: Option<string>, store: seq<ProLabore>, fetchOk: bool)
      modifies this
      ensures filterMonth == old(filterMonth) && generating == old(generating)
      ensures proLabores == if |filterMonth| == 7 && user.Some? && fetchOk
                            then Query(store, user.value, filterMonth) else old(proLabores)
    {
      if |filterMonth| == 7 {
        if user.None? {
          return;
        }
        if fetchOk {
          proLabores := Query(store, user.value, filterMonth);
        }
      }
    }

    /** Typing in the filter, then the effect. */
    method SetFilterMonth(v: string, user: Option<string>, store: seq<ProLabore>, fetchOk: bool)
      modifies this
      ensures filterMonth == v && generating == old(generating)
      ensures proLabores == if |v| == 7 && user.Some? && fetchOk
                            then Query(store, user.value, v) else old(proLabores)
    {
      filterMonth := v;
      Refresh(user, store, fetchOk);
    }

    /** `handleGeneratePdf`: `template` is the template file's bytes, None
        when fetching it failed; `saved` is the result of the save dialog,
        None when the call threw. The template, when there is one, is saved
        exactly as read. */
    method GeneratePdf(item: ProLabore, template: Option<seq<bv8>>, saved: Option<SaveResult>)
      returns (pdf: Pdf, fileName: string, alert: Option<string>)
      modifies this
      ensures template.Some? ==> pdf == TemplateBytes(template.value)
      ensures template.None? ==> pdf == Drawn(PageW, PageH, FallbackLines(item))
      ensures fileName == FileName(item.nomeFantasia, item.mesAno)
      ensures alert == SaveAlert(saved)
      ensures generating == None && filterMonth == old(filterMonth) && proLabores == old(proLabores)
    {
      generating := Some(item.id);
      if template.Some? {
        pdf := TemplateBytes(template.value);
      } else {
        var lines: seq<TextLine> := [TextLine("RECIBO DE PRO-LABORE - " + item.mesAno, 50.0, 780.0, 20.0)];
        lines := lines + [TextLine("Empresa: " + item.nomeFantasia, 50.0, 740.0, 14.0)];
        lines := lines + [TextLine("CNPJ: " + item.cnpj, 50.0, 720.0, 14.0)];
        lines := lines + [TextLine("Salário Base: R$ " + ToFixed2(item.salarioMinimo), 50.0, 680.0, 12.0)];
        lines := lines + [TextLine("INSS Retido: R$ " + ToFixed2(item.valorInss), 50.0, 660.0, 12.0)];
        lines := lines + [TextLine("Líquido a Receber: R$ " + ToFixed2(item.valorLiquido), 50.0, 640.0, 14.0)];
        assert lines == FallbackLines(item);
        pdf := Drawn(PageW, PageH, lines);
      }
      fileName := "Holerite_" + Sanitize(item.nomeFantasia) + "_" + ReplaceFirst(item.mesAno, '/', '-') + ".pdf";
      alert := SaveAlert(saved);
      generating := None;
    }
  }
}

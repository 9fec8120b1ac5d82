/** The greedy word wrap `gerarPdf` runs twice (pages/Relatorios.tsx): once
    on the client's upper-cased legal name and once on the legal declaration.
    The text is split on single spaces; a line grows word by word while the
    font says the candidate still fits, otherwise the current line is closed
    and the word starts the next one. The font's width function
    (`widthOfTextAtSize` at the fixed size) is a parameter. */
module RelatoriosWrap {
  import opened Text

  /** Lines closed so far and the line being built (`razaoCur` / `declCur`). */
  datatype WrapState = WrapState(lines: seq<string>, cur: string)

  /** One turn of the `for (const word of words)` loop. */
  function Step(st: WrapState, word: string, width: string -> real, maxW: real): WrapState
  {
    var test := if st.cur != "" then st.cur + " " + word else word;
    if width(test) > maxW then WrapState(st.lines + [st.cur], word) else WrapState(st.lines, test)
  }

  /** The state after the loop has consumed the given words. */
  function Run(words: seq<string>, width: string -> real, maxW: real): WrapState
  {
    if words == [] then WrapState([], "")
    else Step(Run(words[..|words| - 1], width, maxW), words[|words| - 1], width, maxW)
  }

  /** `if (cur) lines.push(cur)`. */
  function Finish(st: WrapState): seq<string>
  {
    if st.cur != "" then st.lines + [st.cur] else st.lines
  }

  function Wrapped(text: string, width: string -> real, maxW: real): seq<string>
  {
    Finish(Run(Split(text, ' '), width, maxW))
  }

  /** The wrap loop of `gerarPdf`. */
  method Wrap(text: string, width: string -> real, maxW: real) returns (lines: seq<string>)
    ensures lines == Wrapped(text, width, maxW)
  {
    var words := Split(text, ' ');
    lines := [];
    var cur := "";
    for i := 0 to |words|
      invariant WrapState(lines, cur) == Run(words[..i], width, maxW)
    {
      assert words[..i + 1][..i] == words[..i];
      var word := words[i];
      var test := if cur != "" then cur + " " + word else word;
      if width(test) > maxW {
        lines := lines + [cur];
        cur := word;
      } else {
        cur := test;
      }
    }
    assert words[..|words|] == words;
    if cur != "" {
      lines := lines + [cur];
    }
  }

  /** The non-empty strings of a list, in order. */
  function NonEmpty(parts: seq<string>): seq<string>
  {
    if parts == [] then []
    else NonEmpty(parts[..|parts| - 1]) + (if parts[|parts| - 1] != "" then [parts[|parts| - 1]] else [])
  }

  /** The words of a text: what is left between spaces, empty pieces dropped. */
  function Tokens(s: string): seq<string>
  {
    NonEmpty(Split(s, ' '))
  }

  /** The words of every line, line after line. */
  function AllTokens(lines: seq<string>): seq<string>
  {
    if lines == [] then [] else AllTokens(lines[..|lines| - 1]) + Tokens(lines[|lines| - 1])
  }

  lemma {:induction false} NonEmptyAppend(a: seq<string>, b: seq<string>)
    ensures NonEmpty(a + b) == NonEmpty(a) + NonEmpty(b)
    decreases |b|
  {
    if b == [] {
      assert a + b == a;
    } else {
      var ab := a + b;
      assert ab[..|ab| - 1] == a + b[..|b| - 1];
      assert ab[|ab| - 1] == b[|b| - 1];
      NonEmptyAppend(a, b[..|b| - 1]);
    }
  }

  lemma TokensJoin(a: string, b: string)
    ensures Tokens(a + " " + b) == Tokens(a) + Tokens(b)
  {
    assert a + " " + b == a + [' '] + b;
    SplitAppend(a, ' ', b);
    NonEmptyAppend(Split(a, ' '), Split(b, ' '));
  }

  lemma TokensWord(w: string)
    requires ' ' !in w
    ensures Tokens(w) == if w == "" then [] else [w]
  {
    SplitNoSep(w, ' ');
    assert [w][..0] == [];
    assert NonEmpty([w]) == NonEmpty([]) + (if w != "" then [w] else []);
  }

  predicate NoSpaces(words: seq<string>)
  {
    forall i :: 0 <= i < |words| ==> ' ' !in words[i]
  }

  /** Closing a line appends its words after those of the lines before it. */
  lemma AllTokensSnoc(ls: seq<string>, l: string)
    ensures AllTokens(ls + [l]) == AllTokens(ls) + Tokens(l)
  {
    assert (ls + [l])[..|ls|] == ls;
  }

  lemma TestTokens(cur: string, w: string)
    requires ' ' !in w
    ensures Tokens(if cur != "" then cur + " " + w else w) == Tokens(cur) + Tokens(w)
  {
    if cur != "" {
      TokensJoin(cur, w);
    } else {
      TokensWord("");
    }
  }


  /** One turn of the loop moves the word into the lines, unchanged. */
  lemma StepTokens(st: WrapState, w: string, width: string -> real, maxW: real)
    requires ' ' !in w
    ensures var st' := Step(st, w, width, maxW);
            AllTokens(st'.lines) + Tokens(st'.cur) == AllTokens(st.lines) + Tokens(st.cur) + Tokens(w)
  {
    var test := if st.cur != "" then st.cur + " " + w else w;
    if width(test) > maxW {
      assert Step(st, w, width, maxW) == WrapState(st.lines + [st.cur], w);
      CloseTokens(st.lines, st.cur, w);
    } else {
      assert Step(st, w, width, maxW) == WrapState(st.lines, test);
      FitTokens(st.lines, st.cur, w);
    }
  }

  lemma CloseTokens(ls: seq<string>, cur: string, w: string)
    ensures AllTokens(ls + [cur]) + Tokens(w) == AllTokens(ls) + Tokens(cur) + Tokens(w)
  {
    AllTokensSnoc(ls, cur);
  }

  lemma FitTokens(ls: seq<string>, cur: string, w: string)
    requires ' ' !in w
    ensures AllTokens(ls) + Tokens(if cur != "" then cur + " " + w else w) == AllTokens(ls) + Tokens(cur) + Tokens(w)
  {
    TestTokens(cur, w);
  }

  /** The loop loses no word and reorders none: the words of the closed
      lines followed by those of the current line are the words read so far. */
  lemma {:induction false} RunTokens(words: seq<string>, width: string -> real, maxW: real)
    requires NoSpaces(words)
    ensures var st := Run(words, width, maxW);
            AllTokens(st.lines) + Tokens(st.cur) == NonEmpty(words)
    decreases |words|
  {
    if words == [] {
      TokensWord("");
    } else {
      var init, w := words[..|words| - 1], words[|words| - 1];
      RunTokens(init, width, maxW);
      TokensWord(w);
      StepTokens(Run(init, width, maxW), w, width, maxW);
    }
  }

  /** Wrapping keeps the text's words intact and in order. */
  lemma WrappedTokens(text: string, width: string -> real, maxW: real)
    ensures AllTokens(Wrapped(text, width, maxW)) == Tokens(text)
  {
    var st := Run(Split(text, ' '), width, maxW);
    SplitParts(text, ' ');
    RunTokens(Split(text, ' '), width, maxW);
    if st.cur != "" {
      assert (st.lines + [st.cur])[..|st.lines|] == st.lines;
    } else {
      TokensWord("");
    }
  }

  /** Every line the loop produced fits, or is one word of the text left
      alone because it does not fit, or is the empty line closed before a
      word that did not fit. */
  predicate Acceptable(l: string, words: seq<string>, width: string -> real, maxW: real)
  {
    l == "" || width(l) <= maxW || l in words
  }

  lemma {:induction false} RunFit(words: seq<string>, width: string -> real, maxW: real)
    ensures var st := Run(words, width, maxW);
            (forall l :: l in st.lines ==> Acceptable(l, words, width, maxW))
            && Acceptable(st.cur, words, width, maxW)
    decreases |words|
  {
    if words != [] {
      var init := words[..|words| - 1];
      RunFit(init, width, maxW);
      assert forall l :: l in init ==> l in words;
    }
  }

  /** A line holding two or more words (so containing a space) fits in maxW;
      any line that is too wide is a single word of the text, or empty. */
  lemma WrappedFit(text: string, width: string -> real, maxW: real)
    ensures forall l :: l in Wrapped(text, width, maxW) ==>
              width(l) <= maxW || l == "" || l in Split(text, ' ')
    ensures forall l :: l in Wrapped(text, width, maxW) && ' ' in l ==> width(l) <= maxW
  {
    var ws := Split(text, ' ');
    SplitParts(text, ' ');
    RunFit(ws, width, maxW);
    forall l | l in Wrapped(text, width, maxW) && ' ' in l ensures width(l) <= maxW {
      assert Acceptable(l, ws, width, maxW);
    }
  }

  /** The loop only appends lines. */
  lemma {:induction false} RunLinesGrow(words: seq<string>, k: nat, width: string -> real, maxW: real)
    requires k <= |words|
    ensures Run(words[..k], width, maxW).lines <= Run(words, width, maxW).lines
    decreases |words|
  {
    if k < |words| {
      var init := words[..|words| - 1];
      assert words[..k] == init[..k];
      RunLinesGrow(init, k, width, maxW);
    } else {
      assert words[..k] == words;
    }
  }

  /** A first word wider than the line gives an empty first line. */
  lemma FirstWordTooWide(text: string, width: string -> real, maxW: real)
    requires width(Split(text, ' ')[0]) > maxW
    ensures |Wrapped(text, width, maxW)| >= 1 && Wrapped(text, width, maxW)[0] == ""
  {
    var ws := Split(text, ' ');
    assert ws[..1][..0] == [];
    assert Run(ws[..1], width, maxW).lines == [""];
    RunLinesGrow(ws, 1, width, maxW);
  }

  /** An empty text wraps to no line at all. */
  lemma EmptyTextNoLines(width: string -> real, maxW: real)
    requires width("") <= maxW
    ensures Wrapped("", width, maxW) == []
  {
    assert Split("", ' ') == [""];
    assert [""][..0] == [];
    assert Run([""], width, maxW) == Step(WrapState([], ""), "", width, maxW);
    assert Run([""], width, maxW) == WrapState([], "");
  }
}

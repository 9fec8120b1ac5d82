/** `formatCnpj` (lib/utils.ts): keep the ASCII digits of the input, use
    the first fourteen, and lay them out as DD.DDD.DDD/DDDD-DD; an input
    with fewer than fourteen digits comes back as it was. */
module Utils {
  import opened Text

  /** `value.replace(/\D/g, '')`: the decimal digits, in order. */
  function Digits(s: string): string
  {
    if s == [] then []
    else Digits(s[..|s| - 1]) + (if IsDigit(s[|s| - 1]) then [s[|s| - 1]] else [])
  }

  /** The digit string holds digits only, keeps every digit of the input
      as often as it occurs there, and is the input itself exactly when the
      input is all digits. (DigitsAppend adds that the order is kept.) */
  lemma {:induction false} DigitsSpec(s: string)
    ensures AllDigits(Digits(s)) && |Digits(s)| <= |s|
    ensures forall c :: IsDigit(c) ==> multiset(Digits(s))[c] == multiset(s)[c]
    ensures Digits(s) == s <==> AllDigits(s)
    decreases |s|
  {
    if s != [] {
      var init, last := s[..|s| - 1], s[|s| - 1];
      DigitsSpec(init);
      assert s == init + [last];
      assert multiset(s) == multiset(init) + multiset{last};
      if IsDigit(last) {
        assert multiset(Digits(s)) == multiset(Digits(init)) + multiset{last};
      } else {
        assert Digits(s) == Digits(init);
      }
    }
    if AllDigits(s) {
      DigitsOfDigits(s);
    }
  }

  function Take14(d: string): string
  {
    if |d| <= 14 then d else d[..14]
  }

  /** The fixed punctuation around fourteen digits. */
  function Punctuate(d: string): string
    requires |d| == 14
  {
    d[..2] + "." + d[2..5] + "." + d[5..8] + "/" + d[8..12] + "-" + d[12..]
  }

  function FormatCnpj(value: string): string
  {
    var digits := Take14(Digits(value));
    if |digits| < 14 then value else Punctuate(digits)
  }

  /** The formatted shape DD.DDD.DDD/DDDD-DD. */
  predicate Shaped(r: string)
  {
    |r| == 18 && r[2] == '.' && r[6] == '.' && r[10] == '/' && r[15] == '-'
    && forall i :: 0 <= i < 18 && i != 2 && i != 6 && i != 10 && i != 15 ==> IsDigit(r[i])
  }

  /** The digits of two strings put together are the digits of the first
      followed by those of the second: the digits keep their order. */
  lemma {:induction false} DigitsAppend(a: string, b: string)
    ensures Digits(a + b) == Digits(a) + Digits(b)
    decreases |b|
  {
    if b == [] {
      assert a + b == a;
    } else {
      var ab := a + b;
      assert ab[..|ab| - 1] == a + b[..|b| - 1];
      assert ab[|ab| - 1] == b[|b| - 1];
      DigitsAppend(a, b[..|b| - 1]);
    }
  }

  /** A string of digits is its own digit string. */
  lemma {:induction false} DigitsOfDigits(d: string)
    requires AllDigits(d)
    ensures Digits(d) == d
    decreases |d|
  {
    if d != [] {
      DigitsOfDigits(d[..|d| - 1]);
    }
  }

  lemma NoDigits(p: string)
    requires forall i :: 0 <= i < |p| ==> !IsDigit(p[i])
    requires |p| == 1
    ensures Digits(p) == []
  {
    assert p[..0] == [];
  }

  /** Taking the punctuation away gives the fourteen digits back. */
  lemma DigitsOfPunctuate(d: string)
    requires |d| == 14 && AllDigits(d)
    ensures Digits(Punctuate(d)) == d
  {
    var a, b, c, e, f := d[..2], d[2..5], d[5..8], d[8..12], d[12..];
    NoDigits(".");
    NoDigits("/");
    NoDigits("-");
    var s1 := a + ".";
    AppendDigitsThenMark(a, ".", []);
    var s2 := s1 + b + ".";
    AppendDigitsThenMark(s1, ".", b);
    var s3 := s2 + c + "/";
    AppendDigitsThenMark(s2, "/", c);
    var s4 := s3 + e + "-";
    AppendDigitsThenMark(s3, "-", e);
    assert Digits(s4) == a + b + c + e;
    DigitsOfDigits(f);
    DigitsAppend(s4, f);
    assert s4 + f == Punctuate(d);
    assert a + b + c + e + f == d;
  }

  /** Appending digits and then a punctuation mark adds just the digits. */
  lemma AppendDigitsThenMark(s: string, mark: string, ds: string)
    requires AllDigits(ds) && Digits(mark) == []
    ensures Digits(s + ds + mark) == Digits(s) + ds
  {
    DigitsOfDigits(ds);
    DigitsAppend(s, ds);
    DigitsAppend(s + ds, mark);
    assert Digits(s) + ds + [] == Digits(s) + ds;
  }

  /** Only the first fourteen digits matter, and non-digits never do: with
      fewer than fourteen digits the input is returned unchanged; otherwise
      the result has the shape DD.DDD.DDD/DDDD-DD and its digits are the
      first fourteen digits of the input. */
  lemma FormatCnpjSpec(value: string)
    ensures |Digits(value)| < 14 ==> FormatCnpj(value) == value
    ensures |Digits(value)| >= 14 ==>
              Shaped(FormatCnpj(value)) && Digits(FormatCnpj(value)) == Digits(value)[..14]
  {
    if |Digits(value)| >= 14 {
      DigitsSpec(value);
      var d := Digits(value)[..14];
      DigitsOfPunctuate(d);
      var r := Punctuate(d);
      assert Take14(Digits(value)) == d;
      assert FormatCnpj(value) == r;
      ShapedPunctuate(d);
    }
  }

  /** Fourteen digits, punctuated, have the formatted shape. */
  lemma ShapedPunctuate(d: string)
    requires |d| == 14 && AllDigits(d)
    ensures Shaped(Punctuate(d))
  {
    var p1 := d[..2] + ".";
    var p2 := p1 + d[2..5] + ".";
    var p3 := p2 + d[5..8] + "/";
    var p4 := p3 + d[8..12] + "-";
    var r := p4 + d[12..];
    assert r == Punctuate(d);
    forall i | 0 <= i < 18 && i != 2 && i != 6 && i != 10 && i != 15 ensures IsDigit(r[i]) {
      if i < 2 { assert r[i] == p1[i] == d[i]; }
      else if i < 6 { assert r[i] == p2[i] == d[i - 1]; }
      else if i < 10 { assert r[i] == p3[i] == d[i - 2]; }
      else if i < 15 { assert r[i] == p4[i] == d[i - 3]; }
      else { assert r[i] == d[i - 4]; }
    }
    assert r[2] == p1[2] && r[6] == p2[6] && r[10] == p3[10] && r[15] == p4[15];
  }

  /** Formatting twice is formatting once. */
  lemma {:induction false} FormatCnpjIdempotent(value: string)
    ensures FormatCnpj(FormatCnpj(value)) == FormatCnpj(value)
  {
    FormatCnpjSpec(value);
    if |Digits(value)| >= 14 {
      var r := FormatCnpj(value);
      assert Digits(r)[..14] == Digits(r);
      FormatCnpjSpec(r);
    }
  }

  /** A raw CNPJ of fourteen digits and its formatted form give the same
      result. */
  lemma {:induction false} RawAndFormattedAgree(d: string)
    requires |d| == 14 && AllDigits(d)
    ensures FormatCnpj(FormatCnpj(d)) == FormatCnpj(d)
    ensures FormatCnpj(d) == Punctuate(d)
  {
    DigitsOfDigits(d);
    FormatCnpjIdempotent(d);
  }

  lemma FormatCnpjExample()
    ensures FormatCnpj("12345678000195") == "12.345.678/0001-95"
  {
    var d := "12345678000195";
    assert AllDigits(d);
    RawAndFormattedAgree(d);
    PunctuateExample();
  }

  /** A step of FormatCnpjExample: the punctuation of the fourteen digits. */
  lemma PunctuateExample()
    ensures Punctuate("12345678000195") == "12.345.678/0001-95"
  {
    var d := "12345678000195";
    assert d[..2] == "12" && d[2..5] == "345" && d[5..8] == "678";
    assert d[8..12] == "0001" && d[12..] == "95";
    ExampleLiteral();
  }

  /** A step of PunctuateExample: the pieces of the literal. */
  lemma ExampleLiteral()
    ensures "12" + "." + "345" + "." + "678" + "/" + "0001" + "-" + "95" == "12.345.678/0001-95"
  {
  }
}

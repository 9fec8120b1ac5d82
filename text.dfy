/** String helpers that the source gets from JavaScript itself: decimal
    digits, `String(n)`, `padStart`, `split`, and `parseInt(s, 10)`. */
module Text {
  import opened Common

  predicate IsDigit(c: char) { '0' <= c <= '9' }

  predicate AllDigits(s: string) { forall i :: 0 <= i < |s| ==> IsDigit(s[i]) }

  function DigitValue(c: char): (d: nat)
    requires IsDigit(c)
    ensures d < 10
  {
    c as int - '0' as int
  }

  function DigitChar(d: nat): (c: char)
    requires d < 10
    ensures IsDigit(c) && DigitValue(c) == d
  {
    ('0' as int + d) as char
  }

  /** Decimal representation of a natural number, as `String(n)`. */
  function NatStr(n: nat): (s: string)
    ensures 1 <= |s| && AllDigits(s)
    decreases n
  {
    if n < 10 then [DigitChar(n)] else NatStr(n / 10) + [DigitChar(n % 10)]
  }

  /** The number a string of decimal digits denotes (most significant first). */
  function DigitsValue(s: string): nat
    requires AllDigits(s)
  {
    if s == [] then 0 else DigitsValue(s[..|s| - 1]) * 10 + DigitValue(s[|s| - 1])
  }

  lemma {:induction false} NatStrValue(n: nat)
    ensures DigitsValue(NatStr(n)) == n
    decreases n
  {
    if n >= 10 {
      var s := NatStr(n);
      assert s[..|s| - 1] == NatStr(n / 10);
      NatStrValue(n / 10);
    }
  }

  function Pow10(k: nat): (p: nat)
    ensures p >= 1
  {
    if k == 0 then 1 else 10 * Pow10(k - 1)
  }

  /** `String(n)` has at most k characters when n < 10^k. */
  lemma {:induction false} NatStrLength(n: nat, k: nat)
    requires 1 <= k && n < Pow10(k)
    ensures |NatStr(n)| <= k
    decreases k
  {
    if n >= 10 {
      assert Pow10(1) == 10 * Pow10(0) == 10;
      assert k >= 2;
      assert n / 10 < Pow10(k - 1);
      NatStrLength(n / 10, k - 1);
    }
  }

  function Repeat(c: char, k: nat): (s: string)
    ensures |s| == k && forall i :: 0 <= i < k ==> s[i] == c
  {
    if k == 0 then [] else [c] + Repeat(c, k - 1)
  }

  /** `s.padStart(w, c)`. */
  function PadStart(s: string, w: nat, c: char): (r: string)
    ensures |r| == if |s| >= w then |s| else w
    ensures r[|r| - |s|..] == s
    ensures forall i :: 0 <= i < |r| - |s| ==> r[i] == c
  {
    if |s| >= w then s else Repeat(c, w - |s|) + s
  }

  /** Leading zeros do not change the value of a digit string. */
  lemma {:induction false} LeadingZeros(k: nat, s: string)
    requires AllDigits(s)
    ensures AllDigits(Repeat('0', k) + s)
    ensures DigitsValue(Repeat('0', k) + s) == DigitsValue(s)
    decreases |s|
  {
    var z := Repeat('0', k);
    assert AllDigits(z + s);
    if s == [] {
      ZerosValue(k);
      assert z + s == z;
    } else {
      var t := z + s;
      assert t[..|t| - 1] == z + s[..|s| - 1];
      LeadingZeros(k, s[..|s| - 1]);
    }
  }

  lemma {:induction false} ZerosValue(k: nat)
    ensures AllDigits(Repeat('0', k)) && DigitsValue(Repeat('0', k)) == 0
    decreases k
  {
    if k > 0 {
      var z := Repeat('0', k);
      assert z[..k - 1] == Repeat('0', k - 1);
      ZerosValue(k - 1);
    }
  }

  /** Zero-padded decimal of width w: `String(n).padStart(w, '0')`. */
  function PadNat(n: nat, w: nat): (s: string)
    ensures AllDigits(s)
  {
    var d := NatStr(n);
    if |d| >= w then d else LeadingZeros(w - |d|, d); Repeat('0', w - |d|) + d
  }

  /** A zero-padded decimal reads back as the number it was made from, and
      has exactly w characters when the number fits in w digits. */
  lemma PadNatValue(n: nat, w: nat)
    ensures DigitsValue(PadNat(n, w)) == n
    ensures 1 <= w && n < Pow10(w) ==> |PadNat(n, w)| == w
  {
    var d := NatStr(n);
    NatStrValue(n);
    if |d| < w {
      LeadingZeros(w - |d|, d);
      assert PadNat(n, w) == Repeat('0', w - |d|) + d;
    } else {
      assert PadNat(n, w) == d;
    }
    if 1 <= w && n < Pow10(w) { NatStrLength(n, w); }
  }

  /** `String(i)` for an integer. */
  function IntStr(i: int): string
  {
    if i < 0 then "-" + NatStr(-i) else NatStr(i)
  }

  /** `s.split(sep)`: always at least one part. */
  function Split(s: string, sep: char): (parts: seq<string>)
    ensures |parts| >= 1
  {
    if s == [] then [""]
    else if s[0] == sep then [""] + Split(s[1..], sep)
    else
      var r := Split(s[1..], sep);
      [[s[0]] + r[0]] + r[1..]
  }

  /** No part of a split contains the separator. */
  lemma {:induction false} SplitParts(s: string, sep: char)
    ensures forall k :: 0 <= k < |Split(s, sep)| ==> sep !in Split(s, sep)[k]
    decreases |s|
  {
    if s != [] {
      SplitParts(s[1..], sep);
      if s[0] != sep {
        var r := Split(s[1..], sep);
        assert sep !in [s[0]] + r[0];
      }
    }
  }

  /** A string without the separator is one part. */
  lemma {:induction false} SplitNoSep(s: string, sep: char)
    requires sep !in s
    ensures Split(s, sep) == [s]
    decreases |s|
  {
    if s != [] {
      assert s[0] != sep && sep !in s[1..];
      SplitNoSep(s[1..], sep);
      assert [s[0]] + s[1..] == s;
    }
  }

  /** Splitting at a separator splits the parts: the basis of every
      statement about `split` in the model. */
  lemma {:induction false} SplitAppend(a: string, sep: char, b: string)
    ensures Split(a + [sep] + b, sep) == Split(a, sep) + Split(b, sep)
    decreases |a|
  {
    if a == [] {
      assert a + [sep] + b == [sep] + b;
      SplitCons(sep, b, sep);
    } else {
      SplitAppend(a[1..], sep, b);
      SplitAppendHead(a[0], a[1..], sep, b);
      assert a == [a[0]] + a[1..];
    }
  }

  /** The step of SplitAppend: a character put in front of both sides. */
  lemma SplitAppendHead(c: char, x: string, sep: char, b: string)
    requires Split(x + [sep] + b, sep) == Split(x, sep) + Split(b, sep)
    ensures Split([c] + x + [sep] + b, sep) == Split([c] + x, sep) + Split(b, sep)
  {
    var y := x + [sep] + b;
    assert [c] + x + [sep] + b == [c] + y;
    SplitCons(c, y, sep);
    SplitCons(c, x, sep);
    ConsParts(c, Split(x, sep), Split(b, sep), sep);
  }

  lemma ConsParts(c: char, rx: seq<string>, rb: seq<string>, sep: char)
    requires |rx| >= 1
    ensures var r := rx + rb;
            (if c == sep then [""] + r else [[c] + r[0]] + r[1..])
            == (if c == sep then [""] + rx else [[c] + rx[0]] + rx[1..]) + rb
  {
    if c == sep {
      assert [""] + (rx + rb) == ([""] + rx) + rb;
    } else {
      var h := [c] + rx[0];
      assert (rx + rb)[0] == rx[0] && (rx + rb)[1..] == rx[1..] + rb;
      assert [h] + (rx[1..] + rb) == ([h] + rx[1..]) + rb;
    }
  }

  /** One step of the split: the first character either ends the first
      part or joins it. */
  lemma SplitCons(c: char, s: string, sep: char)
    ensures Split([c] + s, sep) == if c == sep then [""] + Split(s, sep)
                                   else [[c] + Split(s, sep)[0]] + Split(s, sep)[1..]
  {
    assert ([c] + s)[0] == c && ([c] + s)[1..] == s;
  }

  /** ECMAScript white space and line terminators: what `parseInt` skips
      before the number and what the regular expression class `\s` matches. */
  predicate IsJsSpace(c: char)
  {
    c == ' ' || c == '\t' || c == '\n' || c == '\r' || c == '\U{0B}' || c == '\U{0C}'
    || c == '\U{A0}' || c == '\U{1680}' || ('\U{2000}' <= c <= '\U{200A}')
    || c == '\U{2028}' || c == '\U{2029}' || c == '\U{202F}' || c == '\U{205F}'
    || c == '\U{3000}' || c == '\U{FEFF}'
  }

  /** `parseInt` skips leading white space. */
  function TrimStart(s: string): string
  {
    if s != [] && IsJsSpace(s[0]) then TrimStart(s[1..]) else s
  }

  /** What is left is a suffix of s that does not start with white space,
      and all that was skipped is white space. */
  lemma {:induction false} TrimStartSpec(s: string)
    ensures var r := TrimStart(s);
            |r| <= |s| && r == s[|s| - |r|..] && (r == [] || !IsJsSpace(r[0]))
            && forall i :: 0 <= i < |s| - |r| ==> IsJsSpace(s[i])
    decreases |s|
  {
    if s != [] && IsJsSpace(s[0]) {
      TrimStartSpec(s[1..]);
      var r := TrimStart(s);
      assert r == TrimStart(s[1..]);
      assert s[1..][|s| - 1 - |r|..] == s[|s| - |r|..];
      forall i | 0 <= i < |s| - |r| ensures IsJsSpace(s[i]) {
        if i > 0 { assert s[i] == s[1..][i - 1]; }
      }
    }
  }

  /** The longest prefix of s made of decimal digits. */
  function DigitPrefix(s: string): (r: string)
    ensures AllDigits(r) && r <= s
    ensures |r| < |s| ==> !IsDigit(s[|r|])
  {
    if s != [] && IsDigit(s[0]) then [s[0]] + DigitPrefix(s[1..]) else []
  }

  lemma {:induction false} DigitPrefixAll(s: string)
    requires AllDigits(s)
    ensures DigitPrefix(s) == s
    decreases |s|
  {
    if s != [] { DigitPrefixAll(s[1..]); }
  }

  /** `parseInt(s, 10)`: optional leading white space and sign, then the
      longest run of digits; `None` stands for NaN (no digit there). */
  function ParseInt(s: string): Option<int>
  {
    ParseSigned(TrimStart(s))
  }

  function ParseSigned(t: string): Option<int>
  {
    if t != [] && t[0] == '-' then
      (var ds := DigitPrefix(t[1..]); if ds == [] then None else Some(-(DigitsValue(ds) as int)))
    else
      var u := if t != [] && t[0] == '+' then t[1..] else t;
      var ds := DigitPrefix(u);
      if ds == [] then None else Some(DigitsValue(ds) as int)
  }

  /** A string that does not start with white space is not trimmed. */
  lemma TrimStartNone(s: string)
    requires s == [] || !IsJsSpace(s[0])
    ensures TrimStart(s) == s
  {
  }

  /** An unsigned run of digits reads as its value. */
  lemma ParseSignedDigits(d: string)
    requires d != [] && AllDigits(d)
    ensures ParseSigned(d) == Some(DigitsValue(d) as int)
  {
    assert IsDigit(d[0]);
    DigitPrefixAll(d);
  }

  /** A minus sign before a run of digits negates its value. */
  lemma ParseSignedMinus(d: string)
    requires d != [] && AllDigits(d)
    ensures ParseSigned("-" + d) == Some(-(DigitsValue(d) as int))
  {
    var t := "-" + d;
    assert t[0] == '-' && t[1..] == d;
    DigitPrefixAll(d);
  }

  /** `parseInt` reads back what `String` wrote. */
  lemma ParseIntStr(i: int)
    ensures ParseInt(IntStr(i)) == Some(i)
  {
    var m: nat := if i < 0 then -i else i;
    var d := NatStr(m);
    NatStrValue(m);
    if i < 0 {
      assert IntStr(i) == "-" + d;
      TrimStartNone("-" + d);
      ParseSignedMinus(d);
    } else {
      assert IntStr(i) == d;
      assert IsDigit(d[0]);
      TrimStartNone(d);
      ParseSignedDigits(d);
    }
  }

  /** `parseInt` reads back a zero-padded decimal. */
  lemma ParseIntPadded(n: nat, w: nat)
    ensures ParseInt(PadNat(n, w)) == Some(n)
  {
    var p := PadNat(n, w);
    PadNatValue(n, w);
    assert p != [] by {
      assert |NatStr(n)| >= 1;
      assert |p| >= |NatStr(n)|;
    }
    assert IsDigit(p[0]);
    TrimStartNone(p);
    ParseSignedDigits(p);
  }

  /** `toUpperCase` on one character, for ASCII and the Latin-1 letters
      that have a one-character capital in the same block. */
  function UpperChar(c: char): char
  {
    if 'a' <= c <= 'z' || ('\U{E0}' <= c <= '\U{FE}' && c != '\U{F7}') then (c as int - 32) as char
    else c
  }

  /** `s.toUpperCase()`, character by character. */
  function Upper(s: string): (r: string)
    ensures |r| == |s| && forall i :: 0 <= i < |s| ==> r[i] == UpperChar(s[i])
  {
    seq(|s|, i requires 0 <= i < |s| => UpperChar(s[i]))
  }

  /** Upper-casing keeps the length, turns every ASCII small letter into
      its capital, leaves every character that is not a small letter of
      ASCII or Latin-1 unchanged (digits, punctuation, white space and
      capitals among them), leaves no ASCII small letter behind, and
      changes nothing the second time. */
  lemma UpperSpec(s: string)
    ensures |Upper(s)| == |s|
    ensures forall i :: 0 <= i < |s| && 'a' <= s[i] <= 'z' ==> Upper(s)[i] == (s[i] as int - 32) as char
    ensures forall i :: 0 <= i < |s| && !('a' <= s[i] <= 'z') && !('\U{E0}' <= s[i] <= '\U{FE}') ==>
              Upper(s)[i] == s[i]
    ensures forall i :: 0 <= i < |s| ==> !('a' <= Upper(s)[i] <= 'z')
    ensures Upper(Upper(s)) == Upper(s)
  {
    var u := Upper(s);
    assert forall i :: 0 <= i < |s| ==> UpperChar(u[i]) == u[i];
  }
}

/** The Arabic normalizer `normalize_arabic`: text extracted from a PDF often
    carries Arabic Presentation Forms (isolated, initial, medial and final glyph
    variants); each is replaced by its base letter, the LAM-ALEF ligatures by the two
    letters LAM ALEF, Arabic-Indic digits by ASCII digits, and every other character
    by its NFKC normal form. The three copies of the table in the repository are
    identical; NFKC itself is a parameter. */
module Normalizer {

  import opened Wrappers

  /** `ARABIC_PRESENTATION_FORMS`, the lookup `table.get(c)`: the dictionary's 135
      entries, written as runs of consecutive keys that share a value, in the order
      the dictionary lists them. */
  function PresentationForm(c: char): Option<string>
  {
    if '\U{FE8D}' <= c <= '\U{FE8E}' then Some(['\U{0627}'])
    else if '\U{FE8F}' <= c <= '\U{FE92}' then Some(['\U{0628}'])
    else if '\U{FE93}' <= c <= '\U{FE94}' then Some(['\U{0629}'])
    else if '\U{FE95}' <= c <= '\U{FE98}' then Some(['\U{062A}'])
    else if '\U{FE99}' <= c <= '\U{FE9C}' then Some(['\U{062B}'])
    else if '\U{FE9D}' <= c <= '\U{FEA0}' then Some(['\U{062C}'])
    else if '\U{FEA1}' <= c <= '\U{FEA4}' then Some(['\U{062D}'])
    else if '\U{FEA5}' <= c <= '\U{FEA8}' then Some(['\U{062E}'])
    else if '\U{FEA9}' <= c <= '\U{FEAA}' then Some(['\U{062F}'])
    else if '\U{FEAB}' <= c <= '\U{FEAC}' then Some(['\U{0630}'])
    else if '\U{FEAD}' <= c <= '\U{FEAE}' then Some(['\U{0631}'])
    else if '\U{FEAF}' <= c <= '\U{FEB0}' then Some(['\U{0632}'])
    else if '\U{FEB1}' <= c <= '\U{FEB4}' then Some(['\U{0633}'])
    else if '\U{FEB5}' <= c <= '\U{FEB8}' then Some(['\U{0634}'])
    else if '\U{FEB9}' <= c <= '\U{FEBC}' then Some(['\U{0635}'])
    else if '\U{FEBD}' <= c <= '\U{FEC0}' then Some(['\U{0636}'])
    else if '\U{FEC1}' <= c <= '\U{FEC4}' then Some(['\U{0637}'])
    else if '\U{FEC5}' <= c <= '\U{FEC8}' then Some(['\U{0638}'])
    else if '\U{FEC9}' <= c <= '\U{FECC}' then Some(['\U{0639}'])
    else if '\U{FECD}' <= c <= '\U{FED0}' then Some(['\U{063A}'])
    else if '\U{FED1}' <= c <= '\U{FED4}' then Some(['\U{0641}'])
    else if '\U{FED5}' <= c <= '\U{FED8}' then Some(['\U{0642}'])
    else if '\U{FED9}' <= c <= '\U{FEDC}' then Some(['\U{0643}'])
    else if '\U{FEDD}' <= c <= '\U{FEE0}' then Some(['\U{0644}'])
    else if '\U{FEE1}' <= c <= '\U{FEE4}' then Some(['\U{0645}'])
    else if '\U{FEE5}' <= c <= '\U{FEE8}' then Some(['\U{0646}'])
    else if '\U{FEE9}' <= c <= '\U{FEEC}' then Some(['\U{0647}'])
    else if '\U{FEED}' <= c <= '\U{FEEE}' then Some(['\U{0648}'])
    else if '\U{FEEF}' <= c <= '\U{FEF0}' then Some(['\U{0649}'])
    else if '\U{FEF1}' <= c <= '\U{FEF4}' then Some(['\U{064A}'])
    else if '\U{FEF5}' <= c <= '\U{FEFC}' then Some(['\U{0644}', '\U{0627}'])
    else if c == '\U{FE80}' then Some(['\U{0621}'])
    else if '\U{FE81}' <= c <= '\U{FE82}' then Some(['\U{0622}'])
    else if '\U{FE83}' <= c <= '\U{FE84}' then Some(['\U{0623}'])
    else if '\U{FE85}' <= c <= '\U{FE86}' then Some(['\U{0624}'])
    else if '\U{FE87}' <= c <= '\U{FE88}' then Some(['\U{0625}'])
    else if '\U{FE89}' <= c <= '\U{FE8C}' then Some(['\U{0626}'])
    else if c == '\U{0660}' then Some(['0'])
    else if c == '\U{0661}' then Some(['1'])
    else if c == '\U{0662}' then Some(['2'])
    else if c == '\U{0663}' then Some(['3'])
    else if c == '\U{0664}' then Some(['4'])
    else if c == '\U{0665}' then Some(['5'])
    else if c == '\U{0666}' then Some(['6'])
    else if c == '\U{0667}' then Some(['7'])
    else if c == '\U{0668}' then Some(['8'])
    else if c == '\U{0669}' then Some(['9'])
    else None
  }

  /** The characters the table has a key for: U+FE80..U+FEFC and U+0660..U+0669. */
  predicate IsTableKey(c: char)
  {
    '\U{FE80}' <= c <= '\U{FEFC}' || '\U{0660}' <= c <= '\U{0669}'
  }

  /** What one character becomes: its table value when it is a key, else its NFKC form. */
  function Image(c: char, nfkc: char -> string): string
  {
    if IsTableKey(c) then
      TableKeys(c);
      PresentationForm(c).value
    else nfkc(c)
  }

  /** The specification of `normalize_arabic`: the in-order concatenation of the
      images of the characters. */
  function Normalized(s: string, nfkc: char -> string): string
  {
    if s == [] then [] else Normalized(s[..|s| - 1], nfkc) + Image(s[|s| - 1], nfkc)
  }

  /** `normalize_arabic`: empty input is returned as it is; otherwise the images of
      the characters are appended one by one to a result. */
  method NormalizeArabic(text: string, nfkc: char -> string) returns (r: string)
    ensures r == Normalized(text, nfkc)
    ensures text == [] ==> r == text
  {
    if text == [] {
      return text;
    }
    r := [];
    var i := 0;
    while i < |text|
      invariant 0 <= i <= |text|
      invariant r == Normalized(text[..i], nfkc)
    {
      assert text[..i + 1][..i] == text[..i];
      r := r + Image(text[i], nfkc);
      i := i + 1;
    }
    assert text[..|text|] == text;
  }

  /** The keys of the table are exactly the characters U+FE80..U+FEFC and U+0660..U+0669. */
  lemma TableKeys(c: char)
    ensures PresentationForm(c).Some? <==> IsTableKey(c)
  {
  }

  /** A character of a table value: a base Arabic letter U+0621..U+064A or an ASCII digit. */
  predicate IsBaseChar(c: char)
  {
    '\U{0621}' <= c <= '\U{064A}' || '0' <= c <= '9'
  }

  predicate NoTableKey(s: string)
  {
    forall k :: 0 <= k < |s| ==> !IsTableKey(s[k])
  }

  /** Every table value is made of base characters, so no table value contains a key. */
  lemma TableValuesAreBase(c: char)
    requires PresentationForm(c).Some?
    ensures 1 <= |PresentationForm(c).value| <= 2
    ensures forall k :: 0 <= k < |PresentationForm(c).value| ==> IsBaseChar(PresentationForm(c).value[k])
    ensures NoTableKey(PresentationForm(c).value)
  {
  }

  /** The LAM-ALEF ligatures U+FEF5..U+FEFC become the two letters LAM (U+0644) ALEF (U+0627). */
  lemma LamAlefBecomesTwoLetters(c: char, nfkc: char -> string)
    requires '\U{FEF5}' <= c <= '\U{FEFC}'
    ensures Image(c, nfkc) == ['\U{0644}', '\U{0627}']
  {
  }

  /** The Arabic-Indic digits U+0660..U+0669 become the ASCII digits '0'..'9'. */
  lemma ArabicIndicDigitBecomesAscii(c: char, nfkc: char -> string)
    requires '\U{0660}' <= c <= '\U{0669}'
    ensures Image(c, nfkc) == [(c as int - 0x0660 + '0' as int) as char]
  {
  }

  /** Normalization works character by character: it distributes over concatenation. */
  lemma {:induction false} NormalizedAppend(a: string, b: string, nfkc: char -> string)
    ensures Normalized(a + b, nfkc) == Normalized(a, nfkc) + Normalized(b, nfkc)
    decreases |b|
  {
    if b == [] {
      assert a + b == a;
    } else {
      var b' := b[..|b| - 1];
      var last := b[|b| - 1];
      assert (a + b)[..|a + b| - 1] == a + b';
      assert (a + b)[|a + b| - 1] == last;
      calc {
        Normalized(a + b, nfkc);
        Normalized(a + b', nfkc) + Image(last, nfkc);
        { NormalizedAppend(a, b', nfkc); }
        Normalized(a, nfkc) + Normalized(b', nfkc) + Image(last, nfkc);
      }
    }
  }

  /** A string already made of base characters is left as it is, when NFKC fixes those. */
  lemma {:induction false} BaseStringIsNormal(s: string, nfkc: char -> string)
    requires forall c :: IsBaseChar(c) ==> nfkc(c) == [c]
    requires forall k :: 0 <= k < |s| ==> IsBaseChar(s[k])
    ensures Normalized(s, nfkc) == s
  {
    if s != [] {
      var init := s[..|s| - 1];
      var c := s[|s| - 1];
      BasePrefix(s, init);
      BaseStringIsNormal(init, nfkc);
      BaseCharImage(c, nfkc);
      assert s == init + [c];
    }
  }

  lemma BasePrefix(s: string, init: string)
    requires s != [] && init == s[..|s| - 1] && forall k :: 0 <= k < |s| ==> IsBaseChar(s[k])
    ensures forall k :: 0 <= k < |init| ==> IsBaseChar(init[k])
  {
    forall k | 0 <= k < |init| ensures IsBaseChar(init[k]) {
      assert init[k] == s[k];
    }
  }

  /** A base character is its own image, when NFKC fixes it. */
  lemma BaseCharImage(c: char, nfkc: char -> string)
    requires IsBaseChar(c) && nfkc(c) == [c]
    ensures Image(c, nfkc) == [c]
  {
  }

  /** Normalizing twice is the same as normalizing once, given that NFKC fixes the
      base Arabic letters and ASCII digits and that what NFKC produces is itself normal. */
  lemma {:induction false} NormalizedIdempotent(s: string, nfkc: char -> string)
    requires forall c :: IsBaseChar(c) ==> nfkc(c) == [c]
    requires forall c :: !IsTableKey(c) ==> Normalized(nfkc(c), nfkc) == nfkc(c)
    ensures Normalized(Normalized(s, nfkc), nfkc) == Normalized(s, nfkc)
  {
    if s != [] {
      var init := s[..|s| - 1];
      var c := s[|s| - 1];
      NormalizedIdempotent(init, nfkc);
      NormalizedAppend(Normalized(init, nfkc), Image(c, nfkc), nfkc);
      TableKeys(c);
      if PresentationForm(c).Some? {
        TableValuesAreBase(c);
        BaseStringIsNormal(PresentationForm(c).value, nfkc);
      }
    }
  }

  /** When NFKC never produces a table key, no key survives normalization: no
      presentation form of the table and no Arabic-Indic digit is left in the output. */
  lemma {:induction false} NormalizedHasNoTableKey(s: string, nfkc: char -> string)
    requires forall c :: !IsTableKey(c) ==> NoTableKey(nfkc(c))
    ensures NoTableKey(Normalized(s, nfkc))
  {
    if s != [] {
      var c := s[|s| - 1];
      NormalizedHasNoTableKey(s[..|s| - 1], nfkc);
      TableKeys(c);
      if PresentationForm(c).Some? {
        TableValuesAreBase(c);
      }
      var a := Normalized(s[..|s| - 1], nfkc);
      var b := Image(c, nfkc);
      assert forall k :: 0 <= k < |a + b| ==> (a + b)[k] == if k < |a| then a[k] else b[k - |a|];
    }
  }
}

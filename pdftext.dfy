/** Text extraction from a circulaire PDF, page by page (`extract_text_from_pdf`,
    `extract_text`, `_extract_text_from_pdf`): a page whose embedded text looks
    unusable is OCR'd, any other page has its raw text normalized, and the page texts
    are concatenated, each followed by a newline. The PDF library is represented only
    by what it reports per page, and the OCR engine by a function from page numbers
    to the text it reads; `_ocr_page` normalizes that text before returning it. */
module PdfText {

  import opened Text
  import opened Normalizer

  /** A character `count_arabic_letters` counts: the Arabic block U+0600..U+06FF,
      Arabic Presentation Forms-A U+FB50..U+FDFF and -B U+FE70..U+FEFF. */
  predicate IsArabicLetter(c: char)
  {
    '\U{0600}' <= c <= '\U{06FF}' || '\U{FB50}' <= c <= '\U{FDFF}' || '\U{FE70}' <= c <= '\U{FEFF}'
  }

  /** The number of Arabic letters of `s`. */
  function ArabicLetterCount(s: string): nat
  {
    if s == [] then 0 else ArabicLetterCount(s[..|s| - 1]) + (if IsArabicLetter(s[|s| - 1]) then 1 else 0)
  }

  /** `count_arabic_letters`: one pass over the string with a counter. */
  method CountArabicLetters(s: string) returns (count: nat)
    ensures count == ArabicLetterCount(s)
    ensures count <= |s|
  {
    count := 0;
    for i := 0 to |s|
      invariant count == ArabicLetterCount(s[..i])
      invariant count <= i
    {
      assert s[..i + 1][..i] == s[..i];
      if IsArabicLetter(s[i]) {
        count := count + 1;
      }
    }
    assert s[..|s|] == s;
  }

  /** The count is additive over concatenation. */
  lemma {:induction false} ArabicLetterCountAppend(a: string, b: string)
    ensures ArabicLetterCount(a + b) == ArabicLetterCount(a) + ArabicLetterCount(b)
    decreases |b|
  {
    if b == [] {
      assert a + b == a;
    } else {
      assert (a + b)[..|a + b| - 1] == a + b[..|b| - 1];
      ArabicLetterCountAppend(a, b[..|b| - 1]);
    }
  }

  /** The count is zero exactly when no character is an Arabic letter. */
  lemma {:induction false} ArabicLetterCountZero(s: string)
    ensures ArabicLetterCount(s) == 0 <==> forall k :: 0 <= k < |s| ==> !IsArabicLetter(s[k])
  {
    if s != [] {
      ArabicLetterCountZero(s[..|s| - 1]);
      assert forall k :: 0 <= k < |s| - 1 ==> s[..|s| - 1][k] == s[k];
    }
  }

  /** What the PDF library reports for a page: its extracted text (`extract_text() or ""`)
      and whether it has any character objects. */
  datatype Page = Page(raw: string, hasChars: bool)

  /** The OCR trigger: no character objects, fewer than 5 characters once stripped,
      or fewer than 3 Arabic letters. */
  predicate NeedsOcr(p: Page)
  {
    !p.hasChars || |Strip(p.raw)| < 5 || ArabicLetterCount(p.raw) < 3
  }

  /** The text a page contributes: the OCR output for page number `number` or the
      page's raw text, normalized either way. */
  function PageText(p: Page, number: nat, ocr: nat -> string, nfkc: char -> string): string
  {
    if NeedsOcr(p) then Normalized(ocr(number), nfkc) else Normalized(p.raw, nfkc)
  }

  /** The specification of the extracted document: each page's text followed by a
      newline, in page order, pages numbered from 1. */
  function DocumentText(pages: seq<Page>, ocr: nat -> string, nfkc: char -> string): string
  {
    if pages == [] then []
    else DocumentText(pages[..|pages| - 1], ocr, nfkc) + PageText(pages[|pages| - 1], |pages|, ocr, nfkc) + "\n"
  }

  /** The per-page loop: count the Arabic letters, decide on OCR, append the page text and a newline. */
  method ExtractText(pages: seq<Page>, ocr: nat -> string, nfkc: char -> string) returns (text: string)
    ensures text == DocumentText(pages, ocr, nfkc)
  {
    text := "";
    for i := 0 to |pages|
      invariant text == DocumentText(pages[..i], ocr, nfkc)
    {
      var page := pages[i];
      var arabicCount := CountArabicLetters(page.raw);
      var pageText: string;
      if !page.hasChars || |Strip(page.raw)| < 5 || arabicCount < 3 {
        pageText := NormalizeArabic(ocr(i + 1), nfkc);
      } else {
        pageText := NormalizeArabic(page.raw, nfkc);
      }
      assert pages[..i + 1][..i] == pages[..i];
      text := text + pageText + "\n";
    }
    assert pages[..|pages|] == pages;
  }

  /** The document has at least one character (its newline) per page, and the text
      of the first `n` pages is a prefix of the whole document. */
  lemma {:induction false} DocumentTextPrefix(pages: seq<Page>, n: nat, ocr: nat -> string, nfkc: char -> string)
    requires n <= |pages|
    ensures |DocumentText(pages, ocr, nfkc)| >= |pages|
    ensures StartsWith(DocumentText(pages, ocr, nfkc), DocumentText(pages[..n], ocr, nfkc))
    decreases |pages|
  {
    if n == |pages| {
      assert pages[..n] == pages;
      if pages != [] {
        DocumentTextPrefix(pages[..|pages| - 1], |pages| - 1, ocr, nfkc);
      }
    } else {
      var init := pages[..|pages| - 1];
      assert init[..n] == pages[..n];
      DocumentTextPrefix(init, n, ocr, nfkc);
      var d := DocumentText(init, ocr, nfkc);
      var p := DocumentText(pages[..n], ocr, nfkc);
      assert DocumentText(pages, ocr, nfkc)[..|p|] == d[..|p|];
    }
  }

  /** No page, OCR'd or not, contributes a presentation form or an Arabic-Indic
      digit, granted NFKC never produces one. */
  lemma PageHasNoTableKey(p: Page, number: nat, ocr: nat -> string, nfkc: char -> string)
    requires forall c :: !IsTableKey(c) ==> NoTableKey(nfkc(c))
    ensures NoTableKey(PageText(p, number, ocr, nfkc))
  {
    NormalizedHasNoTableKey(p.raw, nfkc);
    NormalizedHasNoTableKey(ocr(number), nfkc);
  }

  /** The whole document has no presentation form and no Arabic-Indic digit, granted
      NFKC never produces one. */
  lemma {:induction false} DocumentHasNoTableKey(pages: seq<Page>, ocr: nat -> string, nfkc: char -> string)
    requires forall c :: !IsTableKey(c) ==> NoTableKey(nfkc(c))
    ensures NoTableKey(DocumentText(pages, ocr, nfkc))
    decreases |pages|
  {
    if pages != [] {
      var d := DocumentText(pages[..|pages| - 1], ocr, nfkc);
      var t := PageText(pages[|pages| - 1], |pages|, ocr, nfkc);
      DocumentHasNoTableKey(pages[..|pages| - 1], ocr, nfkc);
      PageHasNoTableKey(pages[|pages| - 1], |pages|, ocr, nfkc);
      NoTableKeyAppend(d, t + "\n");
      NoTableKeyAppend(t, "\n");
      assert d + t + "\n" == d + (t + "\n");
    }
  }

  lemma NoTableKeyAppend(a: string, b: string)
    requires NoTableKey(a) && NoTableKey(b)
    ensures NoTableKey(a + b)
  {
    assert forall k :: 0 <= k < |a + b| ==> (a + b)[k] == if k < |a| then a[k] else b[k - |a|];
  }

  /** A page is sent to OCR whenever its raw text has no Arabic letter, however long it is. */
  lemma NoArabicLetterMeansOcr(p: Page)
    requires forall k :: 0 <= k < |p.raw| ==> !IsArabicLetter(p.raw[k])
    ensures NeedsOcr(p)
  {
    ArabicLetterCountZero(p.raw);
  }
}

/** The nine medication-line patterns of `_parse_medication_line`, each as an
    extractor from a line to the fields it captures, or `None` when the pattern does
    not match. Patterns 1 to 5 are applied to the cleaned line, patterns 6 and 7 to
    the cleaned line with its square brackets deleted.

    Each extractor follows the search order of Python's `re` for its pattern:
    `search` tries the start offsets from the left, a lazy name group `(.+?)` takes
    the first end for which the rest matches, and an optional group is taken when
    the rest can match with it. */
module Patterns {

  import opened Wrappers
  import opened Text
  import opened Prices
  import opened Tokens
  import opened Names

  /** What a pattern extracts from a line, before the laboratory is attached. */
  datatype Fields = Fields(
    code: Option<string>,
    name: string,
    wholesale: Decimal,
    pharmacy: Decimal,
    public: Option<Decimal>,
    category: Option<char>,
    margin: Option<Decimal>)

  // ---------------------------------------------------------------------------
  // What every extractor guarantees about its fields
  // ---------------------------------------------------------------------------

  /** A reported category is one of the three letters. */
  predicate CategoryOk(f: Fields) { f.category.Some? ==> f.category.value in "ABC" }

  /** A reported margin has three decimals, as `\d[,\.]\d{3}` does. */
  predicate MarginOk(f: Fields) { f.margin.Some? ==> f.margin.value.scale == 3 }

  /** The record has a six-digit code. */
  predicate Coded(f: Fields) { f.code.Some? && IsCode(f.code.value) }

  /** Every price was read from a `\d{1,3}[,\.]\d{3}` token. */
  predicate Priced3(f: Fields)
  {
    f.wholesale.scale == 3 && f.pharmacy.scale == 3 && (f.public.Some? ==> f.public.value.scale == 3)
  }

  /** `cat if cat and cat != '-' else None`. */
  function ReportedCategory(cat: Option<char>): (r: Option<char>)
    ensures r.Some? ==> r.value != '-'
    ensures r.Some? <==> cat.Some? && cat.value != '-'
  {
    if cat.Some? && cat.value != '-' then cat else None
  }

  /** `float(m.replace(',', '.')) if m else None`. */
  function OptionalValue(s: string, t: Option<Token>): Option<Decimal>
    requires t.Some? ==> ValidToken(s, t.value)
  {
    if t.Some? then Some(Value(s, t.value)) else None
  }

  /** The name group passed through `_clean_medication_name`. */
  function Cleaned(r: Option<Fields>): Option<Fields>
  {
    if r.Some? then Some(r.value.(name := CleanMedicationName(r.value.name))) else None
  }

  /** Six digits in a row are a code. */
  lemma CodeSlice(s: string, i: nat)
    requires i + 6 <= |s| && AllDigitsIn(s, i, i + 6)
    ensures IsCode(s[i..i + 6])
  {
    var c := s[i..i + 6];
    forall k | 0 <= k < 6 ensures IsDigit(c[k]) {
      assert c[k] == s[i + k];
    }
  }

  // ---------------------------------------------------------------------------
  // Runs of prices
  // ---------------------------------------------------------------------------

  /** The two price tokens: `\d{1,3}[,\.]\d{3}` and `\d+[,\.]\d+`. */
  datatype PriceForm = ThreeDecimals | AnyDecimals

  function PriceAt(s: string, i: nat, form: PriceForm): (r: Option<Token>)
    requires i <= |s|
    ensures r.Some? ==> ValidToken(s, r.value) && r.value.start == i
    ensures r.Some? && form == ThreeDecimals ==> Millimes(r.value)
  {
    match form
    case ThreeDecimals => Price3(s, i)
    case AnyDecimals => Number(s, i)
  }

  /** Where a run of tokens starting at `i` ends. */
  function EndOf(ts: seq<Token>, i: nat): nat
  {
    if ts == [] then i else ts[|ts| - 1].end
  }

  /** `n` prices of the given form from offset `i`, each after a non-empty run of
      whitespace (`\s+P\s+P...`). */
  function SpacedPrices(s: string, i: nat, n: nat, form: PriceForm): (r: Option<seq<Token>>)
    requires i <= |s|
    ensures r.Some? ==> |r.value| == n && i <= EndOf(r.value, i) <= |s|
    ensures r.Some? ==> forall k :: 0 <= k < n ==> ValidToken(s, r.value[k])
    ensures r.Some? && form == ThreeDecimals ==> forall k :: 0 <= k < n ==> Millimes(r.value[k])
    ensures r.Some? && n > 0 ==> i < r.value[0].start
    decreases n
  {
    if n == 0 then Some([])
    else
      var a :- Spaces1(s, i);
      var t :- PriceAt(s, a, form);
      var rest :- SpacedPrices(s, t.end, n - 1, form);
      PrependPrice(s, i, t, rest, form);
      Some([t] + rest)
  }

  lemma PrependPrice(s: string, i: nat, t: Token, rest: seq<Token>, form: PriceForm)
    requires ValidToken(s, t) && i < t.start && (form == ThreeDecimals ==> Millimes(t))
    requires t.end <= EndOf(rest, t.end) <= |s|
    requires forall k :: 0 <= k < |rest| ==> ValidToken(s, rest[k])
    requires form == ThreeDecimals ==> forall k :: 0 <= k < |rest| ==> Millimes(rest[k])
    ensures var ts := [t] + rest;
      && i <= EndOf(ts, i) == EndOf(rest, t.end) <= |s|
      && ts[0] == t
      && (forall k :: 0 <= k < |ts| ==> ValidToken(s, ts[k]))
      && (form == ThreeDecimals ==> forall k :: 0 <= k < |ts| ==> Millimes(ts[k]))
  {
    var ts := [t] + rest;
    assert forall k :: 1 <= k < |ts| ==> ts[k] == rest[k - 1];
  }

  // ---------------------------------------------------------------------------
  // Pattern 1: code, name, three prices, optional category and margin
  // ---------------------------------------------------------------------------

  /** `MEDICATION_PATTERN`:
      `(\d{6})\s+(.+?)\s+P\s+P\s+P\s*([A-C\-])?\s*(\d[,\.]\d{3})?` with `P` a
      three-decimal price, searched anywhere in the line. */
  function Pattern1(line: string): (r: Option<Fields>)
    ensures r.Some? ==> Coded(r.value) && r.value.public.Some? && Priced3(r.value)
    ensures r.Some? ==> CategoryOk(r.value) && MarginOk(r.value) && SingleSpaced(r.value.name)
  {
    Cleaned(FirstSome(i => Pattern1At(line, i), 0, |line|))
  }

  /** Pattern 1 with the code at offset `i`. */
  function Pattern1At(s: string, i: nat): (r: Option<Fields>)
    ensures r.Some? ==> Coded(r.value) && r.value.public.Some? && Priced3(r.value)
    ensures r.Some? ==> CategoryOk(r.value) && MarginOk(r.value)
  {
    if !(i + 6 <= |s| && AllDigitsIn(s, i, i + 6)) then None
    else
      var n :- Spaces1(s, i + 6);
      FirstSome(j => Pattern1Name(s, i, n, j), n + 1, |s|)
  }

  /** Pattern 1 with the code at `i`, the name in `[n, j)`. */
  function Pattern1Name(s: string, i: nat, n: nat, j: nat): (r: Option<Fields>)
    ensures r.Some? ==> Coded(r.value) && r.value.public.Some? && Priced3(r.value)
    ensures r.Some? ==> CategoryOk(r.value) && MarginOk(r.value)
  {
    if !(i + 6 <= n < j <= |s| && AllDigitsIn(s, i, i + 6)) then None
    else
      var ts :- SpacedPrices(s, j, 3, ThreeDecimals);
      CodeSlice(s, i);
      var tail := Pattern1Tail(s, EndOf(ts, j));
      Some(Fields(Some(s[i..i + 6]), s[n..j], Value(s, ts[0]), Value(s, ts[1]), Some(Value(s, ts[2])),
                  tail.0, tail.1))
  }

  /** `\s*([A-C\-])?\s*(\d[,\.]\d{3})?` from `e`: the reported category and the margin,
      both optional. */
  function Pattern1Tail(s: string, e: nat): (r: (Option<char>, Option<Decimal>))
    requires e <= |s|
    ensures r.0.Some? ==> r.0.value in "ABC"
    ensures r.1.Some? ==> r.1.value.scale == 3
  {
    var k1 := SkipSpaces(s, e);
    var hasCategory := k1 < |s| && s[k1] in "ABC-";
    var k2 := SkipSpaces(s, if hasCategory then k1 + 1 else k1);
    (ReportedCategory(if hasCategory then Some(s[k1]) else None), OptionalValue(s, Margin(s, k2)))
  }

  // ---------------------------------------------------------------------------
  // Patterns 2, 2b and 2c: name, three prices, code at the end
  // ---------------------------------------------------------------------------

  /** `[\]\s]`: the closing brackets and blanks OCR leaves after the prices. */
  predicate IsBracketOrSpace(c: char) { c == ']' || IsSpace(c) }

  /** `[_\s]`. */
  predicate IsUnderscoreOrSpace(c: char) { c == '_' || IsSpace(c) }

  /** `^(.+?)\s+P\s+P\s+P` with the name in `[0, j)`: the three prices. */
  function CodeLastHead(s: string, j: nat): (r: Option<seq<Token>>)
    ensures r.Some? ==> 1 <= j <= EndOf(r.value, j) <= |s| && |r.value| == 3
    ensures r.Some? ==> forall k :: 0 <= k < 3 ==> ValidToken(s, r.value[k]) && Millimes(r.value[k])
  {
    if 1 <= j <= |s| then SpacedPrices(s, j, 3, ThreeDecimals) else None
  }

  /** `(\d[,\.]\d{3})[\}\]]?\s*(\d{6})\s*$` at `m`: the margin and where the code starts. */
  function MarginThenCode(s: string, m: nat): (r: Option<(Token, nat)>)
    ensures r.Some? ==> ValidToken(s, r.value.0) && Millimes(r.value.0) && CodeAtEnd(s, r.value.1)
  {
    if m > |s| then None
    else
      var t :- Margin(s, m);
      var f := if t.end < |s| && s[t.end] in "}]" then t.end + 1 else t.end;
      var g := SkipSpaces(s, f);
      if CodeAtEnd(s, g) then Some((t, g)) else None
  }

  /** The pattern `pattern_code_end`:
      `^(.+?)\s+P\s+P\s+P[\]\s]*([A-C])[_\s]*[\{\[]?[01]?(\d[,\.]\d{3})[\}\]]?\s*(\d{6})\s*$`. */
  function Pattern2(line: string): (r: Option<Fields>)
    ensures r.Some? ==> Coded(r.value) && r.value.public.Some? && Priced3(r.value)
    ensures r.Some? ==> r.value.category.Some? && r.value.margin.Some?
    ensures r.Some? ==> CategoryOk(r.value) && MarginOk(r.value) && SingleSpaced(r.value.name)
  {
    Cleaned(FirstSome(j => Pattern2Name(line, j), 1, |line|))
  }

  function Pattern2Name(s: string, j: nat): (r: Option<Fields>)
    ensures r.Some? ==> Coded(r.value) && r.value.public.Some? && Priced3(r.value)
    ensures r.Some? ==> r.value.category.Some? && r.value.margin.Some?
    ensures r.Some? ==> CategoryOk(r.value) && MarginOk(r.value)
  {
    var ts :- CodeLastHead(s, j);
    var t :- Pattern2Tail(s, EndOf(ts, j));
    CodeSlice(s, t.2);
    assert ValidToken(s, ts[0]) && ValidToken(s, ts[1]) && ValidToken(s, ts[2]);
    assert Millimes(ts[0]) && Millimes(ts[1]) && Millimes(ts[2]) && Millimes(t.1);
    Some(Fields(Some(s[t.2..t.2 + 6]), s[..j], Value(s, ts[0]), Value(s, ts[1]), Some(Value(s, ts[2])),
                Some(t.0), Some(Value(s, t.1))))
  }

  /** `[\]\s]*([A-C])[_\s]*[\{\[]?[01]?(\d[,\.]\d{3})[\}\]]?\s*(\d{6})\s*$` from `e`: the
      category, the margin and where the code starts. */
  function Pattern2Tail(s: string, e: nat): (r: Option<(char, Token, nat)>)
    requires e <= |s|
    ensures r.Some? ==> r.value.0 in "ABC" && ValidToken(s, r.value.1) && Millimes(r.value.1) && CodeAtEnd(s, r.value.2)
  {
    var k1 := SkipWhile(s, e, IsBracketOrSpace);
    if !(k1 < |s| && s[k1] in "ABC") then None
    else
      var k2 := SkipWhile(s, k1 + 1, IsUnderscoreOrSpace);
      var k3 := if k2 < |s| && s[k2] in "{[" then k2 + 1 else k2;
      // `[01]?` is tried with the digit first, then without it.
      var flagged := if k3 < |s| && s[k3] in "01" then MarginThenCode(s, k3 + 1) else None;
      var mc :- if flagged.Some? then flagged else MarginThenCode(s, k3);
      Some((s[k1], mc.0, mc.1))
  }

  /** The pattern `pattern_code_end_dash`: `^(.+?)\s+P\s+P\s+P[\]\s]*-\s*(\d{6})\s*$`. */
  function Pattern2b(line: string): (r: Option<Fields>)
    ensures r.Some? ==> Coded(r.value) && r.value.public.Some? && Priced3(r.value)
    ensures r.Some? ==> r.value.category.None? && r.value.margin.None? && SingleSpaced(r.value.name)
  {
    Cleaned(FirstSome(j => Pattern2bName(line, j), 1, |line|))
  }

  function Pattern2bName(s: string, j: nat): (r: Option<Fields>)
    ensures r.Some? ==> Coded(r.value) && r.value.public.Some? && Priced3(r.value)
    ensures r.Some? ==> r.value.category.None? && r.value.margin.None?
  {
    var ts :- CodeLastHead(s, j);
    var g :- DashCode(s, EndOf(ts, j));
    CodeSlice(s, g);
    Some(Fields(Some(s[g..g + 6]), s[..j], Value(s, ts[0]), Value(s, ts[1]), Some(Value(s, ts[2])), None, None))
  }

  /** `[\]\s]*-\s*(\d{6})\s*$` from `e`: where the code starts. */
  function DashCode(s: string, e: nat): (r: Option<nat>)
    requires e <= |s|
    ensures r.Some? ==> CodeAtEnd(s, r.value)
  {
    var k1 := SkipWhile(s, e, IsBracketOrSpace);
    if !(k1 < |s| && s[k1] == '-') then None
    else
      var g := SkipSpaces(s, k1 + 1);
      if CodeAtEnd(s, g) then Some(g) else None
  }

  /** The pattern `pattern_code_end_simple`: `^(.+?)\s+P\s+P\s+P[\]\s]+(\d{6})\s*$`. */
  function Pattern2c(line: string): (r: Option<Fields>)
    ensures r.Some? ==> Coded(r.value) && r.value.public.Some? && Priced3(r.value)
    ensures r.Some? ==> r.value.category.None? && r.value.margin.None? && SingleSpaced(r.value.name)
  {
    Cleaned(FirstSome(j => Pattern2cName(line, j), 1, |line|))
  }

  function Pattern2cName(s: string, j: nat): (r: Option<Fields>)
    ensures r.Some? ==> Coded(r.value) && r.value.public.Some? && Priced3(r.value)
    ensures r.Some? ==> r.value.category.None? && r.value.margin.None?
  {
    var ts :- CodeLastHead(s, j);
    var k1 :- SpacedCode(s, EndOf(ts, j));
    CodeSlice(s, k1);
    Some(Fields(Some(s[k1..k1 + 6]), s[..j], Value(s, ts[0]), Value(s, ts[1]), Some(Value(s, ts[2])), None, None))
  }

  /** `[\]\s]+(\d{6})\s*$` from `e`: where the code starts. */
  function SpacedCode(s: string, e: nat): (r: Option<nat>)
    requires e <= |s|
    ensures r.Some? ==> CodeAtEnd(s, r.value)
  {
    var k1 := SkipWhile(s, e, IsBracketOrSpace);
    if e < k1 && CodeAtEnd(s, k1) then Some(k1) else None
  }

  // ---------------------------------------------------------------------------
  // Pattern 3: code, name, three prices of any precision, probed tail
  // ---------------------------------------------------------------------------

  /** `\s([A-C])\s` at `p`. */
  function CategoryAt(s: string, p: nat): (r: Option<char>)
    ensures r.Some? ==> r.value in "ABC"
  {
    if p + 3 <= |s| && IsSpace(s[p]) && s[p + 1] in "ABC" && IsSpace(s[p + 2]) then Some(s[p + 1]) else None
  }

  /** `(\d[,\.]\d{3})\s*$` at `p`. */
  function MarginAtEnd(s: string, p: nat): (r: Option<Token>)
    ensures r.Some? ==> ValidToken(s, r.value) && Millimes(r.value) && r.value.start == p
    ensures r.Some? ==> AllSpacesIn(s, r.value.end, |s|)
  {
    if p > |s| then None
    else
      var t :- Margin(s, p);
      if AllSpacesIn(s, t.end, |s|) then Some(t) else None
  }

  /** The margin probe of pattern 3: `re.search(r'(\d[,\.]\d{3})\s*$', line)`, over the whole line. */
  function MarginProbe(s: string): (r: Option<Token>)
    ensures r.Some? ==> ValidToken(s, r.value) && Millimes(r.value) && AllSpacesIn(s, r.value.end, |s|)
  {
    FirstSome(p => MarginAtEnd(s, p), 0, |s|)
  }

  /** `MEDICATION_PATTERN_ALT`: `(\d{6})\s+(.+?)\s+N\s+N\s+N` with `N` = `\d+[,\.]\d+`,
      searched in the line; the category is the first `\s([A-C])\s` after the match
      and the margin the last token of the line, when it has the margin's form. */
  function Pattern3(line: string): (r: Option<Fields>)
    ensures r.Some? ==> Coded(r.value) && r.value.public.Some?
    ensures r.Some? ==> CategoryOk(r.value) && MarginOk(r.value) && SingleSpaced(r.value.name)
  {
    Cleaned(FirstSome(i => Pattern3At(line, i), 0, |line|))
  }

  function Pattern3At(s: string, i: nat): (r: Option<Fields>)
    ensures r.Some? ==> Coded(r.value) && r.value.public.Some?
    ensures r.Some? ==> CategoryOk(r.value) && MarginOk(r.value)
  {
    if !(i + 6 <= |s| && AllDigitsIn(s, i, i + 6)) then None
    else
      var n :- Spaces1(s, i + 6);
      FirstSome(j => Pattern3Name(s, i, n, j), n + 1, |s|)
  }

  function Pattern3Name(s: string, i: nat, n: nat, j: nat): (r: Option<Fields>)
    ensures r.Some? ==> Coded(r.value) && r.value.public.Some?
    ensures r.Some? ==> CategoryOk(r.value) && MarginOk(r.value)
  {
    if !(i + 6 <= n < j <= |s| && AllDigitsIn(s, i, i + 6)) then None
    else
      var ts :- SpacedPrices(s, j, 3, AnyDecimals);
      var e := EndOf(ts, j);
      CodeSlice(s, i);
      Some(Fields(Some(s[i..i + 6]), s[n..j], Value(s, ts[0]), Value(s, ts[1]), Some(Value(s, ts[2])),
                  FirstSome(p => CategoryAt(s, p), e, |s|), OptionalValue(s, MarginProbe(s))))
  }

  // ---------------------------------------------------------------------------
  // Patterns 4 and 5: name, two prices, code at the end
  // ---------------------------------------------------------------------------

  /** `^([A-Z].+?)\s+N\s+N\s+` with the name in `[0, j)`: the two prices and the end
      of the whitespace after them. */
  function TwoPricesHead(s: string, j: nat): (r: Option<(seq<Token>, nat)>)
    ensures r.Some? ==> |r.value.0| == 2 && r.value.1 <= |s|
    ensures r.Some? ==> forall k :: 0 <= k < 2 ==> ValidToken(s, r.value.0[k])
  {
    if !(2 <= j <= |s| && IsAsciiUpper(s[0])) then None
    else
      var ts :- SpacedPrices(s, j, 2, AnyDecimals);
      var c :- Spaces1(s, EndOf(ts, j));
      Some((ts, c))
  }

  function CodeStart(s: string, m: nat): (r: Option<nat>)
    ensures r.Some? ==> r.value == m && CodeAtEnd(s, m)
  {
    if CodeAtEnd(s, m) then Some(m) else None
  }

  /** `.*?(\d{6})\s*$` from `c`: the first offset from which the code ends the line. */
  function CodeFrom(s: string, c: nat): (r: Option<nat>)
    ensures r.Some? ==> c <= r.value < |s| && CodeAtEnd(s, r.value)
  {
    FirstSome(m => CodeStart(s, m), c, |s|)
  }

  /** The pattern `pattern_simple_end`: `^([A-Z].+?)\s+N\s+N\s+.*?(\d{6})\s*$`. */
  function Pattern4(line: string): (r: Option<Fields>)
    ensures r.Some? ==> Coded(r.value) && r.value.public.None?
    ensures r.Some? ==> r.value.category.None? && r.value.margin.None? && SingleSpaced(r.value.name)
  {
    Cleaned(FirstSome(j => Pattern4Name(line, j), 2, |line|))
  }

  function Pattern4Name(s: string, j: nat): (r: Option<Fields>)
    ensures r.Some? ==> Coded(r.value) && r.value.public.None?
    ensures r.Some? ==> r.value.category.None? && r.value.margin.None?
  {
    var h :- TwoPricesHead(s, j);
    var m :- CodeFrom(s, h.1);
    CodeSlice(s, m);
    Some(Fields(Some(s[m..m + 6]), s[..j], Value(s, h.0[0]), Value(s, h.0[1]), None, None, None))
  }

  /** The tail `([A-C\-])?\s*(\d[,\.]\d{3})?\s*(\d{6})\s*$` of pattern 5 from `c`, with
      the category and the margin taken or skipped as the flags say. */
  function Pattern5Tail(s: string, c: nat, takeCategory: bool, takeMargin: bool): (r: Option<(Option<char>, Option<Token>, nat)>)
    requires c <= |s|
    ensures r.Some? ==> c <= r.value.2 && CodeAtEnd(s, r.value.2)
    ensures r.Some? && r.value.1.Some? ==> ValidToken(s, r.value.1.value) && Millimes(r.value.1.value)
  {
    if takeCategory && !(c < |s| && s[c] in "ABC-") then None
    else
      var category := if takeCategory then Some(s[c]) else None;
      var k2 := SkipSpaces(s, if takeCategory then c + 1 else c);
      var margin := if takeMargin then Margin(s, k2) else None;
      if takeMargin && margin.None? then None
      else
        var g := SkipSpaces(s, if margin.Some? then margin.value.end else k2);
        if CodeAtEnd(s, g) then Some((category, margin, g)) else None
  }

  /** The pattern `pattern_2prices_end`:
      `^([A-Z].+?)\s+N\s+N\s+([A-C\-])?\s*(\d[,\.]\d{3})?\s*(\d{6})\s*$`. */
  function Pattern5(line: string): (r: Option<Fields>)
    ensures r.Some? ==> Coded(r.value) && r.value.public.None?
    ensures r.Some? ==> CategoryOk(r.value) && MarginOk(r.value) && SingleSpaced(r.value.name)
  {
    Cleaned(FirstSome(j => Pattern5Name(line, j), 2, |line|))
  }

  function Pattern5Name(s: string, j: nat): (r: Option<Fields>)
    ensures r.Some? ==> Coded(r.value) && r.value.public.None?
    ensures r.Some? ==> CategoryOk(r.value) && MarginOk(r.value)
  {
    var h :- TwoPricesHead(s, j);
    var t :- Pattern5Tails(s, h.1);
    CodeSlice(s, t.2);
    Some(Fields(Some(s[t.2..t.2 + 6]), s[..j], Value(s, h.0[0]), Value(s, h.0[1]), None,
                ReportedCategory(t.0), OptionalValue(s, t.1)))
  }

  /** The tail of pattern 5 in the order `re` tries it: both optional groups taken,
      then the category alone, the margin alone, neither. */
  function Pattern5Tails(s: string, c: nat): (r: Option<(Option<char>, Option<Token>, nat)>)
    requires c <= |s|
    ensures r.Some? ==> c <= r.value.2 && CodeAtEnd(s, r.value.2)
    ensures r.Some? && r.value.1.Some? ==> ValidToken(s, r.value.1.value) && Millimes(r.value.1.value)
  {
    var both := Pattern5Tail(s, c, true, true);
    var categoryOnly := Pattern5Tail(s, c, true, false);
    var marginOnly := Pattern5Tail(s, c, false, true);
    var neither := Pattern5Tail(s, c, false, false);
    if both.Some? then both else if categoryOnly.Some? then categoryOnly
    else if marginOnly.Some? then marginOnly else neither
  }

  // ---------------------------------------------------------------------------
  // Patterns 6 and 7: no code
  // ---------------------------------------------------------------------------

  /** `[A-Za-z0-9\s\.\-\(\)/\+µ]`, the characters a codeless name may continue with
      (the `µ` is MICRO SIGN). */
  predicate IsNameChar(c: char)
  {
    IsAsciiLetter(c) || IsAsciiDigit(c) || IsSpace(c) || c in ".-()/+" || c == '\U{B5}'
  }

  /** `^[A-Z][class]+` over `[0, j)`: an upper-case letter, then at least one
      character of the name class. */
  predicate NameClassRun(s: string, j: nat)
  {
    2 <= j <= |s| && IsAsciiUpper(s[0]) && forall m :: 1 <= m < j ==> IsNameChar(s[m])
  }

  /** `line.replace(']', '').replace('[', '')`: the line with both kinds of square
      bracket deleted. */
  function WithoutBrackets(line: string): (r: string)
    ensures |r| <= |line|
    ensures forall k :: 0 <= k < |r| ==> r[k] != '[' && r[k] != ']'
  {
    if line == [] then []
    else (if line[0] == '[' || line[0] == ']' then [] else [line[0]]) + WithoutBrackets(line[1..])
  }

  /** `^([A-Z][class]+?)\s+P ... \s+([A-C])\s+(\d[,\.]\d{3})\s*$` with `count` prices
      and the name in `[0, j)`, on the bracket-free line. */
  function NoCodeName(s: string, count: nat, j: nat): (r: Option<Fields>)
    requires count == 2 || count == 3
    ensures r.Some? ==> r.value.code.None? && Priced3(r.value) && (r.value.public.Some? <==> count == 3)
    ensures r.Some? ==> r.value.category.Some? && r.value.margin.Some? && CategoryOk(r.value) && MarginOk(r.value)
    ensures r.Some? ==> j <= |s| && r.value.name == s[..j]
  {
    if !NameClassRun(s, j) then None
    else
      var ts :- SpacedPrices(s, j, count, ThreeDecimals);
      var t :- NoCodeTail(s, EndOf(ts, j));
      Some(Fields(None, s[..j], Value(s, ts[0]), Value(s, ts[1]),
                  if count == 3 then Some(Value(s, ts[2])) else None, Some(t.0), Some(Value(s, t.1))))
  }

  /** `\s+([A-C])\s+(\d[,\.]\d{3})\s*$` from `e`: the category and the margin. */
  function NoCodeTail(s: string, e: nat): (r: Option<(char, Token)>)
    requires e <= |s|
    ensures r.Some? ==> r.value.0 in "ABC" && ValidToken(s, r.value.1) && Millimes(r.value.1)
  {
    var d :- Spaces1(s, e);
    if !(d < |s| && s[d] in "ABC") then None
    else
      var f :- Spaces1(s, d + 1);
      var margin :- Margin(s, f);
      if !AllSpacesIn(s, margin.end, |s|) then None else Some((s[d], margin))
  }

  /** Pattern 6 (`count == 3`, `pattern_no_code`) or 7 (`count == 2`,
      `pattern_2_prices_no_code`): the first match on the bracket-free line, kept only
      when its name carries a dosage. */
  function NoCodePattern(line: string, count: nat): (r: Option<Fields>)
    requires count == 2 || count == 3
    ensures r.Some? ==> r.value.code.None? && Priced3(r.value) && (r.value.public.Some? <==> count == 3)
    ensures r.Some? ==> r.value.category.Some? && r.value.margin.Some? && CategoryOk(r.value) && MarginOk(r.value)
    ensures r.Some? ==> SingleSpaced(r.value.name)
  {
    var s := WithoutBrackets(line);
    var raw :- FirstSome(j => NoCodeName(s, count, j), 2, |s|);
    if HasDosage(raw.name, NameDosageUnits) then Cleaned(Some(raw)) else None
  }

  function Pattern6(line: string): (r: Option<Fields>)
    ensures r.Some? ==> r.value.code.None? && r.value.public.Some? && Priced3(r.value)
    ensures r.Some? ==> r.value.category.Some? && r.value.margin.Some? && CategoryOk(r.value) && MarginOk(r.value)
    ensures r.Some? ==> SingleSpaced(r.value.name)
  {
    NoCodePattern(line, 3)
  }

  function Pattern7(line: string): (r: Option<Fields>)
    ensures r.Some? ==> r.value.code.None? && r.value.public.None? && Priced3(r.value)
    ensures r.Some? ==> r.value.category.Some? && r.value.margin.Some? && CategoryOk(r.value) && MarginOk(r.value)
    ensures r.Some? ==> SingleSpaced(r.value.name)
  {
    NoCodePattern(line, 2)
  }
}

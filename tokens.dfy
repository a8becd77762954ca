/** The building blocks of the medication-line regular expressions, written as
    recognisers over a string and an offset: runs of whitespace (`\s+`, `\s*`),
    the price and margin tokens (`\d{1,3}[,\.]\d{3}`, `\d+[,\.]\d+`,
    `\d[,\.]\d{3}`), the six-digit code, the dosage search, and their decimal
    values as `float(token.replace(',', '.'))` reads them, exactly.

    The recognisers follow the backtracking order of Python's `re`: a greedy
    repetition that is followed by a token that cannot start with what it
    repeats takes its maximal run, and a lazy one takes the first end that lets
    the rest match. `FirstSome` is that "first that works" search. */
module Tokens {

  import opened Wrappers
  import opened Text
  import opened Prices

  /** The first `f(k)` for `lo <= k < hi` that is not `None`. */
  function FirstSome<T>(f: nat -> Option<T>, lo: nat, hi: nat): (r: Option<T>)
    ensures r.Some? ==> exists k :: lo <= k < hi && f(k) == r && forall m :: lo <= m < k ==> f(m).None?
    ensures r.None? <==> forall k :: lo <= k < hi ==> f(k).None?
    decreases hi - lo
  {
    if lo >= hi then None
    else if f(lo).Some? then f(lo)
    else FirstSome(f, lo + 1, hi)
  }

  /** Any position where `f` gives something makes the search succeed. */
  lemma {:induction false} FirstSomeWitness<T>(f: nat -> Option<T>, lo: nat, hi: nat, k: nat)
    requires lo <= k < hi && f(k).Some?
    ensures FirstSome(f, lo, hi).Some?
    decreases hi - lo
  {
    if f(lo).None? {
      FirstSomeWitness(f, lo + 1, hi, k);
    }
  }

  /** A search whose first `k` positions give nothing and whose `k`-th gives something
      returns what the `k`-th gives. */
  lemma FirstSomeIs<T>(f: nat -> Option<T>, lo: nat, hi: nat, k: nat)
    requires lo <= k < hi && f(k).Some?
    requires forall m :: lo <= m < k ==> f(m).None?
    ensures FirstSome(f, lo, hi) == f(k)
  {
    FirstSomeWitness(f, lo, hi, k);
  }

  /** The end of the maximal run of characters satisfying `p` that starts at `i`. */
  function SkipWhile(s: string, i: nat, p: char -> bool): (k: nat)
    requires i <= |s|
    ensures i <= k <= |s|
    ensures forall m :: i <= m < k ==> p(s[m])
    ensures k < |s| ==> !p(s[k])
    decreases |s| - i
  {
    if i < |s| && p(s[i]) then SkipWhile(s, i + 1, p) else i
  }

  /** A run of `p` from `i` that stops at `k` (at the end, or before a character that
      fails `p`) is the run `SkipWhile` finds. */
  lemma SkipWhileAt(s: string, i: nat, p: char -> bool, k: nat)
    requires i <= k <= |s|
    requires forall m :: i <= m < k ==> p(s[m])
    requires k < |s| ==> !p(s[k])
    ensures SkipWhile(s, i, p) == k
  {
  }

  /** `\s*` at `i`: the end of the whitespace run there. */
  function SkipSpaces(s: string, i: nat): (k: nat)
    requires i <= |s|
    ensures i <= k <= |s|
    ensures forall m :: i <= m < k ==> IsSpace(s[m])
    ensures k < |s| ==> !IsSpace(s[k])
  {
    SkipWhile(s, i, IsSpace)
  }

  /** `\s+` at `i`: the end of the whitespace run there, which must not be empty. */
  function Spaces1(s: string, i: nat): (r: Option<nat>)
    requires i <= |s|
    ensures r.Some? <==> i < |s| && IsSpace(s[i])
    ensures r.Some? ==> i < r.value <= |s| && r.value == SkipSpaces(s, i)
  {
    if i < |s| && IsSpace(s[i]) then Some(SkipSpaces(s, i)) else None
  }

  predicate AllDigitsIn(s: string, i: nat, j: nat)
    requires i <= j <= |s|
  {
    forall m :: i <= m < j ==> IsDigit(s[m])
  }

  predicate AllSpacesIn(s: string, i: nat, j: nat)
    requires i <= j <= |s|
  {
    forall m :: i <= m < j ==> IsSpace(s[m])
  }

  /** A six-digit medication code. */
  predicate IsCode(s: string)
  {
    |s| == 6 && forall k :: 0 <= k < 6 ==> IsDigit(s[k])
  }

  /** `(\d{6})\s*$` at `m`: six digits and nothing after them but whitespace. */
  predicate CodeAtEnd(s: string, m: nat)
  {
    m + 6 <= |s| && AllDigitsIn(s, m, m + 6) && AllSpacesIn(s, m + 6, |s|)
  }

  predicate IsDecimalSep(c: char) { c == ',' || c == '.' }

  /** A decimal token: digits in `[start, sep)`, a `,` or `.` at `sep`, digits in `(sep, end)`. */
  datatype Token = Token(start: nat, sep: nat, end: nat)

  predicate ValidToken(s: string, t: Token)
  {
    && t.start < t.sep && t.sep + 1 < t.end <= |s|
    && IsDecimalSep(s[t.sep])
    && AllDigitsIn(s, t.start, t.sep)
    && AllDigitsIn(s, t.sep + 1, t.end)
  }

  /** A token with three fractional digits. */
  predicate Millimes(t: Token) { t.end == t.sep + 4 }

  /** `\d{1,3}[,\.]\d{3}` at `i`: one to three digits (the whole digit run, since a
      shorter run would leave a digit where the separator must be), a separator and
      exactly three digits. */
  function Price3(s: string, i: nat): (r: Option<Token>)
    requires i <= |s|
    ensures r.Some? ==> ValidToken(s, r.value) && r.value.start == i && Millimes(r.value)
    ensures r.Some? ==> r.value.sep <= i + 3
  {
    var k := SkipWhile(s, i, IsDigit);
    if i < k <= i + 3 && k + 4 <= |s| && IsDecimalSep(s[k]) && AllDigitsIn(s, k + 1, k + 4)
    then Some(Token(i, k, k + 4))
    else None
  }

  /** `\d+[,\.]\d+` at `i`, both digit runs maximal. */
  function Number(s: string, i: nat): (r: Option<Token>)
    requires i <= |s|
    ensures r.Some? ==> ValidToken(s, r.value) && r.value.start == i
    ensures r.Some? ==> r.value.end == |s| || !IsDigit(s[r.value.end])
  {
    var k := SkipWhile(s, i, IsDigit);
    if i < k < |s| && IsDecimalSep(s[k]) then
      var e := SkipWhile(s, k + 1, IsDigit);
      if k + 1 < e then Some(Token(i, k, e)) else None
    else None
  }

  /** `\d[,\.]\d{3}` at `i`: the margin token. */
  function Margin(s: string, i: nat): (r: Option<Token>)
    requires i <= |s|
    ensures r.Some? ==> ValidToken(s, r.value) && r.value.start == i && r.value.sep == i + 1 && Millimes(r.value)
  {
    if i + 5 <= |s| && IsDigit(s[i]) && IsDecimalSep(s[i + 1]) && AllDigitsIn(s, i + 2, i + 5)
    then Some(Token(i, i + 1, i + 5))
    else None
  }

  /** The number a string of digits spells, most significant digit first. */
  function DigitsValue(d: string): (v: nat)
    requires forall k :: 0 <= k < |d| ==> IsDigit(d[k])
    ensures d == [] ==> v == 0
  {
    if d == [] then 0 else 10 * DigitsValue(d[..|d| - 1]) + DigitValue(d[|d| - 1])
  }

  /** The digits of a token with its separator dropped. */
  function TokenDigits(s: string, t: Token): (d: string)
    requires ValidToken(s, t)
    ensures |d| == t.end - t.start - 1
    ensures forall k :: 0 <= k < |d| ==> IsDigit(d[k])
  {
    s[t.start..t.sep] + s[t.sep + 1..t.end]
  }

  /** `float(token.replace(',', '.'))`, exactly: the digits read as one integer,
      scaled by the number of fractional digits. */
  function Value(s: string, t: Token): (d: Decimal)
    requires ValidToken(s, t)
    ensures d.scale == t.end - t.sep - 1
    ensures Millimes(t) ==> d.scale == 3
  {
    Decimal(DigitsValue(TokenDigits(s, t)), t.end - t.sep - 1)
  }

  /** The dosage units of the medication-name check `\d+\s*(mg|ml|μg|µg|%|Comp|Bt|Fl|Sol|Gel)`
      (the first mu is GREEK SMALL LETTER MU, the second MICRO SIGN). */
  const NameDosageUnits: seq<string> := ["mg", "ml", "\U{3BC}g", "\U{B5}g", "%", "Comp", "Bt", "Fl", "Sol", "Gel"]

  /** The units of the laboratory-line check `\d+\s*(mg|ml|μg|µg|%)`. */
  const LabDosageUnits: seq<string> := ["mg", "ml", "\U{3BC}g", "\U{B5}g", "%"]

  /** One of `units` at offset `r`, compared case-insensitively. */
  predicate UnitAt(s: string, r: nat, units: seq<string>)
  {
    exists k :: 0 <= k < |units| && FoldMatchAt(s, r, units[k])
  }

  /** `re.search(r'\d+\s*(units)', s, re.IGNORECASE)` succeeds: some digit is followed,
      after optional whitespace, by a unit. */
  predicate HasDosage(s: string, units: seq<string>)
  {
    exists q :: 1 <= q <= |s| && IsDigit(s[q - 1]) && UnitAt(s, SkipSpaces(s, q), units)
  }

  /** A dosage token of a prefix is a dosage token of the whole string. */
  lemma HasDosagePrefix(s: string, j: nat, units: seq<string>)
    requires j <= |s| && HasDosage(s[..j], units)
    requires forall k :: 0 <= k < |units| ==> units[k] != []
    ensures HasDosage(s, units)
  {
    var p := s[..j];
    var q :| 1 <= q <= |p| && IsDigit(p[q - 1]) && UnitAt(p, SkipSpaces(p, q), units);
    var r := SkipSpaces(p, q);
    var k :| 0 <= k < |units| && FoldMatchAt(p, r, units[k]);
    SkipSpacesPrefix(s, j, q);
    FoldMatchPrefix(s, j, r, units[k]);
    assert IsDigit(s[q - 1]) by { assert p[q - 1] == s[q - 1]; }
    assert UnitAt(s, SkipSpaces(s, q), units);
  }

  /** Units that are non-empty and hold no whitespace. */
  predicate SolidUnits(units: seq<string>)
  {
    forall i :: 0 <= i < |units| ==> units[i] != [] && forall m :: 0 <= m < |units[i]| ==> !IsSpace(units[i][m])
  }

  lemma NameUnitsSolid()
    ensures SolidUnits(NameDosageUnits)
  {
  }

  /** Case folding keeps whitespace whitespace and everything else not. */
  lemma FoldKeepsSpace(c: char)
    ensures IsSpace(Fold(c)) == IsSpace(c)
  {
  }

  /** A digit, a whitespace run and a unit, wherever they sit, make a dosage token. */
  lemma DosageIn(a: string, d: char, w: string, u: string, b: string, units: seq<string>, k: nat)
    requires IsDigit(d) && forall m :: 0 <= m < |w| ==> IsSpace(w[m])
    requires k < |units| && |u| == |units[k]| && u != [] && !IsSpace(u[0]) && FoldMatchAt(u, 0, units[k])
    ensures HasDosage(a + [d] + w + u + b, units)
  {
    var s := a + [d] + w + u + b;
    var q := |a| + 1;
    var r := q + |w|;
    assert s[q - 1] == d;
    assert forall m :: q <= m < r ==> s[m] == w[m - q];
    assert s[r] == u[0];
    SkipWhileAt(s, q, IsSpace, r);
    forall m | 0 <= m < |u|
      ensures Fold(s[r + m]) == Fold(units[k][m])
    {
      assert s[r + m] == u[m];
    }
    assert FoldMatchAt(s, r, units[k]);
    assert UnitAt(s, SkipSpaces(s, q), units);
  }

  /** A dosage token splits its string into what comes before its digit, the digit,
      the whitespace run, the unit as written, and the rest. */
  lemma DosageParts(s: string, units: seq<string>) returns (a: string, d: char, w: string, u: string, b: string, k: nat)
    requires SolidUnits(units) && HasDosage(s, units)
    ensures s == a + [d] + w + u + b
    ensures IsDigit(d) && forall m :: 0 <= m < |w| ==> IsSpace(w[m])
    ensures k < |units| && |u| == |units[k]| && u != [] && FoldMatchAt(u, 0, units[k])
    ensures forall m :: 0 <= m < |u| ==> !IsSpace(u[m])
  {
    var q :| 1 <= q <= |s| && IsDigit(s[q - 1]) && UnitAt(s, SkipSpaces(s, q), units);
    var r := SkipSpaces(s, q);
    k :| 0 <= k < |units| && FoldMatchAt(s, r, units[k]);
    var e := r + |units[k]|;
    FiveSlices(s, q - 1, r, e);
    a, d, w, u, b := s[..q - 1], s[q - 1], s[q..r], s[r..e], s[e..];
    SpaceSlice(s, q, r);
    UnitSlice(s, r, units[k]);
  }

  /** A string is its pieces cut at `i`, `i + 1`, `r` and `e`. */
  lemma FiveSlices(s: string, i: nat, r: nat, e: nat)
    requires i < r <= e <= |s|
    ensures s == s[..i] + [s[i]] + s[i + 1..r] + s[r..e] + s[e..]
  {
  }

  /** The slice of a whitespace run is whitespace. */
  lemma SpaceSlice(s: string, q: nat, r: nat)
    requires q <= r <= |s| && forall m :: q <= m < r ==> IsSpace(s[m])
    ensures forall m :: 0 <= m < |s[q..r]| ==> IsSpace(s[q..r][m])
  {
  }

  /** The characters a solid unit matches, as written, are a solid string that matches it. */
  lemma UnitSlice(s: string, r: nat, v: string)
    requires v != [] && (forall m :: 0 <= m < |v| ==> !IsSpace(v[m])) && FoldMatchAt(s, r, v)
    ensures var u := s[r..r + |v|]; FoldMatchAt(u, 0, v) && forall m :: 0 <= m < |u| ==> !IsSpace(u[m])
  {
    var u := s[r..r + |v|];
    forall m | 0 <= m < |u|
      ensures Fold(u[m]) == Fold(v[m]) && !IsSpace(u[m])
    {
      assert u[m] == s[r + m];
      FoldKeepsSpace(u[m]);
      FoldKeepsSpace(v[m]);
    }
  }

  /** A unit matched in a prefix is matched in the whole string. */
  lemma FoldMatchPrefix(s: string, j: nat, r: nat, u: string)
    requires j <= |s| && FoldMatchAt(s[..j], r, u)
    ensures FoldMatchAt(s, r, u)
  {
    var p := s[..j];
    forall m | 0 <= m < |u| ensures Fold(s[r + m]) == Fold(u[m]) {
      assert p[r + m] == s[r + m];
    }
  }

  /** Where a whitespace run ends inside a prefix, it ends at the same place in the whole string. */
  lemma SkipSpacesPrefix(s: string, j: nat, q: nat)
    requires q <= j <= |s| && SkipSpaces(s[..j], q) < j
    ensures SkipSpaces(s, q) == SkipSpaces(s[..j], q)
  {
    var p := s[..j];
    var r := SkipSpaces(p, q);
    var r' := SkipSpaces(s, q);
    assert !IsSpace(s[r]) by { assert p[r] == s[r]; }
    assert forall m :: q <= m < r ==> IsSpace(s[m]) by {
      assert forall m :: q <= m < r ==> p[m] == s[m];
    }
  }

  /** A sample price token and its value: "12,500" is 12.500 dinars. */
  lemma PriceExample()
    ensures Price3("12,500", 0) == Some(Token(0, 2, 6)) && Value("12,500", Token(0, 2, 6)) == Decimal(12500, 3)
  {
    assert SkipWhile("12,500", 0, IsDigit) == 2 by {
      assert SkipWhile("12,500", 2, IsDigit) == 2;
    }
    assert TokenDigits("12,500", Token(0, 2, 6)) == "12500";
    assert DigitsValue("12500") == 12500 by {
      assert "12500"[..4] == "1250" && "1250"[..3] == "125" && "125"[..2] == "12" && "12"[..1] == "1";
    }
  }

  /** A sample decimal number and its value: "7.25" is 7.25. */
  lemma NumberExample()
    ensures Number("7.25", 0) == Some(Token(0, 1, 4)) && Value("7.25", Token(0, 1, 4)) == Decimal(725, 2)
  {
    assert SkipWhile("7.25", 0, IsDigit) == 1 by {
      assert SkipWhile("7.25", 1, IsDigit) == 1;
    }
    assert SkipWhile("7.25", 2, IsDigit) == 4 by {
      assert SkipWhile("7.25", 4, IsDigit) == 4;
      assert SkipWhile("7.25", 3, IsDigit) == 4;
    }
    assert TokenDigits("7.25", Token(0, 1, 4)) == "725";
    assert DigitsValue("725") == 725 by {
      assert "725"[..2] == "72" && "72"[..1] == "7";
    }
  }
}

/** The circulaire's date and number, read from its header (`_extract_date` and
    `_extract_circulaire_number`, the same in the three copies). Both searches are
    written as recognisers at an offset, as the medication-line tokens are. */
module Header {

  import opened Wrappers
  import opened Text
  import opened Tokens

  /** تونس ("Tunis"). */
  const Tunis: string := "\U{062A}\U{0648}\U{0646}\U{0633}"

  /** في ("on"). */
  const Fi: string := "\U{0641}\U{064A}"

  /** رقم ("number"). */
  const Raqm: string := "\U{0631}\U{0642}\U{0645}"

  // ---------------------------------------------------------------------------
  // Dates
  // ---------------------------------------------------------------------------

  /** The three groups of `(\d{1,2})/(\d{1,2})/(\d{4})`. */
  datatype DateParts = DateParts(day: string, month: string, year: string)

  predicate IsDigits(s: string)
  {
    forall k :: 0 <= k < |s| ==> IsDigit(s[k])
  }

  lemma SliceDigits(s: string, i: nat, j: nat)
    requires i <= j <= |s| && AllDigitsIn(s, i, j)
    ensures IsDigits(s[i..j])
  {
    forall k | 0 <= k < j - i ensures IsDigit(s[i..j][k]) {
      assert s[i..j][k] == s[i + k];
    }
  }

  predicate ValidParts(d: DateParts)
  {
    && 1 <= |d.day| <= 2 && IsDigits(d.day)
    && 1 <= |d.month| <= 2 && IsDigits(d.month)
    && |d.year| == 4 && IsDigits(d.year)
  }

  /** `(\d{1,2})/` at `i`: the digit run there has one or two digits and is followed by
      `/` (a longer run leaves a digit where the slash must be, however the group
      backtracks). The result is the offset of the slash. */
  function ShortGroup(s: string, i: nat): (r: Option<nat>)
    requires i <= |s|
    ensures r.Some? ==> i < r.value <= i + 2 && r.value < |s| && AllDigitsIn(s, i, r.value) && s[r.value] == '/'
  {
    var k := SkipWhile(s, i, IsDigit);
    if i < k <= i + 2 && k < |s| && s[k] == '/' then Some(k) else None
  }

  /** `(\d{1,2})/(\d{1,2})/(\d{4})` matched at `i`. */
  function DateAt(s: string, i: nat): (r: Option<DateParts>)
    ensures r.Some? ==> ValidParts(r.value)
  {
    if i > |s| then None
    else
      var d :- ShortGroup(s, i);
      var m :- ShortGroup(s, d + 1);
      if m + 5 <= |s| && AllDigitsIn(s, m + 1, m + 5) then
        SliceDigits(s, i, d);
        SliceDigits(s, d + 1, m);
        SliceDigits(s, m + 1, m + 5);
        Some(DateParts(s[i..d], s[d + 1..m], s[m + 1..m + 5]))
      else None
  }

  predicate IsSpaceOrColon(c: char) { IsSpace(c) || c == ':' }

  /** The number of colons in `t`. */
  function Colons(t: string): (n: nat)
    ensures n <= |t|
  {
    if t == [] then 0 else (if t[|t| - 1] == ':' then 1 else 0) + Colons(t[..|t| - 1])
  }

  /** The date after a run of whitespace and colons starting at `i`, of which the pattern
      allows at most `maxColons` colons: the run must be consumed whole, since the date
      begins with a digit. */
  function DateAfterRun(s: string, i: nat, maxColons: nat): (r: Option<DateParts>)
    requires i <= |s|
    ensures r.Some? ==> r == DateAt(s, SkipWhile(s, i, IsSpaceOrColon))
  {
    var e := SkipWhile(s, i, IsSpaceOrColon);
    if Colons(s[i..e]) <= maxColons then DateAt(s, e) else None
  }

  /** `(?:تونس\s*في|في\s*:?)\s*:?\s*(\d{1,2})/(\d{1,2})/(\d{4})` matched at `p`. The two
      alternatives begin with different letters, so at most one applies; after في the
      first allows one colon among the whitespace, the second two. */
  function ArabicDateAt(s: string, p: nat): (r: Option<DateParts>)
    ensures r.Some? ==> ValidParts(r.value)
    ensures r.Some? ==> exists e :: p <= e <= |s| && DateAt(s, e) == r
  {
    if p > |s| then None
    else if MatchAt(s, p, Tunis) then
      var a := SkipSpaces(s, p + |Tunis|);
      if MatchAt(s, a, Fi) then DateAfterRun(s, a + |Fi|, 1) else None
    else if MatchAt(s, p, Fi) then DateAfterRun(s, p + |Fi|, 2)
    else None
  }

  /** The first match of the Arabic-introduced date (`re.search`). */
  function ArabicDate(s: string): Option<DateParts>
  {
    FirstSome(p => ArabicDateAt(s, p), 0, |s| + 1)
  }

  /** The first match of `DATE_PATTERN` (`re.search`). */
  function GenericDate(s: string): Option<DateParts>
  {
    FirstSome(p => DateAt(s, p), 0, |s| + 1)
  }

  /** `str.zfill(2)` on a string of digits. */
  function ZFill2(t: string): (r: string)
    ensures |t| <= 2 ==> |r| == 2
    ensures |t| >= 2 ==> r == t
  {
    if |t| < 2 then seq(2 - |t|, _ => '0') + t else t
  }

  /** `f"{year}-{month.zfill(2)}-{day.zfill(2)}"`. */
  function FormatDate(d: DateParts): string
  {
    d.year + "-" + ZFill2(d.month) + "-" + ZFill2(d.day)
  }

  /** `_extract_date`: the Arabic-introduced date if there is one, else the first date
      anywhere, as `YYYY-MM-DD`. */
  function ExtractDate(s: string): Option<string>
  {
    match ArabicDate(s)
    case Some(d) => Some(FormatDate(d))
    case None =>
      match GenericDate(s)
      case Some(d) => Some(FormatDate(d))
      case None => None
  }

  /** `YYYY-MM-DD`: ten characters, dashes at 4 and 7, digits elsewhere. */
  predicate IsIsoDate(r: string)
  {
    |r| == 10 && r[4] == '-' && r[7] == '-' && forall k :: 0 <= k < 10 && k != 4 && k != 7 ==> IsDigit(r[k])
  }

  /** Padding keeps a one- or two-digit group's digits and its value. */
  lemma ZFill2Value(t: string)
    requires 1 <= |t| <= 2 && IsDigits(t)
    ensures IsDigits(ZFill2(t)) && DigitsValue(ZFill2(t)) == DigitsValue(t)
  {
    var r := ZFill2(t);
    if |t| == 1 {
      assert r == ['0', t[0]];
      assert r[..1] == ['0'] && t[..0] == [];
    }
  }

  /** The formatted date is `YYYY-MM-DD`, and reading its fields back gives the year as
      written and the month and day values of the match. */
  lemma FormatDateRoundTrip(d: DateParts)
    requires ValidParts(d)
    ensures var r := FormatDate(d);
      && IsIsoDate(r)
      && r[..4] == d.year
      && DigitsValue(r[5..7]) == DigitsValue(d.month)
      && DigitsValue(r[8..10]) == DigitsValue(d.day)
  {
    var r := FormatDate(d);
    var m := ZFill2(d.month);
    var dd := ZFill2(d.day);
    ZFill2Value(d.month);
    ZFill2Value(d.day);
    assert r == d.year + "-" + m + "-" + dd;
    assert r[5..7] == m && r[8..10] == dd;
    forall k | 0 <= k < 10 && k != 4 && k != 7 ensures IsDigit(r[k]) {
      if k < 4 {
        assert r[k] == d.year[k];
      } else if k < 7 {
        assert r[k] == m[k - 5];
      } else {
        assert r[k] == dd[k - 8];
      }
    }
  }

  /** A date is found exactly when `DATE_PATTERN` matches somewhere: the Arabic form
      only ever prefers one of those matches. The result is then `YYYY-MM-DD`. */
  lemma ExtractDateFound(s: string)
    ensures ExtractDate(s).Some? <==> GenericDate(s).Some?
    ensures ExtractDate(s).Some? ==> IsIsoDate(ExtractDate(s).value)
  {
    var a := ArabicDate(s);
    if a.Some? {
      var p :| 0 <= p < |s| + 1 && ArabicDateAt(s, p) == a;
      var e :| p <= e <= |s| && DateAt(s, e) == a;
      FirstSomeWitness(q => DateAt(s, q), 0, |s| + 1, e);
      FormatDateRoundTrip(a.value);
    } else if GenericDate(s).Some? {
      FormatDateRoundTrip(GenericDate(s).value);
    }
  }

  // ---------------------------------------------------------------------------
  // The circulaire number
  // ---------------------------------------------------------------------------

  /** The two groups of `(\d{4})/(\d{1,2})`. */
  datatype NumberParts = NumberParts(year: string, num: string)

  /** `(?:رقم|:)\s*(\d{4})/(\d{1,2})` matched at `p`: four digits exactly (a fifth would
      stand where the slash must be), a slash, and one or two digits, two when there
      are. */
  function NumberAt(s: string, p: nat): (r: Option<NumberParts>)
    ensures r.Some? ==> |r.value.year| == 4 && IsDigits(r.value.year) && 1 <= |r.value.num| <= 2 && IsDigits(r.value.num)
  {
    if p > |s| then None
    else
      var lead := if MatchAt(s, p, Raqm) then Some(p + |Raqm|) else if p < |s| && s[p] == ':' then Some(p + 1) else None;
      if lead.None? then None
      else
        var e := SkipSpaces(s, lead.value);
        if e + 6 <= |s| && AllDigitsIn(s, e, e + 4) && s[e + 4] == '/' && IsDigit(s[e + 5]) then
          var n := if e + 7 <= |s| && IsDigit(s[e + 6]) then 2 else 1;
          SliceDigits(s, e, e + 4);
          SliceDigits(s, e + 5, e + 5 + n);
          Some(NumberParts(s[e..e + 4], s[e + 5..e + 5 + n]))
        else None
  }

  /** `_extract_circulaire_number`: the first match, as `YYYY/NN`. */
  function ExtractCirculaireNumber(s: string): Option<string>
  {
    match FirstSome(p => NumberAt(s, p), 0, |s| + 1)
    case Some(n) => Some(n.year + "/" + ZFill2(n.num))
    case None => None
  }

  /** The number is `YYYY/NN`: the year as written, a slash, and the number padded to
      two digits. */
  lemma CirculaireNumberShape(s: string)
    ensures var r := ExtractCirculaireNumber(s);
      r.Some? ==> |r.value| == 7 && r.value[4] == '/' && IsDigits(r.value[..4]) && IsDigits(r.value[5..])
  {
    var f := FirstSome(p => NumberAt(s, p), 0, |s| + 1);
    if f.Some? {
      var p :| 0 <= p < |s| + 1 && NumberAt(s, p) == f;
      FormatNumberRoundTrip(f.value);
    }
  }

  /** Reading the formatted number back gives the year as written and the value of the
      matched number. */
  lemma FormatNumberRoundTrip(n: NumberParts)
    requires |n.year| == 4 && IsDigits(n.year) && 1 <= |n.num| <= 2 && IsDigits(n.num)
    ensures var r := n.year + "/" + ZFill2(n.num);
      && |r| == 7 && r[4] == '/' && IsDigits(r[..4]) && IsDigits(r[5..])
      && r[..4] == n.year && DigitsValue(r[5..]) == DigitsValue(n.num)
  {
    ZFill2Value(n.num);
    var r := n.year + "/" + ZFill2(n.num);
    assert r[..4] == n.year && r[5..] == ZFill2(n.num);
  }
}

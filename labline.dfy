/** Recognising laboratory lines: `_is_laboratory_line` (the same in all three copies)
    and the standalone script's `extract_laboratory_name`. */
module LabLines {

  import opened Wrappers
  import opened Text
  import opened Tokens

  // ---------------------------------------------------------------------------
  // The rejection rules
  // ---------------------------------------------------------------------------

  /** The words of `^(Bt|BT|Fl|FL|Sol|SOL|Comp|COMP|Gel|GEL|Ser|SER|Pde|mg|ml|μg|µg)\b`
      (the first mu is GREEK SMALL LETTER MU, the second MICRO SIGN). */
  const DosageWords: seq<string> :=
    ["Bt", "BT", "Fl", "FL", "Sol", "SOL", "Comp", "COMP", "Gel", "GEL", "Ser", "SER", "Pde",
     "mg", "ml", "\U{3BC}g", "\U{B5}g"]

  /** The words of `(mois|Vie|AMM|EXP)`, which `re.match` anchors at the start. */
  const NoteWords: seq<string> := ["mois", "Vie", "AMM", "EXP"]

  /** `re.match(r'^(...)\b', s, re.IGNORECASE)` for a list of words: one of them begins
      `s`, in any case, and ends at a word boundary. */
  predicate StartsWithWord(s: string, words: seq<string>)
  {
    exists k :: 0 <= k < |words| && FoldMatchAt(s, 0, words[k]) && IsBoundary(s, |words[k]|)
  }

  /** `re.match(r'(...)', s, re.IGNORECASE)`: one of the words begins `s`, in any case. */
  predicate StartsWithAny(s: string, words: seq<string>)
  {
    exists k :: 0 <= k < |words| && FoldMatchAt(s, 0, words[k])
  }

  /** `[\|\-\.\s]`. */
  predicate IsRulePunctuation(c: char) { c in "|-." || IsSpace(c) }

  /** `re.match(r'^[\|\-\.\s]+$', s)`. */
  predicate OnlyRulePunctuation(s: string)
  {
    s != [] && forall k :: 0 <= k < |s| ==> IsRulePunctuation(s[k])
  }

  /** One of the four skip patterns matches at the start of the line. */
  predicate Skipped(s: string)
  {
    || StartsWithWord(s, DosageWords)
    || (s != [] && IsDigit(s[0]))
    || OnlyRulePunctuation(s)
    || StartsWithAny(s, NoteWords)
  }

  predicate HasAsciiLetter(s: string)
  {
    exists k :: 0 <= k < |s| && IsAsciiLetter(s[k])
  }

  // ---------------------------------------------------------------------------
  // The acceptance rules
  // ---------------------------------------------------------------------------

  /** The spellings of `(PHARMA|PHARM|LAB|S\.?A\.?\.?|LLC|GMBH|LTD|INC|SANTE|HEALTH|SCIENCES?|INDUSTRIES?)`,
      with every choice of the optional characters written out. */
  const Keywords: seq<string> :=
    ["PHARMA", "PHARM", "LAB", "SA", "S.A", "SA.", "S.A.", "SA..", "S.A..", "LLC", "GMBH", "LTD",
     "INC", "SANTE", "HEALTH", "SCIENCE", "SCIENCES", "INDUSTRIE", "INDUSTRIES"]

  /** `re.search(r'(...)\b', s, re.IGNORECASE)` for the keywords: some spelling occurs,
      in any case, and is followed by a word boundary. */
  predicate KeywordAt(s: string, i: nat)
  {
    exists k :: 0 <= k < |Keywords| && FoldMatchAt(s, i, Keywords[k]) && IsBoundary(s, i + |Keywords[k]|)
  }

  predicate HasKeyword(s: string)
  {
    exists i :: 0 <= i <= |s| && KeywordAt(s, i)
  }

  /** `re.sub(r'[^A-Za-z]', '', s)`: the ASCII letters of `s`, in order. */
  function AsciiLetters(s: string): (r: string)
    ensures |r| <= |s|
    ensures forall k :: 0 <= k < |r| ==> IsAsciiLetter(r[k])
  {
    if s == [] then [] else (if IsAsciiLetter(s[0]) then [s[0]] else []) + AsciiLetters(s[1..])
  }

  /** `alpha.upper() == alpha` for a string of ASCII letters. */
  predicate NoLowerCase(s: string)
  {
    forall k :: 0 <= k < |s| ==> !IsAsciiLower(s[k])
  }

  /** The capitals rule: 3 to 60 letters, all capitals, and no `\d+\s*(mg|ml|μg|µg|%)`. */
  predicate CapitalsName(s: string)
  {
    var alpha := AsciiLetters(s);
    NoLowerCase(alpha) && 3 <= |alpha| <= 60 && !HasDosage(s, LabDosageUnits)
  }

  /** The line as the classifier reads it: without bidirectional marks, stripped. */
  function LabText(line: string): string
  {
    Strip(RemoveBidi(line))
  }

  /** `_is_laboratory_line`: a line is a laboratory name when it passes every rejection
      rule and then carries a company keyword or reads as a name in capitals. Arabic
      text counts against the line from 30% of its length, compared exactly. */
  function IsLaboratoryLine(line: string): (r: bool)
    ensures var s := LabText(line);
      r <==> && |s| >= 4 && CountDigits(s) <= 3 && 10 * CountArabicBlock(s) <= 3 * |s|
             && !Skipped(s) && HasAsciiLetter(s) && (HasKeyword(s) || CapitalsName(s))
  {
    var s := LabText(line);
    if |s| < 4 then false
    else if CountDigits(s) > 3 then false
    else if 10 * CountArabicBlock(s) > 3 * |s| then false
    else if Skipped(s) then false
    else if !HasAsciiLetter(s) then false
    else if HasKeyword(s) then true
    else CapitalsName(s)
  }

  /** Cleaning a cleaned line changes nothing. */
  lemma LabTextIdempotent(line: string)
    ensures LabText(LabText(line)) == LabText(line)
  {
    var t := RemoveBidi(line);
    var s := Strip(t);
    StripKeepsChars(t);
    assert RemoveBidi(s) == s;
    StripUnpadded(s);
  }

  /** The classifier cleans its argument itself, so the cleaned line the scanner passes it
      is classified as the raw line would be. */
  lemma ClassifyCleanedLine(line: string)
    ensures IsLaboratoryLine(LabText(line)) == IsLaboratoryLine(line)
  {
    LabTextIdempotent(line);
  }

  lemma StripKeepsChars(t: string)
    ensures forall k :: 0 <= k < |Strip(t)| ==> Strip(t)[k] in t
  {
    var s := Strip(t);
    var a := |t| - |LStrip(t)|;
    assert s == t[a..a + |s|];
    SliceKeepsChars(t, a, a + |s|);
  }

  lemma SliceKeepsChars(t: string, a: nat, b: nat)
    requires a <= b <= |t|
    ensures forall k :: 0 <= k < b - a ==> t[a..b][k] in t
  {
    forall k | 0 <= k < b - a ensures t[a..b][k] in t {
      assert t[a..b][k] == t[a + k];
    }
  }

  /** A line with a six-digit run, such as a medication code, is not a laboratory line. */
  lemma CodedLineIsNotLabLine(line: string, i: nat)
    requires i + 6 <= |LabText(line)| && AllDigitsIn(LabText(line), i, i + 6)
    ensures !IsLaboratoryLine(line)
  {
    DigitRunCounts(LabText(line), i, i + 6);
  }

  /** A run of digits inside `s` is counted in full. */
  lemma {:induction false} DigitRunCounts(s: string, i: nat, j: nat)
    requires i <= j <= |s| && AllDigitsIn(s, i, j)
    ensures CountDigits(s) >= j - i
    decreases |s|
  {
    if j > i {
      var p := s[..|s| - 1];
      if j == |s| {
        assert AllDigitsIn(p, i, j - 1) by {
          forall m | i <= m < j - 1 ensures IsDigit(p[m]) { assert p[m] == s[m]; }
        }
        DigitRunCounts(p, i, j - 1);
      } else {
        assert AllDigitsIn(p, i, j) by {
          forall m | i <= m < j ensures IsDigit(p[m]) { assert p[m] == s[m]; }
        }
        DigitRunCounts(p, i, j);
      }
    }
  }

  // ---------------------------------------------------------------------------
  // extract_laboratory_name
  // ---------------------------------------------------------------------------

  /** A character that `str.upper()` changes: the lower-case letters of ASCII, Latin-1
      and Greek, and MICRO SIGN (which becomes GREEK CAPITAL MU). */
  predicate ChangesUnderUpper(c: char)
  {
    IsAsciiLower(c) || c == '\U{B5}' || '\U{DF}' <= c <= '\U{F6}' || '\U{F8}' <= c <= '\U{FF}'
    || '\U{3AC}' <= c <= '\U{3CE}'
  }

  /** `line.upper() == line`. */
  predicate UpperFixed(s: string)
  {
    forall k :: 0 <= k < |s| ==> !ChangesUnderUpper(s[k])
  }

  /** `[\d\.\,\|\-\s]`. */
  predicate IsFigurePunctuation(c: char) { IsDigit(c) || c in ".,|-" || IsSpace(c) }

  /** The case-sensitive prefixes of `^(Bt|Fl|Sol|Comp|Gel|mg|ml|µg)` (MICRO SIGN). */
  const DosagePrefixes: seq<string> := ["Bt", "Fl", "Sol", "Comp", "Gel", "mg", "ml", "\U{B5}g"]

  predicate HasArabic(s: string)
  {
    exists k :: 0 <= k < |s| && IsArabicBlock(s[k])
  }

  /** What a stripped line turns into when it qualifies as a laboratory name. */
  function LabNameOf(line: string): Option<string>
  {
    if line == [] || HasArabic(line) then None
    else if !(|line| > 3 && UpperFixed(line)) then None
    else
      var name := Strip(CollapseSpaces(line));
      if name != [] && forall k :: 0 <= k < |name| ==> IsFigurePunctuation(name[k]) then None
      else if exists k :: 0 <= k < |DosagePrefixes| && StartsWith(name, DosagePrefixes[k]) then None
      else Some(name)
  }

  /** What a line of the chunk gives: it is stripped, then tested. */
  function LineLabName(line: string): Option<string>
  {
    LabNameOf(Strip(line))
  }

  /** The scan of `extract_laboratory_name` over the lines, with its early return: the
      first thing `name` gives. */
  function FirstLabName(lines: seq<string>, name: string -> Option<string>): (r: Option<string>)
    ensures r.None? <==> forall k :: 0 <= k < |lines| ==> name(lines[k]).None?
  {
    if lines == [] then None
    else
      var here := name(lines[0]);
      if here.Some? then here
      else
        assert forall k :: 1 <= k < |lines| ==> lines[k] == lines[1..][k - 1];
        FirstLabName(lines[1..], name)
  }

  /** The name returned is the one of the first qualifying line. */
  lemma {:induction false} FirstLabNameIsFirst(lines: seq<string>, name: string -> Option<string>)
    ensures var r := FirstLabName(lines, name);
      r.Some? ==>
        exists k :: 0 <= k < |lines| && name(lines[k]) == r
          && forall m :: 0 <= m < k ==> name(lines[m]).None?
  {
    if lines != [] && name(lines[0]).None? {
      var tail := lines[1..];
      FirstLabNameIsFirst(tail, name);
      var r := FirstLabName(tail, name);
      if r.Some? {
        var k :| 0 <= k < |tail| && name(tail[k]) == r
          && forall m :: 0 <= m < k ==> name(tail[m]).None?;
        assert lines[k + 1] == tail[k];
        forall m | 0 <= m < k + 1 ensures name(lines[m]).None? {
          if m > 0 {
            assert lines[m] == tail[m - 1];
          }
        }
      }
    }
  }

  /** `extract_laboratory_name`: the first line of the stripped chunk that has no
      Arabic, more than three characters, no lower-case letter, is not only figures and
      punctuation, and does not begin with a dosage form; whitespace-collapsed. */
  function ExtractLaboratoryName(chunk: string): (r: Option<string>)
    ensures r.Some? ==> SingleSpaced(r.value) && UpperFixed(r.value) && !HasArabic(r.value)
  {
    var lines := SplitOn(Strip(chunk), '\n');
    FirstLabNameShape(lines);
    FirstLabName(lines, LineLabName)
  }

  lemma FirstLabNameShape(lines: seq<string>)
    ensures var r := FirstLabName(lines, LineLabName);
      r.Some? ==> SingleSpaced(r.value) && UpperFixed(r.value) && !HasArabic(r.value)
  {
    var r := FirstLabName(lines, LineLabName);
    FirstLabNameIsFirst(lines, LineLabName);
    if r.Some? {
      var k :| 0 <= k < |lines| && LineLabName(lines[k]) == r;
      LabNameShape(Strip(lines[k]));
    }
  }

  /** A qualifying name is single-spaced, unchanged by `upper()` and free of Arabic. */
  lemma LabNameShape(line: string)
    ensures var r := LabNameOf(line);
      r.Some? ==> SingleSpaced(r.value) && UpperFixed(r.value) && !HasArabic(r.value)
  {
    if LabNameOf(line).Some? {
      LabNameIsCleanLine(line);
      StripCollapsedIsSingleSpaced(line);
      CleanKeepsChars(line);
      KeptCharsShape(line, Strip(CollapseSpaces(line)));
    }
  }

  /** Spaces and characters of a line free of Arabic and of lower case are free of both. */
  lemma KeptCharsShape(line: string, name: string)
    requires UpperFixed(line) && !HasArabic(line)
    requires forall k :: 0 <= k < |name| ==> name[k] == ' ' || name[k] in line
    ensures UpperFixed(name) && !HasArabic(name)
  {
    forall k | 0 <= k < |name| ensures !ChangesUnderUpper(name[k]) && !IsArabicBlock(name[k]) {
      if name[k] != ' ' {
        var m :| 0 <= m < |line| && line[m] == name[k];
      }
    }
  }

  /** A qualifying line is free of Arabic and of lower case, and gives its cleaned self. */
  lemma LabNameIsCleanLine(line: string)
    requires LabNameOf(line).Some?
    ensures LabNameOf(line) == Some(Strip(CollapseSpaces(line)))
    ensures UpperFixed(line) && !HasArabic(line)
  {
  }

  /** Collapsing and stripping only ever leave a `' '` or a character of the input. */
  lemma CleanKeepsChars(line: string)
    ensures var name := Strip(CollapseSpaces(line));
      forall k :: 0 <= k < |name| ==> name[k] == ' ' || name[k] in line
  {
    var c := CollapseSpaces(line);
    CollapseKeepsChars(line);
    StripKeepsChars(c);
  }

  /** Collapsing whitespace only ever writes a `' '` or a character of the input. */
  lemma {:induction false} CollapseKeepsChars(s: string)
    ensures forall k :: 0 <= k < |CollapseSpaces(s)| ==> CollapseSpaces(s)[k] == ' ' || CollapseSpaces(s)[k] in s
    decreases |s|
  {
    if s != [] {
      if IsSpace(s[0]) {
        var t := LStrip(s);
        CollapseKeepsChars(t);
        forall k | 0 <= k < |t| ensures t[k] in s {
          assert t[k] == s[|s| - |t| + k];
        }
      } else {
        CollapseKeepsChars(s[1..]);
        forall k | 0 <= k < |s[1..]| ensures s[1..][k] in s {
          assert s[1..][k] == s[k + 1];
        }
      }
    }
  }

  /** The dosage-form filter never rejects anything: every prefix it looks for has a
      lower-case second letter, and a name that reaches it has none. */
  lemma DosageFilterNeverRejects(name: string)
    requires UpperFixed(name)
    ensures forall k :: 0 <= k < |DosagePrefixes| ==> !StartsWith(name, DosagePrefixes[k])
  {
    forall k | 0 <= k < |DosagePrefixes| ensures !StartsWith(name, DosagePrefixes[k]) {
      var p := DosagePrefixes[k];
      assert |p| >= 2 && ChangesUnderUpper(p[1]);
      if |name| >= |p| {
        assert name[..|p|][1] == name[1];
      }
    }
  }
}

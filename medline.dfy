/** `_parse_medication_line` / `parse_medication_line`: a line is stripped, its
    bidirectional marks are deleted, `|` becomes a space, whitespace is collapsed,
    and the patterns are tried in a fixed order; the first that matches gives the
    record, with the laboratory in force attached. */
module MedLines {

  import opened Wrappers
  import opened Text
  import opened Prices
  import opened Tokens
  import opened Names
  import opened Patterns
  import opened Copies

  /** The patterns, named after the comments that number them in the source. */
  datatype Stage = P1 | P2 | P2b | P2c | P3 | P4 | P5 | P6 | P7

  /** The order in which a copy tries the patterns: the add-on stops after pattern 3. */
  function Stages(copy: Copy): seq<Stage>
  {
    match copy
    case Addon => [P1, P2, P2b, P2c, P3]
    case _ => [P1, P2, P2b, P2c, P3, P4, P5, P6, P7]
  }

  /** The pattern function of each stage. */
  function Runner(st: Stage): string -> Option<Fields>
  {
    match st
    case P1 => Pattern1
    case P2 => Pattern2
    case P2b => Pattern2b
    case P2c => Pattern2c
    case P3 => Pattern3
    case P4 => Pattern4
    case P5 => Pattern5
    case P6 => Pattern6
    case P7 => Pattern7
  }

  /** One stage tried on a line. */
  function RunStage(st: Stage, line: string): Option<Fields>
  {
    Runner(st)(line)
  }

  /** A stage's record, when it matches, has the stage's shape. */
  lemma RunStageShape(st: Stage, line: string)
    ensures RunStage(st, line).Some? ==> Shape(st, RunStage(st, line).value)
  {
    match st
    case P1 => assert Runner(st) == Pattern1;
    case P2 => assert Runner(st) == Pattern2;
    case P2b => assert Runner(st) == Pattern2b;
    case P2c => assert Runner(st) == Pattern2c;
    case P3 => assert Runner(st) == Pattern3;
    case P4 => assert Runner(st) == Pattern4;
    case P5 => assert Runner(st) == Pattern5;
    case P6 => assert Runner(st) == Pattern6;
    case P7 => assert Runner(st) == Pattern7;
  }

  /** What the record of each stage looks like:
      - a category is one of A, B, C (a `-` is never reported) and a margin has three decimals;
      - patterns 6 and 7 are exactly the ones without a code, and every code has six digits;
      - patterns 4, 5 and 7 are exactly the ones without a public price;
      - patterns 2b, 2c and 4 give neither category nor margin, patterns 2, 6 and 7 always give both;
      - the patterns built on `\d{1,3}[,\.]\d{3}` read every price with three decimals. */
  predicate Shape(st: Stage, f: Fields)
  {
    && CategoryOk(f) && MarginOk(f) && SingleSpaced(f.name)
    && (f.code.None? <==> st in {P6, P7})
    && (f.code.Some? ==> IsCode(f.code.value))
    && (f.public.None? <==> st in {P4, P5, P7})
    && (st in {P2b, P2c, P4} ==> f.category.None? && f.margin.None?)
    && (st in {P2, P6, P7} ==> f.category.Some? && f.margin.Some?)
    && (st !in {P3, P4, P5} ==> Priced3(f))
  }

  /** The first element of `xs` for which `run` gives something, with what it gives. */
  function FirstMatch<S, T>(xs: seq<S>, run: S -> Option<T>): (r: Option<(S, T)>)
    ensures r.Some? ==> r.value.0 in xs && run(r.value.0) == Some(r.value.1)
    ensures r.None? <==> forall k :: 0 <= k < |xs| ==> run(xs[k]).None?
  {
    if xs == [] then None
    else if run(xs[0]).Some? then Some((xs[0], run(xs[0]).value))
    else
      var r := FirstMatch(xs[1..], run);
      assert forall k :: 1 <= k < |xs| ==> xs[k] == xs[1..][k - 1];
      r
  }

  /** First match wins: the result is the element at position `k` exactly when `run`
      gives something there and nothing at any earlier position. */
  lemma {:induction false} FirstMatchIsFirst<S, T>(xs: seq<S>, run: S -> Option<T>)
    ensures FirstMatch(xs, run).Some? ==>
      exists k :: 0 <= k < |xs| && xs[k] == FirstMatch(xs, run).value.0 && run(xs[k]).Some?
        && forall m :: 0 <= m < k ==> run(xs[m]).None?
    ensures forall k ::
      0 <= k < |xs| && run(xs[k]).Some? && (forall m :: 0 <= m < k ==> run(xs[m]).None?) ==>
      FirstMatch(xs, run) == Some((xs[k], run(xs[k]).value))
  {
    if xs != [] && run(xs[0]).None? {
      var tail := xs[1..];
      FirstMatchIsFirst(tail, run);
      assert forall k :: 1 <= k < |xs| ==> xs[k] == tail[k - 1];
      if FirstMatch(xs, run).Some? {
        var k :| 0 <= k < |tail| && tail[k] == FirstMatch(tail, run).value.0 && run(tail[k]).Some?
          && forall m :: 0 <= m < k ==> run(tail[m]).None?;
        forall m | 0 <= m < k + 1 ensures run(xs[m]).None? {
          if m > 0 {
            assert xs[m] == tail[m - 1];
          }
        }
      }
      forall k | 0 <= k < |xs| && run(xs[k]).Some? && (forall m :: 0 <= m < k ==> run(xs[m]).None?)
        ensures FirstMatch(xs, run) == Some((xs[k], run(xs[k]).value))
      {
        assert k > 0 && tail[k - 1] == xs[k];
        forall m | 0 <= m < k - 1 ensures run(tail[m]).None? {
          assert tail[m] == xs[m + 1];
        }
      }
    }
  }

  /** The cascade: the first stage of `stages` that matches the line, with its fields. */
  function Cascade(stages: seq<Stage>, line: string): Option<(Stage, Fields)>
  {
    FirstMatch(stages, st => RunStage(st, line))
  }

  /** The line the patterns see: stripped, without bidirectional marks, `|` turned into
      a space, whitespace collapsed, stripped again. */
  function CleanLine(line: string): (r: string)
    ensures SingleSpaced(r)
  {
    var t := ReplaceChar(RemoveBidi(Strip(line)), '|', ' ');
    StripCollapsedIsSingleSpaced(t);
    Strip(CollapseSpaces(t))
  }

  /** A line that is already clean is left as it is. */
  lemma CleanLineOfCleanLine(line: string)
    requires SingleSpaced(line)
    requires forall k :: 0 <= k < |line| ==> !IsBidiMark(line[k]) && line[k] != '|'
    ensures CleanLine(line) == line
  {
    StripUnpadded(line);
    assert ReplaceChar(line, '|', ' ') == line;
    CollapseSingleSpaces(line);
  }

  /** The stage that matches a line, and its fields; nothing for a blank line. */
  function MatchLine(copy: Copy, line: string): Option<(Stage, Fields)>
  {
    if Strip(line) == [] then None else Cascade(Stages(copy), CleanLine(line))
  }

  /** The record `_parse_medication_line` returns. */
  datatype Medication = Medication(
    code: Option<string>,
    name: string,
    laboratory: Option<string>,
    wholesale: Decimal,
    pharmacy: Decimal,
    public: Option<Decimal>,
    category: Option<char>,
    margin: Option<Decimal>)

  function WithLaboratory(f: Fields, lab: Option<string>): Medication
  {
    Medication(f.code, f.name, lab, f.wholesale, f.pharmacy, f.public, f.category, f.margin)
  }

  /** A blank line gives nothing; a record carries the laboratory it was given, comes
      from a stage of the copy's cascade and has that stage's shape. */
  function ParseMedicationLine(copy: Copy, line: string, lab: Option<string>): (r: Option<Medication>)
    ensures Strip(line) == [] ==> r.None?
    ensures r.Some? <==> MatchLine(copy, line).Some?
    ensures r.Some? ==> r.value.laboratory == lab
    ensures r.Some? ==>
      && MatchLine(copy, line).value.0 in Stages(copy)
      && Shape(MatchLine(copy, line).value.0, MatchLine(copy, line).value.1)
      && r.value == WithLaboratory(MatchLine(copy, line).value.1, lab)
  {
    match MatchLine(copy, line)
    case Some(m) =>
      RunStageShape(m.0, CleanLine(line));
      Some(WithLaboratory(m.1, lab))
    case None => None
  }

  /** Every line pattern 5 accepts is accepted by pattern 4: after the two prices and
      the whitespace, the lazy `.*?` of pattern 4 reaches the code wherever pattern 5's
      optional category and margin put it. */
  lemma Pattern5ImpliesPattern4(line: string)
    ensures Pattern5(line).Some? ==> Pattern4(line).Some?
  {
    if Pattern5(line).Some? {
      var j :| 2 <= j < |line| && Pattern5Name(line, j).Some?;
      Pattern5NameImpliesPattern4Name(line, j);
      FirstSomeWitness(j => Pattern4Name(line, j), 2, |line|, j);
    }
  }

  lemma Pattern5NameImpliesPattern4Name(line: string, j: nat)
    ensures Pattern5Name(line, j).Some? ==> Pattern4Name(line, j).Some?
  {
    if Pattern5Name(line, j).Some? {
      var h := TwoPricesHead(line, j).value;
      var t := Pattern5Tails(line, h.1).value;
      FirstSomeWitness(m => CodeStart(line, m), h.1, |line|, t.2);
      assert CodeFrom(line, h.1).Some?;
    }
  }

  /** So pattern 5 never produces a record, in any copy. */
  lemma Pattern5NeverFires(copy: Copy, line: string)
    ensures MatchLine(copy, line).Some? ==> MatchLine(copy, line).value.0 != P5
  {
    if Strip(line) != [] {
      CascadeSkipsP5(copy, CleanLine(line));
    }
  }

  lemma CascadeSkipsP5(copy: Copy, l: string)
    ensures Cascade(Stages(copy), l).Some? ==> Cascade(Stages(copy), l).value.0 != P5
  {
    RunStage5Implies4(l);
    StageAfterSubsumingStage(copy, st => RunStage(st, l));
  }

  lemma RunStage5Implies4(l: string)
    ensures RunStage(P5, l).Some? ==> RunStage(P4, l).Some?
  {
    assert Runner(P5) == Pattern5 && Runner(P4) == Pattern4;
    Pattern5ImpliesPattern4(l);
  }

  /** In either cascade, a stage 5 that only matches where stage 4 does is never the first match. */
  lemma StageAfterSubsumingStage<T>(copy: Copy, run: Stage -> Option<T>)
    requires run(P5).Some? ==> run(P4).Some?
    ensures FirstMatch(Stages(copy), run).Some? ==> FirstMatch(Stages(copy), run).value.0 != P5
  {
    var stages := Stages(copy);
    if copy != Addon && run(P5).Some? {
      var prefix := stages[..6];
      assert prefix == [P1, P2, P2b, P2c, P3, P4];
      assert prefix[5] == P4;
      FirstMatchPrefix(stages, run, 6);
    }
  }

  /** Once a prefix of the list matches, the elements after it are never reached. */
  lemma {:induction false} FirstMatchPrefix<S, T>(xs: seq<S>, run: S -> Option<T>, j: nat)
    requires j <= |xs| && FirstMatch(xs[..j], run).Some?
    ensures FirstMatch(xs, run) == FirstMatch(xs[..j], run)
  {
    assert j > 0;
    if run(xs[0]).None? {
      assert xs[..j][1..] == xs[1..][..j - 1];
      FirstMatchPrefix(xs[1..], run, j - 1);
    }
  }

  /** The add-on's records always have a six-digit code and a public price. */
  lemma AddonRecordsHaveCodeAndPublicPrice(line: string, lab: Option<string>)
    ensures var r := ParseMedicationLine(Addon, line, lab);
      r.Some? ==> r.value.code.Some? && IsCode(r.value.code.value) && r.value.public.Some?
  {
    var r := ParseMedicationLine(Addon, line, lab);
    if r.Some? {
      var m := MatchLine(Addon, line).value;
      AddonShape(m.0, m.1);
    }
  }

  lemma AddonShape(st: Stage, f: Fields)
    requires st in Stages(Addon) && Shape(st, f)
    ensures f.code.Some? && IsCode(f.code.value) && f.public.Some?
  {
  }

  /** A record without a code has a dosage token (a number followed by a unit such as
      `mg`, `ml` or `Comp`) in its name, and so in the bracket-free line. */
  lemma CodelessRecordsHaveDosage(copy: Copy, line: string, lab: Option<string>)
    ensures var r := ParseMedicationLine(copy, line, lab);
      r.Some? && r.value.code.None? ==> HasDosage(r.value.name, NameDosageUnits)
    ensures var r := ParseMedicationLine(copy, line, lab);
      r.Some? && r.value.code.None? ==> HasDosage(WithoutBrackets(CleanLine(line)), NameDosageUnits)
  {
    var r := ParseMedicationLine(copy, line, lab);
    if r.Some? && r.value.code.None? {
      var st := MatchLine(copy, line).value.0;
      var l := CleanLine(line);
      assert RunStage(st, l).Some?;
      RunStageShape(st, l);
      CodelessStageDosage(st, l);
    }
  }

  lemma CodelessStageDosage(st: Stage, l: string)
    requires st == P6 || st == P7
    ensures RunStage(st, l).Some? ==> HasDosage(RunStage(st, l).value.name, NameDosageUnits)
    ensures RunStage(st, l).Some? ==> HasDosage(WithoutBrackets(l), NameDosageUnits)
  {
    if st == P6 {
      assert Runner(st) == Pattern6;
      NoCodeDosage(l, 3);
    } else {
      assert Runner(st) == Pattern7;
      NoCodeDosage(l, 2);
    }
  }

  /** Patterns 6 and 7 keep a match only when its name group has a dosage token. The
      record's name is that group cleaned, which keeps the token. */
  lemma NoCodeDosage(line: string, count: nat)
    requires count == 2 || count == 3
    ensures NoCodePattern(line, count).Some? ==> HasDosage(NoCodePattern(line, count).value.name, NameDosageUnits)
    ensures NoCodePattern(line, count).Some? ==> HasDosage(WithoutBrackets(line), NameDosageUnits)
  {
    if NoCodePattern(line, count).Some? {
      var j := NoCodeKept(line, count);
      NameDosagePrefix(WithoutBrackets(line), j);
      NoCodeNameDosage(line, count);
    }
  }

  /** The record's name is the cleaned name group, which has no bracket. */
  lemma NoCodeNameDosage(line: string, count: nat)
    requires count == 2 || count == 3
    requires NoCodePattern(line, count).Some?
    ensures HasDosage(NoCodePattern(line, count).value.name, NameDosageUnits)
  {
    var s := WithoutBrackets(line);
    var raw := NoCodeRaw(line, count);
    var j := NoCodeRawEnd(s, count);
    assert NoCodePattern(line, count).value.name == CleanMedicationName(raw.name);
    UnbracketedPrefix(s, j);
    NameUnitsSolid();
    CleanKeepsDosage(raw.name, NameDosageUnits);
  }

  /** Where the raw match a no-code pattern kept ends: its name, which carries a dosage,
      is the line up to there. */
  lemma NoCodeKept(line: string, count: nat) returns (j: nat)
    requires count == 2 || count == 3
    requires NoCodePattern(line, count).Some?
    ensures j <= |WithoutBrackets(line)| && HasDosage(WithoutBrackets(line)[..j], NameDosageUnits)
  {
    var s := WithoutBrackets(line);
    var raw := NoCodeRaw(line, count);
    j := NoCodeRawEnd(s, count);
  }

  lemma NoCodeRaw(line: string, count: nat) returns (raw: Fields)
    requires count == 2 || count == 3
    requires NoCodePattern(line, count).Some?
    ensures var s := WithoutBrackets(line);
      FirstSome(k => NoCodeName(s, count, k), 2, |s|) == Some(raw) && HasDosage(raw.name, NameDosageUnits)
  {
    var s := WithoutBrackets(line);
    raw := FirstSome(k => NoCodeName(s, count, k), 2, |s|).value;
  }

  lemma NoCodeRawEnd(s: string, count: nat) returns (j: nat)
    requires count == 2 || count == 3
    requires FirstSome(k => NoCodeName(s, count, k), 2, |s|).Some?
    ensures j <= |s| && FirstSome(k => NoCodeName(s, count, k), 2, |s|).value.name == s[..j]
  {
    var raw := FirstSome(k => NoCodeName(s, count, k), 2, |s|);
    j :| 2 <= j < |s| && NoCodeName(s, count, j) == raw;
  }

  /** A prefix of a string without brackets has none. */
  lemma UnbracketedPrefix(s: string, j: nat)
    requires j <= |s| && forall k :: 0 <= k < |s| ==> s[k] != '[' && s[k] != ']'
    ensures forall k :: 0 <= k < |s[..j]| ==> !IsBracket(s[..j][k])
  {
    forall k | 0 <= k < j
      ensures !IsBracket(s[..j][k])
    {
      assert s[..j][k] == s[k];
    }
  }

  lemma NameDosagePrefix(s: string, j: nat)
    requires j <= |s| && HasDosage(s[..j], NameDosageUnits)
    ensures HasDosage(s, NameDosageUnits)
  {
    NameUnitsNonEmpty();
    HasDosagePrefix(s, j, NameDosageUnits);
  }

  lemma NameUnitsNonEmpty()
    ensures forall k :: 0 <= k < |NameDosageUnits| ==> NameDosageUnits[k] != []
  {
  }
}

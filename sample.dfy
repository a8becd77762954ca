/** A worked line of a circulaire: a code, a name, three prices, a category and a
    margin, read by the whole pipeline of `_parse_medication_line`. */
module SampleLine {

  import opened Wrappers
  import opened Text
  import opened Prices
  import opened Tokens
  import opened Names
  import opened Patterns
  import opened Copies
  import opened MedLines
  import opened Acceptance

  const Line: string := "123456 SOMEDRUG 10,000 12,000 15,000 A 1,500"

  /** The line is the seven pieces one space apart. */
  lemma LineLayout()
    ensures Line == Laid("123456", "SOMEDRUG", "10,000", "12,000", "15,000", 'A', "1,500")
  {
    assert "123456" + " " + "SOMEDRUG" == "123456 SOMEDRUG";
    assert "123456 SOMEDRUG" + " " + "10,000" == "123456 SOMEDRUG 10,000";
    assert "123456 SOMEDRUG 10,000" + " " + "12,000" == "123456 SOMEDRUG 10,000 12,000";
    assert "123456 SOMEDRUG 10,000 12,000" + " " + "15,000" == "123456 SOMEDRUG 10,000 12,000 15,000";
    assert "123456 SOMEDRUG 10,000 12,000 15,000" + " " + ['A'] == "123456 SOMEDRUG 10,000 12,000 15,000 A";
    assert "123456 SOMEDRUG 10,000 12,000 15,000 A" + " " + "1,500" == Line;
  }

  lemma CodePiece()
    ensures IsCode("123456")
  {
  }

  lemma NamePiece()
    ensures PlainName("SOMEDRUG")
  {
    var n := "SOMEDRUG";
    assert forall k :: 0 <= k < |n| ==> !IsSpace(n[k]);
  }

  /** "10,000" is a price worth 10.000. */
  lemma FirstPrice()
    ensures IsPrice3Text("10,000") && TextValue("10,000") == Decimal(10000, 3)
  {
    var p := "10,000";
    assert SkipWhile(p, 0, IsDigit) == 2 by {
      assert SkipWhile(p, 2, IsDigit) == 2;
    }
    assert TokenDigits(p, TokenOf(0, p)) == "10000";
    assert DigitsValue("10000") == 10000 by {
      assert "10000"[..4] == "1000" && "1000"[..3] == "100" && "100"[..2] == "10" && "10"[..1] == "1";
    }
  }

  /** "12,000" is a price worth 12.000. */
  lemma SecondPrice()
    ensures IsPrice3Text("12,000") && TextValue("12,000") == Decimal(12000, 3)
  {
    var p := "12,000";
    assert SkipWhile(p, 0, IsDigit) == 2 by {
      assert SkipWhile(p, 2, IsDigit) == 2;
    }
    assert TokenDigits(p, TokenOf(0, p)) == "12000";
    assert DigitsValue("12000") == 12000 by {
      assert "12000"[..4] == "1200" && "1200"[..3] == "120" && "120"[..2] == "12" && "12"[..1] == "1";
    }
  }

  /** "15,000" is a price worth 15.000. */
  lemma ThirdPrice()
    ensures IsPrice3Text("15,000") && TextValue("15,000") == Decimal(15000, 3)
  {
    var p := "15,000";
    assert SkipWhile(p, 0, IsDigit) == 2 by {
      assert SkipWhile(p, 2, IsDigit) == 2;
    }
    assert TokenDigits(p, TokenOf(0, p)) == "15000";
    assert DigitsValue("15000") == 15000 by {
      assert "15000"[..4] == "1500" && "1500"[..3] == "150" && "150"[..2] == "15" && "15"[..1] == "1";
    }
  }

  /** "1,500" is a margin worth 1.500. */
  lemma MarginPiece()
    ensures IsMarginText("1,500") && TextValue("1,500") == Decimal(1500, 3)
  {
    var p := "1,500";
    assert SkipWhile(p, 0, IsDigit) == 1 by {
      assert SkipWhile(p, 1, IsDigit) == 1;
    }
    assert TokenDigits(p, TokenOf(0, p)) == "1500";
    assert DigitsValue("1500") == 1500 by {
      assert "1500"[..3] == "150" && "150"[..2] == "15" && "15"[..1] == "1";
    }
  }

  /** No character the cleaning touches: no whitespace, no bidirectional mark, no `|`. */
  predicate Solid(s: string)
  {
    forall k :: 0 <= k < |s| ==> !IsSpace(s[k]) && !IsBidiMark(s[k]) && s[k] != '|'
  }

  /** A string the cleaning leaves as it is. */
  predicate Clean(s: string)
  {
    SingleSpaced(s) && forall k :: 0 <= k < |s| ==> !IsBidiMark(s[k]) && s[k] != '|'
  }

  /** A solid word is clean. */
  lemma SolidClean(a: string)
    requires a != [] && Solid(a)
    ensures Clean(a)
  {
  }

  /** A clean string, one space and a solid word are clean. */
  lemma JoinClean(a: string, b: string)
    requires a != [] && Clean(a) && b != [] && Solid(b)
    ensures Clean(a + " " + b)
  {
    var s := a + " " + b;
    assert forall k :: 0 <= k < |a| ==> s[k] == a[k];
    assert s[|a|] == ' ';
    assert forall k :: |a| < k < |s| ==> s[k] == b[k - |a| - 1];
  }

  /** The pieces, one space apart. */
  function Laid(code: string, name: string, p1: string, p2: string, p3: string, cat: char, margin: string): string
  {
    code + " " + name + " " + p1 + " " + p2 + " " + p3 + " " + [cat] + " " + margin
  }

  /** Solid pieces, one space apart, make a line the cleaning leaves as it is. */
  lemma LaidIsClean(code: string, name: string, p1: string, p2: string, p3: string, cat: char, margin: string)
    requires code != [] && name != [] && p1 != [] && p2 != [] && p3 != [] && margin != []
    requires Solid(code) && Solid(name) && Solid(p1) && Solid(p2) && Solid(p3) && Solid([cat]) && Solid(margin)
    ensures Clean(Laid(code, name, p1, p2, p3, cat, margin))
  {
    SolidClean(code);
    var s1 := code + " " + name;
    JoinClean(code, name);
    var s2 := s1 + " " + p1;
    JoinClean(s1, p1);
    var s3 := s2 + " " + p2;
    JoinClean(s2, p2);
    var s4 := s3 + " " + p3;
    JoinClean(s3, p3);
    var s5 := s4 + " " + [cat];
    JoinClean(s4, [cat]);
    JoinClean(s5, margin);
  }

  /** The line is already clean: the cleaning leaves it as it is. */
  lemma LineIsClean(s: string)
    requires s == Laid("123456", "SOMEDRUG", "10,000", "12,000", "15,000", 'A', "1,500")
    ensures Strip(s) == s && CleanLine(s) == s
  {
    PiecesSolid();
    LaidIsClean("123456", "SOMEDRUG", "10,000", "12,000", "15,000", 'A', "1,500");
    CleanIsFixed(s);
  }

  lemma PiecesSolid()
    ensures Solid("123456") && Solid("SOMEDRUG") && Solid("10,000") && Solid("12,000")
    ensures Solid("15,000") && Solid(['A']) && Solid("1,500")
  {
    WordsSolid();
    PricesSolid();
  }

  lemma WordsSolid()
    ensures Solid("123456") && Solid("SOMEDRUG") && Solid(['A'])
  {
  }

  lemma PricesSolid()
    ensures Solid("10,000") && Solid("12,000") && Solid("15,000") && Solid("1,500")
  {
  }

  /** Stripping and cleaning leave a clean string as it is. */
  lemma CleanIsFixed(s: string)
    requires Clean(s)
    ensures Strip(s) == s && CleanLine(s) == s
  {
    StripUnpadded(s);
    CleanLineOfCleanLine(s);
  }

  /** Pattern 1 reads the code, the name, the three prices, the category and the margin. */
  lemma LineFields(s: string)
    requires s == Laid("123456", "SOMEDRUG", "10,000", "12,000", "15,000", 'A', "1,500")
    ensures Pattern1(s) == Some(Fields(Some("123456"), "SOMEDRUG", Decimal(10000, 3), Decimal(12000, 3),
      Some(Decimal(15000, 3)), Some('A'), Some(Decimal(1500, 3))))
  {
    CodePiece();
    NamePiece();
    FirstPrice();
    SecondPrice();
    ThirdPrice();
    MarginPiece();
    Pattern1Accepts("123456", "SOMEDRUG", "10,000", "12,000", "15,000", 'A', "1,500");
  }

  /** A clean line pattern 1 reads gives pattern 1's record, in every copy. */
  lemma FirstStageRecord(copy: Copy, lab: Option<string>, s: string, f: Fields)
    requires s != [] && Strip(s) == s && CleanLine(s) == s && Pattern1(s) == Some(f)
    ensures ParseMedicationLine(copy, s, lab) == Some(WithLaboratory(f, lab))
  {
    FirstStageRuns(s, f);
    FirstStageMatch(copy, s, f);
  }

  lemma FirstStageRuns(s: string, f: Fields)
    requires Pattern1(s) == Some(f)
    ensures RunStage(P1, s) == Some(f)
  {
  }

  lemma FirstStageMatch(copy: Copy, s: string, f: Fields)
    requires s != [] && Strip(s) == s && CleanLine(s) == s && RunStage(P1, s) == Some(f)
    ensures MatchLine(copy, s) == Some((P1, f))
  {
    FirstStageCascade(copy, s, f);
    CleanMatch(copy, s);
  }

  lemma FirstStageCascade(copy: Copy, s: string, f: Fields)
    requires RunStage(P1, s) == Some(f)
    ensures Cascade(Stages(copy), s) == Some((P1, f))
  {
    assert Stages(copy)[0] == P1;
    CascadeHead(Stages(copy), s);
  }

  /** A clean, non-blank line goes to the cascade as it is. */
  lemma CleanMatch(copy: Copy, s: string)
    requires s != [] && Strip(s) == s && CleanLine(s) == s
    ensures MatchLine(copy, s) == Cascade(Stages(copy), s)
  {
  }

  /** The cascade stops at its first stage when that stage reads the line. */
  lemma CascadeHead(stages: seq<Stage>, line: string)
    requires stages != [] && RunStage(stages[0], line).Some?
    ensures Cascade(stages, line) == Some((stages[0], RunStage(stages[0], line).value))
  {
  }

  /** In every copy the line gives the record with code 123456, prices 10.000, 12.000
      and 15.000, category A and margin 1.500, under the laboratory in force. */
  lemma SampleRecord(copy: Copy, lab: Option<string>)
    ensures ParseMedicationLine(copy, Line, lab)
      == Some(Medication(Some("123456"), "SOMEDRUG", lab, Decimal(10000, 3), Decimal(12000, 3),
                         Some(Decimal(15000, 3)), Some('A'), Some(Decimal(1500, 3))))
  {
    LineLayout();
    LineIsClean(Line);
    LineFields(Line);
    FirstStageRecord(copy, lab, Line, Fields(Some("123456"), "SOMEDRUG", Decimal(10000, 3), Decimal(12000, 3),
      Some(Decimal(15000, 3)), Some('A'), Some(Decimal(1500, 3))));
  }
}

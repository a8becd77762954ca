/** The scan of a section body (`_parse_medications_from_section`, the same in the three
    copies up to the sale-price estimate): lines are stripped and blank ones skipped,
    laboratory lines are gathered into a pending name that may run over several lines,
    and every other line is parsed as a medication under the laboratory named last. */
module Scanner {

  import opened Wrappers
  import opened Text
  import opened Prices
  import opened Copies
  import opened Segmenter
  import opened LabLines
  import opened MedLines

  /** A medication as the scan emits it: the parsed record, the labels of its section,
      and whether its public price was estimated (`price_public_calculated`). */
  datatype Record = Record(med: Medication, kind: Kind, specialty: Specialty, origin: Origin, calculated: bool)

  /** What the scan works under: the copy, the rounding of `round(x, 3)`, the section,
      and the copy's laboratory-line classifier and medication-line parser as values
      (`ContextFor` supplies the real ones). */
  datatype Context = Context(
    copy: Copy,
    mode: RoundingMode,
    section: Section,
    isLab: string -> bool,
    parse: (string, Option<string>) -> Option<Medication>)

  /** The context of a copy's scan: `_is_laboratory_line` and `_parse_medication_line`. */
  function ContextFor(copy: Copy, mode: RoundingMode, section: Section): (ctx: Context)
    ensures ctx.copy == copy && ctx.mode == mode && ctx.section == section
  {
    Context(copy, mode, section, IsLaboratoryLine, (line, lab) => ParseMedicationLine(copy, line, lab))
  }

  /** What the scan needs of the parser: a record carries the laboratory it was given,
      and the add-on's records come with a code and a public price. */
  ghost predicate ParserContract(ctx: Context)
  {
    forall line, lab :: RecordContract(ctx, line, lab)
  }

  ghost predicate RecordContract(ctx: Context, line: string, lab: Option<string>)
  {
    var r := ctx.parse(line, lab);
    r.Some? ==> r.value.laboratory == lab && (ctx.copy == Addon ==> r.value.code.Some? && r.value.public.Some?)
  }

  /** The copy's own parser meets the contract. */
  lemma ContextForContract(copy: Copy, mode: RoundingMode, section: Section)
    ensures ParserContract(ContextFor(copy, mode, section))
  {
    var ctx := ContextFor(copy, mode, section);
    forall line, lab ensures RecordContract(ctx, line, lab) {
      ContextForParse(copy, mode, section, line, lab);
    }
  }

  lemma ContextForParse(copy: Copy, mode: RoundingMode, section: Section, line: string, lab: Option<string>)
    ensures RecordContract(ContextFor(copy, mode, section), line, lab)
  {
    var r := ParseMedicationLine(copy, line, lab);
    assert ContextFor(copy, mode, section).parse(line, lab) == r;
    if copy == Addon {
      AddonRecordsHaveCodeAndPublicPrice(line, lab);
    }
  }

  /** The scan's variables: `current_lab`, `pending_lab_lines` and the records so far. */
  datatype ScanState = ScanState(current: Option<string>, pending: seq<string>, records: seq<Record>)

  const Start: ScanState := ScanState(None, [], [])

  // ---------------------------------------------------------------------------
  // One line
  // ---------------------------------------------------------------------------

  /** The laboratory a medication line is parsed under: the pending name if there is
      one, since the line first finalises it, else the current one. */
  function EffectiveLab(st: ScanState): Option<string>
  {
    if st.pending != [] then Some(Join(" ", st.pending)) else st.current
  }

  /** A laboratory line continues the pending name when there is one and it ends with
      `AND` or `&`, or when the new line is in capitals and has at most three words. */
  predicate Continues(pending: seq<string>, clean: string)
  {
    && pending != []
    && (|| EndsWith(RStrip(pending[|pending| - 1]), "AND")
        || EndsWith(RStrip(pending[|pending| - 1]), "&")
        || (IsUpperPy(clean) && |Words(clean)| <= 3))
  }

  /** A laboratory line either joins the pending name or starts a new one, finalising
      the previous pending name. */
  function LabStep(st: ScanState, clean: string): (r: ScanState)
    ensures r.records == st.records
    ensures r.pending != [] && r.pending[|r.pending| - 1] == clean
    ensures Continues(st.pending, clean) ==> r.pending == st.pending + [clean] && r.current == st.current
    ensures !Continues(st.pending, clean) ==> r.pending == [clean] && r.current == EffectiveLab(st)
  {
    if Continues(st.pending, clean) then st.(pending := st.pending + [clean])
    else ScanState(EffectiveLab(st), [clean], st.records)
  }

  /** The public-price estimate of the copy: the inline chain in the standalone script,
      `_calculate_sale_price` in the other two. */
  function Estimate(copy: Copy, mode: RoundingMode, pharmacy: Decimal): Decimal
  {
    if copy == Standalone then InlineSalePrice(pharmacy, mode) else SalePrice(pharmacy, mode)
  }

  /** The three copies give every pharmacy price the same estimate. */
  lemma EstimateAgrees(copy: Copy, mode: RoundingMode, pharmacy: Decimal)
    ensures Estimate(copy, mode, pharmacy) == SalePrice(pharmacy, mode)
  {
    InlineSalePriceAgrees(pharmacy, mode);
  }

  /** A parsed medication labelled with its section, its missing public price estimated
      when the pharmacy price is not zero. */
  function MakeRecord(ctx: Context, m: Medication): (r: Record)
    ensures r.kind == ctx.section.Kind() && r.specialty == ctx.section.Specialty() && r.origin == ctx.section.Origin()
    ensures r.calculated <==> m.public.None? && IsNonZero(m.pharmacy)
    ensures r.calculated ==> r.med == m.(public := Some(Estimate(ctx.copy, ctx.mode, m.pharmacy)))
    ensures !r.calculated ==> r.med == m
  {
    var calculated := m.public.None? && IsNonZero(m.pharmacy);
    var med := if calculated then m.(public := Some(Estimate(ctx.copy, ctx.mode, m.pharmacy))) else m;
    Record(med, ctx.section.Kind(), ctx.section.Specialty(), ctx.section.Origin(), calculated)
  }

  /** A line that is not a laboratory line: the pending name is finalised, then the line
      is parsed under it. */
  function MedicationStep(ctx: Context, st: ScanState, line: string): (r: ScanState)
    ensures r.pending == [] && r.current == EffectiveLab(st)
    ensures ctx.parse(line, EffectiveLab(st)).None? ==> r.records == st.records
    ensures ctx.parse(line, EffectiveLab(st)).Some? ==>
      r.records == st.records + [MakeRecord(ctx, ctx.parse(line, EffectiveLab(st)).value)]
  {
    var lab := EffectiveLab(st);
    match ctx.parse(line, lab)
    case Some(m) => ScanState(lab, [], st.records + [MakeRecord(ctx, m)])
    case None => ScanState(lab, [], st.records)
  }

  /** `clean_line`: the stripped line without bidirectional marks, stripped again. */
  function CleanText(line: string): string
  {
    Strip(RemoveBidi(line))
  }

  /** One iteration of the loop: a blank line changes nothing, a laboratory line adds
      no record, and any other line adds at most one, parsed under the effective
      laboratory. */
  function Step(ctx: Context, st: ScanState, raw: string): (r: ScanState)
    ensures Strip(raw) == [] ==> r == st
    ensures Strip(raw) != [] && ctx.isLab(CleanText(Strip(raw))) ==> r == LabStep(st, CleanText(Strip(raw)))
    ensures |st.records| <= |r.records| <= |st.records| + 1 && r.records[..|st.records|] == st.records
    ensures |r.records| == |st.records| + 1 ==>
      && !ctx.isLab(CleanText(Strip(raw)))
      && ctx.parse(Strip(raw), EffectiveLab(st)).Some?
      && r.records[|st.records|] == MakeRecord(ctx, ctx.parse(Strip(raw), EffectiveLab(st)).value)
  {
    var line := Strip(raw);
    if line == [] then st
    else if ctx.isLab(CleanText(line)) then LabStep(st, CleanText(line))
    else
      MedicationStepGrows(ctx, st, line);
      MedicationStep(ctx, st, line)
  }

  /** A medication line keeps the records so far and adds at most its own. */
  lemma MedicationStepGrows(ctx: Context, st: ScanState, line: string)
    ensures var r := MedicationStep(ctx, st, line);
      && |st.records| <= |r.records| <= |st.records| + 1 && r.records[..|st.records|] == st.records
      && (|r.records| == |st.records| + 1 ==>
            && ctx.parse(line, EffectiveLab(st)).Some?
            && r.records[|st.records|] == MakeRecord(ctx, ctx.parse(line, EffectiveLab(st)).value))
  {
    var r := MedicationStep(ctx, st, line);
    assert r.records[..|st.records|] == st.records;
  }

  /** The loop over the first lines, as a fold. */
  function ScanLines(ctx: Context, lines: seq<string>): ScanState
    decreases |lines|
  {
    if lines == [] then Start
    else Step(ctx, ScanLines(ctx, lines[..|lines| - 1]), lines[|lines| - 1])
  }

  lemma ScanLinesNext(ctx: Context, lines: seq<string>, i: nat)
    requires i < |lines|
    ensures ScanLines(ctx, lines[..i + 1]) == Step(ctx, ScanLines(ctx, lines[..i]), lines[i])
  {
    assert lines[..i + 1][..i] == lines[..i];
  }

  /** The medications of a section body. */
  function SectionMedications(ctx: Context, text: string): seq<Record>
  {
    ScanLines(ctx, SplitOn(text, '\n')).records
  }

  // ---------------------------------------------------------------------------
  // The loop
  // ---------------------------------------------------------------------------

  /** `_parse_medications_from_section`. */
  method ParseMedicationsFromSection(ctx: Context, text: string) returns (medications: seq<Record>)
    ensures medications == SectionMedications(ctx, text)
  {
    var lines := SplitOn(text, '\n');
    var current: Option<string> := None;
    var pending: seq<string> := [];
    medications := [];
    var i := 0;
    while i < |lines|
      invariant 0 <= i <= |lines|
      invariant ScanState(current, pending, medications) == ScanLines(ctx, lines[..i])
    {
      ScanLinesNext(ctx, lines, i);
      current, pending, medications := ScanLine(ctx, current, pending, medications, lines[i]);
      i := i + 1;
    }
    assert lines[..i] == lines;
    if ctx.copy == Standalone && pending != [] {
      // The standalone script finalises the last pending name after the loop; nothing reads it.
      current := Some(Join(" ", pending));
    }
  }

  /** The body of the loop, on the scan's three variables. */
  method ScanLine(ctx: Context, current: Option<string>, pending: seq<string>, medications: seq<Record>, raw: string)
    returns (current': Option<string>, pending': seq<string>, medications': seq<Record>)
    ensures ScanState(current', pending', medications') == Step(ctx, ScanState(current, pending, medications), raw)
  {
    ghost var before := ScanState(current, pending, medications);
    current', pending', medications' := current, pending, medications;
    var line := Strip(raw);
    if line != [] {
      var clean := CleanText(line);
      if ctx.isLab(clean) {
        if pending' != [] && (EndsWith(RStrip(pending'[|pending'| - 1]), "AND")
                              || EndsWith(RStrip(pending'[|pending'| - 1]), "&")
                              || (IsUpperPy(clean) && |Words(clean)| <= 3)) {
          pending' := pending' + [clean];
        } else {
          if pending' != [] {
            current' := Some(Join(" ", pending'));
          }
          pending' := [clean];
        }
        assert ScanState(current', pending', medications') == LabStep(before, clean);
      } else {
        if pending' != [] {
          current' := Some(Join(" ", pending'));
          pending' := [];
        }
        assert current' == EffectiveLab(before);
        var med := ctx.parse(line, current');
        if med.Some? {
          medications' := medications' + [MakeRecord(ctx, med.value)];
        }
        assert ScanState(current', pending', medications') == MedicationStep(ctx, before, line);
      }
    }
  }

  // ---------------------------------------------------------------------------
  // What the scan guarantees
  // ---------------------------------------------------------------------------

  /** A laboratory name the scan can hold: none yet, or one or more laboratory lines
      joined by spaces. */
  ghost predicate IsLabName(ctx: Context, lab: Option<string>)
  {
    lab.None? || exists ps :: JoinedLabLines(ctx, ps, lab.value)
  }

  ghost predicate JoinedLabLines(ctx: Context, ps: seq<string>, name: string)
  {
    ps != [] && (forall k :: 0 <= k < |ps| ==> ctx.isLab(ps[k])) && name == Join(" ", ps)
  }

  /** What every emitted record satisfies: it carries its section's labels and a
      laboratory name the scan assembled; its public price is present unless the
      pharmacy price is zero, and is the copy's estimate exactly when it was missing;
      the add-on emits only coded records that had their own public price. */
  ghost predicate RecordOk(ctx: Context, r: Record)
  {
    && r.kind == ctx.section.Kind() && r.specialty == ctx.section.Specialty() && r.origin == ctx.section.Origin()
    && IsLabName(ctx, r.med.laboratory)
    && (r.med.public.Some? || !IsNonZero(r.med.pharmacy))
    && (r.calculated ==> r.med.public == Some(Estimate(ctx.copy, ctx.mode, r.med.pharmacy)))
    && (ctx.copy == Addon ==> !r.calculated && r.med.code.Some?)
  }

  ghost predicate StateOk(ctx: Context, st: ScanState)
  {
    && (forall k :: 0 <= k < |st.pending| ==> ctx.isLab(st.pending[k]))
    && IsLabName(ctx, st.current)
    && forall k :: 0 <= k < |st.records| ==> RecordOk(ctx, st.records[k])
  }

  lemma EffectiveLabIsLabName(ctx: Context, st: ScanState)
    requires forall k :: 0 <= k < |st.pending| ==> ctx.isLab(st.pending[k])
    requires IsLabName(ctx, st.current)
    ensures IsLabName(ctx, EffectiveLab(st))
  {
    if st.pending != [] {
      assert JoinedLabLines(ctx, st.pending, EffectiveLab(st).value);
    }
  }

  lemma StepKeepsStateOk(ctx: Context, st: ScanState, raw: string)
    requires ParserContract(ctx) && StateOk(ctx, st)
    ensures StateOk(ctx, Step(ctx, st, raw))
  {
    var line := Strip(raw);
    if line != [] {
      if ctx.isLab(CleanText(line)) {
        LabStepKeepsStateOk(ctx, st, CleanText(line));
      } else {
        MedicationStepKeepsStateOk(ctx, st, line);
      }
    }
  }

  lemma LabStepKeepsStateOk(ctx: Context, st: ScanState, clean: string)
    requires StateOk(ctx, st) && ctx.isLab(clean)
    ensures StateOk(ctx, LabStep(st, clean))
  {
    EffectiveLabIsLabName(ctx, st);
  }

  lemma MedicationStepKeepsStateOk(ctx: Context, st: ScanState, line: string)
    requires ParserContract(ctx) && StateOk(ctx, st)
    ensures StateOk(ctx, MedicationStep(ctx, st, line))
  {
    var lab := EffectiveLab(st);
    var r := MedicationStep(ctx, st, line);
    EffectiveLabIsLabName(ctx, st);
    assert RecordContract(ctx, line, lab);
    match ctx.parse(line, lab)
    case Some(m) =>
      MakeRecordOk(ctx, m, lab);
      AppendKeepsRecordsOk(ctx, st.records, r.records);
    case None =>
  }

  lemma MakeRecordOk(ctx: Context, m: Medication, lab: Option<string>)
    requires IsLabName(ctx, lab) && m.laboratory == lab
    requires ctx.copy == Addon ==> m.code.Some? && m.public.Some?
    ensures RecordOk(ctx, MakeRecord(ctx, m))
  {
  }

  lemma AppendKeepsRecordsOk(ctx: Context, rs: seq<Record>, rs': seq<Record>)
    requires forall k :: 0 <= k < |rs| ==> RecordOk(ctx, rs[k])
    requires |rs'| == |rs| + 1 && rs'[..|rs|] == rs && RecordOk(ctx, rs'[|rs|])
    ensures forall k :: 0 <= k < |rs'| ==> RecordOk(ctx, rs'[k])
  {
    forall k | 0 <= k < |rs| ensures RecordOk(ctx, rs'[k]) {
      assert rs'[k] == rs'[..|rs|][k];
    }
  }

  /** The scan's invariant: every state it passes through satisfies `StateOk`, and it
      emits at most one record per line. */
  lemma {:induction false} ScanLinesOk(ctx: Context, lines: seq<string>)
    requires ParserContract(ctx)
    ensures StateOk(ctx, ScanLines(ctx, lines))
    ensures |ScanLines(ctx, lines).records| <= |lines|
    decreases |lines|
  {
    if lines != [] {
      var init := lines[..|lines| - 1];
      ScanLinesOk(ctx, init);
      StepKeepsStateOk(ctx, ScanLines(ctx, init), lines[|lines| - 1]);
    }
  }

  /** Every record of a section body satisfies `RecordOk`. */
  lemma SectionRecordsOk(ctx: Context, text: string)
    requires ParserContract(ctx)
    ensures forall k :: 0 <= k < |SectionMedications(ctx, text)| ==> RecordOk(ctx, SectionMedications(ctx, text)[k])
    ensures |SectionMedications(ctx, text)| <= |SplitOn(text, '\n')|
  {
    ScanLinesOk(ctx, SplitOn(text, '\n'));
  }

  /** Records are only ever appended: the records after the first `i` lines are a prefix
      of the records after all of them. */
  lemma {:induction false} ScanRecordsGrow(ctx: Context, lines: seq<string>, i: nat)
    requires i <= |lines|
    ensures ScanLines(ctx, lines[..i]).records <= ScanLines(ctx, lines).records
    decreases |lines| - i
  {
    if i < |lines| {
      ScanLinesNext(ctx, lines, i);
      StepRecordsGrow(ctx, ScanLines(ctx, lines[..i]), lines[i]);
      ScanRecordsGrow(ctx, lines, i + 1);
    } else {
      assert lines[..i] == lines;
    }
  }

  lemma StepRecordsGrow(ctx: Context, st: ScanState, raw: string)
    ensures st.records <= Step(ctx, st, raw).records
  {
    var r := Step(ctx, st, raw);
    assert r.records[..|st.records|] == st.records;
  }
}

/** A whole circulaire: `parse` (service), `parse_circulaire` (standalone) and
    `_parse_circulaire_text` (add-on) cut the text into section bodies and scan each;
    `_create_simplified` then groups the medications by laboratory. The heading and
    break matches of the regular expressions are inputs. */
module Circulaire {

  import opened Wrappers
  import opened Text
  import opened Prices
  import opened Copies
  import opened Sorting
  import opened Segmenter
  import opened MedLines
  import opened Scanner
  import opened Header

  /** The text and the matches the regular expressions find in it: per category key the
      spans of each heading pattern, and the spans of each break pattern. */
  datatype Document = Document(text: string, headings: HeadingMatches, breakMatches: seq<seq<Span>>)

  /** An entry of `sections_found`. */
  datatype SectionSummary = SectionSummary(kind: Kind, specialty: Specialty, origin: Origin, count: nat)

  /** The result dictionary. */
  datatype Parsed = Parsed(
    filename: Option<string>,
    date: Option<string>,
    number: Option<string>,
    medications: seq<Record>,
    sectionsFound: seq<SectionSummary>)

  // ---------------------------------------------------------------------------
  // Parsing
  // ---------------------------------------------------------------------------

  /** Python's `text[a:b]` for non-negative bounds: both clamped to the text, empty when
      they cross. */
  function Slice(text: string, a: nat, b: nat): (r: string)
    ensures a <= b <= |text| ==> r == text[a..b]
    ensures |r| <= |text|
  {
    var lo := if a < |text| then a else |text|;
    var hi := if b < |text| then b else |text|;
    if lo <= hi then text[lo..hi] else []
  }

  /** The service and the add-on skip veterinary sections; the standalone script parses them. */
  predicate Skipped(copy: Copy, section: Section)
  {
    copy != Standalone && section.Specialty() == Veterinary
  }

  /** Where the body of section `i` ends: at the copy's bound, cut by the first break
      strictly inside the span. */
  function BodyEnd(copy: Copy, sections: seq<Section>, breaks: seq<nat>, i: nat, textLength: nat): nat
    requires i < |sections|
  {
    var bound := if copy == Addon then AddonBound(sections, i, textLength) else Bound(sections, i, textLength);
    FirstBreakWithin(breaks, sections[i].end, bound)
  }

  function Summary(section: Section, count: nat): SectionSummary
  {
    SectionSummary(section.Kind(), section.Specialty(), section.Origin(), count)
  }

  /** The copy's scanning context for each section. */
  function ContextsFor(copy: Copy, mode: RoundingMode): Section -> Context
  {
    section => ContextFor(copy, mode, section)
  }

  /** The scan of a section body, as the copy runs it. */
  function ScanFor(copy: Copy, mode: RoundingMode): (Section, string) -> seq<Record>
  {
    (section, body) => SectionMedications(ContextFor(copy, mode, section), body)
  }

  /** `scan` gives what the scanner gives in the context `contexts` gives a section. The
      quantifier is instantiated only where a proof names an instance. */
  ghost predicate ScanAgrees(contexts: Section -> Context, scan: (Section, string) -> seq<Record>)
  {
    forall section, body {:trigger AgreesAt(contexts, scan, section, body)} :: AgreesAt(contexts, scan, section, body)
  }

  ghost predicate AgreesAt(contexts: Section -> Context, scan: (Section, string) -> seq<Record>, section: Section, body: string)
  {
    scan(section, body) == SectionMedications(contexts(section), body)
  }

  /** The copy's contexts and its scan agree. */
  lemma ContextsForAgree(copy: Copy, mode: RoundingMode)
    ensures ScanAgrees(ContextsFor(copy, mode), ScanFor(copy, mode))
  {
    forall section, body ensures AgreesAt(ContextsFor(copy, mode), ScanFor(copy, mode), section, body) {
      assert ContextsFor(copy, mode)(section) == ContextFor(copy, mode, section);
    }
  }

  /** The medications and summaries of the first `n` sections, each body scanned by `scan`. */
  function ParseUpTo(copy: Copy, scan: (Section, string) -> seq<Record>, text: string, sections: seq<Section>, breaks: seq<nat>, n: nat)
    : (seq<Record>, seq<SectionSummary>)
    requires n <= |sections|
  {
    if n == 0 then ([], [])
    else
      var (meds, found) := ParseUpTo(copy, scan, text, sections, breaks, n - 1);
      var section := sections[n - 1];
      if Skipped(copy, section) then (meds, found)
      else
        var ms := scan(section, Slice(text, section.end, BodyEnd(copy, sections, breaks, n - 1, |text|)));
        (meds + ms, found + [Summary(section, |ms|)])
  }

  /** One more section: a skipped one changes nothing. */
  lemma ParseUpToSkip(copy: Copy, scan: (Section, string) -> seq<Record>, text: string, sections: seq<Section>, breaks: seq<nat>, i: nat)
    requires i < |sections| && Skipped(copy, sections[i])
    ensures ParseUpTo(copy, scan, text, sections, breaks, i + 1) == ParseUpTo(copy, scan, text, sections, breaks, i)
  {
  }

  /** One more section: a parsed one appends its records `ms` and its summary. */
  lemma ParseUpToNext(copy: Copy, scan: (Section, string) -> seq<Record>, text: string, sections: seq<Section>, breaks: seq<nat>, i: nat,
                      medications: seq<Record>, found: seq<SectionSummary>, ms: seq<Record>)
    requires i < |sections| && !Skipped(copy, sections[i])
    requires (medications, found) == ParseUpTo(copy, scan, text, sections, breaks, i)
    requires ms == scan(sections[i], Slice(text, sections[i].end, BodyEnd(copy, sections, breaks, i, |text|)))
    ensures (medications + ms, found + [Summary(sections[i], |ms|)]) == ParseUpTo(copy, scan, text, sections, breaks, i + 1)
  {
  }

  /** What parsing a document gives. */
  function ParseDocument(copy: Copy, mode: RoundingMode, doc: Document, filename: Option<string>): Parsed
  {
    var sections := CategorySections(doc.headings);
    var breaks := SortBy(BreakStarts(doc.breakMatches), Id);
    var (meds, found) := ParseUpTo(copy, ScanFor(copy, mode), doc.text, sections, breaks, |sections|);
    Parsed(filename, ExtractDate(doc.text), ExtractCirculaireNumber(doc.text), meds, found)
  }

  /** `parse`, `parse_circulaire` and `_parse_circulaire_text`. */
  method Parse(copy: Copy, mode: RoundingMode, doc: Document, filename: Option<string>) returns (result: Parsed)
    ensures result == ParseDocument(copy, mode, doc, filename)
  {
    var sections := FindCategorySections(doc.headings);
    var breaks := FindSectionBreaks(doc.breakMatches);
    ContextsForAgree(copy, mode);
    var medications, found := ParseSections(copy, ContextsFor(copy, mode), ScanFor(copy, mode), doc.text, sections, breaks);
    result := Parsed(filename, ExtractDate(doc.text), ExtractCirculaireNumber(doc.text), medications, found);
  }

  /** The loop over the sections: skip a veterinary one where the copy does, else cut
      its body at the first break and scan it. */
  method ParseSections(copy: Copy, contexts: Section -> Context, ghost scan: (Section, string) -> seq<Record>,
                       text: string, sections: seq<Section>, breaks: seq<nat>)
    returns (medications: seq<Record>, found: seq<SectionSummary>)
    requires ScanAgrees(contexts, scan)
    ensures (medications, found) == ParseUpTo(copy, scan, text, sections, breaks, |sections|)
  {
    medications := [];
    found := [];
    var i := 0;
    while i < |sections|
      invariant 0 <= i <= |sections|
      invariant (medications, found) == ParseUpTo(copy, scan, text, sections, breaks, i)
    {
      var section := sections[i];
      if copy != Standalone && section.Specialty() == Veterinary {
        ParseUpToSkip(copy, scan, text, sections, breaks, i);
      } else {
        var meds := ParseSection(copy, contexts, scan, text, sections, breaks, i);
        ParseUpToNext(copy, scan, text, sections, breaks, i, medications, found, meds);
        found := found + [Summary(section, |meds|)];
        medications := medications + meds;
      }
      i := i + 1;
    }
  }

  /** One section's body, cut at the copy's bound or the first break, and scanned. */
  method ParseSection(copy: Copy, contexts: Section -> Context, ghost scan: (Section, string) -> seq<Record>,
                      text: string, sections: seq<Section>, breaks: seq<nat>, i: nat)
    returns (meds: seq<Record>)
    requires i < |sections| && ScanAgrees(contexts, scan)
    ensures meds == scan(sections[i], Slice(text, sections[i].end, BodyEnd(copy, sections, breaks, i, |text|)))
  {
    var section := sections[i];
    var bound := if copy == Addon then AddonBound(sections, i, |text|) else Bound(sections, i, |text|);
    var sectionEnd := SectionEnd(breaks, section.end, bound);
    var body := Slice(text, section.end, sectionEnd);
    meds := ParseMedicationsFromSection(contexts(section), body);
    assert AgreesAt(contexts, scan, section, body);
  }

  // ---------------------------------------------------------------------------
  // What parsing guarantees
  // ---------------------------------------------------------------------------

  /** The sum of `medications_count`. */
  function TotalCount(found: seq<SectionSummary>): nat
  {
    if found == [] then 0 else TotalCount(found[..|found| - 1]) + found[|found| - 1].count
  }

  /** What every parsed record satisfies whatever its section: a public price unless the
      pharmacy price is zero; no estimate and always a code in the add-on; only human
      sections in the copies that skip veterinary ones. */
  predicate ParsedRecordOk(copy: Copy, r: Record)
  {
    && (r.med.public.Some? || !IsNonZero(r.med.pharmacy))
    && (copy == Addon ==> !r.calculated && r.med.code.Some?)
    && (copy != Standalone ==> r.specialty == Human)
  }

  /** What the parse needs of the scan: the records of a section it does not skip are `ParsedRecordOk`. */
  ghost predicate ScanContract(copy: Copy, scan: (Section, string) -> seq<Record>)
  {
    forall section, body :: !Skipped(copy, section) ==> SectionScanOk(copy, scan(section, body))
  }

  ghost predicate SectionScanOk(copy: Copy, ms: seq<Record>)
  {
    forall k :: 0 <= k < |ms| ==> ParsedRecordOk(copy, ms[k])
  }

  /** The copy's own scan meets the contract. */
  lemma ScanForContract(copy: Copy, mode: RoundingMode)
    ensures ScanContract(copy, ScanFor(copy, mode))
  {
    forall section, body | !Skipped(copy, section) ensures SectionScanOk(copy, ScanFor(copy, mode)(section, body)) {
      SectionRecordsParsedOk(copy, mode, section, body);
    }
  }

  lemma SectionRecordsParsedOk(copy: Copy, mode: RoundingMode, section: Section, body: string)
    requires !Skipped(copy, section)
    ensures SectionScanOk(copy, ScanFor(copy, mode)(section, body))
  {
    var ctx := ContextFor(copy, mode, section);
    ContextForContract(copy, mode, section);
    SectionRecordsOk(ctx, body);
    assert ScanFor(copy, mode)(section, body) == SectionMedications(ctx, body);
  }

  /** The parse loop's invariant: the counts add up to the medications, every record is
      `ParsedRecordOk`, the skipping copies report only human sections, and the
      standalone script reports every section. */
  ghost predicate ParseOk(copy: Copy, meds: seq<Record>, found: seq<SectionSummary>, n: nat)
  {
    && TotalCount(found) == |meds|
    && SectionScanOk(copy, meds)
    && (copy != Standalone ==> forall k :: 0 <= k < |found| ==> found[k].specialty == Human)
    && (copy == Standalone ==> |found| == n)
    && |found| <= n
  }

  lemma {:induction false} ParseUpToOk(copy: Copy, scan: (Section, string) -> seq<Record>, text: string, sections: seq<Section>, breaks: seq<nat>, n: nat)
    requires n <= |sections| && ScanContract(copy, scan)
    ensures ParseOk(copy, ParseUpTo(copy, scan, text, sections, breaks, n).0, ParseUpTo(copy, scan, text, sections, breaks, n).1, n)
  {
    if n > 0 {
      ParseUpToOk(copy, scan, text, sections, breaks, n - 1);
      var prev := ParseUpTo(copy, scan, text, sections, breaks, n - 1);
      var section := sections[n - 1];
      if !Skipped(copy, section) {
        var ms := scan(section, Slice(text, section.end, BodyEnd(copy, sections, breaks, n - 1, |text|)));
        assert SectionScanOk(copy, ms);
        ParseStepOk(copy, prev.0, prev.1, n - 1, section, ms);
      }
    }
  }

  /** One parsed section keeps the invariant. */
  lemma ParseStepOk(copy: Copy, meds: seq<Record>, found: seq<SectionSummary>, n: nat, section: Section, ms: seq<Record>)
    requires ParseOk(copy, meds, found, n) && SectionScanOk(copy, ms) && !Skipped(copy, section)
    ensures ParseOk(copy, meds + ms, found + [Summary(section, |ms|)], n + 1)
  {
    var found' := found + [Summary(section, |ms|)];
    assert found'[..|found'| - 1] == found;
    AppendRecordsOk(copy, meds, ms);
  }

  lemma AppendRecordsOk(copy: Copy, a: seq<Record>, b: seq<Record>)
    requires SectionScanOk(copy, a) && SectionScanOk(copy, b)
    ensures SectionScanOk(copy, a + b)
  {
    forall k | 0 <= k < |a + b| ensures ParsedRecordOk(copy, (a + b)[k]) {
      if k < |a| {
        assert (a + b)[k] == a[k];
      } else {
        assert (a + b)[k] == b[k - |a|];
      }
    }
  }

  /** For a whole document: the counts of `sections_found` add up to the medications,
      the skipping copies report no veterinary section, the standalone script reports
      every section found, and the add-on never estimates a price. */
  lemma ParseDocumentOk(copy: Copy, mode: RoundingMode, doc: Document, filename: Option<string>)
    ensures var p := ParseDocument(copy, mode, doc, filename);
      ParseOk(copy, p.medications, p.sectionsFound, |CategorySections(doc.headings)|)
  {
    var sections := CategorySections(doc.headings);
    var breaks := SortBy(BreakStarts(doc.breakMatches), Id);
    ScanForContract(copy, mode);
    ParseUpToOk(copy, ScanFor(copy, mode), doc.text, sections, breaks, |sections|);
  }
}

/** The section segmenter (`_find_category_sections`, `_find_section_breaks` and the
    body-span arithmetic of `parse`). Category headings and section breaks are found
    by regular expressions over Arabic, reversed-Arabic and French literals; their
    matches are the input here, one list of (start, end) spans per pattern, in the
    order the catalogues list the patterns. */
module Segmenter {

  import opened Text
  import opened Sorting

  /** The keys of `CATEGORY_PATTERNS`. */
  datatype CategoryKey =
    | NewLocalHuman | NewImportedHuman | NewVeterinary
    | RevisedLocalHuman | RevisedImportedHuman | RevisedVeterinary

  /** The dictionary's key order, which is the order the candidates are pooled in. */
  const CategoryOrder: seq<CategoryKey> :=
    [NewLocalHuman, NewImportedHuman, NewVeterinary, RevisedLocalHuman, RevisedImportedHuman, RevisedVeterinary]

  function KeyName(k: CategoryKey): string
  {
    match k
    case NewLocalHuman => "new_local_human"
    case NewImportedHuman => "new_imported_human"
    case NewVeterinary => "new_veterinary"
    case RevisedLocalHuman => "revised_local_human"
    case RevisedImportedHuman => "revised_imported_human"
    case RevisedVeterinary => "revised_veterinary"
  }

  datatype Kind = New | Revised
  datatype Specialty = Human | Veterinary
  datatype Origin = Local | Imported

  /** The three labels, read off the key's name by substring tests as the parser does. */
  function KindOf(k: CategoryKey): Kind { if Contains(KeyName(k), "new") then New else Revised }

  function SpecialtyOf(k: CategoryKey): Specialty { if Contains(KeyName(k), "veterinary") then Veterinary else Human }

  function OriginOf(k: CategoryKey): Origin { if Contains(KeyName(k), "local") then Local else Imported }

  // The substring tests, key by key: a key containing the word has it where its name
  // puts it; a key without it lacks one of its letters ('w' of "new", 'y' of
  // "veterinary", 'c' of "local").

  /** The three `new_` keys are new, the three `revised_` keys revised. */
  lemma KindLabels(k: CategoryKey)
    ensures KindOf(k) == New <==> k.NewLocalHuman? || k.NewImportedHuman? || k.NewVeterinary?
  {
    if k.NewLocalHuman? || k.NewImportedHuman? || k.NewVeterinary? {
      ContainsAt(KeyName(k), 0, "new");
    } else {
      NotContainsMissingChar(KeyName(k), "new", 2);
    }
  }

  /** Exactly the two veterinary keys are veterinary. */
  lemma SpecialtyLabels(k: CategoryKey)
    ensures SpecialtyOf(k) == Veterinary <==> k.NewVeterinary? || k.RevisedVeterinary?
  {
    if k.NewVeterinary? || k.RevisedVeterinary? {
      VeterinaryKeysAreVeterinary(k);
    } else {
      NotContainsMissingChar(KeyName(k), "veterinary", 9);
    }
  }

  lemma VeterinaryKeysAreVeterinary(k: CategoryKey)
    requires k.NewVeterinary? || k.RevisedVeterinary?
    ensures Contains(KeyName(k), "veterinary")
  {
    if k.NewVeterinary? {
      assert KeyName(k)[4..14] == "veterinary";
      ContainsAt(KeyName(k), 4, "veterinary");
    } else {
      assert KeyName(k)[8..18] == "veterinary";
      ContainsAt(KeyName(k), 8, "veterinary");
    }
  }

  /** Only the two `local` keys are local: both veterinary keys carry origin imported. */
  lemma OriginLabels(k: CategoryKey)
    ensures OriginOf(k) == Local <==> k.NewLocalHuman? || k.RevisedLocalHuman?
    ensures k.NewVeterinary? || k.RevisedVeterinary? ==> OriginOf(k) == Imported
  {
    if k.NewLocalHuman? || k.RevisedLocalHuman? {
      LocalKeysAreLocal(k);
    } else {
      OtherKeysAreImported(k);
    }
  }

  lemma OtherKeysAreImported(k: CategoryKey)
    requires !(k.NewLocalHuman? || k.RevisedLocalHuman?)
    ensures !Contains(KeyName(k), "local")
  {
    assert 'c' !in KeyName(k);
    NotContainsMissingChar(KeyName(k), "local", 2);
  }

  lemma LocalKeysAreLocal(k: CategoryKey)
    requires k.NewLocalHuman? || k.RevisedLocalHuman?
    ensures Contains(KeyName(k), "local")
  {
    if k.NewLocalHuman? {
      ContainsAt(KeyName(k), 4, "local");
    } else {
      ContainsAt(KeyName(k), 8, "local");
    }
  }

  /** A match of a regular expression: `match.start()` and `match.end()`. */
  datatype Span = Span(start: nat, end: nat)

  /** A heading candidate: a match of one of a category's patterns. */
  datatype Section = Section(start: nat, end: nat, category: CategoryKey)
  {
    /** The section's labels, key by key; `SectionLabels` shows they are what the
        substring tests on the key's name give. */
    function Kind(): Kind
    {
      if category.NewLocalHuman? || category.NewImportedHuman? || category.NewVeterinary? then New else Revised
    }

    function Specialty(): Specialty
    {
      if category.NewVeterinary? || category.RevisedVeterinary? then Veterinary else Human
    }

    function Origin(): Origin
    {
      if category.NewLocalHuman? || category.RevisedLocalHuman? then Local else Imported
    }
  }

  /** The labels of a section are the ones `section_info` reads off its key's name. */
  lemma SectionLabels(s: Section)
    ensures s.Kind() == KindOf(s.category)
    ensures s.Specialty() == SpecialtyOf(s.category)
    ensures s.Origin() == OriginOf(s.category)
  {
    KindLabels(s.category);
    SpecialtyLabels(s.category);
    OriginLabels(s.category);
  }

  /** The matches of every heading pattern: for each category, one list of spans per
      pattern, in the catalogue's pattern order and each in `re.finditer` order. */
  type HeadingMatches = CategoryKey -> seq<seq<Span>>

  function StartOf(s: Section): int { s.start }

  /** The spans of one pattern as candidates of category `k`. */
  function Candidates(k: CategoryKey, spans: seq<Span>): (r: seq<Section>)
    ensures |r| == |spans|
    ensures forall j :: 0 <= j < |r| ==> r[j] == Section(spans[j].start, spans[j].end, k)
  {
    if spans == [] then [] else Candidates(k, spans[..|spans| - 1]) + [Section(spans[|spans| - 1].start, spans[|spans| - 1].end, k)]
  }

  /** The candidates of all of a category's patterns, pattern by pattern. */
  function PatternCandidates(k: CategoryKey, patterns: seq<seq<Span>>): seq<Section>
  {
    if patterns == [] then [] else PatternCandidates(k, patterns[..|patterns| - 1]) + Candidates(k, patterns[|patterns| - 1])
  }

  /** The pooled candidates of the categories `keys`, category by category. */
  function Pool(keys: seq<CategoryKey>, m: HeadingMatches): seq<Section>
  {
    if keys == [] then [] else Pool(keys[..|keys| - 1], m) + PatternCandidates(keys[|keys| - 1], m(keys[|keys| - 1]))
  }

  /** The greedy filter over `s` in order: a candidate is kept when nothing is kept
      yet or it starts at or after the end of the last kept one. */
  function Greedy(s: seq<Section>): seq<Section>
  {
    if s == [] then []
    else
      var g := Greedy(s[..|s| - 1]);
      var c := s[|s| - 1];
      if g == [] || c.start >= g[|g| - 1].end then g + [c] else g
  }

  /** The heading sections: the pooled candidates, stably sorted by start, filtered greedily. */
  function CategorySections(m: HeadingMatches): seq<Section>
  {
    Greedy(SortBy(Pool(CategoryOrder, m), StartOf))
  }

  /** `_find_category_sections`: pool the candidates in category, pattern and match
      order, sort them by start, then keep each one that starts at or after the end
      of the last one kept. */
  method FindCategorySections(m: HeadingMatches) returns (filtered: seq<Section>)
    ensures filtered == CategorySections(m)
  {
    var sections := PoolHeadings(m);
    var sorted := SortBy(sections, StartOf);
    filtered := GreedyFilter(sorted);
  }

  /** The three nested loops that collect the heading candidates. */
  method PoolHeadings(m: HeadingMatches) returns (sections: seq<Section>)
    ensures sections == Pool(CategoryOrder, m)
  {
    sections := [];
    for c := 0 to |CategoryOrder|
      invariant sections == Pool(CategoryOrder[..c], m)
    {
      var key := CategoryOrder[c];
      var found := PoolCategory(key, m(key));
      assert CategoryOrder[..c + 1][..c] == CategoryOrder[..c];
      sections := sections + found;
    }
    assert CategoryOrder[..|CategoryOrder|] == CategoryOrder;
  }

  method PoolCategory(key: CategoryKey, patterns: seq<seq<Span>>) returns (found: seq<Section>)
    ensures found == PatternCandidates(key, patterns)
  {
    found := [];
    for p := 0 to |patterns|
      invariant found == PatternCandidates(key, patterns[..p])
    {
      assert patterns[..p + 1][..p] == patterns[..p];
      found := AppendCandidates(key, found, patterns[p]);
    }
    assert patterns[..|patterns|] == patterns;
  }

  /** The innermost loop: one section per match of a pattern. */
  method AppendCandidates(key: CategoryKey, pending: seq<Section>, spans: seq<Span>) returns (found: seq<Section>)
    ensures found == pending + Candidates(key, spans)
  {
    found := pending;
    for j := 0 to |spans|
      invariant found == pending + Candidates(key, spans[..j])
    {
      assert spans[..j + 1][..j] == spans[..j];
      found := found + [Section(spans[j].start, spans[j].end, key)];
    }
    assert spans[..|spans|] == spans;
  }

  /** The filtering loop over the sorted candidates. */
  method GreedyFilter(sorted: seq<Section>) returns (filtered: seq<Section>)
    ensures filtered == Greedy(sorted)
  {
    filtered := [];
    for i := 0 to |sorted|
      invariant filtered == Greedy(sorted[..i])
    {
      assert sorted[..i + 1][..i] == sorted[..i];
      if filtered == [] || sorted[i].start >= filtered[|filtered| - 1].end {
        filtered := filtered + [sorted[i]];
      }
    }
    assert sorted[..|sorted|] == sorted;
  }

  /** Every candidate ends no earlier than it starts, as a regex match does. */
  predicate WellFormed(s: seq<Section>)
  {
    forall k :: 0 <= k < |s| ==> s[k].start <= s[k].end
  }

  /** Each kept section starts at or after the end of every section kept before it. */
  predicate NonOverlapping(s: seq<Section>)
  {
    forall i, j :: 0 <= i < j < |s| ==> s[i].end <= s[j].start
  }

  /** `a` is `b` with some elements deleted. */
  predicate Subsequence<T(==)>(a: seq<T>, b: seq<T>)
    decreases |b|
  {
    if a == [] then true
    else if b == [] then false
    else if a[|a| - 1] == b[|b| - 1] then Subsequence(a[..|a| - 1], b[..|b| - 1])
    else Subsequence(a, b[..|b| - 1])
  }

  /** The kept sections do not overlap, and so are sorted by start. */
  lemma {:induction false} GreedyNonOverlapping(s: seq<Section>)
    requires WellFormed(s)
    ensures NonOverlapping(Greedy(s))
    ensures SortedBy(Greedy(s), StartOf)
  {
    var g := Greedy(s);
    if s != [] {
      var init := s[..|s| - 1];
      assert WellFormed(init) by {
        forall k | 0 <= k < |init| ensures init[k].start <= init[k].end {
          assert init[k] == s[k];
        }
      }
      GreedyNonOverlapping(init);
      GreedyElements(init);
      var h := Greedy(init);
      var c := s[|s| - 1];
      if h == [] || c.start >= h[|h| - 1].end {
        forall i, j | 0 <= i < j < |g| ensures g[i].end <= g[j].start {
          if j == |h| && i < |h| - 1 {
            assert h[i].end <= h[|h| - 1].start;
            assert h[|h| - 1] in init;
          }
        }
      }
    }
    forall i, j | 0 <= i < j < |g| ensures StartOf(g[i]) <= StartOf(g[j]) {
      GreedyElements(s);
      assert g[i] in s;
    }
  }

  /** The kept sections are candidates of the input. */
  lemma {:induction false} GreedyElements(s: seq<Section>)
    ensures forall c :: c in Greedy(s) ==> c in s
  {
    if s != [] {
      GreedyElements(s[..|s| - 1]);
    }
  }

  /** The filter only deletes: its result is a subsequence of its input. */
  lemma {:induction false} GreedySubsequence(s: seq<Section>)
    ensures Subsequence(Greedy(s), s)
  {
    if s != [] {
      var init := s[..|s| - 1];
      GreedySubsequence(init);
      var h := Greedy(init);
      if !(h == [] || s[|s| - 1].start >= h[|h| - 1].end) {
        SubsequenceExtend(h, init, s[|s| - 1]);
        assert init + [s[|s| - 1]] == s;
      } else {
        assert (h + [s[|s| - 1]])[..|h|] == h;
      }
    }
  }

  lemma {:induction false} SubsequenceExtend<T>(a: seq<T>, b: seq<T>, x: T)
    requires Subsequence(a, b)
    ensures Subsequence(a, b + [x])
    decreases |b|, 1
  {
    if a != [] {
      assert (b + [x])[..|b|] == b;
      if a[|a| - 1] == x {
        SubsequenceDropLast(a, b);
      }
    }
  }

  lemma {:induction false} SubsequenceDropLast<T>(a: seq<T>, b: seq<T>)
    requires a != [] && Subsequence(a, b)
    ensures Subsequence(a[..|a| - 1], b)
    decreases |b|, 0
  {
    if b != [] {
      if a[|a| - 1] == b[|b| - 1] {
        SubsequenceExtend(a[..|a| - 1], b[..|b| - 1], b[|b| - 1]);
        assert b[..|b| - 1] + [b[|b| - 1]] == b;
      } else {
        SubsequenceDropLast(a, b[..|b| - 1]);
        SubsequenceExtend(a[..|a| - 1], b[..|b| - 1], b[|b| - 1]);
        assert b[..|b| - 1] + [b[|b| - 1]] == b;
      }
    }
  }

  /** The first candidate is always kept, and kept first. */
  lemma {:induction false} GreedyKeepsFirst(s: seq<Section>)
    requires s != []
    ensures Greedy(s) != [] && Greedy(s)[0] == s[0]
  {
    if |s| > 1 {
      var init := s[..|s| - 1];
      GreedyKeepsFirst(init);
      assert init[0] == s[0];
    }
  }

  /** Over candidates sorted by start, a dropped candidate starts inside a kept section:
      every candidate is kept or starts at or after a kept start and before its end. */
  lemma {:induction false} GreedyCovers(s: seq<Section>)
    requires SortedBy(s, StartOf)
    ensures forall c :: c in s ==> c in Greedy(s) || exists g :: g in Greedy(s) && g.start <= c.start < g.end
  {
    if s != [] {
      var init := s[..|s| - 1];
      assert SortedBy(init, StartOf) by {
        forall i, j | 0 <= i < j < |init| ensures StartOf(init[i]) <= StartOf(init[j]) {
          assert init[i] == s[i] && init[j] == s[j];
        }
      }
      GreedyCovers(init);
      GreedyElements(init);
      var h := Greedy(init);
      var last := s[|s| - 1];
      assert forall x :: x in h ==> x in Greedy(s);
      forall c | c in s ensures c in Greedy(s) || exists g :: g in Greedy(s) && g.start <= c.start < g.end {
        if c in init {
        } else {
          assert c == last;
          if !(h == [] || last.start >= h[|h| - 1].end) {
            var g := h[|h| - 1];
            assert g in init;
            var k :| 0 <= k < |init| && init[k] == g;
            assert s[k] == g;
            assert g in Greedy(s) && g.start <= c.start < g.end;
          }
        }
      }
    }
  }

  // ---------------------------------------------------------------------------
  // Section breaks
  // ---------------------------------------------------------------------------

  function Id(n: nat): int { n }

  /** The start offsets of the break matches, pattern by pattern. */
  function BreakStarts(patterns: seq<seq<Span>>): seq<nat>
  {
    if patterns == [] then [] else BreakStarts(patterns[..|patterns| - 1]) + Starts(patterns[|patterns| - 1])
  }

  function Starts(spans: seq<Span>): (r: seq<nat>)
    ensures |r| == |spans| && forall j :: 0 <= j < |r| ==> r[j] == spans[j].start
  {
    if spans == [] then [] else Starts(spans[..|spans| - 1]) + [spans[|spans| - 1].start]
  }

  /** `_find_section_breaks`: the start of every break match, sorted ascending
      (duplicates kept). */
  method FindSectionBreaks(patterns: seq<seq<Span>>) returns (breaks: seq<nat>)
    ensures breaks == SortBy(BreakStarts(patterns), Id)
  {
    var starts: seq<nat> := [];
    for p := 0 to |patterns|
      invariant starts == BreakStarts(patterns[..p])
    {
      var spans := patterns[p];
      for j := 0 to |spans|
        invariant starts == BreakStarts(patterns[..p]) + Starts(spans[..j])
      {
        assert spans[..j + 1][..j] == spans[..j];
        starts := starts + [spans[j].start];
      }
      assert spans[..|spans|] == spans;
      assert patterns[..p + 1][..p] == patterns[..p];
    }
    assert patterns[..|patterns|] == patterns;
    breaks := SortBy(starts, Id);
  }

  // ---------------------------------------------------------------------------
  // Body spans
  // ---------------------------------------------------------------------------

  /** The end bound of section `i` before breaks are considered, as the service and
      standalone parsers compute it: `min(len(text), next.start)`, or `len(text)` for
      the last section. */
  function Bound(sections: seq<Section>, i: nat, textLength: nat): nat
    requires i < |sections|
  {
    if i + 1 < |sections| then (if sections[i + 1].start < textLength then sections[i + 1].start else textLength)
    else textLength
  }

  /** The same bound as the add-on computes it: `next.start`, or `len(text)` for the last section. */
  function AddonBound(sections: seq<Section>, i: nat, textLength: nat): nat
    requires i < |sections|
  {
    if i + 1 < |sections| then sections[i + 1].start else textLength
  }

  /** The two bounds agree on matches inside the text, which every regex match is. */
  lemma BoundsAgree(sections: seq<Section>, i: nat, textLength: nat)
    requires i < |sections|
    requires forall k :: 0 <= k < |sections| ==> sections[k].start <= textLength
    ensures Bound(sections, i, textLength) == AddonBound(sections, i, textLength)
  {
  }

  /** The first break of `breaks` (in list order) lying strictly between `lo` and `bound`, else `bound`. */
  function FirstBreakWithin(breaks: seq<nat>, lo: nat, bound: nat): nat
  {
    if breaks == [] then bound
    else if lo < breaks[0] < bound then breaks[0]
    else FirstBreakWithin(breaks[1..], lo, bound)
  }

  /** The break scan of `parse`: the first break strictly inside (`lo`, `bound`) cuts the body. */
  method SectionEnd(breaks: seq<nat>, lo: nat, bound: nat) returns (sectionEnd: nat)
    ensures sectionEnd == FirstBreakWithin(breaks, lo, bound)
  {
    sectionEnd := bound;
    var k := 0;
    while k < |breaks|
      invariant 0 <= k <= |breaks|
      invariant FirstBreakWithin(breaks, lo, bound) == FirstBreakWithin(breaks[k..], lo, bound)
    {
      var brk := breaks[k];
      if brk > lo && brk < sectionEnd {
        sectionEnd := brk;
        break;
      }
      k := k + 1;
    }
  }

  /** Over sorted breaks, the body ends at the smallest break strictly inside the span
      (`lo`, `bound`), and at `bound` when there is none; it never ends before `lo`
      nor after `bound`. */
  lemma {:induction false} FirstBreakIsSmallest(breaks: seq<nat>, lo: nat, bound: nat)
    requires SortedBy(breaks, Id)
    requires lo <= bound
    ensures var e := FirstBreakWithin(breaks, lo, bound);
      && lo <= e <= bound
      && (e == bound || (e in breaks && lo < e))
      && forall b :: b in breaks && lo < b < bound ==> e <= b
  {
    if breaks != [] {
      assert SortedBy(breaks[1..], Id) by {
        forall i, j | 0 <= i < j < |breaks[1..]| ensures Id(breaks[1..][i]) <= Id(breaks[1..][j]) {
          assert breaks[1..][i] == breaks[i + 1] && breaks[1..][j] == breaks[j + 1];
        }
      }
      FirstBreakIsSmallest(breaks[1..], lo, bound);
      if lo < breaks[0] < bound {
        forall b | b in breaks && lo < b < bound ensures breaks[0] <= b {
          var k :| 0 <= k < |breaks| && breaks[k] == b;
          if k > 0 {
            assert Id(breaks[0]) <= Id(breaks[k]);
          }
        }
      } else {
        forall b | b in breaks && lo < b < bound ensures FirstBreakWithin(breaks, lo, bound) <= b {
          assert b != breaks[0] ==> b in breaks[1..];
          if b == breaks[0] {
            assert false;
          }
        }
      }
    }
  }
}

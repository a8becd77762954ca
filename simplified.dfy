/** `_create_simplified` (the service and the add-on): the parsed medications grouped by
    laboratory, one entry per laboratory in the order the laboratories first appear. */
module Simplified {

  import opened Wrappers
  import opened Text
  import opened Prices
  import opened Segmenter
  import opened MedLines
  import opened Scanner
  import opened Circulaire

  /** A medication of an entry: `sale_price` is the public price. */
  datatype Item = Item(
    code: Option<string>,
    name: string,
    sale: Option<Decimal>,
    pharmacy: Decimal,
    wholesale: Decimal,
    category: Option<char>)

  /** A medication as `meds_by_lab` keeps it: its item and its `type`. */
  datatype Member = Member(item: Item, kind: Kind)

  /** An entry of the simplified list. */
  datatype Entry = Entry(
    date: Option<string>,
    circulaire: Option<string>,
    laboratory: string,
    kind: Kind,
    medications: seq<Item>)

  const Unknown: string := "Unknown"

  /** The grouping key: the laboratory, `Unknown` when it is missing or empty, without
      bidirectional marks and stripped. */
  function LabKey(r: Record): string
  {
    var lab := if r.med.laboratory.None? || r.med.laboratory.value == [] then Unknown else r.med.laboratory.value;
    Strip(RemoveBidi(lab))
  }

  function MemberOf(r: Record): Member
  {
    Member(Item(r.med.code, r.med.name, r.med.public, r.med.pharmacy, r.med.wholesale, r.med.category), r.kind)
  }

  // The grouping is stated for any key function; the copies group by `LabKey`.

  /** The distinct keys of `meds`, in the order they first appear. */
  function Labs(meds: seq<Record>, key: Record -> string): seq<string>
  {
    if meds == [] then []
    else
      var labs := Labs(meds[..|meds| - 1], key);
      var lab := key(meds[|meds| - 1]);
      if lab in labs then labs else labs + [lab]
  }

  /** The members with key `lab`, in the order of `meds`. */
  function Group(meds: seq<Record>, key: Record -> string, lab: string): seq<Member>
  {
    if meds == [] then []
    else
      var g := Group(meds[..|meds| - 1], key, lab);
      if key(meds[|meds| - 1]) == lab then g + [MemberOf(meds[|meds| - 1])] else g
  }

  /** `'revised' if 'revised' in types else 'new'`. */
  function EntryKind(ms: seq<Member>): Kind
  {
    if ms == [] then New
    else if ms[|ms| - 1].kind == Revised then Revised
    else EntryKind(ms[..|ms| - 1])
  }

  function ItemsOf(ms: seq<Member>): (items: seq<Item>)
    ensures |items| == |ms|
    ensures forall k :: 0 <= k < |ms| ==> items[k] == ms[k].item
  {
    if ms == [] then [] else ItemsOf(ms[..|ms| - 1]) + [ms[|ms| - 1].item]
  }

  /** The entry's `circulaire`: the number when there is a non-empty one, else the
      non-empty filename without `.json` and `.pdf`, else none. */
  function CirculaireName(p: Parsed): Option<string>
  {
    if p.number.Some? && p.number.value != [] then p.number
    else if p.filename.Some? && p.filename.value != [] then Some(ReplaceAll(ReplaceAll(p.filename.value, ".json", ""), ".pdf", ""))
    else None
  }

  function EntryFor(p: Parsed, lab: string): Entry
  {
    var g := Group(p.medications, LabKey, lab);
    Entry(p.date, CirculaireName(p), lab, EntryKind(g), ItemsOf(g))
  }

  /** The entries of the laboratories `labs`, in that order. */
  function EntriesFor(p: Parsed, labs: seq<string>): (r: seq<Entry>)
    ensures |r| == |labs|
    ensures forall j :: 0 <= j < |labs| ==> r[j] == EntryFor(p, labs[j])
  {
    if labs == [] then [] else EntriesFor(p, labs[..|labs| - 1]) + [EntryFor(p, labs[|labs| - 1])]
  }

  /** What `_create_simplified` returns. */
  function Simplified(p: Parsed): seq<Entry>
  {
    if p.medications == [] then [] else EntriesFor(p, Labs(p.medications, LabKey))
  }

  /** `_create_simplified`: fill `meds_by_lab`, whose keys keep their insertion order,
      then emit one entry per key. */
  method CreateSimplified(p: Parsed) returns (simplified: seq<Entry>)
    ensures simplified == Simplified(p)
  {
    if |p.medications| == 0 {
      return [];
    }
    var byLab, order := GroupByKey(p.medications, LabKey);
    simplified := [];
    for j := 0 to |order|
      invariant simplified == EntriesFor(p, order[..j])
    {
      var lab := order[j];
      var members := byLab[lab];
      assert order[..j + 1][..j] == order[..j];
      simplified := simplified + [Entry(p.date, CirculaireName(p), lab, EntryKind(members), ItemsOf(members))];
    }
    assert order[..|order|] == order;
  }

  /** The loop that fills `meds_by_lab`: `order` is its keys in insertion order. */
  method GroupByKey(meds: seq<Record>, key: Record -> string) returns (byLab: map<string, seq<Member>>, order: seq<string>)
    ensures order == Labs(meds, key)
    ensures forall lab :: lab in byLab <==> lab in order
    ensures forall lab :: lab in byLab ==> byLab[lab] == Group(meds, key, lab)
  {
    byLab := map[];
    order := [];
    for i := 0 to |meds|
      invariant order == Labs(meds[..i], key)
      invariant forall lab :: lab in byLab <==> lab in order
      invariant forall lab :: lab in byLab ==> byLab[lab] == Group(meds[..i], key, lab)
    {
      var lab := key(meds[i]);
      assert meds[..i + 1][..i] == meds[..i];
      if lab !in byLab {
        AbsentGroupEmpty(meds[..i], key, lab);
        byLab := byLab[lab := []];
        order := order + [lab];
      }
      byLab := byLab[lab := byLab[lab] + [MemberOf(meds[i])]];
    }
    assert meds[..|meds|] == meds;
  }

  // ---------------------------------------------------------------------------
  // What the grouping guarantees
  // ---------------------------------------------------------------------------

  predicate Distinct(s: seq<string>)
  {
    forall i, j :: 0 <= i < j < |s| ==> s[i] != s[j]
  }

  /** The laboratories are distinct, and they are exactly the keys of the medications. */
  lemma {:induction false} LabsAreKeys(meds: seq<Record>, key: Record -> string)
    ensures Distinct(Labs(meds, key))
    ensures forall k :: 0 <= k < |meds| ==> key(meds[k]) in Labs(meds, key)
    ensures forall lab :: lab in Labs(meds, key) ==> exists k :: 0 <= k < |meds| && key(meds[k]) == lab
  {
    if meds != [] {
      var init := meds[..|meds| - 1];
      LabsAreKeys(init, key);
      forall lab | lab in Labs(meds, key) ensures exists k :: 0 <= k < |meds| && key(meds[k]) == lab {
        if lab in Labs(init, key) {
          var k :| 0 <= k < |init| && key(init[k]) == lab;
          assert meds[k] == init[k];
        } else {
          assert key(meds[|meds| - 1]) == lab;
        }
      }
      forall k | 0 <= k < |meds| ensures key(meds[k]) in Labs(meds, key) {
        if k < |init| {
          assert meds[k] == init[k];
        }
      }
    }
  }

  /** The laboratories of a prefix of the medications are a prefix of the laboratories:
      each laboratory is placed when it first appears. */
  lemma {:induction false} LabsFirstAppearance(meds: seq<Record>, key: Record -> string, n: nat)
    requires n <= |meds|
    ensures var labs := Labs(meds[..n], key);
      |labs| <= |Labs(meds, key)| && Labs(meds, key)[..|labs|] == labs
  {
    if n < |meds| {
      var init := meds[..|meds| - 1];
      assert init[..n] == meds[..n];
      LabsFirstAppearance(init, key, n);
    } else {
      assert meds[..n] == meds;
    }
  }

  /** A laboratory's group holds exactly its medications, in order: its `k`-th member is
      the `k`-th medication with that key. */
  lemma {:induction false} GroupIsFilter(meds: seq<Record>, key: Record -> string, lab: string)
    ensures |Group(meds, key, lab)| == CountKey(meds, key, lab)
    ensures forall k :: 0 <= k < |meds| && key(meds[k]) == lab ==>
      CountKey(meds[..k], key, lab) < |Group(meds, key, lab)|
      && Group(meds, key, lab)[CountKey(meds[..k], key, lab)] == MemberOf(meds[k])
  {
    if meds != [] {
      var init := meds[..|meds| - 1];
      GroupIsFilter(init, key, lab);
      forall k | 0 <= k < |meds| && key(meds[k]) == lab
        ensures CountKey(meds[..k], key, lab) < |Group(meds, key, lab)|
          && Group(meds, key, lab)[CountKey(meds[..k], key, lab)] == MemberOf(meds[k])
      {
        if k < |init| {
          assert meds[k] == init[k] && meds[..k] == init[..k];
          CountKeyPrefix(init, key, k, lab);
        } else {
          assert meds[..k] == init;
        }
      }
    }
  }

  /** How many of `meds` have key `lab`. */
  function CountKey(meds: seq<Record>, key: Record -> string, lab: string): (n: nat)
    ensures n <= |meds|
  {
    if meds == [] then 0 else CountKey(meds[..|meds| - 1], key, lab) + (if key(meds[|meds| - 1]) == lab then 1 else 0)
  }

  lemma {:induction false} CountKeyPrefix(meds: seq<Record>, key: Record -> string, k: nat, lab: string)
    requires k < |meds| && key(meds[k]) == lab
    ensures CountKey(meds[..k], key, lab) < CountKey(meds, key, lab)
  {
    if k < |meds| - 1 {
      var init := meds[..|meds| - 1];
      assert init[..k] == meds[..k] && init[k] == meds[k];
      CountKeyPrefix(init, key, k, lab);
    } else {
      assert meds[..k] == meds[..|meds| - 1];
    }
  }

  /** An entry is revised exactly when one of its members is. */
  lemma {:induction false} EntryKindRevised(ms: seq<Member>)
    ensures EntryKind(ms) == Revised <==> exists k :: 0 <= k < |ms| && ms[k].kind == Revised
  {
    if ms != [] {
      var init := ms[..|ms| - 1];
      EntryKindRevised(init);
      if exists k :: 0 <= k < |init| && init[k].kind == Revised {
        var k :| 0 <= k < |init| && init[k].kind == Revised;
        assert ms[k] == init[k];
      }
      if exists k :: 0 <= k < |ms| && ms[k].kind == Revised {
        var k :| 0 <= k < |ms| && ms[k].kind == Revised;
        if k < |init| {
          assert init[k] == ms[k];
        }
      }
    }
  }

  /** The sizes of the groups of `labs`. */
  function GroupSizes(meds: seq<Record>, key: Record -> string, labs: seq<string>): nat
  {
    if labs == [] then 0 else GroupSizes(meds, key, labs[..|labs| - 1]) + |Group(meds, key, labs[|labs| - 1])|
  }

  /** Grouping loses and duplicates no medication: the groups' sizes add up to the
      number of medications. */
  lemma {:induction false} GroupSizesTotal(meds: seq<Record>, key: Record -> string)
    ensures GroupSizes(meds, key, Labs(meds, key)) == |meds|
  {
    if meds != [] {
      var init := meds[..|meds| - 1];
      var r := meds[|meds| - 1];
      var lab := key(r);
      GroupSizesTotal(init, key);
      LabsAreKeys(init, key);
      GroupSizesStep(init, key, r, Labs(init, key));
      assert init + [r] == meds;
      if lab !in Labs(init, key) {
        AbsentGroupEmpty(init, key, lab);
        var labs := Labs(meds, key);
        assert labs[..|labs| - 1] == Labs(init, key);
      }
    }
  }

  /** Adding a medication grows the sizes of the distinct `labs` by one when its key is
      among them and leaves them otherwise. */
  lemma {:induction false} GroupSizesStep(meds: seq<Record>, key: Record -> string, r: Record, labs: seq<string>)
    requires Distinct(labs)
    ensures GroupSizes(meds + [r], key, labs) == GroupSizes(meds, key, labs) + (if key(r) in labs then 1 else 0)
  {
    var meds' := meds + [r];
    assert meds'[..|meds'| - 1] == meds;
    if labs != [] {
      var init := labs[..|labs| - 1];
      var last := labs[|labs| - 1];
      GroupSizesStep(meds, key, r, init);
      assert forall j :: 0 <= j < |init| ==> init[j] != last;
      assert labs == init + [last];
    }
  }

  /** A key that is not among the laboratories has no members. */
  lemma {:induction false} AbsentGroupEmpty(meds: seq<Record>, key: Record -> string, lab: string)
    requires lab !in Labs(meds, key)
    ensures Group(meds, key, lab) == []
  {
    if meds != [] {
      var init := meds[..|meds| - 1];
      assert lab !in Labs(init, key);
      AbsentGroupEmpty(init, key, lab);
    }
  }

  /** A group is revised exactly when one of the medications with its key is. */
  lemma {:induction false} GroupRevised(meds: seq<Record>, key: Record -> string, lab: string)
    ensures EntryKind(Group(meds, key, lab)) == Revised
      <==> exists k :: 0 <= k < |meds| && key(meds[k]) == lab && meds[k].kind == Revised
  {
    if meds != [] {
      var init := meds[..|meds| - 1];
      var g := Group(init, key, lab);
      GroupRevised(init, key, lab);
      forall k | 0 <= k < |init| ensures meds[k] == init[k] { }
      if key(meds[|meds| - 1]) == lab {
        assert (g + [MemberOf(meds[|meds| - 1])])[..|g|] == g;
      }
    }
  }

  /** The number of items of the entries. */
  function ItemCount(es: seq<Entry>): nat
  {
    if es == [] then 0 else ItemCount(es[..|es| - 1]) + |es[|es| - 1].medications|
  }

  lemma {:induction false} EntriesItemCount(p: Parsed, labs: seq<string>)
    ensures ItemCount(EntriesFor(p, labs)) == GroupSizes(p.medications, LabKey, labs)
  {
    if labs != [] {
      var init := labs[..|labs| - 1];
      EntriesItemCount(p, init);
      var es := EntriesFor(p, labs);
      assert es[..|es| - 1] == EntriesFor(p, init);
    }
  }

  /** For parsed medications: nothing for no medications; otherwise one entry per
      distinct laboratory in first-appearance order, each with its group's items, the
      circulaire's name, and type revised exactly when one of its medications is
      revised; and every medication lands in exactly one entry. */
  lemma SimplifiedEntries(p: Parsed)
    ensures p.medications == [] ==> Simplified(p) == []
    ensures p.medications != [] ==> |Simplified(p)| == |Labs(p.medications, LabKey)|
    ensures forall j :: 0 <= j < |Simplified(p)| ==>
      Simplified(p)[j].laboratory == Labs(p.medications, LabKey)[j]
      && Simplified(p)[j].circulaire == CirculaireName(p)
      && Simplified(p)[j].medications == ItemsOf(Group(p.medications, LabKey, Labs(p.medications, LabKey)[j]))
    ensures forall j :: 0 <= j < |Simplified(p)| ==>
      (Simplified(p)[j].kind == Revised <==>
        exists k :: 0 <= k < |p.medications| && LabKey(p.medications[k]) == Simplified(p)[j].laboratory
                    && p.medications[k].kind == Revised)
    ensures ItemCount(Simplified(p)) == |p.medications|
  {
    var meds := p.medications;
    if meds != [] {
      var labs := Labs(meds, LabKey);
      forall j | 0 <= j < |labs|
        ensures (Simplified(p)[j].kind == Revised <==>
          exists k :: 0 <= k < |meds| && LabKey(meds[k]) == labs[j] && meds[k].kind == Revised)
      {
        GroupRevised(meds, LabKey, labs[j]);
      }
      EntriesItemCount(p, labs);
      GroupSizesTotal(meds, LabKey);
    }
  }
}

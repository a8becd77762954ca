/** `_clean_medication_name` / `clean_medication_name`: the name group of a matched
    line loses its leading and trailing runs of square brackets (the OCR often
    reads table rules as `[` and `]`), then its whitespace is collapsed and trimmed. */
module Names {

  import opened Text
  import opened Tokens

  predicate IsBracket(c: char) { c == '[' || c == ']' }

  /** `s` without its leading run of brackets (`^[\[\]]+`). */
  function DropLeadingBrackets(s: string): (r: string)
    ensures |r| <= |s| && r == s[|s| - |r|..]
    ensures r != [] ==> !IsBracket(r[0])
    ensures s != [] && IsBracket(s[0]) ==> |r| < |s|
    ensures s != [] && !IsBracket(s[0]) ==> r == s
  {
    if s != [] && IsBracket(s[0]) then DropLeadingBrackets(s[1..]) else s
  }

  /** `s` without its trailing run of brackets (`[\[\]]+$`). */
  function DropTrailingBrackets(s: string): (r: string)
    ensures |r| <= |s| && r == s[..|r|]
    ensures r != [] ==> !IsBracket(r[|r| - 1])
    ensures s != [] && IsBracket(s[|s| - 1]) ==> |r| < |s|
    ensures s != [] && !IsBracket(s[|s| - 1]) ==> r == s
  {
    if s != [] && IsBracket(s[|s| - 1]) then DropTrailingBrackets(s[..|s| - 1]) else s
  }

  /** The cleaned name: single-spaced and never longer than the group it came from.
      `re.sub(r'^[\[\]]+|[\[\]]+$', '', name)` removes exactly the leading run and then
      the trailing run of what is left, since the scan resumes after the leading run. */
  function CleanMedicationName(name: string): (r: string)
    ensures SingleSpaced(r)
    ensures |r| <= |name|
  {
    if name == [] then name
    else
      var b := DropTrailingBrackets(DropLeadingBrackets(name));
      StripCollapsedIsSingleSpaced(b);
      Strip(CollapseSpaces(b))
  }

  /** A name is left as it is exactly when it is single-spaced and neither starts nor
      ends with a bracket. */
  lemma CleanNameFixpoints(name: string)
    ensures CleanMedicationName(name) == name <==>
      SingleSpaced(name) && (name != [] ==> !IsBracket(name[0]) && !IsBracket(name[|name| - 1]))
  {
    if name != [] {
      var a := DropLeadingBrackets(name);
      var b := DropTrailingBrackets(a);
      if SingleSpaced(name) && !IsBracket(name[0]) && !IsBracket(name[|name| - 1]) {
        assert a == name;
        assert b == name;
        CollapseSingleSpaces(name);
        StripUnpadded(name);
      } else if IsBracket(name[0]) {
        assert |b| <= |a| < |name|;
      } else if IsBracket(name[|name| - 1]) {
        assert a == name;
        assert |b| < |name|;
      }
    }
  }

  /** Cleaning is not idempotent: a bracket behind a space survives the first pass and
      is removed by the second, as in `"[ [X"`, which cleans to `"[X"` and then to `"X"`. */
  lemma CleanNameNotIdempotent(x: char)
    requires !IsBracket(x) && !IsSpace(x)
    ensures CleanMedicationName(['[', ' ', '[', x]) == ['[', x]
    ensures CleanMedicationName(['[', x]) == [x]
  {
    CleanSpacedBracket(x);
    CleanBracket(x);
  }

  lemma CleanSpacedBracket(x: char)
    requires !IsBracket(x) && !IsSpace(x)
    ensures CleanMedicationName(['[', ' ', '[', x]) == ['[', x]
  {
    var c := [' ', '[', x];
    DropSpacedBracket(x);
    assert CleanMedicationName(['[', ' ', '[', x]) == Strip(CollapseSpaces(c));
    CollapseSpacedBracket(c);
    StripLeadingSpace(c);
    assert c[1..] == ['[', x];
  }

  lemma CollapseSpacedBracket(c: string)
    requires |c| == 3 && c[0] == ' ' && !IsSpace(c[1]) && !IsSpace(c[2])
    ensures CollapseSpaces(c) == c
  {
    CollapseSingleSpaces(c);
  }

  lemma DropSpacedBracket(x: char)
    requires !IsBracket(x)
    ensures DropTrailingBrackets(DropLeadingBrackets(['[', ' ', '[', x])) == [' ', '[', x]
  {
    var s := ['[', ' ', '[', x];
    var c := [' ', '[', x];
    assert DropLeadingBrackets(s) == c by {
      assert IsBracket(s[0]) && s[1..] == c && !IsBracket(c[0]);
    }
    assert !IsBracket(c[2]);
  }

  lemma StripLeadingSpace(c: string)
    requires |c| >= 2 && IsSpace(c[0]) && !IsSpace(c[1]) && !IsSpace(c[|c| - 1])
    ensures Strip(c) == c[1..]
  {
    assert LStrip(c) == LStrip(c[1..]);
    assert LStrip(c[1..]) == c[1..];
    assert RStrip(c[1..]) == c[1..];
  }

  lemma CleanBracket(x: char)
    requires !IsBracket(x) && !IsSpace(x)
    ensures CleanMedicationName(['[', x]) == [x]
  {
    var t := ['[', x];
    assert DropLeadingBrackets(t) == [x] by {
      assert IsBracket(t[0]) && t[1..] == [x] && !IsBracket(t[1]);
    }
    CollapseSingleSpaces([x]);
    StripUnpadded([x]);
  }

  /** A name without brackets keeps its dosage token through the cleaning: only
      whitespace is collapsed or trimmed, and the token's digit and unit are not
      whitespace. */
  lemma CleanKeepsDosage(name: string, units: seq<string>)
    requires forall k :: 0 <= k < |name| ==> !IsBracket(name[k])
    requires SolidUnits(units) && HasDosage(name, units)
    ensures HasDosage(CleanMedicationName(name), units)
  {
    var a, d, w, u, b, k := DosageParts(name, units);
    var c, w', cb := CollapseKeepsDosage(a, d, w, u, b);
    UnbracketedClean(name);
    var l, r := StripKeepsDosage(c, d, w', u, cb);
    DosageIn(l, d, w', u, r, units, k);
  }

  /** Cleaning a non-empty name without brackets only collapses and strips it. */
  lemma UnbracketedClean(name: string)
    requires name != [] && forall k :: 0 <= k < |name| ==> !IsBracket(name[k])
    ensures CleanMedicationName(name) == Strip(CollapseSpaces(name))
  {
    assert DropLeadingBrackets(name) == name;
    assert DropTrailingBrackets(name) == name;
  }

  /** The collapse of a string around a dosage token keeps the token's digit, at most
      one space, and its unit. */
  lemma CollapseKeepsDosage(a: string, d: char, w: string, u: string, b: string) returns (c: string, w': string, cb: string)
    requires !IsSpace(d) && forall m :: 0 <= m < |w| ==> IsSpace(w[m])
    requires u != [] && forall m :: 0 <= m < |u| ==> !IsSpace(u[m])
    ensures CollapseSpaces(a + [d] + w + u + b) == c + ([d] + w' + u + cb)
    ensures forall m :: 0 <= m < |w'| ==> IsSpace(w'[m])
  {
    var y := [d] + w + u + b;
    Assoc5(a, d, w, u, b);
    c := CollapsePrefixKeeps(a, y);
    w' := CollapsedRun(d, w, u, b);
    cb := CollapseSpaces(b);
  }

  /** `a + [d] + w + u + b` is `a` before the rest. */
  lemma Assoc5(a: string, d: char, w: string, u: string, b: string)
    ensures a + [d] + w + u + b == a + ([d] + w + u + b)
  {
  }

  /** Stripping keeps a dosage token's digit, its space and its unit. */
  lemma StripKeepsDosage(c: string, d: char, w: string, u: string, cb: string) returns (l: string, r: string)
    requires !IsSpace(d) && u != [] && !IsSpace(u[|u| - 1])
    ensures Strip(c + ([d] + w + u + cb)) == l + [d] + w + u + r
  {
    var y := [d] + w + u + cb;
    l := LStripKeepsSuffix(c, y);
    var x := l + [d] + w + u;
    Regroup(l, d, w, u, cb);
    r := RStripKeepsPrefix(x, cb);
    StripIs(c + y);
  }

  /** The same pieces, cut after the unit instead of before the digit; the unit ends the first part. */
  lemma Regroup(l: string, d: char, w: string, u: string, cb: string)
    requires u != []
    ensures l + ([d] + w + u + cb) == (l + [d] + w + u) + cb
    ensures var x := l + [d] + w + u; x != [] && x[|x| - 1] == u[|u| - 1]
  {
  }

  lemma StripIs(s: string)
    ensures Strip(s) == RStrip(LStrip(s))
  {
  }

  /** The collapse of a dosage token and what follows it: the digit, one space or none,
      the unit as written, and the collapse of the rest. */
  lemma CollapsedRun(d: char, w: string, u: string, b: string) returns (w': string)
    requires !IsSpace(d) && forall m :: 0 <= m < |w| ==> IsSpace(w[m])
    requires u != [] && forall m :: 0 <= m < |u| ==> !IsSpace(u[m])
    ensures CollapseSpaces([d] + w + u + b) == [d] + w' + u + CollapseSpaces(b)
    ensures forall m :: 0 <= m < |w'| ==> IsSpace(w'[m])
  {
    var v := u + b;
    var t := w + v;
    Assoc4(d, w, u, b);
    CollapseCons(d, t);
    w' := CollapseRun(w, v);
    CollapseNonSpacePrefix(u, b);
    var cb := CollapseSpaces(b);
    Assoc4(d, w', u, cb);
  }

  /** `[d] + w + u + b`, grouped from the right. */
  lemma Assoc4(d: char, w: string, u: string, b: string)
    ensures [d] + w + u + b == [d] + (w + (u + b))
  {
  }

  /** A whitespace run before a non-space collapses to one space, or to nothing when it is empty. */
  lemma CollapseRun(w: string, v: string) returns (w': string)
    requires forall m :: 0 <= m < |w| ==> IsSpace(w[m])
    requires v != [] && !IsSpace(v[0])
    ensures CollapseSpaces(w + v) == w' + CollapseSpaces(v)
    ensures forall m :: 0 <= m < |w'| ==> IsSpace(w'[m])
  {
    if w == [] {
      assert w + v == v;
      w' := [];
    } else {
      LStripSpaces(w, v);
      w' := [' '];
    }
  }
}

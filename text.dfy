/** The Python string built-ins the pipeline relies on (`strip`, `split`, `join`,
    `replace`, `isupper`, `re.sub(r'\s+', ' ', s)`) and the character classes of
    its regular expressions (`\s`, `\d`, `\w`, `[A-Za-z]`), as functions on
    `seq<char>`. */
module Text {

  // ---------------------------------------------------------------------------
  // Character classes
  // ---------------------------------------------------------------------------

  /** Python's `str.isspace`, which is also what `\s` matches in a `str` pattern. */
  predicate IsSpace(c: char)
  {
    c == ' ' || '\t' <= c <= '\r' || '\U{1C}' <= c <= '\U{1F}' || c == '\U{85}' || c == '\U{A0}'
    || c == '\U{1680}' || '\U{2000}' <= c <= '\U{200A}' || c == '\U{2028}' || c == '\U{2029}'
    || c == '\U{202F}' || c == '\U{205F}' || c == '\U{3000}'
  }

  /** A decimal digit (`\d`, `str.isdigit`): ASCII, Arabic-Indic and extended
      Arabic-Indic digits, the scripts a circulaire carries. */
  predicate IsDigit(c: char)
  {
    '0' <= c <= '9' || '\U{0660}' <= c <= '\U{0669}' || '\U{06F0}' <= c <= '\U{06F9}'
  }

  /** The numeric value of a digit, as `int()` and `float()` read it. */
  function DigitValue(c: char): (v: nat)
    requires IsDigit(c)
    ensures v < 10
  {
    if '0' <= c <= '9' then (c - '0') as nat
    else if '\U{0660}' <= c <= '\U{0669}' then (c - '\U{0660}') as nat
    else (c - '\U{06F0}') as nat
  }

  predicate IsAsciiUpper(c: char) { 'A' <= c <= 'Z' }

  predicate IsAsciiLower(c: char) { 'a' <= c <= 'z' }

  /** The class `[A-Za-z]`. */
  predicate IsAsciiLetter(c: char) { IsAsciiUpper(c) || IsAsciiLower(c) }

  /** The ASCII digits `0-9` of a character class written with a range. */
  predicate IsAsciiDigit(c: char) { '0' <= c <= '9' }

  /** The Arabic block U+0600..U+06FF. */
  predicate IsArabicBlock(c: char) { '\U{0600}' <= c <= '\U{06FF}' }

  /** The two bidirectional marks the parser removes: LEFT-TO-RIGHT MARK and RIGHT-TO-LEFT MARK. */
  predicate IsBidiMark(c: char) { c == '\U{200E}' || c == '\U{200F}' }

  /** A word character for `\b`: letters and digits of the scripts in a circulaire, and `_`. */
  predicate IsWordChar(c: char)
  {
    IsAsciiLetter(c) || IsDigit(c) || c == '_' || c == '\U{B5}' || c == '\U{3BC}' || c == '\U{39C}'
    || ('\U{C0}' <= c <= '\U{FF}' && c != '\U{D7}' && c != '\U{F7}')
    || ('\U{0620}' <= c <= '\U{064A}')
  }

  /** Case folding as `re.IGNORECASE` applies it: ASCII letters, and the three forms of mu
      (MICRO SIGN, GREEK SMALL MU, GREEK CAPITAL MU), which it treats as one letter. */
  function Fold(c: char): char
  {
    if IsAsciiUpper(c) then (c as int + 32) as char
    else if c == '\U{B5}' || c == '\U{39C}' then '\U{3BC}'
    else c
  }

  /** `p` occurs at offset `i` of `s`, compared case-insensitively. */
  predicate FoldMatchAt(s: string, i: nat, p: string)
  {
    i + |p| <= |s| && forall k :: 0 <= k < |p| ==> Fold(s[i + k]) == Fold(p[k])
  }

  /** `p` occurs at offset `i` of `s`, exactly. */
  predicate MatchAt(s: string, i: nat, p: string)
  {
    i + |p| <= |s| && s[i..i + |p|] == p
  }

  /** Offset `i` of `s` is a word boundary (`\b`). */
  predicate IsBoundary(s: string, i: nat)
    requires i <= |s|
  {
    var before := i > 0 && IsWordChar(s[i - 1]);
    var after := i < |s| && IsWordChar(s[i]);
    before != after
  }

  // ---------------------------------------------------------------------------
  // Counting and filtering
  // ---------------------------------------------------------------------------

  function CountDigits(s: string): (n: nat)
    ensures n <= |s|
  {
    if s == [] then 0 else CountDigits(s[..|s| - 1]) + (if IsDigit(s[|s| - 1]) then 1 else 0)
  }

  function CountArabicBlock(s: string): (n: nat)
    ensures n <= |s|
  {
    if s == [] then 0 else CountArabicBlock(s[..|s| - 1]) + (if IsArabicBlock(s[|s| - 1]) then 1 else 0)
  }

  /** `s` with both bidirectional marks deleted (`replace('‎', '').replace('‏', '')`). */
  function RemoveBidi(s: string): (r: string)
    ensures |r| <= |s|
    ensures forall k :: 0 <= k < |r| ==> !IsBidiMark(r[k])
    ensures (forall k :: 0 <= k < |s| ==> !IsBidiMark(s[k])) ==> r == s
  {
    if s == [] then []
    else if IsBidiMark(s[0]) then RemoveBidi(s[1..])
    else [s[0]] + RemoveBidi(s[1..])
  }

  /** `s` with every occurrence of `a` replaced by `b`. */
  function ReplaceChar(s: string, a: char, b: char): (r: string)
    ensures |r| == |s|
    ensures forall k :: 0 <= k < |s| ==> r[k] == (if s[k] == a then b else s[k])
  {
    if s == [] then [] else [if s[0] == a then b else s[0]] + ReplaceChar(s[1..], a, b)
  }

  /** `s` with every occurrence of `a` deleted. */
  function DeleteChar(s: string, a: char): (r: string)
    ensures |r| <= |s|
    ensures forall k :: 0 <= k < |r| ==> r[k] != a
  {
    if s == [] then [] else (if s[0] == a then [] else [s[0]]) + DeleteChar(s[1..], a)
  }

  /** Python's `str.replace(pat, rep)`: every non-overlapping occurrence, scanned left to right. */
  function ReplaceAll(s: string, pat: string, rep: string): string
    requires pat != []
    decreases |s|
  {
    if |s| < |pat| then s
    else if s[..|pat|] == pat then rep + ReplaceAll(s[|pat|..], pat, rep)
    else [s[0]] + ReplaceAll(s[1..], pat, rep)
  }

  // ---------------------------------------------------------------------------
  // Stripping and whitespace collapsing
  // ---------------------------------------------------------------------------

  /** `str.lstrip()`. */
  function LStrip(s: string): (r: string)
    ensures |r| <= |s| && r == s[|s| - |r|..]
    ensures r != [] ==> !IsSpace(r[0])
    ensures s != [] && IsSpace(s[0]) ==> |r| < |s|
  {
    if s != [] && IsSpace(s[0]) then LStrip(s[1..]) else s
  }

  /** `str.rstrip()`. */
  function RStrip(s: string): (r: string)
    ensures |r| <= |s| && r == s[..|r|]
    ensures r != [] ==> !IsSpace(r[|r| - 1])
  {
    if s != [] && IsSpace(s[|s| - 1]) then RStrip(s[..|s| - 1]) else s
  }

  /** `str.strip()`: a slice of `s` that neither starts nor ends with whitespace. */
  function Strip(s: string): (r: string)
    ensures |r| <= |s|
    ensures r != [] ==> !IsSpace(r[0]) && !IsSpace(r[|r| - 1])
    ensures |s| - |LStrip(s)| + |r| <= |s| && r == s[|s| - |LStrip(s)|..|s| - |LStrip(s)| + |r|]
  {
    var l := LStrip(s);
    var r := RStrip(l);
    assert r != [] ==> r[0] == l[0];
    SliceOfSuffix(s, |s| - |l|, |r|);
    r
  }

  lemma SliceOfSuffix(s: string, a: nat, n: nat)
    requires a + n <= |s|
    ensures s[a..][..n] == s[a..a + n]
  {
  }

  /** A string as the cleaning of a line leaves it: its only whitespace is single
      `' '` characters between two non-space characters. */
  predicate SingleSpaced(s: string)
  {
    && (forall k :: 0 <= k < |s| && IsSpace(s[k]) ==> s[k] == ' ')
    && (s != [] ==> !IsSpace(s[0]) && !IsSpace(s[|s| - 1]))
    && (forall k {:trigger s[k]} :: 0 <= k < |s| - 1 ==> !(s[k] == ' ' && s[k + 1] == ' '))
  }

  /** `re.sub(r'\s+', ' ', s)`: every maximal run of whitespace becomes one space. */
  function CollapseSpaces(s: string): (r: string)
    ensures |r| <= |s|
    ensures forall k :: 0 <= k < |r| && IsSpace(r[k]) ==> r[k] == ' '
    ensures forall k {:trigger r[k]} :: 0 <= k < |r| - 1 ==> !(r[k] == ' ' && r[k + 1] == ' ')
    ensures s != [] ==> r != [] && (IsSpace(r[0]) <==> IsSpace(s[0]))
    ensures s == [] ==> r == []
    decreases |s|
  {
    if s == [] then []
    else if IsSpace(s[0]) then [' '] + CollapseSpaces(LStrip(s))
    else [s[0]] + CollapseSpaces(s[1..])
  }

  /** Its only whitespace is single `' '` characters (it may have one at either end). */
  predicate SingleSpaces(s: string)
  {
    && (forall k :: 0 <= k < |s| && IsSpace(s[k]) ==> s[k] == ' ')
    && (forall k {:trigger s[k]} :: 0 <= k < |s| - 1 ==> !(s[k] == ' ' && s[k + 1] == ' '))
  }

  lemma SliceSingleSpaces(s: string, a: nat, b: nat)
    requires a <= b <= |s| && SingleSpaces(s)
    ensures SingleSpaces(s[a..b])
  {
    var t := s[a..b];
    forall k | 0 <= k < |t| ensures t[k] == s[a + k] { }
  }

  /** Stripping a collapsed string leaves it single-spaced. */
  lemma StripCollapsedIsSingleSpaced(s: string)
    ensures SingleSpaced(Strip(CollapseSpaces(s)))
  {
    StripSingleSpaces(CollapseSpaces(s));
  }

  /** Stripping a string whose whitespace is single spaces leaves it single-spaced. */
  lemma StripSingleSpaces(c: string)
    requires SingleSpaces(c)
    ensures SingleSpaced(Strip(c))
  {
    var r := Strip(c);
    var a := StripOffset(c);
    SliceSingleSpaces(c, a, a + |r|);
    UnpaddedSingleSpaces(r);
  }

  /** Where the stripped string starts in `s`. */
  lemma StripOffset(s: string) returns (a: nat)
    ensures a + |Strip(s)| <= |s| && Strip(s) == s[a..a + |Strip(s)|]
  {
    a := |s| - |LStrip(s)|;
  }

  lemma UnpaddedSingleSpaces(r: string)
    requires SingleSpaces(r) && (r != [] ==> !IsSpace(r[0]) && !IsSpace(r[|r| - 1]))
    ensures SingleSpaced(r)
  {
  }

  /** A string whose whitespace is already single `' '` characters is its own collapse. */
  lemma {:induction false} CollapseSingleSpaces(s: string)
    requires SingleSpaces(s)
    ensures CollapseSpaces(s) == s
    decreases |s|
  {
    if s != [] {
      SliceSingleSpaces(s, 1, |s|);
      CollapseSingleSpaces(s[1..]);
      CollapseHead(s);
    }
  }

  /** A single-spaced string collapses character by character from its head. */
  lemma CollapseHead(s: string)
    requires s != [] && SingleSpaces(s)
    ensures CollapseSpaces(s) == [s[0]] + CollapseSpaces(s[1..])
  {
    if IsSpace(s[0]) {
      var t := s[1..];
      assert t != [] ==> t[0] == s[1];
      assert LStrip(s) == LStrip(t) == t;
    }
  }

  /** A string without whitespace at its ends is its own strip. */
  lemma StripUnpadded(s: string)
    requires s != [] ==> !IsSpace(s[0]) && !IsSpace(s[|s| - 1])
    ensures Strip(s) == s
  {
    assert LStrip(s) == s;
    assert RStrip(s) == s;
  }

  /** Before a `y` that starts with a non-space, `lstrip` removes only part of `x`. */
  lemma {:induction false} LStripKeepsSuffix(x: string, y: string) returns (l: string)
    requires y != [] && !IsSpace(y[0])
    ensures LStrip(x + y) == l + y && |l| <= |x|
    ensures x != [] && IsSpace(x[0]) ==> |l| < |x|
    decreases |x|
  {
    if x == [] {
      assert x + y == y;
      l := [];
    } else {
      assert x + y == [x[0]] + (x[1..] + y);
      LStripCons(x[0], x[1..] + y);
      if IsSpace(x[0]) {
        l := LStripKeepsSuffix(x[1..], y);
      } else {
        l := x;
      }
    }
  }

  /** `lstrip` drops a leading space and stops at a leading non-space. */
  lemma LStripCons(c: char, t: string)
    ensures LStrip([c] + t) == if IsSpace(c) then LStrip(t) else [c] + t
  {
    assert ([c] + t)[1..] == t;
  }

  /** After an `x` that ends with a non-space, `rstrip` removes only part of `y`. */
  lemma {:induction false} RStripKeepsPrefix(x: string, y: string) returns (r: string)
    requires x != [] && !IsSpace(x[|x| - 1])
    ensures RStrip(x + y) == x + r && |r| <= |y|
    decreases |y|
  {
    if y == [] {
      assert x + y == x;
      r := [];
    } else if IsSpace(y[|y| - 1]) {
      assert (x + y)[..|x + y| - 1] == x + y[..|y| - 1];
      r := RStripKeepsPrefix(x, y[..|y| - 1]);
    } else {
      r := y;
    }
  }

  /** A run of whitespace before a non-space is stripped whole. */
  lemma {:induction false} LStripSpaces(w: string, v: string)
    requires forall k :: 0 <= k < |w| ==> IsSpace(w[k])
    requires v != [] && !IsSpace(v[0])
    ensures LStrip(w + v) == v
    decreases |w|
  {
    if w == [] {
      assert w + v == v;
    } else {
      assert (w + v)[1..] == w[1..] + v;
      LStripSpaces(w[1..], v);
    }
  }

  /** Collapsing keeps a head without whitespace as it is. */
  lemma {:induction false} CollapseNonSpacePrefix(u: string, b: string)
    requires forall k :: 0 <= k < |u| ==> !IsSpace(u[k])
    ensures CollapseSpaces(u + b) == u + CollapseSpaces(b)
    decreases |u|
  {
    if u == [] {
      assert u + b == b;
    } else {
      assert u + b == [u[0]] + (u[1..] + b);
      CollapseCons(u[0], u[1..] + b);
      CollapseNonSpacePrefix(u[1..], b);
      assert u == [u[0]] + u[1..];
    }
  }

  /** A non-space character is kept by collapsing. */
  lemma CollapseCons(c: char, b: string)
    requires !IsSpace(c)
    ensures CollapseSpaces([c] + b) == [c] + CollapseSpaces(b)
  {
    assert ([c] + b)[1..] == b;
  }

  /** The collapse of a `y` that starts with a non-space ends the collapse of `x + y`. */
  lemma {:induction false} CollapsePrefixKeeps(x: string, y: string) returns (c: string)
    requires y != [] && !IsSpace(y[0])
    ensures CollapseSpaces(x + y) == c + CollapseSpaces(y)
    decreases |x|
  {
    if x == [] {
      assert x + y == y;
      c := [];
    } else if IsSpace(x[0]) {
      var l := LStripKeepsSuffix(x, y);
      var c' := CollapsePrefixKeeps(l, y);
      c := [' '] + c';
    } else {
      assert x + y == [x[0]] + (x[1..] + y);
      CollapseCons(x[0], x[1..] + y);
      var c' := CollapsePrefixKeeps(x[1..], y);
      c := [x[0]] + c';
    }
  }

  // ---------------------------------------------------------------------------
  // Splitting and joining
  // ---------------------------------------------------------------------------

  /** The leading run of non-whitespace characters of `s`. */
  function TakeWord(s: string): (w: string)
    ensures |w| <= |s| && w == s[..|w|]
    ensures s != [] && !IsSpace(s[0]) ==> w != []
  {
    if s == [] || IsSpace(s[0]) then [] else [s[0]] + TakeWord(s[1..])
  }

  /** `str.split()` with no argument: the maximal runs of non-whitespace characters. */
  function Words(s: string): seq<string>
    decreases |s|
  {
    var t := LStrip(s);
    if t == [] then []
    else
      var w := TakeWord(t);
      [w] + Words(t[|w|..])
  }

  /** `str.split(sep)` for a one-character separator; there is always at least one piece. */
  function SplitOn(s: string, sep: char): (r: seq<string>)
    ensures |r| >= 1
    ensures forall i, k :: 0 <= i < |r| && 0 <= k < |r[i]| ==> r[i][k] != sep
  {
    if s == [] then [[]]
    else
      var rest := SplitOn(s[1..], sep);
      if s[0] == sep then [[]] + rest else [[s[0]] + rest[0]] + rest[1..]
  }

  /** `sep.join(parts)`. */
  function Join(sep: string, parts: seq<string>): string
  {
    if parts == [] then []
    else if |parts| == 1 then parts[0]
    else parts[0] + sep + Join(sep, parts[1..])
  }

  /** Joining the pieces of a split with the separator gives the text back. */
  lemma {:induction false} JoinSplit(s: string, sep: char)
    ensures Join([sep], SplitOn(s, sep)) == s
  {
    if s != [] {
      JoinSplit(s[1..], sep);
      var rest := SplitOn(s[1..], sep);
      if s[0] == sep {
        assert SplitOn(s, sep) == [[]] + rest;
        assert Join([sep], [[]] + rest) == [] + [sep] + Join([sep], rest);
      } else {
        if |rest| == 1 {
          assert SplitOn(s, sep) == [[s[0]] + rest[0]];
        } else {
          assert ([[s[0]] + rest[0]] + rest[1..])[1..] == rest[1..];
          assert Join([sep], rest) == rest[0] + [sep] + Join([sep], rest[1..]);
        }
      }
    }
  }

  /** Python's `sub in s`. */
  predicate Contains(s: string, sub: string)
    decreases |s|
  {
    |sub| <= |s| && (s[..|sub|] == sub || Contains(s[1..], sub))
  }

  /** An occurrence at any offset makes `sub in s` true. */
  lemma {:induction false} ContainsAt(s: string, i: nat, sub: string)
    requires i + |sub| <= |s| && s[i..i + |sub|] == sub
    ensures Contains(s, sub)
  {
    if i > 0 {
      assert s[1..][i - 1..i - 1 + |sub|] == s[i..i + |sub|];
      ContainsAt(s[1..], i - 1, sub);
    }
  }

  /** A character of `sub` that `s` lacks rules out `sub in s`. */
  lemma {:induction false} NotContainsMissingChar(s: string, sub: string, k: nat)
    requires k < |sub| && sub[k] !in s
    ensures !Contains(s, sub)
    decreases |s|
  {
    if |sub| <= |s| {
      assert s[..|sub|][k] == s[k];
      NotContainsMissingChar(s[1..], sub, k);
    }
  }

  predicate StartsWith(s: string, p: string) { |p| <= |s| && s[..|p|] == p }

  predicate EndsWith(s: string, p: string) { |p| <= |s| && s[|s| - |p|..] == p }

  /** `str.isupper()` over the ASCII letters: some letter is cased and none is lower-case. */
  predicate IsUpperPy(s: string)
  {
    (exists k :: 0 <= k < |s| && IsAsciiLetter(s[k])) && (forall k :: 0 <= k < |s| ==> !IsAsciiLower(s[k]))
  }
}

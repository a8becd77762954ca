/** Which lines the medication-line patterns accept, and what they read from them.

    A line built from well-formed pieces — a six-digit code, a name, price tokens,
    a category letter and a margin, each separated from the next by one space — is
    accepted by the pattern written for that layout, and the fields it returns are
    those pieces: the code and the name as written, each price and the margin as the
    decimal its digits spell. The name may contain spaces and digits, as long as no
    word after its first one opens with a decimal number (`\d+[,\.]`); otherwise the
    lazy name group can stop at that word instead. */
module Acceptance {

  import opened Wrappers
  import opened Text
  import opened Prices
  import opened Tokens
  import opened Names
  import opened Patterns

  // ---------------------------------------------------------------------------
  // Pieces of a line
  // ---------------------------------------------------------------------------

  /** `x` occurs in `s` at offset `i`. */
  predicate At(s: string, i: nat, x: string)
  {
    i + |x| <= |s| && s[i..i + |x|] == x
  }

  lemma AtChar(s: string, i: nat, x: string, m: nat)
    requires At(s, i, x) && m < |x|
    ensures s[i + m] == x[m]
  {
    assert s[i..i + |x|][m] == s[i + m];
  }

  /** `p` is, as a whole, a `\d+[,\.]\d+` token; its separator is where its leading
      digits end. */
  predicate IsNumberText(p: string)
  {
    var k := SkipWhile(p, 0, IsDigit);
    0 < k && k + 1 < |p| && IsDecimalSep(p[k]) && AllDigitsIn(p, k + 1, |p|)
  }

  /** `p` is, as a whole, a `\d{1,3}[,\.]\d{3}` price. */
  predicate IsPrice3Text(p: string)
  {
    IsNumberText(p) && SkipWhile(p, 0, IsDigit) <= 3 && |p| == SkipWhile(p, 0, IsDigit) + 4
  }

  /** `p` is, as a whole, a `\d[,\.]\d{3}` margin. */
  predicate IsMarginText(p: string)
  {
    IsNumberText(p) && SkipWhile(p, 0, IsDigit) == 1 && |p| == 5
  }

  predicate IsTokenText(p: string, form: PriceForm)
  {
    match form
    case ThreeDecimals => IsPrice3Text(p)
    case AnyDecimals => IsNumberText(p)
  }

  /** The token that spans the piece `p` written at offset `o`. */
  function TokenOf(o: nat, p: string): Token
  {
    Token(o, o + SkipWhile(p, 0, IsDigit), o + |p|)
  }

  /** The decimal the piece `p` spells (zero when `p` is no number). */
  function TextValue(p: string): Decimal
  {
    if IsNumberText(p) then Value(p, TokenOf(0, p)) else Decimal(0, 0)
  }

  /** A token read where the piece `p` is written has the value of `p`. */
  lemma ValueOfPiece(s: string, o: nat, p: string)
    requires At(s, o, p) && IsNumberText(p)
    ensures ValidToken(s, TokenOf(o, p)) && Value(s, TokenOf(o, p)) == TextValue(p)
  {
    var k := SkipWhile(p, 0, IsDigit);
    AtChar(s, o, p, k);
    assert AllDigitsIn(s, o, o + k) by {
      forall m | o <= m < o + k ensures IsDigit(s[m]) {
        AtChar(s, o, p, m - o);
      }
    }
    assert AllDigitsIn(s, o + k + 1, o + |p|) by {
      forall m | o + k + 1 <= m < o + |p| ensures IsDigit(s[m]) {
        AtChar(s, o, p, m - o);
      }
    }
    assert s[o..o + k] == p[0..k];
    assert s[o + k + 1..o + |p|] == p[k + 1..|p|];
    assert TokenDigits(s, TokenOf(o, p)) == TokenDigits(p, TokenOf(0, p));
  }

  /** Where a price piece is written, and no digit follows it, the price recogniser
      reads exactly that piece. */
  lemma PriceFound(s: string, o: nat, p: string, form: PriceForm)
    requires At(s, o, p) && IsTokenText(p, form) && NoDigitAt(s, o + |p|)
    ensures PriceAt(s, o, form) == Some(TokenOf(o, p))
    ensures ValidToken(s, TokenOf(o, p)) && Value(s, TokenOf(o, p)) == TextValue(p)
  {
    ValueOfPiece(s, o, p);
    var t := TokenOf(o, p);
    assert t.end == o + |p|;
    if form == AnyDecimals {
      NumberReads(s, t);
    } else {
      Price3Reads(s, t);
    }
  }

  /** `\d{1,3}[,\.]\d{3}` reads any token of that shape where it starts. */
  lemma Price3Reads(s: string, t: Token)
    requires ValidToken(s, t) && Millimes(t) && t.sep <= t.start + 3
    ensures Price3(s, t.start) == Some(t)
  {
    SkipWhileAt(s, t.start, IsDigit, t.sep);
  }

  /** `\d+[,\.]\d+` reads any token not followed by a digit where it starts. */
  lemma NumberReads(s: string, t: Token)
    requires ValidToken(s, t) && (t.end < |s| ==> !IsDigit(s[t.end]))
    ensures Number(s, t.start) == Some(t)
  {
    SkipWhileAt(s, t.start, IsDigit, t.sep);
    SkipWhileAt(s, t.sep + 1, IsDigit, t.end);
  }

  /** Where a margin piece is written, the margin recogniser reads exactly that piece. */
  lemma MarginFound(s: string, o: nat, p: string)
    requires At(s, o, p) && IsMarginText(p)
    ensures Margin(s, o) == Some(TokenOf(o, p))
    ensures ValidToken(s, TokenOf(o, p)) && Value(s, TokenOf(o, p)) == TextValue(p)
  {
    AtChar(s, o, p, 1);
    ValueOfPiece(s, o, p);
  }


  /** `s[i]` is not a digit, or `i` is the end of `s`. */
  predicate NoDigitAt(s: string, i: nat)
  {
    i < |s| ==> !IsDigit(s[i])
  }

  /** With a space at `q` and the piece `x` after it, where the next space falls. */
  function Next(q: nat, x: string): nat
  {
    q + 1 + |x|
  }

  /** A space at `q`, then the piece `x`. */
  predicate SpaceThen(s: string, q: nat, x: string)
  {
    At(s, q + 1, x) && s[q] == ' '
  }

  /** A string that begins with `a`, a space and `x` has `x` after a space at `|a|`, and begins with `a`. */
  lemma Joined(a: string, x: string, s: string)
    requires a + " " + x <= s
    ensures SpaceThen(s, |a|, x) && a <= s
  {
    var t := a + " " + x;
    assert s[..|t|] == t;
    assert s[|a| + 1..|a| + 1 + |x|] == t[|a| + 1..|t|] == x;
    assert s[..|a|] == t[..|a|] == a;
  }

  /** A string that begins with `a` has `a` at 0. */
  lemma Begins(a: string, s: string)
    requires a <= s
    ensures At(s, 0, a)
  {
  }

  lemma AtHead(s: string, i: nat, x: string)
    requires At(s, i, x) && x != []
    ensures s[i] == x[0]
  {
    assert s[i..i + |x|][0] == s[i];
  }

  /** One space before a non-space character is the whole whitespace run. */
  lemma OneSpace(s: string, i: nat)
    requires i + 1 < |s| && s[i] == ' ' && !IsSpace(s[i + 1])
    ensures Spaces1(s, i) == Some(i + 1) && SkipSpaces(s, i) == i + 1
  {
    SkipWhileAt(s, i, IsSpace, i + 1);
  }

  /** A space, then a price piece not followed by a digit: one whitespace run, and
      the price is read where the piece starts and ends where it ends. */
  lemma PriceRead(s: string, q: nat, a: nat, p: string, form: PriceForm)
    requires a == Next(q, p) && SpaceThen(s, q, p) && IsTokenText(p, form) && NoDigitAt(s, a)
    ensures q < |s| && Spaces1(s, q) == Some(q + 1)
    ensures PriceAt(s, q + 1, form) == Some(TokenOf(q + 1, p)) && TokenOf(q + 1, p).end == a <= |s|
  {
    AtHead(s, q + 1, p);
    OneSpace(s, q);
    PriceFound(s, q + 1, p, form);
  }

  lemma PricesCons(s: string, j: nat, n: nat, form: PriceForm, t: Token, rest: seq<Token>)
    requires n >= 1 && j < |s| && Spaces1(s, j) == Some(j + 1) && PriceAt(s, j + 1, form) == Some(t)
    requires t.end <= |s| && SpacedPrices(s, t.end, n - 1, form) == Some(rest)
    ensures SpacedPrices(s, j, n, form) == Some([t] + rest)
  {
  }

  /** ` p1 p2` after `q`, then a non-digit or the end: the two prices are read. */
  lemma TwoPrices(s: string, q: nat, a: nat, b: nat, p1: string, p2: string, form: PriceForm)
    requires IsTokenText(p1, form) && IsTokenText(p2, form)
    requires a == Next(q, p1) && b == Next(a, p2)
    requires SpaceThen(s, q, p1) && SpaceThen(s, a, p2) && NoDigitAt(s, b)
    ensures SpacedPrices(s, q, 2, form) == Some([TokenOf(q + 1, p1), TokenOf(a + 1, p2)])
  {
    PriceRead(s, q, a, p1, form);
    PriceRead(s, a, b, p2, form);
    TwoCons(s, q, a, b, TokenOf(q + 1, p1), TokenOf(a + 1, p2), form);
  }

  /** ` p1 p2 p3` after `q`, then a non-digit or the end: the three prices are read. */
  lemma ThreePrices(s: string, q: nat, a: nat, b: nat, c: nat, p1: string, p2: string, p3: string, form: PriceForm)
    requires IsTokenText(p1, form) && IsTokenText(p2, form) && IsTokenText(p3, form)
    requires a == Next(q, p1) && b == Next(a, p2) && c == Next(b, p3)
    requires SpaceThen(s, q, p1) && SpaceThen(s, a, p2) && SpaceThen(s, b, p3) && NoDigitAt(s, c)
    ensures SpacedPrices(s, q, 3, form) == Some([TokenOf(q + 1, p1), TokenOf(a + 1, p2), TokenOf(b + 1, p3)])
  {
    PriceRead(s, q, a, p1, form);
    PriceRead(s, a, b, p2, form);
    PriceRead(s, b, c, p3, form);
    ThreeCons(s, q, a, b, c, TokenOf(q + 1, p1), TokenOf(a + 1, p2), TokenOf(b + 1, p3), form);
  }

  /** ` p1 p2 p3` of three-decimal prices after `q0`, then a non-digit or the end: the run
      of three is read, it ends at `q3`, and each token carries its written value. */
  lemma Price3Run(s: string, q0: nat, q1: nat, q2: nat, q3: nat, p1: string, p2: string, p3: string)
    ensures && IsPrice3Text(p1) && IsPrice3Text(p2) && IsPrice3Text(p3)
            && q1 == Next(q0, p1) && q2 == Next(q1, p2) && q3 == Next(q2, p3)
            && SpaceThen(s, q0, p1) && SpaceThen(s, q1, p2) && SpaceThen(s, q2, p3) && NoDigitAt(s, q3)
      ==> && SpacedPrices(s, q0, 3, ThreeDecimals) == Some([TokenOf(q0 + 1, p1), TokenOf(q1 + 1, p2), TokenOf(q2 + 1, p3)])
          && EndOf([TokenOf(q0 + 1, p1), TokenOf(q1 + 1, p2), TokenOf(q2 + 1, p3)], q0) == q3
          && ValidToken(s, TokenOf(q0 + 1, p1)) && Value(s, TokenOf(q0 + 1, p1)) == TextValue(p1)
          && ValidToken(s, TokenOf(q1 + 1, p2)) && Value(s, TokenOf(q1 + 1, p2)) == TextValue(p2)
          && ValidToken(s, TokenOf(q2 + 1, p3)) && Value(s, TokenOf(q2 + 1, p3)) == TextValue(p3)
  {
    if && IsPrice3Text(p1) && IsPrice3Text(p2) && IsPrice3Text(p3)
       && q1 == Next(q0, p1) && q2 == Next(q1, p2) && q3 == Next(q2, p3)
       && SpaceThen(s, q0, p1) && SpaceThen(s, q1, p2) && SpaceThen(s, q2, p3) && NoDigitAt(s, q3)
    {
      ThreeValues(s, q0, q1, q2, p1, p2, p3);
      ThreePrices(s, q0, q1, q2, q3, p1, p2, p3, ThreeDecimals);
    }
  }

  /** Two prices read one after the other make a run of two. */
  lemma TwoCons(s: string, q: nat, a: nat, b: nat, t1: Token, t2: Token, form: PriceForm)
    requires q < |s| && Spaces1(s, q) == Some(q + 1) && PriceAt(s, q + 1, form) == Some(t1) && t1.end == a <= |s|
    requires a < |s| && Spaces1(s, a) == Some(a + 1) && PriceAt(s, a + 1, form) == Some(t2) && t2.end == b <= |s|
    ensures SpacedPrices(s, q, 2, form) == Some([t1, t2])
  {
    PricesCons(s, a, 1, form, t2, []);
    PricesCons(s, q, 2, form, t1, [t2] + []);
    Pair(t1, t2);
  }

  /** Three prices read one after the other make a run of three. */
  lemma ThreeCons(s: string, q: nat, a: nat, b: nat, c: nat, t1: Token, t2: Token, t3: Token, form: PriceForm)
    requires q < |s| && Spaces1(s, q) == Some(q + 1) && PriceAt(s, q + 1, form) == Some(t1) && t1.end == a <= |s|
    requires a < |s| && Spaces1(s, a) == Some(a + 1) && PriceAt(s, a + 1, form) == Some(t2) && t2.end == b <= |s|
    requires b < |s| && Spaces1(s, b) == Some(b + 1) && PriceAt(s, b + 1, form) == Some(t3) && t3.end == c <= |s|
    ensures SpacedPrices(s, q, 3, form) == Some([t1, t2, t3])
  {
    TwoCons(s, a, b, c, t2, t3, form);
    PricesCons(s, q, 3, form, t1, [t2, t3]);
    Triple(t1, t2, t3);
  }

  lemma Pair<T>(a: T, b: T)
    ensures [a] + ([b] + []) == [a, b]
  {
  }

  lemma Triple<T>(a: T, b: T, c: T)
    ensures [a] + [b, c] == [a, b, c]
  {
  }

  /** The pieces of a token carry their value where they are written. */
  lemma ThreeValues(s: string, q: nat, a: nat, b: nat, p1: string, p2: string, p3: string)
    requires IsNumberText(p1) && IsNumberText(p2) && IsNumberText(p3)
    requires At(s, q + 1, p1) && At(s, a + 1, p2) && At(s, b + 1, p3)
    ensures ValidToken(s, TokenOf(q + 1, p1)) && Value(s, TokenOf(q + 1, p1)) == TextValue(p1)
    ensures ValidToken(s, TokenOf(a + 1, p2)) && Value(s, TokenOf(a + 1, p2)) == TextValue(p2)
    ensures ValidToken(s, TokenOf(b + 1, p3)) && Value(s, TokenOf(b + 1, p3)) == TextValue(p3)
  {
    ValueOfPiece(s, q + 1, p1);
    ValueOfPiece(s, a + 1, p2);
    ValueOfPiece(s, b + 1, p3);
  }

  lemma TwoValues(s: string, q: nat, a: nat, p1: string, p2: string)
    ensures IsNumberText(p1) && IsNumberText(p2) && At(s, q + 1, p1) && At(s, a + 1, p2)
      ==> && ValidToken(s, TokenOf(q + 1, p1)) && Value(s, TokenOf(q + 1, p1)) == TextValue(p1)
          && ValidToken(s, TokenOf(a + 1, p2)) && Value(s, TokenOf(a + 1, p2)) == TextValue(p2)
  {
    if IsNumberText(p1) && IsNumberText(p2) && At(s, q + 1, p1) && At(s, a + 1, p2) {
      ValueOfPiece(s, q + 1, p1);
      ValueOfPiece(s, a + 1, p2);
    }
  }

  /** ` cat margin` after `e`: the category is the character after the first space,
      and the margin is read after the second. */
  lemma CategoryThenMargin(s: string, e: nat, f: nat, cat: char, margin: string)
    requires cat in "ABC" && IsMarginText(margin) && f == Next(e, [cat])
    requires SpaceThen(s, e, [cat]) && SpaceThen(s, f, margin)
    ensures f == e + 2 && s[e + 1] == cat
    ensures SkipSpaces(s, e) == e + 1 && SkipSpaces(s, f) == f + 1 && Spaces1(s, e) == Some(e + 1) && Spaces1(s, f) == Some(f + 1)
    ensures Margin(s, f + 1) == Some(TokenOf(f + 1, margin))
    ensures ValidToken(s, TokenOf(f + 1, margin)) && Value(s, TokenOf(f + 1, margin)) == TextValue(margin)
  {
    AtHead(s, e + 1, [cat]);
    AtHead(s, f + 1, margin);
    OneSpace(s, e);
    OneSpace(s, f);
    MarginFound(s, f + 1, margin);
  }

  /** Six digits written at `o`. */
  lemma CodeDigits(s: string, o: nat, code: string)
    requires At(s, o, code) && IsCode(code)
    ensures o + 6 <= |s| && AllDigitsIn(s, o, o + 6) && s[o..o + 6] == code
  {
    forall m | o <= m < o + 6 ensures IsDigit(s[m]) {
      AtChar(s, o, code, m - o);
    }
  }

  // ---------------------------------------------------------------------------
  // Names the lazy group reads to their end
  // ---------------------------------------------------------------------------

  /** The word at `w` opens with a decimal number: digits, then `,` or `.`. */
  predicate OpensNumber(name: string, w: nat)
    requires w <= |name|
  {
    var e := SkipWhile(name, w, IsDigit);
    w < e < |name| && IsDecimalSep(name[e])
  }

  /** No word of `name` after its first opens with a decimal number. */
  predicate NoNumberWord(name: string)
  {
    forall w :: 0 < w < |name| && IsSpace(name[w - 1]) ==> !OpensNumber(name, w)
  }

  /** A name the cleaning leaves as it is (single-spaced, no bracket at either end)
      and none of whose later words opens with a decimal number. */
  predicate PlainName(name: string)
  {
    && name != [] && SingleSpaced(name)
    && !IsBracket(name[0]) && !IsBracket(name[|name| - 1])
    && NoNumberWord(name)
  }

  /** No price is read at the start of a later word of such a name. */
  lemma NoPriceInName(s: string, o: nat, name: string, w: nat, form: PriceForm)
    requires At(s, o, name) && 0 < w < |name| && !OpensNumber(name, w)
    requires o + |name| < |s| && IsSpace(s[o + |name|])
    ensures PriceAt(s, o + w, form).None?
  {
    var e := SkipWhile(name, w, IsDigit);
    if e < |name| {
      AtChar(s, o, name, e);
    }
    forall m | o + w <= m < o + e ensures IsDigit(s[m]) {
      AtChar(s, o, name, m - o);
    }
    SkipWhileAt(s, o + w, IsDigit, o + e);
  }

  /** A run of prices needs whitespace and then a price. */
  lemma RunNeedsPrice(s: string, j: nat, n: nat, form: PriceForm)
    requires j <= |s| && n >= 1
    requires Spaces1(s, j).None? || PriceAt(s, Spaces1(s, j).value, form).None?
    ensures SpacedPrices(s, j, n, form).None?
  {
  }

  /** The cleaning of the name group leaves a record with such a name as it is. */
  lemma CleanedKeeps(f: Fields)
    requires PlainName(f.name)
    ensures Cleaned(Some(f)) == Some(f)
  {
    CleanNameFixpoints(f.name);
  }

  /** No run of prices starts inside a name at the head of the line. */
  lemma NoRunInName(s: string, name: string, q: nat, n: nat, form: PriceForm)
    ensures && At(s, 0, name) && PlainName(name) && q == |name| && q < |s| && IsSpace(s[q]) && n >= 1
      ==> forall k :: 1 <= k < q ==> SpacedPrices(s, k, n, form).None?
  {
    if && At(s, 0, name) && PlainName(name) && q == |name| && q < |s| && IsSpace(s[q]) && n >= 1
    {
      forall k | 1 <= k < q ensures SpacedPrices(s, k, n, form).None? {
        NoPricesInName(s, 0, name, q, k, n, form);
      }
    }
  }

  /** A run of prices never starts inside such a name, so the lazy name group does
      not stop before the name's end `q`. */
  lemma NoPricesInName(s: string, o: nat, name: string, q: nat, j: nat, n: nat, form: PriceForm)
    requires At(s, o, name) && PlainName(name) && q == o + |name| && o < j < q
    requires q < |s| && IsSpace(s[q]) && n >= 1
    ensures SpacedPrices(s, j, n, form).None?
  {
    if IsSpace(s[j]) {
      var a := SkipSpaces(s, j);
      AtChar(s, o, name, |name| - 1);
      assert a < q;
      AtChar(s, o, name, a - o - 1);
      NoPriceInName(s, o, name, a - o, form);
    }
    RunNeedsPrice(s, j, n, form);
  }

  // ---------------------------------------------------------------------------
  // Pattern 1
  // ---------------------------------------------------------------------------

  /** The fields a fully laid-out line carries. */
  function Expected(code: Option<string>, name: string, p1: string, p2: string, p3: Option<string>, cat: Option<char>, margin: Option<string>): Fields
  {
    Fields(code, name, TextValue(p1), TextValue(p2), if p3.Some? then Some(TextValue(p3.value)) else None,
           cat, if margin.Some? then Some(TextValue(margin.value)) else None)
  }

  /** A line laid out as pattern 1 expects it — a code, a name, three prices, a
      category and a margin, one space apart — gives exactly those fields. */
  lemma Pattern1Accepts(code: string, name: string, p1: string, p2: string, p3: string, cat: char, margin: string)
    requires IsCode(code) && PlainName(name) && cat in "ABC"
    requires IsPrice3Text(p1) && IsPrice3Text(p2) && IsPrice3Text(p3) && IsMarginText(margin)
    ensures Pattern1(code + " " + name + " " + p1 + " " + p2 + " " + p3 + " " + [cat] + " " + margin)
      == Some(Expected(Some(code), name, p1, p2, Some(p3), Some(cat), Some(margin)))
  {
    var s := code + " " + name + " " + p1 + " " + p2 + " " + p3 + " " + [cat] + " " + margin;
    var q1 := Next(6, name);
    var q2 := Next(q1, p1);
    var q3 := Next(q2, p2);
    var q4 := Next(q3, p3);
    var q5 := Next(q4, [cat]);
    Line1Layout(code, name, p1, p2, p3, cat, margin, q1, q2, q3, q4, q5);
    Pattern1Laid(s, code, name, p1, p2, p3, cat, margin, q1, q2, q3, q4, q5);
  }

  lemma Line1Layout(code: string, name: string, p1: string, p2: string, p3: string, cat: char, margin: string,
                    q1: nat, q2: nat, q3: nat, q4: nat, q5: nat)
    requires |code| == 6
    requires q1 == Next(6, name) && q2 == Next(q1, p1) && q3 == Next(q2, p2) && q4 == Next(q3, p3) && q5 == Next(q4, [cat])
    ensures At(code + " " + name + " " + p1 + " " + p2 + " " + p3 + " " + [cat] + " " + margin, 0, code)
    ensures SpaceThen(code + " " + name + " " + p1 + " " + p2 + " " + p3 + " " + [cat] + " " + margin, 6, name)
    ensures SpaceThen(code + " " + name + " " + p1 + " " + p2 + " " + p3 + " " + [cat] + " " + margin, q1, p1)
    ensures SpaceThen(code + " " + name + " " + p1 + " " + p2 + " " + p3 + " " + [cat] + " " + margin, q2, p2)
    ensures SpaceThen(code + " " + name + " " + p1 + " " + p2 + " " + p3 + " " + [cat] + " " + margin, q3, p3)
    ensures SpaceThen(code + " " + name + " " + p1 + " " + p2 + " " + p3 + " " + [cat] + " " + margin, q4, [cat])
    ensures SpaceThen(code + " " + name + " " + p1 + " " + p2 + " " + p3 + " " + [cat] + " " + margin, q5, margin)
  {
    var s1 := code + " " + name;
    var s2 := s1 + " " + p1;
    var s3 := s2 + " " + p2;
    var s4 := s3 + " " + p3;
    var s5 := s4 + " " + [cat];
    var s := s5 + " " + margin;
    Joined(s5, margin, s);
    Joined(s4, [cat], s);
    Joined(s3, p3, s);
    Joined(s2, p2, s);
    Joined(s1, p1, s);
    Joined(code, name, s);
    Begins(code, s);
  }

  lemma Pattern1Laid(s: string, code: string, name: string, p1: string, p2: string, p3: string, cat: char, margin: string,
                     q1: nat, q2: nat, q3: nat, q4: nat, q5: nat)
    requires IsCode(code) && PlainName(name) && cat in "ABC"
    requires IsPrice3Text(p1) && IsPrice3Text(p2) && IsPrice3Text(p3) && IsMarginText(margin)
    requires q1 == Next(6, name) && q2 == Next(q1, p1) && q3 == Next(q2, p2) && q4 == Next(q3, p3) && q5 == Next(q4, [cat])
    requires At(s, 0, code) && SpaceThen(s, 6, name) && SpaceThen(s, q1, p1) && SpaceThen(s, q2, p2) && SpaceThen(s, q3, p3)
    requires SpaceThen(s, q4, [cat]) && SpaceThen(s, q5, margin)
    ensures Pattern1(s) == Some(Expected(Some(code), name, p1, p2, Some(p3), Some(cat), Some(margin)))
  {
    var f := Expected(Some(code), name, p1, p2, Some(p3), Some(cat), Some(margin));
    Pattern1Fields(s, code, name, p1, p2, p3, cat, margin, q1, q2, q3, q4, q5);
    AtHead(s, 7, name);
    OneSpace(s, 6);
    CodeDigits(s, 0, code);
    forall k | 8 <= k < q1 ensures SpacedPrices(s, k, 3, ThreeDecimals).None? {
      NoPricesInName(s, 7, name, q1, k, 3, ThreeDecimals);
    }
    Pattern1From(s, q1, f);
    CleanNameFixpoints(name);
  }

  /** With the name in `[7, q1)`, pattern 1 reads the prices, category and margin the
      line carries after it. */
  lemma Pattern1Fields(s: string, code: string, name: string, p1: string, p2: string, p3: string, cat: char, margin: string,
                       q1: nat, q2: nat, q3: nat, q4: nat, q5: nat)
    requires IsCode(code) && name != [] && cat in "ABC"
    requires IsPrice3Text(p1) && IsPrice3Text(p2) && IsPrice3Text(p3) && IsMarginText(margin)
    requires q1 == Next(6, name) && q2 == Next(q1, p1) && q3 == Next(q2, p2) && q4 == Next(q3, p3) && q5 == Next(q4, [cat])
    requires At(s, 0, code) && SpaceThen(s, 6, name) && SpaceThen(s, q1, p1) && SpaceThen(s, q2, p2) && SpaceThen(s, q3, p3)
    requires SpaceThen(s, q4, [cat]) && SpaceThen(s, q5, margin)
    ensures Pattern1Name(s, 0, 7, q1) == Some(Expected(Some(code), name, p1, p2, Some(p3), Some(cat), Some(margin)))
  {
    Pattern1Pieces(s, p1, p2, p3, cat, margin, q1, q2, q3, q4, q5);
    Pattern1Values(s, code, name, p1, p2, p3, cat, margin, q1, q2, q3);
    Pattern1NameAt(s, q1, [TokenOf(q1 + 1, p1), TokenOf(q2 + 1, p2), TokenOf(q3 + 1, p3)], cat,
      TextValue(margin), Expected(Some(code), name, p1, p2, Some(p3), Some(cat), Some(margin)));
  }

  /** The prices and the tail pattern 1 reads after the name. */
  lemma Pattern1Pieces(s: string, p1: string, p2: string, p3: string, cat: char, margin: string,
                       q1: nat, q2: nat, q3: nat, q4: nat, q5: nat)
    requires cat in "ABC" && IsPrice3Text(p1) && IsPrice3Text(p2) && IsPrice3Text(p3) && IsMarginText(margin)
    requires q2 == Next(q1, p1) && q3 == Next(q2, p2) && q4 == Next(q3, p3) && q5 == Next(q4, [cat])
    requires SpaceThen(s, q1, p1) && SpaceThen(s, q2, p2) && SpaceThen(s, q3, p3)
    requires SpaceThen(s, q4, [cat]) && SpaceThen(s, q5, margin)
    ensures SpacedPrices(s, q1, 3, ThreeDecimals) == Some([TokenOf(q1 + 1, p1), TokenOf(q2 + 1, p2), TokenOf(q3 + 1, p3)])
    ensures Pattern1Tail(s, EndOf([TokenOf(q1 + 1, p1), TokenOf(q2 + 1, p2), TokenOf(q3 + 1, p3)], q1)) == (Some(cat), Some(TextValue(margin)))
  {
    ThreePrices(s, q1, q2, q3, q4, p1, p2, p3, ThreeDecimals);
    Pattern1TailOf(s, q4, q5, cat, margin);
    assert EndOf([TokenOf(q1 + 1, p1), TokenOf(q2 + 1, p2), TokenOf(q3 + 1, p3)], q1) == q4;
  }

  /** The fields pattern 1 reads off those pieces are the expected ones. */
  lemma Pattern1Values(s: string, code: string, name: string, p1: string, p2: string, p3: string, cat: char, margin: string,
                       q1: nat, q2: nat, q3: nat)
    requires IsCode(code) && IsPrice3Text(p1) && IsPrice3Text(p2) && IsPrice3Text(p3)
    requires q1 == Next(6, name) && At(s, 0, code) && SpaceThen(s, 6, name)
    requires SpaceThen(s, q1, p1) && SpaceThen(s, q2, p2) && SpaceThen(s, q3, p3)
    ensures ValidToken(s, TokenOf(q1 + 1, p1)) && ValidToken(s, TokenOf(q2 + 1, p2)) && ValidToken(s, TokenOf(q3 + 1, p3))
    ensures 6 <= |s| && 7 <= q1 <= |s| && AllDigitsIn(s, 0, 6)
    ensures Expected(Some(code), name, p1, p2, Some(p3), Some(cat), Some(margin))
      == Fields(Some(s[0..6]), s[7..q1], Value(s, TokenOf(q1 + 1, p1)), Value(s, TokenOf(q2 + 1, p2)),
                Some(Value(s, TokenOf(q3 + 1, p3))), Some(cat), Some(TextValue(margin)))
  {
    ThreeValues(s, q1, q2, q3, p1, p2, p3);
    CodeDigits(s, 0, code);
    assert s[7..q1] == name;
  }

  /** Pattern 1 with the code at 0 and the name in `[7, j)`, read off the offsets where
      its pieces were found. */
  lemma Pattern1NameAt(s: string, j: nat, ts: seq<Token>, cat: char, mv: Decimal, f: Fields)
    requires 7 < j <= |s| && 6 <= |s| && AllDigitsIn(s, 0, 6)
    requires SpacedPrices(s, j, 3, ThreeDecimals) == Some(ts)
    requires Pattern1Tail(s, EndOf(ts, j)) == (Some(cat), Some(mv))
    requires f == Fields(Some(s[0..6]), s[7..j], Value(s, ts[0]), Value(s, ts[1]),
      Some(Value(s, ts[2])), Some(cat), Some(mv))
    ensures Pattern1Name(s, 0, 7, j) == Some(f)
  {
  }

  /** The category at `c` and the margin at `m`, each after a run of blanks, are what
      Pattern 1 reports after its prices. */
  lemma Pattern1TailOf(s: string, e: nat, f: nat, cat: char, margin: string)
    requires cat in "ABC" && IsMarginText(margin) && f == Next(e, [cat])
    requires SpaceThen(s, e, [cat]) && SpaceThen(s, f, margin)
    ensures Pattern1Tail(s, e) == (Some(cat), Some(TextValue(margin)))
  {
    CategoryThenMargin(s, e, f, cat, margin);
    Pattern1TailAt(s, e, e + 1, f + 1, TokenOf(f + 1, margin));
  }

  lemma Pattern1TailAt(s: string, e: nat, c: nat, m: nat, tm: Token)
    requires e <= |s| && SkipSpaces(s, e) == c && c < |s| && s[c] in "ABC"
    requires SkipSpaces(s, c + 1) == m && Margin(s, m) == Some(tm)
    ensures Pattern1Tail(s, e) == (Some(s[c]), Some(Value(s, tm)))
  {
    Pattern1TailCategory(s, e, c);
    Pattern1TailMargin(s, e, c, m);
    MarginReported(s, m, tm);
  }

  /** The category Pattern 1 reports is the letter after the blanks. */
  lemma Pattern1TailCategory(s: string, e: nat, c: nat)
    requires e <= |s| && SkipSpaces(s, e) == c && c < |s| && s[c] in "ABC"
    ensures Pattern1Tail(s, e).0 == Some(s[c])
  {
  }

  /** After a category letter, Pattern 1 looks for the margin past the next blanks. */
  lemma Pattern1TailMargin(s: string, e: nat, c: nat, m: nat)
    requires e <= |s| && SkipSpaces(s, e) == c && c < |s| && s[c] in "ABC"
    requires SkipSpaces(s, c + 1) == m && m <= |s|
    ensures Pattern1Tail(s, e).1 == OptionalValue(s, Margin(s, m))
  {
  }

  /** A margin token that was found is reported with its value. */
  lemma MarginReported(s: string, m: nat, tm: Token)
    requires m <= |s| && Margin(s, m) == Some(tm)
    ensures OptionalValue(s, Margin(s, m)) == Some(Value(s, tm))
  {
  }

  /** Pattern 1 finds the code at the start of the line and the name in `[7, j)`, when
      no run of prices starts inside the name. */
  lemma Pattern1From(s: string, j: nat, f: Fields)
    requires 7 < j <= |s| && AllDigitsIn(s, 0, 6) && Spaces1(s, 6) == Some(7)
    requires Pattern1Name(s, 0, 7, j) == Some(f)
    requires forall k :: 8 <= k < j ==> SpacedPrices(s, k, 3, ThreeDecimals).None?
    ensures Pattern1(s) == Cleaned(Some(f))
  {
    forall k | 8 <= k < j ensures Pattern1Name(s, 0, 7, k).None? {
      assert SpacedPrices(s, k, 3, ThreeDecimals).None?;
    }
    FirstSomeIs(k => Pattern1Name(s, 0, 7, k), 8, |s|, j);
    assert Pattern1At(s, 0) == Some(f);
    FirstSomeIs(i => Pattern1At(s, i), 0, |s|, 0);
  }

  // ---------------------------------------------------------------------------
  // Lines that open with the name
  // ---------------------------------------------------------------------------

  /** ` code` after `g`, and nothing after it. */
  lemma CodeAfter(s: string, g: nat, code: string)
    requires IsCode(code) && SpaceThen(s, g, code) && Next(g, code) == |s|
    ensures SkipSpaces(s, g) == g + 1 && CodeAtEnd(s, g + 1) && s[g + 1..g + 1 + 6] == code
  {
    AtHead(s, g + 1, code);
    OneSpace(s, g);
    CodeDigits(s, g + 1, code);
  }

  /** ` margin code` after `f`: the margin, and where the code starts. */
  lemma MarginThenCodeAt(s: string, f: nat, g: nat, margin: string, code: string)
    requires IsMarginText(margin) && IsCode(code) && g == Next(f, margin) && Next(g, code) == |s|
    requires SpaceThen(s, f, margin) && SpaceThen(s, g, code)
    ensures MarginThenCode(s, f + 1) == Some((TokenOf(f + 1, margin), g + 1))
    ensures ValidToken(s, TokenOf(f + 1, margin)) && Value(s, TokenOf(f + 1, margin)) == TextValue(margin)
  {
    MarginFound(s, f + 1, margin);
    CodeAfter(s, g, code);
  }

  /** ` cat margin code` after `e`: what the tail of pattern 2 reads. */
  lemma Pattern2TailAt(s: string, e: nat, f: nat, g: nat, cat: char, margin: string, code: string)
    requires cat in "ABC" && IsMarginText(margin) && IsCode(code)
    requires f == Next(e, [cat]) && g == Next(f, margin) && Next(g, code) == |s|
    requires SpaceThen(s, e, [cat]) && SpaceThen(s, f, margin) && SpaceThen(s, g, code)
    ensures Pattern2Tail(s, e) == Some((cat, TokenOf(f + 1, margin), g + 1))
    ensures ValidToken(s, TokenOf(f + 1, margin)) && Value(s, TokenOf(f + 1, margin)) == TextValue(margin)
  {
    CategoryAfter(s, e, cat);
    MarginCodeAfter(s, f, g, margin, code);
    assert f == e + 2;
    Pattern2TailOf(s, e, TokenOf(f + 1, margin), g + 1);
  }

  /** ` cat` after `e`: the bracket-or-space run ends at the category. */
  lemma CategoryAfter(s: string, e: nat, cat: char)
    requires SpaceThen(s, e, [cat]) && cat in "ABC"
    ensures e + 1 < |s| && SkipWhile(s, e, IsBracketOrSpace) == e + 1 && s[e + 1] == cat
  {
    AtHead(s, e + 1, [cat]);
    SkipWhileAt(s, e, IsBracketOrSpace, e + 1);
  }

  /** ` margin code` after `f`, with no opening bracket and no flag digit: what the
      margin part of pattern 2's tail reads. */
  lemma MarginCodeAfter(s: string, f: nat, g: nat, margin: string, code: string)
    requires IsMarginText(margin) && IsCode(code) && g == Next(f, margin) && Next(g, code) == |s|
    requires SpaceThen(s, f, margin) && SpaceThen(s, g, code)
    ensures f + 1 < |s| && SkipWhile(s, f, IsUnderscoreOrSpace) == f + 1 && s[f + 1] !in "{["
    ensures MarginThenCode(s, f + 2).None?
    ensures MarginThenCode(s, f + 1) == Some((TokenOf(f + 1, margin), g + 1))
    ensures ValidToken(s, TokenOf(f + 1, margin)) && Value(s, TokenOf(f + 1, margin)) == TextValue(margin)
  {
    AtHead(s, f + 1, margin);
    SkipWhileAt(s, f, IsUnderscoreOrSpace, f + 1);
    AtChar(s, f + 1, margin, 1);
    assert Margin(s, f + 2).None?;
    MarginThenCodeAt(s, f, g, margin, code);
  }

  /** A category right after `e`, then a space, and a margin with the code after it:
      pattern 2's tail reads them. */
  lemma Pattern2TailOf(s: string, e: nat, m: Token, g: nat)
    requires e + 3 < |s| && SkipWhile(s, e, IsBracketOrSpace) == e + 1 && s[e + 1] in "ABC"
    requires SkipWhile(s, e + 2, IsUnderscoreOrSpace) == e + 3 && s[e + 3] !in "{["
    requires s[e + 3] in "01" ==> MarginThenCode(s, e + 4).None?
    requires MarginThenCode(s, e + 3) == Some((m, g))
    ensures Pattern2Tail(s, e) == Some((s[e + 1], m, g))
  {
  }

  /** A line laid out as pattern 2 expects it — a name, three prices, a category, a
      margin and the code last, one space apart — gives exactly those fields. */
  lemma Pattern2Accepts(name: string, p1: string, p2: string, p3: string, cat: char, margin: string, code: string)
    requires PlainName(name) && cat in "ABC" && IsCode(code)
    requires IsPrice3Text(p1) && IsPrice3Text(p2) && IsPrice3Text(p3) && IsMarginText(margin)
    ensures Pattern2(name + " " + p1 + " " + p2 + " " + p3 + " " + [cat] + " " + margin + " " + code)
      == Some(Expected(Some(code), name, p1, p2, Some(p3), Some(cat), Some(margin)))
  {
    var s := name + " " + p1 + " " + p2 + " " + p3 + " " + [cat] + " " + margin + " " + code;
    var q0 := |name|;
    var q1 := Next(q0, p1);
    var q2 := Next(q1, p2);
    var q3 := Next(q2, p3);
    var q4 := Next(q3, [cat]);
    var q5 := Next(q4, margin);
    Line2Layout(name, p1, p2, p3, cat, margin, code, q1, q2, q3, q4, q5);
    Pattern2Laid(s, name, p1, p2, p3, cat, margin, code, q0, q1, q2, q3, q4, q5);
  }

  lemma Pattern2Laid(s: string, name: string, p1: string, p2: string, p3: string, cat: char, margin: string, code: string,
                     q0: nat, q1: nat, q2: nat, q3: nat, q4: nat, q5: nat)
    requires PlainName(name) && cat in "ABC" && IsCode(code)
    requires IsPrice3Text(p1) && IsPrice3Text(p2) && IsPrice3Text(p3) && IsMarginText(margin)
    requires q0 == |name| && q1 == Next(q0, p1) && q2 == Next(q1, p2) && q3 == Next(q2, p3) && q4 == Next(q3, [cat])
    requires q5 == Next(q4, margin) && At(s, 0, name) && SpaceThen(s, q0, p1) && SpaceThen(s, q1, p2) && SpaceThen(s, q2, p3)
    requires SpaceThen(s, q3, [cat]) && SpaceThen(s, q4, margin) && SpaceThen(s, q5, code) && Next(q5, code) == |s|
    ensures Pattern2(s) == Some(Expected(Some(code), name, p1, p2, Some(p3), Some(cat), Some(margin)))
  {
    var f := Expected(Some(code), name, p1, p2, Some(p3), Some(cat), Some(margin));
    Pattern2Pieces(s, p1, p2, p3, cat, margin, code, q0, q1, q2, q3, q4, q5);
    Pattern2Values(s, name, p1, p2, p3, cat, margin, code, q0, q1, q2, q3, q4, q5);
    NoRunInName(s, name, q0, 3, ThreeDecimals);
    Pattern2Found(s, p1, p2, p3, cat, margin, q0, q1, q2, q4, q5, f);
  }

  /** The first name end at which pattern 2 reads its parts gives the record, when
      the name is one the cleaning leaves as it is. */
  lemma Pattern2Found(s: string, p1: string, p2: string, p3: string, cat: char, margin: string,
                      q0: nat, q1: nat, q2: nat, q4: nat, q5: nat, f: Fields)
    ensures && 1 <= q0 <= |s|
            && SpacedPrices(s, q0, 3, ThreeDecimals) == Some([TokenOf(q0 + 1, p1), TokenOf(q1 + 1, p2), TokenOf(q2 + 1, p3)])
            && Pattern2Tail(s, EndOf([TokenOf(q0 + 1, p1), TokenOf(q1 + 1, p2), TokenOf(q2 + 1, p3)], q0))
               == Some((cat, TokenOf(q4 + 1, margin), q5 + 1))
            && ValidToken(s, TokenOf(q0 + 1, p1)) && ValidToken(s, TokenOf(q1 + 1, p2)) && ValidToken(s, TokenOf(q2 + 1, p3))
            && ValidToken(s, TokenOf(q4 + 1, margin))
            && f == Fields(Some(s[q5 + 1..q5 + 1 + 6]), s[..q0],
                           Value(s, [TokenOf(q0 + 1, p1), TokenOf(q1 + 1, p2), TokenOf(q2 + 1, p3)][0]),
                           Value(s, [TokenOf(q0 + 1, p1), TokenOf(q1 + 1, p2), TokenOf(q2 + 1, p3)][1]),
                           Some(Value(s, [TokenOf(q0 + 1, p1), TokenOf(q1 + 1, p2), TokenOf(q2 + 1, p3)][2])),
                           Some(cat), Some(Value(s, TokenOf(q4 + 1, margin))))
            && PlainName(f.name) && (forall k :: 1 <= k < q0 ==> SpacedPrices(s, k, 3, ThreeDecimals).None?)
      ==> Pattern2(s) == Some(f)
  {
    if && 1 <= q0 <= |s|
       && SpacedPrices(s, q0, 3, ThreeDecimals) == Some([TokenOf(q0 + 1, p1), TokenOf(q1 + 1, p2), TokenOf(q2 + 1, p3)])
       && Pattern2Tail(s, EndOf([TokenOf(q0 + 1, p1), TokenOf(q1 + 1, p2), TokenOf(q2 + 1, p3)], q0))
          == Some((cat, TokenOf(q4 + 1, margin), q5 + 1))
       && ValidToken(s, TokenOf(q0 + 1, p1)) && ValidToken(s, TokenOf(q1 + 1, p2)) && ValidToken(s, TokenOf(q2 + 1, p3))
       && ValidToken(s, TokenOf(q4 + 1, margin))
       && f == Fields(Some(s[q5 + 1..q5 + 1 + 6]), s[..q0],
                      Value(s, [TokenOf(q0 + 1, p1), TokenOf(q1 + 1, p2), TokenOf(q2 + 1, p3)][0]),
                      Value(s, [TokenOf(q0 + 1, p1), TokenOf(q1 + 1, p2), TokenOf(q2 + 1, p3)][1]),
                      Some(Value(s, [TokenOf(q0 + 1, p1), TokenOf(q1 + 1, p2), TokenOf(q2 + 1, p3)][2])),
                      Some(cat), Some(Value(s, TokenOf(q4 + 1, margin))))
       && PlainName(f.name) && (forall k :: 1 <= k < q0 ==> SpacedPrices(s, k, 3, ThreeDecimals).None?)
    {
      Pattern2NameAt(s, q0, [TokenOf(q0 + 1, p1), TokenOf(q1 + 1, p2), TokenOf(q2 + 1, p3)],
        cat, TokenOf(q4 + 1, margin), q5, f);
      Pattern2From(s, q0, f);
      CleanedKeeps(f);
    }
  }

  lemma Pattern2From(s: string, j: nat, f: Fields)
    requires 1 <= j <= |s| && Pattern2Name(s, j) == Some(f)
    requires forall k :: 1 <= k < j ==> SpacedPrices(s, k, 3, ThreeDecimals).None?
    ensures Pattern2(s) == Cleaned(Some(f))
  {
    forall k | 1 <= k < j ensures Pattern2Name(s, k).None? {
      assert SpacedPrices(s, k, 3, ThreeDecimals).None?;
    }
    FirstSomeIs(k => Pattern2Name(s, k), 1, |s|, j);
  }

  lemma Line2Layout(name: string, p1: string, p2: string, p3: string, cat: char, margin: string, code: string,
                    q1: nat, q2: nat, q3: nat, q4: nat, q5: nat)
    requires q1 == Next(|name|, p1) && q2 == Next(q1, p2) && q3 == Next(q2, p3) && q4 == Next(q3, [cat]) && q5 == Next(q4, margin)
    ensures At(name + " " + p1 + " " + p2 + " " + p3 + " " + [cat] + " " + margin + " " + code, 0, name)
    ensures SpaceThen(name + " " + p1 + " " + p2 + " " + p3 + " " + [cat] + " " + margin + " " + code, |name|, p1)
    ensures SpaceThen(name + " " + p1 + " " + p2 + " " + p3 + " " + [cat] + " " + margin + " " + code, q1, p2)
    ensures SpaceThen(name + " " + p1 + " " + p2 + " " + p3 + " " + [cat] + " " + margin + " " + code, q2, p3)
    ensures SpaceThen(name + " " + p1 + " " + p2 + " " + p3 + " " + [cat] + " " + margin + " " + code, q3, [cat])
    ensures SpaceThen(name + " " + p1 + " " + p2 + " " + p3 + " " + [cat] + " " + margin + " " + code, q4, margin)
    ensures SpaceThen(name + " " + p1 + " " + p2 + " " + p3 + " " + [cat] + " " + margin + " " + code, q5, code)
    ensures Next(q5, code) == |name + " " + p1 + " " + p2 + " " + p3 + " " + [cat] + " " + margin + " " + code|
  {
    var s1 := name + " " + p1;
    var s2 := s1 + " " + p2;
    var s3 := s2 + " " + p3;
    var s4 := s3 + " " + [cat];
    var s5 := s4 + " " + margin;
    var s := s5 + " " + code;
    Joined(s5, code, s);
    Joined(s4, margin, s);
    Joined(s3, [cat], s);
    Joined(s2, p3, s);
    Joined(s1, p2, s);
    Joined(name, p1, s);
    Begins(name, s);
  }

  /** The prices and the tail pattern 2 reads after the name. */
  lemma Pattern2Pieces(s: string, p1: string, p2: string, p3: string, cat: char, margin: string, code: string,
                       q0: nat, q1: nat, q2: nat, q3: nat, q4: nat, q5: nat)
    ensures && cat in "ABC" && IsCode(code)
            && IsPrice3Text(p1) && IsPrice3Text(p2) && IsPrice3Text(p3) && IsMarginText(margin)
            && q1 == Next(q0, p1) && q2 == Next(q1, p2) && q3 == Next(q2, p3) && q4 == Next(q3, [cat])
            && q5 == Next(q4, margin) && SpaceThen(s, q0, p1) && SpaceThen(s, q1, p2) && SpaceThen(s, q2, p3)
            && SpaceThen(s, q3, [cat]) && SpaceThen(s, q4, margin) && SpaceThen(s, q5, code) && Next(q5, code) == |s|
      ==> && SpacedPrices(s, q0, 3, ThreeDecimals) == Some([TokenOf(q0 + 1, p1), TokenOf(q1 + 1, p2), TokenOf(q2 + 1, p3)])
          && Pattern2Tail(s, EndOf([TokenOf(q0 + 1, p1), TokenOf(q1 + 1, p2), TokenOf(q2 + 1, p3)], q0)) == Some((cat, TokenOf(q4 + 1, margin), q5 + 1))
  {
    if && cat in "ABC" && IsCode(code)
       && IsPrice3Text(p1) && IsPrice3Text(p2) && IsPrice3Text(p3) && IsMarginText(margin)
       && q1 == Next(q0, p1) && q2 == Next(q1, p2) && q3 == Next(q2, p3) && q4 == Next(q3, [cat])
       && q5 == Next(q4, margin) && SpaceThen(s, q0, p1) && SpaceThen(s, q1, p2) && SpaceThen(s, q2, p3)
       && SpaceThen(s, q3, [cat]) && SpaceThen(s, q4, margin) && SpaceThen(s, q5, code) && Next(q5, code) == |s|
    {
      ThreePrices(s, q0, q1, q2, q3, p1, p2, p3, ThreeDecimals);
      Pattern2TailAt(s, q3, q4, q5, cat, margin, code);
      assert EndOf([TokenOf(q0 + 1, p1), TokenOf(q1 + 1, p2), TokenOf(q2 + 1, p3)], q0) == q3;
    }
  }

  /** The fields pattern 2 reads off those pieces are the expected ones. */
  lemma Pattern2Values(s: string, name: string, p1: string, p2: string, p3: string, cat: char, margin: string, code: string,
                       q0: nat, q1: nat, q2: nat, q3: nat, q4: nat, q5: nat)
    requires IsCode(code) && IsPrice3Text(p1) && IsPrice3Text(p2) && IsPrice3Text(p3) && IsMarginText(margin)
    requires q0 == |name| && q1 == Next(q0, p1) && q2 == Next(q1, p2)
    requires At(s, 0, name) && SpaceThen(s, q0, p1) && SpaceThen(s, q1, p2) && SpaceThen(s, q2, p3)
    requires SpaceThen(s, q4, margin) && SpaceThen(s, q5, code)
    ensures ValidToken(s, TokenOf(q0 + 1, p1)) && ValidToken(s, TokenOf(q1 + 1, p2)) && ValidToken(s, TokenOf(q2 + 1, p3))
    ensures ValidToken(s, TokenOf(q4 + 1, margin))
    ensures Expected(Some(code), name, p1, p2, Some(p3), Some(cat), Some(margin))
      == Fields(Some(s[q5 + 1..q5 + 1 + 6]), s[..q0],
                Value(s, [TokenOf(q0 + 1, p1), TokenOf(q1 + 1, p2), TokenOf(q2 + 1, p3)][0]),
                Value(s, [TokenOf(q0 + 1, p1), TokenOf(q1 + 1, p2), TokenOf(q2 + 1, p3)][1]),
                Some(Value(s, [TokenOf(q0 + 1, p1), TokenOf(q1 + 1, p2), TokenOf(q2 + 1, p3)][2])),
                Some(cat), Some(Value(s, TokenOf(q4 + 1, margin))))
  {
    ThreeValues(s, q0, q1, q2, p1, p2, p3);
    MarginValue(s, q4, margin);
    CodeSliceAt(s, q5, code);
    NameSliceAt(s, name);
  }

  lemma MarginValue(s: string, f: nat, margin: string)
    requires IsMarginText(margin) && SpaceThen(s, f, margin)
    ensures ValidToken(s, TokenOf(f + 1, margin)) && Value(s, TokenOf(f + 1, margin)) == TextValue(margin)
  {
    ValueOfPiece(s, f + 1, margin);
  }

  lemma CodeSliceAt(s: string, g: nat, code: string)
    requires IsCode(code) && SpaceThen(s, g, code)
    ensures s[g + 1..g + 1 + 6] == code
  {
  }

  lemma NameSliceAt(s: string, name: string)
    requires At(s, 0, name)
    ensures s[..|name|] == name
  {
  }

  /** Pattern 2 with the name in `[0, j)`, read off what its parts found. */
  lemma Pattern2NameAt(s: string, j: nat, ts: seq<Token>, cat: char, margin: Token, g: nat, f: Fields)
    requires 1 <= j <= |s|
    requires SpacedPrices(s, j, 3, ThreeDecimals) == Some(ts)
    requires Pattern2Tail(s, EndOf(ts, j)) == Some((cat, margin, g + 1))
    requires f == Fields(Some(s[g + 1..g + 1 + 6]), s[..j], Value(s, ts[0]), Value(s, ts[1]),
                         Some(Value(s, ts[2])), Some(cat), Some(Value(s, margin)))
    ensures Pattern2Name(s, j) == Some(f)
  {
  }

  // ---------------------------------------------------------------------------
  // Patterns 2b and 2c
  // ---------------------------------------------------------------------------

  /** A line laid out as pattern 2b expects it — a name, three prices, a dash and the
      code last, one space apart — gives exactly those fields. */
  lemma Pattern2bAccepts(name: string, p1: string, p2: string, p3: string, code: string)
    requires PlainName(name) && IsCode(code)
    requires IsPrice3Text(p1) && IsPrice3Text(p2) && IsPrice3Text(p3)
    ensures Pattern2b(name + " " + p1 + " " + p2 + " " + p3 + " " + "-" + " " + code)
      == Some(Expected(Some(code), name, p1, p2, Some(p3), None, None))
  {
    var s := name + " " + p1 + " " + p2 + " " + p3 + " " + "-" + " " + code;
    var q0 := |name|;
    var q1 := Next(q0, p1);
    var q2 := Next(q1, p2);
    var q3 := Next(q2, p3);
    var q4 := Next(q3, "-");
    Line2bLayout(name, p1, p2, p3, code, q1, q2, q3, q4);
    Pattern2bLaid(s, name, p1, p2, p3, code, q0, q1, q2, q3, q4);
  }

  lemma Line2bLayout(name: string, p1: string, p2: string, p3: string, code: string, q1: nat, q2: nat, q3: nat, q4: nat)
    requires q1 == Next(|name|, p1) && q2 == Next(q1, p2) && q3 == Next(q2, p3) && q4 == Next(q3, "-")
    ensures At(name + " " + p1 + " " + p2 + " " + p3 + " " + "-" + " " + code, 0, name)
    ensures SpaceThen(name + " " + p1 + " " + p2 + " " + p3 + " " + "-" + " " + code, |name|, p1)
    ensures SpaceThen(name + " " + p1 + " " + p2 + " " + p3 + " " + "-" + " " + code, q1, p2)
    ensures SpaceThen(name + " " + p1 + " " + p2 + " " + p3 + " " + "-" + " " + code, q2, p3)
    ensures SpaceThen(name + " " + p1 + " " + p2 + " " + p3 + " " + "-" + " " + code, q3, "-")
    ensures SpaceThen(name + " " + p1 + " " + p2 + " " + p3 + " " + "-" + " " + code, q4, code)
    ensures Next(q4, code) == |name + " " + p1 + " " + p2 + " " + p3 + " " + "-" + " " + code|
  {
    var s1 := name + " " + p1;
    var s2 := s1 + " " + p2;
    var s3 := s2 + " " + p3;
    var s4 := s3 + " " + "-";
    var s := s4 + " " + code;
    Joined(s4, code, s);
    Joined(s3, "-", s);
    Joined(s2, p3, s);
    Joined(s1, p2, s);
    Joined(name, p1, s);
    Begins(name, s);
  }

  lemma Pattern2bLaid(s: string, name: string, p1: string, p2: string, p3: string, code: string,
                      q0: nat, q1: nat, q2: nat, q3: nat, q4: nat)
    requires PlainName(name) && IsCode(code)
    requires IsPrice3Text(p1) && IsPrice3Text(p2) && IsPrice3Text(p3)
    requires q0 == |name| && q1 == Next(q0, p1) && q2 == Next(q1, p2) && q3 == Next(q2, p3) && q4 == Next(q3, "-")
    requires At(s, 0, name) && SpaceThen(s, q0, p1) && SpaceThen(s, q1, p2) && SpaceThen(s, q2, p3)
    requires SpaceThen(s, q3, "-") && SpaceThen(s, q4, code) && Next(q4, code) == |s|
    ensures Pattern2b(s) == Some(Expected(Some(code), name, p1, p2, Some(p3), None, None))
  {
    var f := Expected(Some(code), name, p1, p2, Some(p3), None, None);
    NoRunInName(s, name, q0, 3, ThreeDecimals);
    Pattern2bFields(s, name, p1, p2, p3, code, q0, q1, q2, q3, q4);
    Pattern2bFrom(s, q0, f);
    CleanNameFixpoints(name);
  }

  lemma Pattern2bFrom(s: string, j: nat, f: Fields)
    requires 1 <= j < |s| && Pattern2bName(s, j) == Some(f) && PlainName(f.name)
    requires forall k :: 1 <= k < j ==> SpacedPrices(s, k, 3, ThreeDecimals).None?
    ensures Pattern2b(s) == Some(f)
  {
    forall k | 1 <= k < j ensures Pattern2bName(s, k).None? {
      assert SpacedPrices(s, k, 3, ThreeDecimals).None?;
    }
    FirstSomeIs(k => Pattern2bName(s, k), 1, |s|, j);
    CleanedKeeps(f);
  }

  lemma Pattern2bFields(s: string, name: string, p1: string, p2: string, p3: string, code: string,
                        q0: nat, q1: nat, q2: nat, q3: nat, q4: nat)
    requires name != [] && IsCode(code)
    requires IsPrice3Text(p1) && IsPrice3Text(p2) && IsPrice3Text(p3)
    requires q0 == |name| && q1 == Next(q0, p1) && q2 == Next(q1, p2) && q3 == Next(q2, p3) && q4 == Next(q3, "-")
    requires At(s, 0, name) && SpaceThen(s, q0, p1) && SpaceThen(s, q1, p2) && SpaceThen(s, q2, p3)
    requires SpaceThen(s, q3, "-") && SpaceThen(s, q4, code) && Next(q4, code) == |s|
    ensures Pattern2bName(s, q0) == Some(Expected(Some(code), name, p1, p2, Some(p3), None, None))
  {
    Pattern2bPieces(s, name, p1, p2, p3, code, q0, q1, q2, q3, q4);
    Pattern2bValues(s, name, p1, p2, p3, code, q0, q1, q2, q3, q4);
    Pattern2bNameAt(s, q0, [TokenOf(q0 + 1, p1), TokenOf(q1 + 1, p2), TokenOf(q2 + 1, p3)], q4,
                    Expected(Some(code), name, p1, p2, Some(p3), None, None));
  }

  lemma Pattern2bPieces(s: string, name: string, p1: string, p2: string, p3: string, code: string,
                        q0: nat, q1: nat, q2: nat, q3: nat, q4: nat)
    requires IsCode(code) && IsPrice3Text(p1) && IsPrice3Text(p2) && IsPrice3Text(p3)
    requires q1 == Next(q0, p1) && q2 == Next(q1, p2) && q3 == Next(q2, p3) && q4 == Next(q3, "-")
    requires SpaceThen(s, q0, p1) && SpaceThen(s, q1, p2) && SpaceThen(s, q2, p3)
    requires SpaceThen(s, q3, "-") && SpaceThen(s, q4, code) && Next(q4, code) == |s|
    ensures SpacedPrices(s, q0, 3, ThreeDecimals) == Some([TokenOf(q0 + 1, p1), TokenOf(q1 + 1, p2), TokenOf(q2 + 1, p3)])
    ensures DashCode(s, EndOf([TokenOf(q0 + 1, p1), TokenOf(q1 + 1, p2), TokenOf(q2 + 1, p3)], q0)) == Some(q4 + 1)
  {
    DashThenCode(s, q3, q4, code);
    Price3Run(s, q0, q1, q2, q3, p1, p2, p3);
  }

  /** The fields pattern 2b reads off those pieces are the expected ones. */
  lemma Pattern2bValues(s: string, name: string, p1: string, p2: string, p3: string, code: string,
                        q0: nat, q1: nat, q2: nat, q3: nat, q4: nat)
    requires IsCode(code) && IsPrice3Text(p1) && IsPrice3Text(p2) && IsPrice3Text(p3)
    requires q0 == |name| && q1 == Next(q0, p1) && q2 == Next(q1, p2) && q3 == Next(q2, p3) && q4 == Next(q3, "-")
    requires At(s, 0, name) && SpaceThen(s, q0, p1) && SpaceThen(s, q1, p2) && SpaceThen(s, q2, p3)
    requires SpaceThen(s, q3, "-") && SpaceThen(s, q4, code) && Next(q4, code) == |s|
    ensures ValidToken(s, TokenOf(q0 + 1, p1)) && ValidToken(s, TokenOf(q1 + 1, p2)) && ValidToken(s, TokenOf(q2 + 1, p3))
    ensures Expected(Some(code), name, p1, p2, Some(p3), None, None)
      == Fields(Some(s[q4 + 1..q4 + 1 + 6]), s[..q0], Value(s, [TokenOf(q0 + 1, p1), TokenOf(q1 + 1, p2), TokenOf(q2 + 1, p3)][0]),
                Value(s, [TokenOf(q0 + 1, p1), TokenOf(q1 + 1, p2), TokenOf(q2 + 1, p3)][1]),
                Some(Value(s, [TokenOf(q0 + 1, p1), TokenOf(q1 + 1, p2), TokenOf(q2 + 1, p3)][2])), None, None)
  {
    DashThenCode(s, q3, q4, code);
    ThreeValues(s, q0, q1, q2, p1, p2, p3);
    assert s[..q0] == name;
  }

  /** ` - code` after `e`, and nothing after it. */
  lemma DashThenCode(s: string, e: nat, g: nat, code: string)
    ensures IsCode(code) && g == Next(e, "-") && SpaceThen(s, e, "-") && SpaceThen(s, g, code) && Next(g, code) == |s|
      ==> DashCode(s, e) == Some(g + 1) && s[g + 1..g + 1 + 6] == code
  {
    if IsCode(code) && g == Next(e, "-") && SpaceThen(s, e, "-") && SpaceThen(s, g, code) && Next(g, code) == |s| {
      AtHead(s, e + 1, "-");
      SkipWhileAt(s, e, IsBracketOrSpace, e + 1);
      CodeAfter(s, g, code);
    }
  }

  /** Pattern 2b with the name in `[0, j)`, read off what its parts found. */
  lemma Pattern2bNameAt(s: string, j: nat, ts: seq<Token>, g: nat, f: Fields)
    requires 1 <= j <= |s| && SpacedPrices(s, j, 3, ThreeDecimals) == Some(ts)
    requires DashCode(s, EndOf(ts, j)) == Some(g + 1)
    requires f == Fields(Some(s[g + 1..g + 1 + 6]), s[..j], Value(s, ts[0]), Value(s, ts[1]), Some(Value(s, ts[2])), None, None)
    ensures Pattern2bName(s, j) == Some(f)
  {
  }

  /** A line laid out as pattern 2c expects it — a name, three prices and the code
      last, one space apart — gives exactly those fields. */
  lemma Pattern2cAccepts(name: string, p1: string, p2: string, p3: string, code: string)
    requires PlainName(name) && IsCode(code)
    requires IsPrice3Text(p1) && IsPrice3Text(p2) && IsPrice3Text(p3)
    ensures Pattern2c(name + " " + p1 + " " + p2 + " " + p3 + " " + code)
      == Some(Expected(Some(code), name, p1, p2, Some(p3), None, None))
  {
    var s := name + " " + p1 + " " + p2 + " " + p3 + " " + code;
    var q0 := |name|;
    var q1 := Next(q0, p1);
    var q2 := Next(q1, p2);
    var q3 := Next(q2, p3);
    Line2cLayout(name, p1, p2, p3, code, q1, q2, q3);
    Pattern2cLaid(s, name, p1, p2, p3, code, q0, q1, q2, q3);
  }

  lemma Line2cLayout(name: string, p1: string, p2: string, p3: string, code: string, q1: nat, q2: nat, q3: nat)
    requires q1 == Next(|name|, p1) && q2 == Next(q1, p2) && q3 == Next(q2, p3)
    ensures At(name + " " + p1 + " " + p2 + " " + p3 + " " + code, 0, name)
    ensures SpaceThen(name + " " + p1 + " " + p2 + " " + p3 + " " + code, |name|, p1)
    ensures SpaceThen(name + " " + p1 + " " + p2 + " " + p3 + " " + code, q1, p2)
    ensures SpaceThen(name + " " + p1 + " " + p2 + " " + p3 + " " + code, q2, p3)
    ensures SpaceThen(name + " " + p1 + " " + p2 + " " + p3 + " " + code, q3, code)
    ensures Next(q3, code) == |name + " " + p1 + " " + p2 + " " + p3 + " " + code|
  {
    var s1 := name + " " + p1;
    var s2 := s1 + " " + p2;
    var s := s2 + " " + p3 + " " + code;
    Joined(s2 + " " + p3, code, s);
    Joined(s2, p3, s);
    Joined(s1, p2, s);
    Joined(name, p1, s);
    Begins(name, s);
  }

  lemma Pattern2cLaid(s: string, name: string, p1: string, p2: string, p3: string, code: string,
                      q0: nat, q1: nat, q2: nat, q3: nat)
    requires PlainName(name) && IsCode(code)
    requires IsPrice3Text(p1) && IsPrice3Text(p2) && IsPrice3Text(p3)
    requires q0 == |name| && q1 == Next(q0, p1) && q2 == Next(q1, p2) && q3 == Next(q2, p3)
    requires At(s, 0, name) && SpaceThen(s, q0, p1) && SpaceThen(s, q1, p2) && SpaceThen(s, q2, p3)
    requires SpaceThen(s, q3, code) && Next(q3, code) == |s|
    ensures Pattern2c(s) == Some(Expected(Some(code), name, p1, p2, Some(p3), None, None))
  {
    var f := Expected(Some(code), name, p1, p2, Some(p3), None, None);
    NoRunInName(s, name, q0, 3, ThreeDecimals);
    Pattern2cFields(s, name, p1, p2, p3, code, q0, q1, q2, q3);
    Pattern2cFrom(s, q0, f);
  }

  lemma Pattern2cFrom(s: string, j: nat, f: Fields)
    requires 1 <= j < |s| && Pattern2cName(s, j) == Some(f) && PlainName(f.name)
    requires forall k :: 1 <= k < j ==> SpacedPrices(s, k, 3, ThreeDecimals).None?
    ensures Pattern2c(s) == Some(f)
  {
    forall k | 1 <= k < j ensures Pattern2cName(s, k).None? {
      assert SpacedPrices(s, k, 3, ThreeDecimals).None?;
    }
    FirstSomeIs(k => Pattern2cName(s, k), 1, |s|, j);
    CleanedKeeps(f);
  }

  lemma Pattern2cFields(s: string, name: string, p1: string, p2: string, p3: string, code: string,
                        q0: nat, q1: nat, q2: nat, q3: nat)
    requires name != [] && IsCode(code)
    requires IsPrice3Text(p1) && IsPrice3Text(p2) && IsPrice3Text(p3)
    requires q0 == |name| && q1 == Next(q0, p1) && q2 == Next(q1, p2) && q3 == Next(q2, p3)
    requires At(s, 0, name) && SpaceThen(s, q0, p1) && SpaceThen(s, q1, p2) && SpaceThen(s, q2, p3)
    requires SpaceThen(s, q3, code) && Next(q3, code) == |s|
    ensures Pattern2cName(s, q0) == Some(Expected(Some(code), name, p1, p2, Some(p3), None, None))
  {
    Pattern2cPieces(s, name, p1, p2, p3, code, q0, q1, q2, q3);
    Pattern2cValues(s, name, p1, p2, p3, code, q0, q1, q2, q3);
    Pattern2cNameAt(s, q0, [TokenOf(q0 + 1, p1), TokenOf(q1 + 1, p2), TokenOf(q2 + 1, p3)], q3,
                    Expected(Some(code), name, p1, p2, Some(p3), None, None));
  }

  lemma Pattern2cPieces(s: string, name: string, p1: string, p2: string, p3: string, code: string,
                        q0: nat, q1: nat, q2: nat, q3: nat)
    requires IsCode(code) && IsPrice3Text(p1) && IsPrice3Text(p2) && IsPrice3Text(p3)
    requires q1 == Next(q0, p1) && q2 == Next(q1, p2) && q3 == Next(q2, p3)
    requires SpaceThen(s, q0, p1) && SpaceThen(s, q1, p2) && SpaceThen(s, q2, p3)
    requires SpaceThen(s, q3, code) && Next(q3, code) == |s|
    ensures SpacedPrices(s, q0, 3, ThreeDecimals) == Some([TokenOf(q0 + 1, p1), TokenOf(q1 + 1, p2), TokenOf(q2 + 1, p3)])
    ensures SpacedCode(s, EndOf([TokenOf(q0 + 1, p1), TokenOf(q1 + 1, p2), TokenOf(q2 + 1, p3)], q0)) == Some(q3 + 1)
  {
    SpacedCodeAt(s, q3, code);
    Price3Run(s, q0, q1, q2, q3, p1, p2, p3);
  }

  /** The fields pattern 2c reads off those pieces are the expected ones. */
  lemma Pattern2cValues(s: string, name: string, p1: string, p2: string, p3: string, code: string,
                        q0: nat, q1: nat, q2: nat, q3: nat)
    requires IsCode(code) && IsPrice3Text(p1) && IsPrice3Text(p2) && IsPrice3Text(p3)
    requires q0 == |name| && q1 == Next(q0, p1) && q2 == Next(q1, p2) && q3 == Next(q2, p3)
    requires At(s, 0, name) && SpaceThen(s, q0, p1) && SpaceThen(s, q1, p2) && SpaceThen(s, q2, p3)
    requires SpaceThen(s, q3, code) && Next(q3, code) == |s|
    ensures ValidToken(s, TokenOf(q0 + 1, p1)) && ValidToken(s, TokenOf(q1 + 1, p2)) && ValidToken(s, TokenOf(q2 + 1, p3))
    ensures Expected(Some(code), name, p1, p2, Some(p3), None, None)
      == Fields(Some(s[q3 + 1..q3 + 1 + 6]), s[..q0], Value(s, [TokenOf(q0 + 1, p1), TokenOf(q1 + 1, p2), TokenOf(q2 + 1, p3)][0]),
                Value(s, [TokenOf(q0 + 1, p1), TokenOf(q1 + 1, p2), TokenOf(q2 + 1, p3)][1]),
                Some(Value(s, [TokenOf(q0 + 1, p1), TokenOf(q1 + 1, p2), TokenOf(q2 + 1, p3)][2])), None, None)
  {
    SpacedCodeAt(s, q3, code);
    ThreeValues(s, q0, q1, q2, p1, p2, p3);
    assert s[..q0] == name;
  }

  /** ` code` after `e`, and nothing after it: the tail of pattern 2c. */
  lemma SpacedCodeAt(s: string, e: nat, code: string)
    requires IsCode(code) && SpaceThen(s, e, code) && Next(e, code) == |s|
    ensures SpacedCode(s, e) == Some(e + 1) && s[e + 1..e + 1 + 6] == code
  {
    CodeAfter(s, e, code);
    SkipWhileAt(s, e, IsBracketOrSpace, e + 1);
  }

  /** Pattern 2c with the name in `[0, j)`, read off what its parts found. */
  lemma Pattern2cNameAt(s: string, j: nat, ts: seq<Token>, g: nat, f: Fields)
    requires 1 <= j <= |s| && SpacedPrices(s, j, 3, ThreeDecimals) == Some(ts)
    requires SpacedCode(s, EndOf(ts, j)) == Some(g + 1)
    requires f == Fields(Some(s[g + 1..g + 1 + 6]), s[..j], Value(s, ts[0]), Value(s, ts[1]), Some(Value(s, ts[2])), None, None)
    ensures Pattern2cName(s, j) == Some(f)
  {
  }

  // ---------------------------------------------------------------------------
  // Patterns 6 and 7
  // ---------------------------------------------------------------------------

  /** No square bracket anywhere in `s`. */
  predicate NoBracket(s: string)
  {
    forall k :: 0 <= k < |s| ==> !IsBracket(s[k])
  }

  /** Deleting the brackets of a bracket-free line leaves it as it is. */
  lemma {:induction false} WithoutBracketsKeeps(s: string)
    requires NoBracket(s)
    ensures WithoutBrackets(s) == s
  {
    if s != [] {
      assert NoBracket(s[1..]) by {
        forall k | 0 <= k < |s| - 1 ensures !IsBracket(s[1..][k]) {
          assert s[1..][k] == s[k + 1];
        }
      }
      WithoutBracketsKeeps(s[1..]);
    }
  }

  lemma NumberNoBracket(p: string)
    requires IsNumberText(p)
    ensures NoBracket(p)
  {
    var k := SkipWhile(p, 0, IsDigit);
    forall m | 0 <= m < |p| ensures !IsBracket(p[m]) {
      if m < k {
        assert IsDigit(p[m]);
      } else if m > k {
        assert IsDigit(p[m]);
      }
    }
  }

  lemma CodelessNameNoBracket(name: string)
    requires NameClassRun(name, |name|)
    ensures NoBracket(name)
  {
    forall m | 0 <= m < |name| ensures !IsBracket(name[m]) {
      if m > 0 {
        assert IsNameChar(name[m]);
      }
    }
  }

  /** A codeless name written at 0 is a run of the name class there. */
  lemma NameCharsAt(s: string, name: string, q: nat)
    requires At(s, 0, name) && NameClassRun(name, |name|) && q == |name|
    ensures NameClassRun(s, q)
  {
    AtChar(s, 0, name, 0);
    forall m | 1 <= m < q ensures IsNameChar(s[m]) {
      AtChar(s, 0, name, m);
    }
  }

  /** Pattern 6 or 7 with the name in `[0, j)`, read off what its parts found. */
  lemma NoCodeNameAt(s: string, count: nat, j: nat, ts: seq<Token>, t: (char, Token), f: Fields)
    requires count == 2 || count == 3
    ensures && NameClassRun(s, j) && SpacedPrices(s, j, count, ThreeDecimals) == Some(ts)
            && NoCodeTail(s, EndOf(ts, j)) == Some(t)
            && f == Fields(None, s[..j], Value(s, ts[0]), Value(s, ts[1]),
                           if count == 3 then Some(Value(s, ts[2])) else None, Some(t.0), Some(Value(s, t.1)))
      ==> NoCodeName(s, count, j) == Some(f)
  {
  }

  /** ` cat margin` after `e`, and nothing after it: the tail of pattern 6 or 7. */
  lemma NoCodeTailAt(s: string, e: nat, f: nat, cat: char, margin: string)
    ensures && cat in "ABC" && IsMarginText(margin) && f == Next(e, [cat]) && Next(f, margin) == |s|
            && SpaceThen(s, e, [cat]) && SpaceThen(s, f, margin)
      ==> && NoCodeTail(s, e) == Some((cat, TokenOf(f + 1, margin)))
          && ValidToken(s, TokenOf(f + 1, margin)) && Value(s, TokenOf(f + 1, margin)) == TextValue(margin)
  {
    if cat in "ABC" && IsMarginText(margin) && f == Next(e, [cat]) && Next(f, margin) == |s|
       && SpaceThen(s, e, [cat]) && SpaceThen(s, f, margin) {
      CategoryThenMargin(s, e, f, cat, margin);
      assert AllSpacesIn(s, |s|, |s|);
    }
  }

  /** The lazy name group of pattern 6 or 7 ends where the name does. */
  lemma NoCodeFrom(s: string, count: nat, j: nat, f: Fields)
    requires count == 2 || count == 3
    requires 2 <= j <= |s| && NoCodeName(s, count, j) == Some(f)
    requires forall k :: 2 <= k < j ==> SpacedPrices(s, k, count, ThreeDecimals).None?
    ensures FirstSome(k => NoCodeName(s, count, k), 2, |s|) == Some(f)
  {
    forall k | 2 <= k < j ensures NoCodeName(s, count, k).None? {
      assert SpacedPrices(s, k, count, ThreeDecimals).None?;
    }
    FirstSomeIs(k => NoCodeName(s, count, k), 2, |s|, j);
  }

  /** On a bracket-free line whose first match has the name `name`, with a dosage
      and unchanged by the cleaning, the codeless pattern returns that match. */
  lemma NoCodeKeeps(s: string, count: nat, name: string, f: Fields)
    requires count == 2 || count == 3
    requires NoBracket(s) && FirstSome(k => NoCodeName(s, count, k), 2, |s|) == Some(f)
    requires f.name == name && PlainName(name) && HasDosage(name, NameDosageUnits)
    ensures NoCodePattern(s, count) == Some(f)
  {
    WithoutBracketsKeeps(s);
    CleanedKeeps(f);
  }

  /** A line laid out as pattern 6 expects it — a codeless name with a dosage, three
      prices, a category and a margin, one space apart — gives exactly those fields. */
  lemma Pattern6Accepts(name: string, p1: string, p2: string, p3: string, cat: char, margin: string)
    requires PlainName(name) && NameClassRun(name, |name|) && HasDosage(name, NameDosageUnits) && cat in "ABC"
    requires IsPrice3Text(p1) && IsPrice3Text(p2) && IsPrice3Text(p3) && IsMarginText(margin)
    ensures Pattern6(name + " " + p1 + " " + p2 + " " + p3 + " " + [cat] + " " + margin)
      == Some(Expected(None, name, p1, p2, Some(p3), Some(cat), Some(margin)))
  {
    var s := name + " " + p1 + " " + p2 + " " + p3 + " " + [cat] + " " + margin;
    var q0 := |name|;
    var q1 := Next(q0, p1);
    var q2 := Next(q1, p2);
    var q3 := Next(q2, p3);
    var q4 := Next(q3, [cat]);
    CodelessNameNoBracket(name);
    NumberNoBracket(p1);
    NumberNoBracket(p2);
    NumberNoBracket(p3);
    NumberNoBracket(margin);
    Line6Layout(name, p1, p2, p3, cat, margin, q1, q2, q3, q4);
    Pattern6Laid(s, name, p1, p2, p3, cat, margin, q0, q1, q2, q3, q4);
  }

  /** No bracket in `a` or `x`: none in `a`, a space and `x`. */
  lemma JoinedNoBracket(a: string, x: string)
    requires NoBracket(a) && NoBracket(x)
    ensures NoBracket(a + " " + x)
  {
    var s := a + " " + x;
    assert forall k :: 0 <= k < |a| ==> s[k] == a[k];
    assert forall k :: |a| < k < |s| ==> s[k] == x[k - |a| - 1];
  }

  lemma Line6Layout(name: string, p1: string, p2: string, p3: string, cat: char, margin: string,
                    q1: nat, q2: nat, q3: nat, q4: nat)
    requires q1 == Next(|name|, p1) && q2 == Next(q1, p2) && q3 == Next(q2, p3) && q4 == Next(q3, [cat])
    requires NoBracket(name) && NoBracket(p1) && NoBracket(p2) && NoBracket(p3) && cat in "ABC" && NoBracket(margin)
    ensures NoBracket(name + " " + p1 + " " + p2 + " " + p3 + " " + [cat] + " " + margin)
    ensures At(name + " " + p1 + " " + p2 + " " + p3 + " " + [cat] + " " + margin, 0, name)
    ensures SpaceThen(name + " " + p1 + " " + p2 + " " + p3 + " " + [cat] + " " + margin, |name|, p1)
    ensures SpaceThen(name + " " + p1 + " " + p2 + " " + p3 + " " + [cat] + " " + margin, q1, p2)
    ensures SpaceThen(name + " " + p1 + " " + p2 + " " + p3 + " " + [cat] + " " + margin, q2, p3)
    ensures SpaceThen(name + " " + p1 + " " + p2 + " " + p3 + " " + [cat] + " " + margin, q3, [cat])
    ensures SpaceThen(name + " " + p1 + " " + p2 + " " + p3 + " " + [cat] + " " + margin, q4, margin)
    ensures Next(q4, margin) == |name + " " + p1 + " " + p2 + " " + p3 + " " + [cat] + " " + margin|
  {
    var s1 := name + " " + p1;
    var s2 := s1 + " " + p2;
    var s3 := s2 + " " + p3;
    var s4 := s3 + " " + [cat];
    var s := s4 + " " + margin;
    Joined(s4, margin, s);
    Joined(s3, [cat], s);
    Joined(s2, p3, s);
    Joined(s1, p2, s);
    Joined(name, p1, s);
    Begins(name, s);
    JoinedNoBracket(name, p1);
    JoinedNoBracket(s1, p2);
    JoinedNoBracket(s2, p3);
    JoinedNoBracket(s3, [cat]);
    JoinedNoBracket(s4, margin);
  }

  lemma Pattern6Laid(s: string, name: string, p1: string, p2: string, p3: string, cat: char, margin: string,
                     q0: nat, q1: nat, q2: nat, q3: nat, q4: nat)
    requires PlainName(name) && NameClassRun(name, |name|) && HasDosage(name, NameDosageUnits) && cat in "ABC"
    requires IsPrice3Text(p1) && IsPrice3Text(p2) && IsPrice3Text(p3) && IsMarginText(margin)
    requires q0 == |name| && q1 == Next(q0, p1) && q2 == Next(q1, p2) && q3 == Next(q2, p3) && q4 == Next(q3, [cat])
    requires NoBracket(s) && At(s, 0, name) && SpaceThen(s, q0, p1) && SpaceThen(s, q1, p2) && SpaceThen(s, q2, p3)
    requires SpaceThen(s, q3, [cat]) && SpaceThen(s, q4, margin) && Next(q4, margin) == |s|
    ensures Pattern6(s) == Some(Expected(None, name, p1, p2, Some(p3), Some(cat), Some(margin)))
  {
    var f := Expected(None, name, p1, p2, Some(p3), Some(cat), Some(margin));
    Pattern6Fields(s, name, p1, p2, p3, cat, margin, q0, q1, q2, q3, q4);
    forall k | 2 <= k < q0 ensures SpacedPrices(s, k, 3, ThreeDecimals).None? {
      NoPricesInName(s, 0, name, q0, k, 3, ThreeDecimals);
    }
    NoCodeFrom(s, 3, q0, f);
    NoCodeKeeps(s, 3, name, f);
  }

  lemma Pattern6Fields(s: string, name: string, p1: string, p2: string, p3: string, cat: char, margin: string,
                       q0: nat, q1: nat, q2: nat, q3: nat, q4: nat)
    requires NameClassRun(name, |name|) && cat in "ABC"
    requires IsPrice3Text(p1) && IsPrice3Text(p2) && IsPrice3Text(p3) && IsMarginText(margin)
    requires q0 == |name| && q1 == Next(q0, p1) && q2 == Next(q1, p2) && q3 == Next(q2, p3) && q4 == Next(q3, [cat])
    requires At(s, 0, name) && SpaceThen(s, q0, p1) && SpaceThen(s, q1, p2) && SpaceThen(s, q2, p3)
    requires SpaceThen(s, q3, [cat]) && SpaceThen(s, q4, margin) && Next(q4, margin) == |s|
    ensures NoCodeName(s, 3, q0) == Some(Expected(None, name, p1, p2, Some(p3), Some(cat), Some(margin)))
  {
    Pattern6Pieces(s, name, p1, p2, p3, cat, margin, q0, q1, q2, q3, q4);
    NoCodeNameAt(s, 3, q0, [TokenOf(q0 + 1, p1), TokenOf(q1 + 1, p2), TokenOf(q2 + 1, p3)], (cat, TokenOf(q4 + 1, margin)),
                 Expected(None, name, p1, p2, Some(p3), Some(cat), Some(margin)));
  }

  lemma Pattern6Pieces(s: string, name: string, p1: string, p2: string, p3: string, cat: char, margin: string,
                       q0: nat, q1: nat, q2: nat, q3: nat, q4: nat)
    requires NameClassRun(name, |name|) && cat in "ABC"
    requires IsPrice3Text(p1) && IsPrice3Text(p2) && IsPrice3Text(p3) && IsMarginText(margin)
    requires q0 == |name| && q1 == Next(q0, p1) && q2 == Next(q1, p2) && q3 == Next(q2, p3) && q4 == Next(q3, [cat])
    requires At(s, 0, name) && SpaceThen(s, q0, p1) && SpaceThen(s, q1, p2) && SpaceThen(s, q2, p3)
    requires SpaceThen(s, q3, [cat]) && SpaceThen(s, q4, margin) && Next(q4, margin) == |s|
    ensures NameClassRun(s, q0)
    ensures SpacedPrices(s, q0, 3, ThreeDecimals) == Some([TokenOf(q0 + 1, p1), TokenOf(q1 + 1, p2), TokenOf(q2 + 1, p3)])
    ensures NoCodeTail(s, EndOf([TokenOf(q0 + 1, p1), TokenOf(q1 + 1, p2), TokenOf(q2 + 1, p3)], q0)) == Some((cat, TokenOf(q4 + 1, margin)))
    ensures Expected(None, name, p1, p2, Some(p3), Some(cat), Some(margin))
      == Fields(None, s[..q0], Value(s, [TokenOf(q0 + 1, p1), TokenOf(q1 + 1, p2), TokenOf(q2 + 1, p3)][0]),
                Value(s, [TokenOf(q0 + 1, p1), TokenOf(q1 + 1, p2), TokenOf(q2 + 1, p3)][1]),
                Some(Value(s, [TokenOf(q0 + 1, p1), TokenOf(q1 + 1, p2), TokenOf(q2 + 1, p3)][2])),
                Some(cat), Some(Value(s, TokenOf(q4 + 1, margin))))
  {
    NameCharsAt(s, name, q0);
    ThreeValues(s, q0, q1, q2, p1, p2, p3);
    ThreePrices(s, q0, q1, q2, q3, p1, p2, p3, ThreeDecimals);
    NoCodeTailAt(s, q3, q4, cat, margin);
    assert EndOf([TokenOf(q0 + 1, p1), TokenOf(q1 + 1, p2), TokenOf(q2 + 1, p3)], q0) == q3;
    assert s[..q0] == name;
  }

  /** A line laid out as pattern 7 expects it — a codeless name with a dosage, two
      prices, a category and a margin, one space apart — gives exactly those fields. */
  lemma Pattern7Accepts(name: string, p1: string, p2: string, cat: char, margin: string)
    requires PlainName(name) && NameClassRun(name, |name|) && HasDosage(name, NameDosageUnits) && cat in "ABC"
    requires IsPrice3Text(p1) && IsPrice3Text(p2) && IsMarginText(margin)
    ensures Pattern7(name + " " + p1 + " " + p2 + " " + [cat] + " " + margin)
      == Some(Expected(None, name, p1, p2, None, Some(cat), Some(margin)))
  {
    var s := name + " " + p1 + " " + p2 + " " + [cat] + " " + margin;
    var q0 := |name|;
    var q1 := Next(q0, p1);
    var q2 := Next(q1, p2);
    var q3 := Next(q2, [cat]);
    CodelessNameNoBracket(name);
    NumberNoBracket(p1);
    NumberNoBracket(p2);
    NumberNoBracket(margin);
    Line7Layout(name, p1, p2, cat, margin, q1, q2, q3);
    Pattern7Laid(s, name, p1, p2, cat, margin, q0, q1, q2, q3);
  }

  lemma Line7Layout(name: string, p1: string, p2: string, cat: char, margin: string, q1: nat, q2: nat, q3: nat)
    requires q1 == Next(|name|, p1) && q2 == Next(q1, p2) && q3 == Next(q2, [cat])
    requires NoBracket(name) && NoBracket(p1) && NoBracket(p2) && cat in "ABC" && NoBracket(margin)
    ensures NoBracket(name + " " + p1 + " " + p2 + " " + [cat] + " " + margin)
    ensures At(name + " " + p1 + " " + p2 + " " + [cat] + " " + margin, 0, name)
    ensures SpaceThen(name + " " + p1 + " " + p2 + " " + [cat] + " " + margin, |name|, p1)
    ensures SpaceThen(name + " " + p1 + " " + p2 + " " + [cat] + " " + margin, q1, p2)
    ensures SpaceThen(name + " " + p1 + " " + p2 + " " + [cat] + " " + margin, q2, [cat])
    ensures SpaceThen(name + " " + p1 + " " + p2 + " " + [cat] + " " + margin, q3, margin)
    ensures Next(q3, margin) == |name + " " + p1 + " " + p2 + " " + [cat] + " " + margin|
  {
    var s1 := name + " " + p1;
    var s2 := s1 + " " + p2;
    var s3 := s2 + " " + [cat];
    var s := s3 + " " + margin;
    Joined(s3, margin, s);
    Joined(s2, [cat], s);
    Joined(s1, p2, s);
    Joined(name, p1, s);
    Begins(name, s);
    JoinedNoBracket(name, p1);
    JoinedNoBracket(s1, p2);
    JoinedNoBracket(s2, [cat]);
    JoinedNoBracket(s3, margin);
  }

  lemma Pattern7Laid(s: string, name: string, p1: string, p2: string, cat: char, margin: string,
                     q0: nat, q1: nat, q2: nat, q3: nat)
    requires PlainName(name) && NameClassRun(name, |name|) && HasDosage(name, NameDosageUnits) && cat in "ABC"
    requires IsPrice3Text(p1) && IsPrice3Text(p2) && IsMarginText(margin)
    requires q0 == |name| && q1 == Next(q0, p1) && q2 == Next(q1, p2) && q3 == Next(q2, [cat])
    requires NoBracket(s) && At(s, 0, name) && SpaceThen(s, q0, p1) && SpaceThen(s, q1, p2)
    requires SpaceThen(s, q2, [cat]) && SpaceThen(s, q3, margin) && Next(q3, margin) == |s|
    ensures Pattern7(s) == Some(Expected(None, name, p1, p2, None, Some(cat), Some(margin)))
  {
    var f := Expected(None, name, p1, p2, None, Some(cat), Some(margin));
    Pattern7Fields(s, name, p1, p2, cat, margin, q0, q1, q2, q3);
    forall k | 2 <= k < q0 ensures SpacedPrices(s, k, 2, ThreeDecimals).None? {
      NoPricesInName(s, 0, name, q0, k, 2, ThreeDecimals);
    }
    NoCodeFrom(s, 2, q0, f);
    NoCodeKeeps(s, 2, name, f);
  }

  lemma Pattern7Fields(s: string, name: string, p1: string, p2: string, cat: char, margin: string,
                       q0: nat, q1: nat, q2: nat, q3: nat)
    requires NameClassRun(name, |name|) && cat in "ABC"
    requires IsPrice3Text(p1) && IsPrice3Text(p2) && IsMarginText(margin)
    requires q0 == |name| && q1 == Next(q0, p1) && q2 == Next(q1, p2) && q3 == Next(q2, [cat])
    requires At(s, 0, name) && SpaceThen(s, q0, p1) && SpaceThen(s, q1, p2)
    requires SpaceThen(s, q2, [cat]) && SpaceThen(s, q3, margin) && Next(q3, margin) == |s|
    ensures NoCodeName(s, 2, q0) == Some(Expected(None, name, p1, p2, None, Some(cat), Some(margin)))
  {
    Pattern7Pieces(s, name, p1, p2, cat, margin, q0, q1, q2, q3);
    Pattern7Values(s, name, p1, p2, cat, margin, q0, q1, q2, q3);
    NoCodeNameAt(s, 2, q0, [TokenOf(q0 + 1, p1), TokenOf(q1 + 1, p2)], (cat, TokenOf(q3 + 1, margin)),
                 Expected(None, name, p1, p2, None, Some(cat), Some(margin)));
  }

  lemma Pattern7Pieces(s: string, name: string, p1: string, p2: string, cat: char, margin: string,
                       q0: nat, q1: nat, q2: nat, q3: nat)
    requires NameClassRun(name, |name|) && cat in "ABC"
    requires IsPrice3Text(p1) && IsPrice3Text(p2) && IsMarginText(margin)
    requires q0 == |name| && q1 == Next(q0, p1) && q2 == Next(q1, p2) && q3 == Next(q2, [cat])
    requires At(s, 0, name) && SpaceThen(s, q0, p1) && SpaceThen(s, q1, p2)
    requires SpaceThen(s, q2, [cat]) && SpaceThen(s, q3, margin) && Next(q3, margin) == |s|
    ensures NameClassRun(s, q0)
    ensures SpacedPrices(s, q0, 2, ThreeDecimals) == Some([TokenOf(q0 + 1, p1), TokenOf(q1 + 1, p2)])
    ensures NoCodeTail(s, EndOf([TokenOf(q0 + 1, p1), TokenOf(q1 + 1, p2)], q0)) == Some((cat, TokenOf(q3 + 1, margin)))
  {
    NameCharsAt(s, name, q0);
    TwoPrices(s, q0, q1, q2, p1, p2, ThreeDecimals);
    NoCodeTailAt(s, q2, q3, cat, margin);
    assert EndOf([TokenOf(q0 + 1, p1), TokenOf(q1 + 1, p2)], q0) == q2;
  }

  /** The fields pattern 7 reads off those pieces are the expected ones. */
  lemma Pattern7Values(s: string, name: string, p1: string, p2: string, cat: char, margin: string,
                       q0: nat, q1: nat, q2: nat, q3: nat)
    requires cat in "ABC" && IsPrice3Text(p1) && IsPrice3Text(p2) && IsMarginText(margin)
    requires q0 == |name| && q1 == Next(q0, p1) && q2 == Next(q1, p2) && q3 == Next(q2, [cat])
    requires At(s, 0, name) && SpaceThen(s, q0, p1) && SpaceThen(s, q1, p2)
    requires SpaceThen(s, q2, [cat]) && SpaceThen(s, q3, margin) && Next(q3, margin) == |s|
    ensures ValidToken(s, TokenOf(q0 + 1, p1)) && ValidToken(s, TokenOf(q1 + 1, p2))
    ensures ValidToken(s, TokenOf(q3 + 1, margin))
    ensures Expected(None, name, p1, p2, None, Some(cat), Some(margin))
      == Fields(None, s[..q0], Value(s, [TokenOf(q0 + 1, p1), TokenOf(q1 + 1, p2)][0]),
                Value(s, [TokenOf(q0 + 1, p1), TokenOf(q1 + 1, p2)][1]), None,
                Some(cat), Some(Value(s, TokenOf(q3 + 1, margin))))
  {
    TwoValues(s, q0, q1, p1, p2);
    NoCodeTailAt(s, q2, q3, cat, margin);
    assert s[..q0] == name;
  }

  // ---------------------------------------------------------------------------
  // Pattern 3
  // ---------------------------------------------------------------------------

  /** A line laid out as pattern 3 expects it — a code, a name, three prices of any
      precision, a category and a margin last — gives exactly those fields: the
      category is the first spaced letter after the prices and the margin the last
      token of the line. */
  lemma Pattern3Accepts(code: string, name: string, p1: string, p2: string, p3: string, cat: char, margin: string)
    requires IsCode(code) && PlainName(name) && cat in "ABC"
    requires IsNumberText(p1) && IsNumberText(p2) && IsNumberText(p3) && IsMarginText(margin)
    ensures Pattern3(code + " " + name + " " + p1 + " " + p2 + " " + p3 + " " + [cat] + " " + margin)
      == Some(Expected(Some(code), name, p1, p2, Some(p3), Some(cat), Some(margin)))
  {
    var s := code + " " + name + " " + p1 + " " + p2 + " " + p3 + " " + [cat] + " " + margin;
    var q1 := Next(6, name);
    var q2 := Next(q1, p1);
    var q3 := Next(q2, p2);
    var q4 := Next(q3, p3);
    var q5 := Next(q4, [cat]);
    Line1Layout(code, name, p1, p2, p3, cat, margin, q1, q2, q3, q4, q5);
    Pattern3Laid(s, code, name, p1, p2, p3, cat, margin, q1, q2, q3, q4, q5);
  }

  lemma Pattern3Laid(s: string, code: string, name: string, p1: string, p2: string, p3: string, cat: char, margin: string,
                     q1: nat, q2: nat, q3: nat, q4: nat, q5: nat)
    requires IsCode(code) && PlainName(name) && cat in "ABC"
    requires IsNumberText(p1) && IsNumberText(p2) && IsNumberText(p3) && IsMarginText(margin)
    requires q1 == Next(6, name) && q2 == Next(q1, p1) && q3 == Next(q2, p2) && q4 == Next(q3, p3) && q5 == Next(q4, [cat])
    requires At(s, 0, code) && SpaceThen(s, 6, name) && SpaceThen(s, q1, p1) && SpaceThen(s, q2, p2) && SpaceThen(s, q3, p3)
    requires SpaceThen(s, q4, [cat]) && SpaceThen(s, q5, margin) && Next(q5, margin) == |s|
    ensures Pattern3(s) == Some(Expected(Some(code), name, p1, p2, Some(p3), Some(cat), Some(margin)))
  {
    var f := Expected(Some(code), name, p1, p2, Some(p3), Some(cat), Some(margin));
    Pattern3Fields(s, code, name, p1, p2, p3, cat, margin, q1, q2, q3, q4, q5);
    AtHead(s, 7, name);
    OneSpace(s, 6);
    CodeDigits(s, 0, code);
    forall k | 8 <= k < q1 ensures SpacedPrices(s, k, 3, AnyDecimals).None? {
      NoPricesInName(s, 7, name, q1, k, 3, AnyDecimals);
    }
    Pattern3From(s, q1, f);
    CleanNameFixpoints(name);
  }

  lemma Pattern3From(s: string, j: nat, f: Fields)
    requires 7 < j <= |s| && AllDigitsIn(s, 0, 6) && Spaces1(s, 6) == Some(7)
    requires Pattern3Name(s, 0, 7, j) == Some(f)
    requires forall k :: 8 <= k < j ==> SpacedPrices(s, k, 3, AnyDecimals).None?
    ensures Pattern3(s) == Cleaned(Some(f))
  {
    forall k | 8 <= k < j ensures Pattern3Name(s, 0, 7, k).None? {
      assert SpacedPrices(s, k, 3, AnyDecimals).None?;
    }
    FirstSomeIs(k => Pattern3Name(s, 0, 7, k), 8, |s|, j);
    assert Pattern3At(s, 0) == Some(f);
    FirstSomeIs(i => Pattern3At(s, i), 0, |s|, 0);
  }

  lemma Pattern3Fields(s: string, code: string, name: string, p1: string, p2: string, p3: string, cat: char, margin: string,
                       q1: nat, q2: nat, q3: nat, q4: nat, q5: nat)
    requires IsCode(code) && name != [] && cat in "ABC"
    requires IsNumberText(p1) && IsNumberText(p2) && IsNumberText(p3) && IsMarginText(margin)
    requires q1 == Next(6, name) && q2 == Next(q1, p1) && q3 == Next(q2, p2) && q4 == Next(q3, p3) && q5 == Next(q4, [cat])
    requires At(s, 0, code) && SpaceThen(s, 6, name) && SpaceThen(s, q1, p1) && SpaceThen(s, q2, p2) && SpaceThen(s, q3, p3)
    requires SpaceThen(s, q4, [cat]) && SpaceThen(s, q5, margin) && Next(q5, margin) == |s|
    ensures Pattern3Name(s, 0, 7, q1) == Some(Expected(Some(code), name, p1, p2, Some(p3), Some(cat), Some(margin)))
  {
    Pattern3Pieces(s, code, name, p1, p2, p3, cat, margin, q1, q2, q3, q4, q5);
    Pattern3Values(s, code, name, p1, p2, p3, cat, margin, q1, q2, q3, q5);
    Pattern3NameAt(s, q1, [TokenOf(q1 + 1, p1), TokenOf(q2 + 1, p2), TokenOf(q3 + 1, p3)], cat, TokenOf(q5 + 1, margin));
  }

  /** The three prices, the category and the margin pattern 3 reads after the name. */
  lemma Pattern3Pieces(s: string, code: string, name: string, p1: string, p2: string, p3: string, cat: char, margin: string,
                       q1: nat, q2: nat, q3: nat, q4: nat, q5: nat)
    requires IsCode(code) && name != [] && cat in "ABC"
    requires IsNumberText(p1) && IsNumberText(p2) && IsNumberText(p3) && IsMarginText(margin)
    requires q1 == Next(6, name) && q2 == Next(q1, p1) && q3 == Next(q2, p2) && q4 == Next(q3, p3) && q5 == Next(q4, [cat])
    requires At(s, 0, code) && SpaceThen(s, 6, name) && SpaceThen(s, q1, p1) && SpaceThen(s, q2, p2) && SpaceThen(s, q3, p3)
    requires SpaceThen(s, q4, [cat]) && SpaceThen(s, q5, margin) && Next(q5, margin) == |s|
    ensures 7 < q1 <= |s| && AllDigitsIn(s, 0, 6)
    ensures SpacedPrices(s, q1, 3, AnyDecimals) == Some([TokenOf(q1 + 1, p1), TokenOf(q2 + 1, p2), TokenOf(q3 + 1, p3)])
    ensures FirstSome(p => CategoryAt(s, p), EndOf([TokenOf(q1 + 1, p1), TokenOf(q2 + 1, p2), TokenOf(q3 + 1, p3)], q1), |s|) == Some(cat)
    ensures MarginProbe(s) == Some(TokenOf(q5 + 1, margin))
  {
    Pattern3TailAt(s, q4, q5, cat, margin);
    ThreePrices(s, q1, q2, q3, q4, p1, p2, p3, AnyDecimals);
    CodeDigits(s, 0, code);
    assert EndOf([TokenOf(q1 + 1, p1), TokenOf(q2 + 1, p2), TokenOf(q3 + 1, p3)], q1) == q4;
  }

  /** The fields pattern 3 reads off those pieces are the expected ones. */
  lemma Pattern3Values(s: string, code: string, name: string, p1: string, p2: string, p3: string, cat: char, margin: string,
                       q1: nat, q2: nat, q3: nat, q5: nat)
    requires IsCode(code) && IsNumberText(p1) && IsNumberText(p2) && IsNumberText(p3) && IsMarginText(margin)
    requires q1 == Next(6, name) && q2 == Next(q1, p1) && q3 == Next(q2, p2)
    requires At(s, 0, code) && SpaceThen(s, 6, name) && SpaceThen(s, q1, p1) && SpaceThen(s, q2, p2) && SpaceThen(s, q3, p3)
    requires SpaceThen(s, q5, margin)
    ensures ValidToken(s, TokenOf(q1 + 1, p1)) && ValidToken(s, TokenOf(q2 + 1, p2)) && ValidToken(s, TokenOf(q3 + 1, p3))
    ensures ValidToken(s, TokenOf(q5 + 1, margin)) && 6 <= |s| && 7 <= q1 <= |s|
    ensures Expected(Some(code), name, p1, p2, Some(p3), Some(cat), Some(margin))
      == Fields(Some(s[0..6]), s[7..q1],
                Value(s, [TokenOf(q1 + 1, p1), TokenOf(q2 + 1, p2), TokenOf(q3 + 1, p3)][0]),
                Value(s, [TokenOf(q1 + 1, p1), TokenOf(q2 + 1, p2), TokenOf(q3 + 1, p3)][1]),
                Some(Value(s, [TokenOf(q1 + 1, p1), TokenOf(q2 + 1, p2), TokenOf(q3 + 1, p3)][2])),
                Some(cat), Some(Value(s, TokenOf(q5 + 1, margin))))
  {
    ThreeValues(s, q1, q2, q3, p1, p2, p3);
    MarginValue(s, q5, margin);
    CodeDigits(s, 0, code);
    assert s[7..q1] == name;
  }

  /** Pattern 3 with the name in `[7, j)`, read off what its parts found. */
  lemma Pattern3NameAt(s: string, j: nat, ts: seq<Token>, c: char, tm: Token)
    requires 7 < j <= |s| && AllDigitsIn(s, 0, 6)
    requires SpacedPrices(s, j, 3, AnyDecimals) == Some(ts)
    requires FirstSome(p => CategoryAt(s, p), EndOf(ts, j), |s|) == Some(c) && MarginProbe(s) == Some(tm)
    ensures Pattern3Name(s, 0, 7, j) == Some(Fields(Some(s[0..6]), s[7..j], Value(s, ts[0]), Value(s, ts[1]),
      Some(Value(s, ts[2])), Some(c), Some(Value(s, tm))))
  {
  }

  /** ` cat margin` after `e`, and nothing after it: the category pattern 3 finds
      first and the margin it finds last. */
  lemma Pattern3TailAt(s: string, e: nat, f: nat, cat: char, margin: string)
    requires cat in "ABC" && IsMarginText(margin) && f == Next(e, [cat]) && Next(f, margin) == |s|
    requires SpaceThen(s, e, [cat]) && SpaceThen(s, f, margin)
    ensures FirstSome(p => CategoryAt(s, p), e, |s|) == Some(cat) && MarginProbe(s) == Some(TokenOf(f + 1, margin))
    ensures ValidToken(s, TokenOf(f + 1, margin)) && Value(s, TokenOf(f + 1, margin)) == TextValue(margin)
  {
    CategoryFirst(s, e, cat);
    MarginProbeAtEnd(s, f + 1, margin);
  }

  /** ` cat ` at `e`: the category search stops there. */
  lemma CategoryFirst(s: string, e: nat, cat: char)
    requires cat in "ABC" && SpaceThen(s, e, [cat]) && e + 2 < |s| && s[e + 2] == ' '
    ensures FirstSome(p => CategoryAt(s, p), e, |s|) == Some(cat)
  {
    AtHead(s, e + 1, [cat]);
    FirstSomeIs(p => CategoryAt(s, p), e, |s|, e);
  }

  /** A margin piece that ends the line is what the probe for the last token finds:
      any earlier start leaves the margin's last digit after the token it reads. */
  lemma MarginProbeAtEnd(s: string, o: nat, margin: string)
    requires At(s, o, margin) && IsMarginText(margin) && o + 5 == |s|
    ensures MarginProbe(s) == Some(TokenOf(o, margin))
    ensures ValidToken(s, TokenOf(o, margin)) && Value(s, TokenOf(o, margin)) == TextValue(margin)
  {
    MarginFound(s, o, margin);
    AtChar(s, o, margin, 4);
    LastNotSpace(s);
    forall p | 0 <= p < o ensures MarginAtEnd(s, p).None? {
      if Margin(s, p).Some? {
        assert !AllSpacesIn(s, Margin(s, p).value.end, |s|);
      }
    }
    assert AllSpacesIn(s, |s|, |s|);
    FirstSomeIs(p => MarginAtEnd(s, p), 0, |s|, o);
  }

  /** A line that ends with a digit does not end with whitespace. */
  lemma LastNotSpace(s: string)
    requires s != [] && IsDigit(s[|s| - 1])
    ensures !IsSpace(s[|s| - 1])
  {
  }

  // ---------------------------------------------------------------------------
  // Pattern 4
  // ---------------------------------------------------------------------------

  /** A line laid out as pattern 4 expects it — a capitalised name, two prices of any
      precision and the code last, one space apart — gives exactly those fields. */
  lemma Pattern4Accepts(name: string, p1: string, p2: string, code: string)
    requires PlainName(name) && 2 <= |name| && IsAsciiUpper(name[0]) && IsCode(code)
    requires IsNumberText(p1) && IsNumberText(p2)
    ensures Pattern4(name + " " + p1 + " " + p2 + " " + code)
      == Some(Expected(Some(code), name, p1, p2, None, None, None))
  {
    var s := name + " " + p1 + " " + p2 + " " + code;
    var q0 := |name|;
    var q1 := Next(q0, p1);
    var q2 := Next(q1, p2);
    Line4Layout(name, p1, p2, code, q1, q2);
    Pattern4Laid(s, name, p1, p2, code, q0, q1, q2);
  }

  lemma Line4Layout(name: string, p1: string, p2: string, code: string, q1: nat, q2: nat)
    requires q1 == Next(|name|, p1) && q2 == Next(q1, p2)
    ensures At(name + " " + p1 + " " + p2 + " " + code, 0, name)
    ensures SpaceThen(name + " " + p1 + " " + p2 + " " + code, |name|, p1)
    ensures SpaceThen(name + " " + p1 + " " + p2 + " " + code, q1, p2)
    ensures SpaceThen(name + " " + p1 + " " + p2 + " " + code, q2, code)
    ensures Next(q2, code) == |name + " " + p1 + " " + p2 + " " + code|
  {
  }

  lemma Pattern4Laid(s: string, name: string, p1: string, p2: string, code: string, q0: nat, q1: nat, q2: nat)
    requires PlainName(name) && 2 <= |name| && IsAsciiUpper(name[0]) && IsCode(code)
    requires IsNumberText(p1) && IsNumberText(p2)
    requires q0 == |name| && q1 == Next(q0, p1) && q2 == Next(q1, p2)
    requires At(s, 0, name) && SpaceThen(s, q0, p1) && SpaceThen(s, q1, p2) && SpaceThen(s, q2, code)
    requires Next(q2, code) == |s|
    ensures Pattern4(s) == Some(Expected(Some(code), name, p1, p2, None, None, None))
  {
    var f := Expected(Some(code), name, p1, p2, None, None, None);
    Pattern4Fields(s, name, p1, p2, code, q0, q1, q2);
    NoRunInName(s, name, q0, 2, AnyDecimals);
    Pattern4From(s, q0, f);
  }

  /** Pattern 4 finds the record whose name ends at `j` when no run of two prices
      starts earlier. */
  lemma Pattern4From(s: string, j: nat, f: Fields)
    requires 2 <= j < |s| && Pattern4Name(s, j) == Some(f) && PlainName(f.name)
    requires forall k :: 1 <= k < j ==> SpacedPrices(s, k, 2, AnyDecimals).None?
    ensures Pattern4(s) == Some(f)
  {
    forall k | 2 <= k < j ensures Pattern4Name(s, k).None? {
      assert SpacedPrices(s, k, 2, AnyDecimals).None?;
    }
    FirstSomeIs(k => Pattern4Name(s, k), 2, |s|, j);
    CleanedKeeps(f);
  }

  lemma Pattern4Fields(s: string, name: string, p1: string, p2: string, code: string, q0: nat, q1: nat, q2: nat)
    requires 2 <= |name| && IsAsciiUpper(name[0]) && IsCode(code) && IsNumberText(p1) && IsNumberText(p2)
    requires q0 == |name| && q1 == Next(q0, p1) && q2 == Next(q1, p2)
    requires At(s, 0, name) && SpaceThen(s, q0, p1) && SpaceThen(s, q1, p2) && SpaceThen(s, q2, code)
    requires Next(q2, code) == |s|
    ensures Pattern4Name(s, q0) == Some(Expected(Some(code), name, p1, p2, None, None, None))
  {
    Pattern4Pieces(s, name, p1, p2, code, q0, q1, q2);
    Pattern4Values(s, name, p1, p2, code, q0, q1, q2);
    Pattern4NameAt(s, q0, [TokenOf(q0 + 1, p1), TokenOf(q1 + 1, p2)], q2, Expected(Some(code), name, p1, p2, None, None, None));
  }

  /** The two prices, the blank after them and the code pattern 4 reads after the name. */
  lemma Pattern4Pieces(s: string, name: string, p1: string, p2: string, code: string, q0: nat, q1: nat, q2: nat)
    requires 2 <= |name| && IsAsciiUpper(name[0]) && IsCode(code) && IsNumberText(p1) && IsNumberText(p2)
    requires q0 == |name| && q1 == Next(q0, p1) && q2 == Next(q1, p2)
    requires At(s, 0, name) && SpaceThen(s, q0, p1) && SpaceThen(s, q1, p2) && SpaceThen(s, q2, code)
    requires Next(q2, code) == |s|
    ensures TwoPricesHead(s, q0) == Some(([TokenOf(q0 + 1, p1), TokenOf(q1 + 1, p2)], q2 + 1))
    ensures CodeFrom(s, q2 + 1) == Some(q2 + 1)
  {
    Pattern4Facts(s, name, code, q0, q2);
    Pattern4Prices(s, p1, p2, q0, q1, q2);
    Pattern4Head(s, q0, [TokenOf(q0 + 1, p1), TokenOf(q1 + 1, p2)], q2);
    CodeStartsAt(s, q2);
  }

  /** What the name and the code laid out give at the offsets pattern 4 looks at. */
  lemma Pattern4Facts(s: string, name: string, code: string, q0: nat, q2: nat)
    requires 2 <= |name| && IsAsciiUpper(name[0]) && IsCode(code)
    requires q0 == |name| && q0 <= q2
    requires At(s, 0, name) && SpaceThen(s, q2, code) && Next(q2, code) == |s|
    ensures q2 + 1 < |s| && s[q2] == ' ' && !IsSpace(s[q2 + 1]) && NoDigitAt(s, q2) && CodeAtEnd(s, q2 + 1)
    ensures 2 <= q0 <= |s| && IsAsciiUpper(s[0])
  {
    AtHead(s, 0, name);
    CodeAfter(s, q2, code);
  }

  /** The two prices pattern 4 reads after the name. */
  lemma Pattern4Prices(s: string, p1: string, p2: string, q0: nat, q1: nat, q2: nat)
    requires IsNumberText(p1) && IsNumberText(p2)
    requires q1 == Next(q0, p1) && q2 == Next(q1, p2)
    requires SpaceThen(s, q0, p1) && SpaceThen(s, q1, p2) && NoDigitAt(s, q2)
    ensures SpacedPrices(s, q0, 2, AnyDecimals) == Some([TokenOf(q0 + 1, p1), TokenOf(q1 + 1, p2)])
    ensures EndOf([TokenOf(q0 + 1, p1), TokenOf(q1 + 1, p2)], q0) == q2
  {
    TwoPrices(s, q0, q1, q2, p1, p2, AnyDecimals);
  }

  /** Two prices and then one space before a digit: the head of pattern 4. */
  lemma Pattern4Head(s: string, j: nat, ts: seq<Token>, g: nat)
    requires g + 1 < |s| && s[g] == ' ' && !IsSpace(s[g + 1])
    requires 2 <= j <= |s| && IsAsciiUpper(s[0])
    requires SpacedPrices(s, j, 2, AnyDecimals) == Some(ts) && EndOf(ts, j) == g
    ensures TwoPricesHead(s, j) == Some((ts, g + 1))
  {
    OneSpace(s, g);
    TwoPricesHeadOf(s, j, ts, g, g + 1);
  }

  /** The head of pattern 4 from its two prices and the one space after them. */
  lemma TwoPricesHeadOf(s: string, j: nat, ts: seq<Token>, g: nat, c: nat)
    requires 2 <= j <= |s| && IsAsciiUpper(s[0])
    requires SpacedPrices(s, j, 2, AnyDecimals) == Some(ts) && EndOf(ts, j) == g && g <= |s| && Spaces1(s, g) == Some(c)
    ensures TwoPricesHead(s, j) == Some((ts, c))
  {
  }

  /** The search for the code's start stops at once where the code starts. */
  lemma CodeStartsAt(s: string, g: nat)
    requires g + 1 < |s| && CodeAtEnd(s, g + 1)
    ensures CodeFrom(s, g + 1) == Some(g + 1)
  {
    FirstSomeIs(m => CodeStart(s, m), g + 1, |s|, g + 1);
  }

  /** The fields pattern 4 reads off those pieces are the expected ones. */
  lemma Pattern4Values(s: string, name: string, p1: string, p2: string, code: string, q0: nat, q1: nat, q2: nat)
    requires IsCode(code) && IsNumberText(p1) && IsNumberText(p2)
    requires q0 == |name| && q1 == Next(q0, p1) && q2 == Next(q1, p2)
    requires At(s, 0, name) && SpaceThen(s, q0, p1) && SpaceThen(s, q1, p2) && SpaceThen(s, q2, code)
    requires Next(q2, code) == |s|
    ensures ValidToken(s, TokenOf(q0 + 1, p1)) && ValidToken(s, TokenOf(q1 + 1, p2))
    ensures q2 + 1 + 6 <= |s| && q0 <= |s|
    ensures Expected(Some(code), name, p1, p2, None, None, None)
      == Fields(Some(s[q2 + 1..q2 + 1 + 6]), s[..q0], Value(s, [TokenOf(q0 + 1, p1), TokenOf(q1 + 1, p2)][0]),
                Value(s, [TokenOf(q0 + 1, p1), TokenOf(q1 + 1, p2)][1]), None, None, None)
  {
    TwoValues(s, q0, q1, p1, p2);
    CodeAfter(s, q2, code);
    assert s[..q0] == name;
  }

  /** Pattern 4 with the name in `[0, j)`, read off what its parts found. */
  lemma Pattern4NameAt(s: string, j: nat, ts: seq<Token>, g: nat, f: Fields)
    requires TwoPricesHead(s, j) == Some((ts, g + 1)) && CodeFrom(s, g + 1) == Some(g + 1)
    requires f == Fields(Some(s[g + 1..g + 1 + 6]), s[..j], Value(s, ts[0]), Value(s, ts[1]), None, None, None)
    ensures Pattern4Name(s, j) == Some(f)
  {
  }
}

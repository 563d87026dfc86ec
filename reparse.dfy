/** Reading back what asText writes. The tokenizer is not part of this
    model, so the token stream of a written patch is stated directly: the
    words of its text in order, quotes removed, each comma a token of its
    own, each token carrying the tokenizer's integer and number readings of
    its text. That is how the tokenizer splits the text as long as names,
    styles and formatted values contain no whitespace, quote, comma or
    brace.

    What is proved: a patch parsed from the tokens of its own text is the
    patch, provided the readings and the host library's colour parser give
    back the values that were formatted, and the patch holds nothing asText
    drops or reads back differently (see Readable). */
module Reparsing {
  import opened Text
  import opened Tokens
  import opened Patches
  import opened PatchParsing

  /** The tokenizer's readings of a token text: asInt and asFloat. */
  datatype Reader = Reader(asInt: string -> int, asFloat: string -> real)

  function Tok(rd: Reader, s: string): Token {
    Token(s, rd.asInt(s), rd.asFloat(s))
  }

  /** The tokens from [p] on are the words [ws], read by [rd]. */
  predicate ReadsAt(toks: seq<Token>, p: nat, rd: Reader, ws: seq<string>) {
    p + |ws| <= |toks| && WordsAt(toks, p, rd, ws)
  }

  predicate WordsAt(toks: seq<Token>, p: nat, rd: Reader, ws: seq<string>)
    requires p + |ws| <= |toks|
    decreases |ws|
  {
    ws == [] || (toks[p] == Tok(rd, ws[0]) && WordsAt(toks, p + 1, rd, ws[1..]))
  }

  lemma {:induction false} ReadsAtIndex(toks: seq<Token>, p: nat, rd: Reader, ws: seq<string>, k: nat)
    requires ReadsAt(toks, p, rd, ws) && k < |ws|
    ensures toks[p + k] == Tok(rd, ws[k])
    decreases k
  {
    if k > 0 {
      ReadsAtIndex(toks, p + 1, rd, ws[1..], k - 1);
    }
  }

  lemma {:induction false} ReadsAtSplit(toks: seq<Token>, p: nat, rd: Reader, a: seq<string>, b: seq<string>)
    requires ReadsAt(toks, p, rd, a + b)
    ensures ReadsAt(toks, p, rd, a) && ReadsAt(toks, p + |a|, rd, b)
    decreases |a|
  {
    if a == [] {
      assert a + b == b;
    } else {
      assert (a + b)[0] == a[0] && (a + b)[1..] == a[1..] + b;
      ReadsAtSplit(toks, p + 1, rd, a[1..], b);
    }
  }

  // ---------------------------------------------------------------------
  // Words of the written text
  // ---------------------------------------------------------------------

  /** The keyword that opens a property line. */
  function Keyword(q: PatchProp): (k: string)
    ensures k in PropertyKeywords && |k| >= 5
  {
    match q
    case FlipXProp => "FlipX"
    case FlipYProp => "FlipY"
    case UseOffsetsProp => "UseOffsets"
    case RotateProp(_) => "Rotate"
    case TranslationProp(_) => "Translation"
    case BlendProp(_, _) => "Blend"
    case AlphaProp(_) => "Alpha"
    case StyleProp(_) => "Style"
  }

  /** The words of a property line other than a Translation line (whose
      ranges the translation writer formats). */
  function PropWords(q: PatchProp, fmt: Format): (ws: seq<string>)
    requires !q.TranslationProp?
    ensures |ws| > 0 && ws[0] == Keyword(q)
  {
    match q
    case FlipXProp => ["FlipX"]
    case FlipYProp => ["FlipY"]
    case UseOffsetsProp => ["UseOffsets"]
    case RotateProp(n) => ["Rotate", IntText(n)]
    case BlendProp(c, tint) =>
      ["Blend", fmt.html(c.r, c.g, c.b)] + (if tint then [",", fmt.fixed(c.a as real / 255.0, 1)] else [])
    case AlphaProp(a) => ["Alpha", fmt.fixed(a, 2)]
    case StyleProp(s) => ["Style", s]
  }

  /** No line of [qs] is a Translation line. */
  predicate NoTranslationLine(qs: seq<PatchProp>)
    decreases |qs|
  {
    qs == [] || (!qs[0].TranslationProp? && NoTranslationLine(qs[1..]))
  }

  lemma {:induction false} NoTranslationOf(qs: seq<PatchProp>)
    requires forall q :: q in qs ==> !q.TranslationProp?
    ensures NoTranslationLine(qs)
    decreases |qs|
  {
    if qs != [] {
      assert qs[0] in qs;
      assert forall q :: q in qs[1..] ==> q in qs;
      NoTranslationOf(qs[1..]);
    }
  }

  function LinesWords(qs: seq<PatchProp>, fmt: Format): seq<string>
    requires NoTranslationLine(qs)
  {
    if qs == [] then [] else PropWords(qs[0], fmt) + LinesWords(qs[1..], fmt)
  }

  /** A patch without a translation writes no Translation line. */
  lemma NoTranslationWritten(p: Patch, fmt: Format)
    requires p.Extended? && p.blend != TranslationBlend
    ensures NoTranslationLine(PatchProps(p, fmt))
  {
    PatchPropsSpec(p, fmt);
    NoTranslationOf(PatchProps(p, fmt));
  }

  /** The words of CTPatchEx::asText for a patch without a translation:
      kind, name, offsets, then the property block when there is one. */
  function PatchWords(p: Patch, fmt: Format): seq<string>
    requires p.Extended? && p.blend != TranslationBlend
  {
    NoTranslationWritten(p, fmt);
    [KindName(p.kind), p.name, ",", IntText(p.offsetX), ",", IntText(p.offsetY)]
    + (if TextDefault(p) then [] else ["{"] + LinesWords(PatchProps(p, fmt), fmt) + ["}"])
  }

  // ---------------------------------------------------------------------
  // What a property line means
  // ---------------------------------------------------------------------

  /** The patch [pt] with property line [q] applied. */
  function Applied(pt: Patch, q: PatchProp): (r: Patch)
    requires pt.Extended?
    ensures r.Extended? && r.kind == pt.kind
  {
    match q
    case FlipXProp => pt.(flipX := true)
    case FlipYProp => pt.(flipY := true)
    case UseOffsetsProp => pt.(useOffsets := true)
    case RotateProp(n) => pt.(rotation := n)
    case TranslationProp(t) => pt.(translation := t, blend := TranslationBlend)
    case BlendProp(c, tint) => pt.(colour := c, blend := if tint then TintBlend else ColourBlend)
    case AlphaProp(a) => pt.(alpha := a)
    case StyleProp(s) => pt.(style := s)
  }

  /** The lines [qs] applied in order. */
  function AppliedAll(pt: Patch, qs: seq<PatchProp>): (r: Patch)
    requires pt.Extended?
    ensures r.Extended? && r.kind == pt.kind
    decreases |qs|
  {
    if qs == [] then pt else AppliedAll(Applied(pt, qs[0]), qs[1..])
  }

  // ---------------------------------------------------------------------
  // Hypotheses on the host library
  // ---------------------------------------------------------------------

  /** A value text that no property test mistakes for a keyword. */
  predicate NotKeyword(s: string) {
    forall k :: k in PropertyKeywords ==> !EqualsNoCase(s, k)
  }

  /** The values formatted into line [q] read back as the values of [q]:
      the rotation through asInt, the alpha and the tint factor through
      asFloat, the colour through [colourOf]; and no formatted value reads
      as a keyword. A colour without a tint factor reads back opaque, so
      only an opaque one survives. */
  predicate LineReadsBack(q: PatchProp, fmt: Format, rd: Reader, colourOf: string -> Rgba) {
    match q
    case RotateProp(n) => rd.asInt(IntText(n)) == n
    case BlendProp(c, tint) =>
      var h := fmt.html(c.r, c.g, c.b);
      NotKeyword(h) && colourOf(h).(a := c.a) == c
      && if tint then
           var f := fmt.fixed(c.a as real / 255.0, 1);
           NotKeyword(f) && RealToByte(rd.asFloat(f) * 255.0) == c.a
         else c.a == 255
    case AlphaProp(a) => var f := fmt.fixed(a, 2); NotKeyword(f) && rd.asFloat(f) == a
    case _ => true
  }

  /** Every line of [qs] reads back. */
  predicate LinesReadBack(qs: seq<PatchProp>, fmt: Format, rd: Reader, colourOf: string -> Rgba)
    decreases |qs|
  {
    qs == [] || (LineReadsBack(qs[0], fmt, rd, colourOf) && LinesReadBack(qs[1..], fmt, rd, colourOf))
  }

  lemma {:induction false} LinesReadBackOf(qs: seq<PatchProp>, fmt: Format, rd: Reader, colourOf: string -> Rgba)
    requires forall q :: q in qs ==> LineReadsBack(q, fmt, rd, colourOf)
    ensures LinesReadBack(qs, fmt, rd, colourOf)
    decreases |qs|
  {
    if qs != [] {
      assert qs[0] in qs;
      assert forall q :: q in qs[1..] ==> q in qs;
      LinesReadBackOf(qs[1..], fmt, rd, colourOf);
    }
  }

  /** A patch whose text reads back as itself: a name already upper-case,
      offsets that read back, no translation, a colour only when blending,
      an alpha of at most 1 (a larger one is not written), a style of
      "Copy" in that spelling when it is "Copy" in any case, and every
      written line reading back. */
  predicate Readable(p: Patch, fmt: Format, rd: Reader, colourOf: string -> Rgba) {
    p.Extended? && Upper(p.name) == p.name
    && rd.asInt(IntText(p.offsetX)) == p.offsetX && rd.asInt(IntText(p.offsetY)) == p.offsetY
    && p.blend != TranslationBlend && p.translation == ""
    && (p.blend == NoBlend ==> p.colour == DefaultColour)
    && p.alpha <= 1.0
    && (EqualsNoCase(p.style, "Copy") ==> p.style == "Copy")
    && forall q :: q in PatchProps(p, fmt) ==> LineReadsBack(q, fmt, rd, colourOf)
  }

  // ---------------------------------------------------------------------
  // Keywords
  // ---------------------------------------------------------------------

  lemma DifferAt(a: string, b: string, i: nat)
    requires i < |a| && i < |b| && LowerChar(a[i]) != LowerChar(b[i])
    ensures !EqualsNoCase(a, b)
  {
    assert Lower(a)[i] != Lower(b)[i];
  }

  /** No two property keywords are equal, ignoring case. */
  lemma KeywordsDistinct()
    ensures forall k1, k2 :: k1 in PropertyKeywords && k2 in PropertyKeywords && k1 != k2 ==> !EqualsNoCase(k1, k2)
  {
    forall k1, k2 | k1 in PropertyKeywords && k2 in PropertyKeywords && k1 != k2
      ensures !EqualsNoCase(k1, k2)
    {
      if |k1| == |k2| {
        if LowerChar(k1[0]) == LowerChar(k2[0]) {
          DifferAt(k1, k2, 4);
        } else {
          DifferAt(k1, k2, 0);
        }
      }
    }
  }

  /** A printed integer is not a keyword. */
  lemma IntTextNotKeyword(n: int)
    ensures NotKeyword(IntText(n))
  {
    forall k | k in PropertyKeywords
      ensures !EqualsNoCase(IntText(n), k)
    {
      NumeralIsNotWord(IntText(n), k);
    }
  }

  // ---------------------------------------------------------------------
  // Reading the lines back
  // ---------------------------------------------------------------------

  /** The token at [p] is keyword [kw]: of all the keyword tests only
      its own succeeds. */
  lemma KeywordAt(toks: seq<Token>, p: nat, kw: string)
    requires At(toks, p).text == kw && kw in PropertyKeywords
    ensures IsAtNC(toks, p, "FlipX") == (kw == "FlipX") && IsAtNC(toks, p, "FlipY") == (kw == "FlipY")
    ensures IsAtNC(toks, p, "UseOffsets") == (kw == "UseOffsets") && IsAtNC(toks, p, "Rotate") == (kw == "Rotate")
    ensures IsAtNC(toks, p, "Translation") == (kw == "Translation") && IsAtNC(toks, p, "Blend") == (kw == "Blend")
    ensures IsAtNC(toks, p, "Alpha") == (kw == "Alpha") && IsAtNC(toks, p, "Style") == (kw == "Style")
  {
    KeywordsDistinct();
  }

  /** The token at [p] is a value that is not a keyword: every keyword test
      fails. */
  lemma ValueAt(toks: seq<Token>, p: nat)
    requires NotKeyword(At(toks, p).text)
    ensures !IsAtNC(toks, p, "FlipX") && !IsAtNC(toks, p, "FlipY") && !IsAtNC(toks, p, "UseOffsets")
    ensures !IsAtNC(toks, p, "Rotate") && !IsAtNC(toks, p, "Translation") && !IsAtNC(toks, p, "Blend")
    ensures !IsAtNC(toks, p, "Alpha") && !IsAtNC(toks, p, "Style")
  {
  }

  /** A test of a keyword no token matches leaves the step alone. */
  lemma StepsSkip(toks: seq<Token>, c: Cursor, colourOf: string -> Rgba)
    requires c.pos <= |toks| && c.patch.Extended?
    ensures !IsAtNC(toks, c.pos, "Rotate") ==> RotateStep(toks, c) == c
    ensures !IsAtNC(toks, c.pos, "Translation") ==> TranslationStep(toks, c) == c
    ensures !IsAtNC(toks, c.pos, "Blend") ==> BlendStep(toks, c, colourOf) == PatchParse(true, c.pos, c.patch)
    ensures !IsAtNC(toks, c.pos, "Alpha") ==> AlphaStep(toks, c) == c
    ensures !IsAtNC(toks, c.pos, "Style") ==> StyleStep(toks, c) == c
  {
  }

  /** A FlipX, FlipY or UseOffsets line. */
  lemma FlagLineReads(toks: seq<Token>, p: nat, pt: Patch, q: PatchProp, fmt: Format, rd: Reader, colourOf: string -> Rgba)
    requires pt.Extended? && (q.FlipXProp? || q.FlipYProp? || q.UseOffsetsProp?)
    requires ReadsAt(toks, p, rd, PropWords(q, fmt))
    ensures PropLine(toks, p, pt, colourOf) == PatchParse(true, p, Applied(pt, q))
  {
    ReadsAtIndex(toks, p, rd, PropWords(q, fmt), 0);
    KeywordAt(toks, p, Keyword(q));
    var c := Cursor(p, Applied(pt, q));
    assert Flags(toks, Cursor(p, pt)) == c;
    assert RotateStep(toks, c) == c;
    assert TranslationStep(toks, c) == c;
    assert BlendStep(toks, c, colourOf) == PatchParse(true, p, c.patch);
    assert AlphaStep(toks, c) == c;
    assert StyleStep(toks, c) == c;
  }

  /** A Rotate line. */
  lemma RotateLineReads(toks: seq<Token>, p: nat, pt: Patch, n: int, fmt: Format, rd: Reader, colourOf: string -> Rgba)
    requires pt.Extended? && LineReadsBack(RotateProp(n), fmt, rd, colourOf)
    requires ReadsAt(toks, p, rd, PropWords(RotateProp(n), fmt))
    ensures PropLine(toks, p, pt, colourOf) == PatchParse(true, p + 1, Applied(pt, RotateProp(n)))
  {
    var ws := PropWords(RotateProp(n), fmt);
    ReadsAtIndex(toks, p, rd, ws, 0);
    ReadsAtIndex(toks, p, rd, ws, 1);
    KeywordAt(toks, p, "Rotate");
    IntTextNotKeyword(n);
    ValueAt(toks, p + 1);
    var c0 := Cursor(p, pt);
    assert Flags(toks, c0) == c0;
    var c := Cursor(p + 1, Applied(pt, RotateProp(n)));
    assert RotateStep(toks, c0) == c;
    assert TranslationStep(toks, c) == c;
    assert BlendStep(toks, c, colourOf) == PatchParse(true, p + 1, c.patch);
    assert AlphaStep(toks, c) == c;
    assert StyleStep(toks, c) == c;
  }

  /** BlendStep over a colour line reads the colour, opaque. */
  lemma ColourBlendStep(toks: seq<Token>, p: nat, pt: Patch, col: Rgba, fmt: Format, rd: Reader, colourOf: string -> Rgba)
    requires pt.Extended? && colourOf(fmt.html(col.r, col.g, col.b)).(a := 255) == col
    requires ReadsAt(toks, p, rd, PropWords(BlendProp(col, false), fmt)) && !IsAt(toks, p + 2, ",")
    ensures BlendStep(toks, Cursor(p, pt), colourOf) == PatchParse(true, p + 1, Applied(pt, BlendProp(col, false)))
  {
    var ws := PropWords(BlendProp(col, false), fmt);
    ReadsAtIndex(toks, p, rd, ws, 0);
    ReadsAtIndex(toks, p, rd, ws, 1);
  }

  /** BlendStep over a tint line reads the colour and the tint factor. */
  lemma TintBlendStep(toks: seq<Token>, p: nat, pt: Patch, col: Rgba, fmt: Format, rd: Reader, colourOf: string -> Rgba)
    requires pt.Extended? && colourOf(fmt.html(col.r, col.g, col.b)).(a := col.a) == col
    requires RealToByte(rd.asFloat(fmt.fixed(col.a as real / 255.0, 1)) * 255.0) == col.a
    requires ReadsAt(toks, p, rd, PropWords(BlendProp(col, true), fmt)) && !IsAt(toks, p + 4, ",")
    ensures BlendStep(toks, Cursor(p, pt), colourOf) == PatchParse(true, p + 3, Applied(pt, BlendProp(col, true)))
  {
    var ws := PropWords(BlendProp(col, true), fmt);
    ReadsAtIndex(toks, p, rd, ws, 0);
    ReadsAtIndex(toks, p, rd, ws, 1);
    ReadsAtIndex(toks, p, rd, ws, 2);
    ReadsAtIndex(toks, p, rd, ws, 3);
  }

  /** The tests before Blend pass over a Blend line. */
  lemma BeforeBlend(toks: seq<Token>, p: nat, pt: Patch, colourOf: string -> Rgba)
    requires pt.Extended? && p < |toks| && toks[p].text == "Blend"
    ensures TranslationStep(toks, RotateStep(toks, Flags(toks, Cursor(p, pt)))) == Cursor(p, pt)
  {
    KeywordAt(toks, p, "Blend");
    StepsSkip(toks, Cursor(p, pt), colourOf);
  }

  /** The tests after Blend, on the last word of a Blend line. */
  lemma AfterBlend(toks: seq<Token>, p: nat, last: nat, pt: Patch, r: Patch, colourOf: string -> Rgba)
    requires pt.Extended? && r.Extended? && p <= last <= |toks| && NotKeyword(At(toks, last).text)
    requires BlendStep(toks, Cursor(p, pt), colourOf) == PatchParse(true, last, r)
    requires TranslationStep(toks, RotateStep(toks, Flags(toks, Cursor(p, pt)))) == Cursor(p, pt)
    ensures PropLine(toks, p, pt, colourOf) == PatchParse(true, last, r)
  {
    ValueAt(toks, last);
    StepsSkip(toks, Cursor(last, r), colourOf);
  }

  /** A Blend line without a tint factor. */
  lemma ColourLineReads(toks: seq<Token>, p: nat, pt: Patch, col: Rgba, fmt: Format, rd: Reader, colourOf: string -> Rgba)
    requires pt.Extended? && LineReadsBack(BlendProp(col, false), fmt, rd, colourOf)
    requires ReadsAt(toks, p, rd, PropWords(BlendProp(col, false), fmt)) && !IsAt(toks, p + 2, ",")
    ensures PropLine(toks, p, pt, colourOf) == PatchParse(true, p + 1, Applied(pt, BlendProp(col, false)))
  {
    var ws := PropWords(BlendProp(col, false), fmt);
    ReadsAtIndex(toks, p, rd, ws, 0);
    ReadsAtIndex(toks, p, rd, ws, 1);
    BeforeBlend(toks, p, pt, colourOf);
    ColourBlendStep(toks, p, pt, col, fmt, rd, colourOf);
    AfterBlend(toks, p, p + 1, pt, Applied(pt, BlendProp(col, false)), colourOf);
  }

  /** A Blend line with a tint factor. */
  lemma TintLineReads(toks: seq<Token>, p: nat, pt: Patch, col: Rgba, fmt: Format, rd: Reader, colourOf: string -> Rgba)
    requires pt.Extended? && LineReadsBack(BlendProp(col, true), fmt, rd, colourOf)
    requires ReadsAt(toks, p, rd, PropWords(BlendProp(col, true), fmt)) && !IsAt(toks, p + 4, ",")
    ensures PropLine(toks, p, pt, colourOf) == PatchParse(true, p + 3, Applied(pt, BlendProp(col, true)))
  {
    var ws := PropWords(BlendProp(col, true), fmt);
    ReadsAtIndex(toks, p, rd, ws, 0);
    ReadsAtIndex(toks, p, rd, ws, 3);
    BeforeBlend(toks, p, pt, colourOf);
    TintBlendStep(toks, p, pt, col, fmt, rd, colourOf);
    AfterBlend(toks, p, p + 3, pt, Applied(pt, BlendProp(col, true)), colourOf);
  }

  /** A Blend line, with or without a tint factor. */
  lemma BlendLineReads(toks: seq<Token>, p: nat, pt: Patch, col: Rgba, tint: bool, fmt: Format, rd: Reader, colourOf: string -> Rgba)
    requires pt.Extended? && LineReadsBack(BlendProp(col, tint), fmt, rd, colourOf)
    requires ReadsAt(toks, p, rd, PropWords(BlendProp(col, tint), fmt))
    requires !IsAt(toks, p + |PropWords(BlendProp(col, tint), fmt)|, ",")
    ensures PropLine(toks, p, pt, colourOf)
         == PatchParse(true, p + |PropWords(BlendProp(col, tint), fmt)| - 1, Applied(pt, BlendProp(col, tint)))
  {
    if tint {
      assert |PropWords(BlendProp(col, tint), fmt)| == 4;
      TintLineReads(toks, p, pt, col, fmt, rd, colourOf);
    } else {
      assert |PropWords(BlendProp(col, tint), fmt)| == 2;
      ColourLineReads(toks, p, pt, col, fmt, rd, colourOf);
    }
  }

  /** An Alpha line. */
  lemma AlphaLineReads(toks: seq<Token>, p: nat, pt: Patch, a: real, fmt: Format, rd: Reader, colourOf: string -> Rgba)
    requires pt.Extended? && LineReadsBack(AlphaProp(a), fmt, rd, colourOf)
    requires ReadsAt(toks, p, rd, PropWords(AlphaProp(a), fmt))
    ensures PropLine(toks, p, pt, colourOf) == PatchParse(true, p + 1, Applied(pt, AlphaProp(a)))
  {
    var ws := PropWords(AlphaProp(a), fmt);
    ReadsAtIndex(toks, p, rd, ws, 0);
    ReadsAtIndex(toks, p, rd, ws, 1);
    KeywordAt(toks, p, "Alpha");
    ValueAt(toks, p + 1);
    var c0 := Cursor(p, pt);
    assert Flags(toks, c0) == c0;
    assert RotateStep(toks, c0) == c0;
    assert TranslationStep(toks, c0) == c0;
    assert BlendStep(toks, c0, colourOf) == PatchParse(true, p, pt);
    var c := Cursor(p + 1, Applied(pt, AlphaProp(a)));
    assert AlphaStep(toks, c0) == c;
    assert StyleStep(toks, c) == c;
  }

  /** A Style line. */
  lemma StyleLineReads(toks: seq<Token>, p: nat, pt: Patch, st: string, fmt: Format, rd: Reader, colourOf: string -> Rgba)
    requires pt.Extended?
    requires ReadsAt(toks, p, rd, PropWords(StyleProp(st), fmt))
    ensures PropLine(toks, p, pt, colourOf) == PatchParse(true, p + 1, Applied(pt, StyleProp(st)))
  {
    var ws := PropWords(StyleProp(st), fmt);
    ReadsAtIndex(toks, p, rd, ws, 0);
    ReadsAtIndex(toks, p, rd, ws, 1);
    KeywordAt(toks, p, "Style");
    var c0 := Cursor(p, pt);
    assert Flags(toks, c0) == c0;
    assert RotateStep(toks, c0) == c0;
    assert TranslationStep(toks, c0) == c0;
    assert BlendStep(toks, c0, colourOf) == PatchParse(true, p, pt);
    assert AlphaStep(toks, c0) == c0;
    assert StyleStep(toks, c0) == Cursor(p + 1, Applied(pt, StyleProp(st)));
  }

  /** One pass of the property tests over the words of a line applies that
      line and leaves the cursor on its last word, provided the word after
      the line is not a comma. */
  lemma PropLineReadsLine(toks: seq<Token>, p: nat, pt: Patch, q: PatchProp, fmt: Format, rd: Reader, colourOf: string -> Rgba)
    requires pt.Extended? && !q.TranslationProp? && LineReadsBack(q, fmt, rd, colourOf)
    requires ReadsAt(toks, p, rd, PropWords(q, fmt))
    requires !IsAt(toks, p + |PropWords(q, fmt)|, ",")
    ensures PropLine(toks, p, pt, colourOf) == PatchParse(true, p + |PropWords(q, fmt)| - 1, Applied(pt, q))
  {
    match q {
      case RotateProp(n) => RotateLineReads(toks, p, pt, n, fmt, rd, colourOf);
      case BlendProp(c, tint) => BlendLineReads(toks, p, pt, c, tint, fmt, rd, colourOf);
      case AlphaProp(a) => AlphaLineReads(toks, p, pt, a, fmt, rd, colourOf);
      case StyleProp(s) => StyleLineReads(toks, p, pt, s, fmt, rd, colourOf);
      case _ => FlagLineReads(toks, p, pt, q, fmt, rd, colourOf);
    }
  }

  /** The words of lines: those of the first line, then the others; a
      non-empty tail opens with a keyword. */
  lemma LinesWordsStep(qs: seq<PatchProp>, fmt: Format)
    requires qs != [] && NoTranslationLine(qs)
    ensures !qs[0].TranslationProp? && NoTranslationLine(qs[1..])
    ensures LinesWords(qs, fmt) == PropWords(qs[0], fmt) + LinesWords(qs[1..], fmt)
    ensures |LinesWords(qs[1..], fmt)| > 0 ==> |LinesWords(qs[1..], fmt)[0]| >= 5
  {
    if qs[1..] != [] {
      assert LinesWords(qs[1..], fmt)[0] == Keyword(qs[1..][0]);
    }
  }

  /** Words [w0] then [rest], followed by a closing brace at [e], where
      [w0] and a non-empty [rest] open with words of five letters or
      more: each part stands where it should, and neither the first word
      nor the word after [w0] is a brace or a comma. */
  lemma SplitFirst(toks: seq<Token>, p: nat, e: nat, rd: Reader, w0: seq<string>, rest: seq<string>)
    requires ReadsAt(toks, p, rd, w0 + rest) && e == p + |w0| + |rest| && IsAt(toks, e, "}")
    requires |w0| > 0 && |w0[0]| >= 5 && (|rest| > 0 ==> |rest[0]| >= 5)
    ensures ReadsAt(toks, p, rd, w0) && ReadsAt(toks, p + |w0|, rd, rest)
    ensures p + |w0| < |toks| && !IsAt(toks, p, "}") && !IsAt(toks, p + |w0|, ",")
  {
    ReadsAtSplit(toks, p, rd, w0, rest);
    ReadsAtIndex(toks, p, rd, w0, 0);
    assert |At(toks, p).text| >= 5;
    if |rest| > 0 {
      ReadsAtIndex(toks, p + |w0|, rd, rest, 0);
      assert |At(toks, p + |w0|).text| >= 5;
    }
  }

  /** A successful pass over a line not starting on a brace continues the
      loop after the pass's last word. */
  lemma LoopTurn(toks: seq<Token>, p: nat, pt: Patch, colourOf: string -> Rgba, next: nat, r: Patch)
    requires p < |toks| && pt.Extended? && !IsAt(toks, p, "}")
    requires p <= next < |toks| && PropLine(toks, p, pt, colourOf) == PatchParse(true, next, r)
    ensures PropsLoop(toks, p, pt, colourOf) == PropsLoop(toks, next + 1, r, colourOf)
  {
    var l := PropLine(toks, p, pt, colourOf);
    assert l.ok && l.pos == next && l.patch == r;
    assert Step(toks, next, 1) == next + 1;
  }

  /** On a closing brace the property loop stops. */
  lemma LoopAtBrace(toks: seq<Token>, p: nat, pt: Patch, colourOf: string -> Rgba)
    requires p <= |toks| && pt.Extended? && IsAt(toks, p, "}")
    ensures PropsLoop(toks, p, pt, colourOf) == PatchParse(true, p, pt)
  {
  }

  /** The words of line [q] stand at [p], its values read back, and it is
      followed by neither a comma nor the end of the stream. */
  predicate LineAt(toks: seq<Token>, p: nat, q: PatchProp, fmt: Format, rd: Reader, colourOf: string -> Rgba) {
    !q.TranslationProp? && LineReadsBack(q, fmt, rd, colourOf)
    && ReadsAt(toks, p, rd, PropWords(q, fmt)) && p + |PropWords(q, fmt)| < |toks|
    && !IsAt(toks, p, "}") && !IsAt(toks, p + |PropWords(q, fmt)|, ",")
  }

  /** The lines [qs] stand one after the other from [p], and a closing
      brace at [e] follows them. */
  predicate LinesAt(toks: seq<Token>, p: nat, e: nat, qs: seq<PatchProp>, fmt: Format, rd: Reader, colourOf: string -> Rgba)
    decreases |qs|
  {
    if qs == [] then p == e && IsAt(toks, e, "}")
    else LineAt(toks, p, qs[0], fmt, rd, colourOf)
         && LinesAt(toks, p + |PropWords(qs[0], fmt)|, e, qs[1..], fmt, rd, colourOf)
  }

  /** One turn of the property loop over the words of line [q]: the line
      is applied and the loop goes on after its last word. */
  lemma LineTurn(toks: seq<Token>, p: nat, pt: Patch, q: PatchProp, fmt: Format, rd: Reader, colourOf: string -> Rgba)
    requires pt.Extended? && LineAt(toks, p, q, fmt, rd, colourOf)
    ensures PropsLoop(toks, p, pt, colourOf) == PropsLoop(toks, p + |PropWords(q, fmt)|, Applied(pt, q), colourOf)
  {
    var n := |PropWords(q, fmt)|;
    PropLineReadsLine(toks, p, pt, q, fmt, rd, colourOf);
    LoopTurn(toks, p, pt, colourOf, p + n - 1, Applied(pt, q));
  }

  /** The property loop over lines [qs] followed by a closing brace at [e]
      applies the lines in order and stops on the brace. */
  lemma {:induction false} PropsLoopReadsLines(toks: seq<Token>, p: nat, e: nat, pt: Patch, qs: seq<PatchProp>, fmt: Format, rd: Reader, colourOf: string -> Rgba)
    requires pt.Extended? && LinesAt(toks, p, e, qs, fmt, rd, colourOf)
    ensures PropsLoop(toks, p, pt, colourOf) == PatchParse(true, e, AppliedAll(pt, qs))
    decreases |qs|
  {
    if qs == [] {
      LoopAtBrace(toks, p, pt, colourOf);
    } else {
      var a := Applied(pt, qs[0]);
      LineTurn(toks, p, pt, qs[0], fmt, rd, colourOf);
      PropsLoopReadsLines(toks, p + |PropWords(qs[0], fmt)|, e, a, qs[1..], fmt, rd, colourOf);
      assert AppliedAll(pt, qs) == AppliedAll(a, qs[1..]);
    }
  }

  /** The words of readable lines followed by a closing brace at [e] are
      those lines, one after the other. */
  lemma {:induction false} WordsAreLines(toks: seq<Token>, p: nat, e: nat, qs: seq<PatchProp>, fmt: Format, rd: Reader, colourOf: string -> Rgba)
    requires NoTranslationLine(qs) && LinesReadBack(qs, fmt, rd, colourOf)
    requires ReadsAt(toks, p, rd, LinesWords(qs, fmt)) && e == p + |LinesWords(qs, fmt)| && IsAt(toks, e, "}")
    ensures LinesAt(toks, p, e, qs, fmt, rd, colourOf)
    decreases |qs|
  {
    if qs != [] {
      LinesWordsStep(qs, fmt);
      SplitFirst(toks, p, e, rd, PropWords(qs[0], fmt), LinesWords(qs[1..], fmt));
      WordsAreLines(toks, p + |PropWords(qs[0], fmt)|, e, qs[1..], fmt, rd, colourOf);
    }
  }

  // ---------------------------------------------------------------------
  // The written lines determine the patch
  // ---------------------------------------------------------------------

  lemma {:induction false} AppliedKeepStep(b: Patch, p: Patch, fmt: Format, qs: seq<PatchProp>)
    requires b.Extended? && p.Extended? && qs != []
    ensures AppliedAll(b, Keep(p, fmt, qs))
         == AppliedAll(if Describes(p, fmt, qs[0]) then Applied(b, qs[0]) else b, Keep(p, fmt, qs[1..]))
  {
    if Describes(p, fmt, qs[0]) {
      var rest := Keep(p, fmt, qs[1..]);
      assert Keep(p, fmt, qs) == [qs[0]] + rest;
      assert ([qs[0]] + rest)[1..] == rest;
    }
  }

  /** The flag and rotation lines, applied to a fresh patch, set flags and
      rotation to the patch's own. */
  lemma RebuildFlags(p: Patch, fmt: Format)
    requires p.Extended?
    ensures var b0 := NewExtended(p.name, p.offsetX, p.offsetY, p.kind);
            var c := Candidates(p, fmt);
            AppliedAll(b0, Keep(p, fmt, c))
            == AppliedAll(b0.(flipX := p.flipX, flipY := p.flipY, useOffsets := p.useOffsets, rotation := p.rotation),
                          Keep(p, fmt, c[4..]))
  {
    var c := Candidates(p, fmt);
    var b0 := NewExtended(p.name, p.offsetX, p.offsetY, p.kind);
    AppliedKeepStep(b0, p, fmt, c);
    var b1 := b0.(flipX := p.flipX);
    assert c[1..][0] == c[1];
    AppliedKeepStep(b1, p, fmt, c[1..]);
    var b2 := b1.(flipY := p.flipY);
    assert c[1..][1..] == c[2..] && c[2..][0] == c[2];
    AppliedKeepStep(b2, p, fmt, c[2..]);
    var b3 := b2.(useOffsets := p.useOffsets);
    assert c[2..][1..] == c[3..] && c[3..][0] == c[3];
    AppliedKeepStep(b3, p, fmt, c[3..]);
    assert c[3..][1..] == c[4..];
  }

  /** The translation, blend, alpha and style lines finish the patch, as
      long as it holds only what those lines can carry. */
  lemma RebuildRest(p: Patch, fmt: Format, b4: Patch)
    requires p.Extended? && p.blend != TranslationBlend && p.translation == ""
    requires p.blend == NoBlend ==> p.colour == DefaultColour
    requires p.alpha <= 1.0 && (EqualsNoCase(p.style, "Copy") ==> p.style == "Copy")
    requires b4 == Extended(p.name, p.offsetX, p.offsetY, p.kind, p.flipX, p.flipY, p.useOffsets, p.rotation,
                            1.0, "Copy", NoBlend, DefaultColour, "")
    ensures AppliedAll(b4, Keep(p, fmt, Candidates(p, fmt)[4..])) == p
  {
    var c := Candidates(p, fmt)[4..];
    assert c == [TranslationProp(p.translation), BlendProp(p.colour, p.blend == TintBlend), AlphaProp(p.alpha), StyleProp(p.style)];
    AppliedKeepStep(b4, p, fmt, c);
    assert c[1..][0] == c[1];
    AppliedKeepStep(b4, p, fmt, c[1..]);
    var b6 := if p.blend != NoBlend then b4.(colour := p.colour, blend := p.blend) else b4;
    assert c[1..][1..] == c[2..] && c[2..][0] == c[2];
    AppliedKeepStep(b6, p, fmt, c[2..]);
    var b7 := if p.alpha < 1.0 then b6.(alpha := p.alpha) else b6;
    assert c[2..][1..] == c[3..] && c[3..][0] == c[3];
    AppliedKeepStep(b7, p, fmt, c[3..]);
    assert c[3..][1..] == [];
  }

  /** The lines asText writes, applied to a freshly constructed patch with
      the same name, offsets and kind, give the patch back, as long as it
      has no translation, a colour only when blending, an alpha of at most
      1 and a style spelled "Copy" when it is "Copy" in any case; these are
      exactly what the lines cannot carry. */
  lemma WrittenLinesRebuild(p: Patch, fmt: Format)
    requires p.Extended? && p.blend != TranslationBlend && p.translation == ""
    requires p.blend == NoBlend ==> p.colour == DefaultColour
    requires p.alpha <= 1.0 && (EqualsNoCase(p.style, "Copy") ==> p.style == "Copy")
    ensures AppliedAll(NewExtended(p.name, p.offsetX, p.offsetY, p.kind), PatchProps(p, fmt)) == p
  {
    RebuildFlags(p, fmt);
    var b0 := NewExtended(p.name, p.offsetX, p.offsetY, p.kind);
    RebuildRest(p, fmt, b0.(flipX := p.flipX, flipY := p.flipY, useOffsets := p.useOffsets, rotation := p.rotation));
  }

  // ---------------------------------------------------------------------
  // The round trip
  // ---------------------------------------------------------------------

  /** The kind, name and offsets read back as a fresh patch with the same
      name, offsets and kind. */
  lemma HeaderReads(toks: seq<Token>, p0: nat, p: Patch, rd: Reader, ws: seq<string>)
    requires p.Extended? && Upper(p.name) == p.name
    requires rd.asInt(IntText(p.offsetX)) == p.offsetX && rd.asInt(IntText(p.offsetY)) == p.offsetY
    requires ReadsAt(toks, p0, rd, ws) && |ws| >= 6
    requires ws[1] == p.name && ws[3] == IntText(p.offsetX) && ws[5] == IntText(p.offsetY)
    ensures ParseHeader(toks, p0, p.kind) == Cursor(p0 + 5, NewExtended(p.name, p.offsetX, p.offsetY, p.kind))
  {
    ReadsAtIndex(toks, p0, rd, ws, 1);
    ReadsAtIndex(toks, p0, rd, ws, 3);
    ReadsAtIndex(toks, p0, rd, ws, 5);
  }

  /** The words of a property block: "{" at [p0 + 6], the lines from
      [p0 + 7], and "}" after them, on the last word of the text. */
  lemma BlockWords(toks: seq<Token>, p0: nat, p: Patch, fmt: Format, rd: Reader) returns (lines: seq<string>)
    requires p.Extended? && p.blend != TranslationBlend && !TextDefault(p)
    requires ReadsAt(toks, p0, rd, PatchWords(p, fmt))
    ensures NoTranslationLine(PatchProps(p, fmt)) && lines == LinesWords(PatchProps(p, fmt), fmt)
    ensures IsAt(toks, p0 + 6, "{") && ReadsAt(toks, p0 + 7, rd, lines)
    ensures |PatchWords(p, fmt)| == 8 + |lines| && IsAt(toks, p0 + 7 + |lines|, "}")
  {
    NoTranslationWritten(p, fmt);
    var head := [KindName(p.kind), p.name, ",", IntText(p.offsetX), ",", IntText(p.offsetY)];
    lines := LinesWords(PatchProps(p, fmt), fmt);
    assert PatchWords(p, fmt) == head + ((["{"] + lines) + ["}"]);
    BracedSplit(toks, p0, rd, head, lines);
  }

  /** Six header words, an opening brace, the lines and a closing brace
      read as those parts. */
  lemma BracedSplit(toks: seq<Token>, p0: nat, rd: Reader, head: seq<string>, lines: seq<string>)
    requires |head| == 6
    requires ReadsAt(toks, p0, rd, head + ((["{"] + lines) + ["}"]))
    ensures IsAt(toks, p0 + 6, "{") && ReadsAt(toks, p0 + 7, rd, lines)
    ensures IsAt(toks, p0 + 7 + |lines|, "}") && |head + ((["{"] + lines) + ["}"])| == 8 + |lines|
  {
    ReadsAtSplit(toks, p0, rd, head, (["{"] + lines) + ["}"]);
    ReadsAtSplit(toks, p0 + 6, rd, ["{"] + lines, ["}"]);
    ReadsAtSplit(toks, p0 + 6, rd, ["{"], lines);
    ReadsAtIndex(toks, p0 + 6, rd, ["{"], 0);
    ReadsAtIndex(toks, p0 + 7 + |lines|, rd, ["}"], 0);
  }

  /** The property block of a readable patch, read from a fresh patch with
      the same name, offsets and kind, gives the patch back and stops on
      the closing brace. */
  lemma BlockReads(toks: seq<Token>, p0: nat, p: Patch, fmt: Format, rd: Reader, colourOf: string -> Rgba)
    requires Readable(p, fmt, rd, colourOf) && !TextDefault(p)
    requires ReadsAt(toks, p0, rd, PatchWords(p, fmt))
    ensures p0 + 7 <= |toks| && IsAt(toks, p0 + 6, "{")
    ensures PropsLoop(toks, p0 + 7, NewExtended(p.name, p.offsetX, p.offsetY, p.kind), colourOf)
         == PatchParse(true, p0 + |PatchWords(p, fmt)| - 1, p)
  {
    var qs := PatchProps(p, fmt);
    var lines := BlockWords(toks, p0, p, fmt, rd);
    var e := p0 + 7 + |lines|;
    LinesReadBackOf(qs, fmt, rd, colourOf);
    WordsAreLines(toks, p0 + 7, e, qs, fmt, rd, colourOf);
    PropsLoopReadsLines(toks, p0 + 7, e, NewExtended(p.name, p.offsetX, p.offsetY, p.kind), qs, fmt, rd, colourOf);
    WrittenLinesRebuild(p, fmt);
  }

  /** Round trip of CTPatchEx::asText through CTPatchEx::parse: parsing the
      tokens of a readable patch's text, starting on its kind keyword,
      succeeds, gives the patch back and leaves the cursor on the last
      token of the text. A patch without a block must not be followed by
      a "{". */
  lemma PatchTextReadsBack(toks: seq<Token>, p0: nat, p: Patch, fmt: Format, rd: Reader, colourOf: string -> Rgba)
    requires Readable(p, fmt, rd, colourOf)
    requires ReadsAt(toks, p0, rd, PatchWords(p, fmt))
    requires TextDefault(p) ==> !IsAt(toks, p0 + 6, "{")
    ensures ParsePatchSpec(toks, p0, p.kind, colourOf) == PatchParse(true, p0 + |PatchWords(p, fmt)| - 1, p)
  {
    HeaderReads(toks, p0, p, rd, PatchWords(p, fmt));
    if TextDefault(p) {
      assert NewExtended(p.name, p.offsetX, p.offsetY, p.kind) == p;
    } else {
      BlockReads(toks, p0, p, fmt, rd, colourOf);
    }
  }
}

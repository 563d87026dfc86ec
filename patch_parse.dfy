/** Parsing of an extended patch from a TEXTURES definition
    (CTPatchEx::parse). The parser is given as functions of the token
    stream and a cursor, mirroring each step of the source, and as a method
    over the tokenizer object whose contract ties it to those functions.

    On entry the cursor is on the "Patch" or "Graphic" keyword. The parser
    reads the name, skips the comma, reads the x offset, skips the comma,
    reads the y offset, and when the next token is "{" steps past it and
    reads properties up to the closing "}" or the end of input. A property
    keyword is recognised by a sequence of independent tests, not by an
    if-else chain: a value just read is itself compared with the keywords
    that follow in the sequence. The cursor is left on the last token
    consumed. */
module PatchParsing {
  import opened Text
  import opened Tokens
  import opened Patches

  /** Outcome of a parse: success, cursor and the patch as far as read. */
  datatype PatchParse = PatchParse(ok: bool, pos: nat, patch: Patch)

  /** A cursor together with the patch read so far. */
  datatype Cursor = Cursor(pos: nat, patch: Patch)

  /** Accumulated translation text and the cursor after it. */
  datatype TextAt = TextAt(text: string, pos: nat)

  /** A translation range containing '=' is wrapped in double quotes. */
  function Quoted(t: string): (r: string)
    ensures Contains(t, '=') ==> r == "\"" + t + "\""
    ensures !Contains(t, '=') ==> r == t
  {
    if Contains(t, '=') then "\"" + t + "\"" else t
  }

  /** Name and offsets: next, skip, next, skip, next. */
  function ParseHeader(toks: seq<Token>, p0: nat, kind: PatchKind): (c: Cursor)
    requires p0 <= |toks|
    ensures p0 <= c.pos <= |toks| && c.patch.Extended?
  {
    var p1 := Step(toks, p0, 1);
    var p2 := Step(toks, p1, 1);
    var p3 := Step(toks, p2, 1);
    var p4 := Step(toks, p3, 1);
    var p5 := Step(toks, p4, 1);
    Cursor(p5, NewExtended(Upper(At(toks, p1).text), Wrap16(At(toks, p3).intValue), Wrap16(At(toks, p5).intValue), kind))
  }

  /** The whole of CTPatchEx::parse, starting on the patch keyword at [p0];
      [colourOf] is the colour parser of the host library. */
  function ParsePatchSpec(toks: seq<Token>, p0: nat, kind: PatchKind, colourOf: string -> Rgba): (r: PatchParse)
    requires p0 <= |toks|
    ensures p0 <= r.pos <= |toks| && r.patch.Extended? && r.patch.kind == kind
  {
    var h := ParseHeader(toks, p0, kind);
    if IsAt(toks, h.pos + 1, "{") then PropsLoop(toks, Step(toks, h.pos, 2), h.patch, colourOf)
    else PatchParse(true, h.pos, h.patch)
  }

  /** The property loop: stops at "}" or at the end of input, otherwise
      reads one property and moves to the next token. */
  function PropsLoop(toks: seq<Token>, p: nat, patch: Patch, colourOf: string -> Rgba): (r: PatchParse)
    requires p <= |toks| && patch.Extended?
    ensures p <= r.pos <= |toks| && r.patch.Extended? && r.patch.kind == patch.kind
    decreases |toks| - p
  {
    if p >= |toks| || IsAt(toks, p, "}") then PatchParse(true, p, patch)
    else
      var r := PropLine(toks, p, patch, colourOf);
      if !r.ok then r else PropsLoop(toks, Step(toks, r.pos, 1), r.patch, colourOf)
  }

  /** One pass of the property tests, in the source's order. */
  function PropLine(toks: seq<Token>, p: nat, patch: Patch, colourOf: string -> Rgba): (r: PatchParse)
    requires p <= |toks| && patch.Extended?
    ensures p <= r.pos <= |toks| && r.patch.Extended? && r.patch.kind == patch.kind
  {
    var c := Flags(toks, Cursor(p, patch));
    var c := RotateStep(toks, c);
    var c := TranslationStep(toks, c);
    var b := BlendStep(toks, c, colourOf);
    if !b.ok then b
    else
      var c := AlphaStep(toks, Cursor(b.pos, b.patch));
      var c := StyleStep(toks, c);
      PatchParse(true, c.pos, c.patch)
  }

  function Flags(toks: seq<Token>, c: Cursor): (d: Cursor)
    requires c.patch.Extended?
    ensures d.pos == c.pos && d.patch.Extended? && d.patch.kind == c.patch.kind
  {
    var pt := c.patch;
    var pt := if IsAtNC(toks, c.pos, "FlipX") then pt.(flipX := true) else pt;
    var pt := if IsAtNC(toks, c.pos, "FlipY") then pt.(flipY := true) else pt;
    var pt := if IsAtNC(toks, c.pos, "UseOffsets") then pt.(useOffsets := true) else pt;
    Cursor(c.pos, pt)
  }

  function RotateStep(toks: seq<Token>, c: Cursor): (d: Cursor)
    requires c.pos <= |toks| && c.patch.Extended?
    ensures c.pos <= d.pos <= |toks| && d.patch.Extended? && d.patch.kind == c.patch.kind
  {
    if IsAtNC(toks, c.pos, "Rotate") then
      var q := Step(toks, c.pos, 1);
      Cursor(q, c.patch.(rotation := At(toks, q).intValue))
    else c
  }

  function TranslationStep(toks: seq<Token>, c: Cursor): (d: Cursor)
    requires c.pos <= |toks| && c.patch.Extended?
    ensures c.pos <= d.pos <= |toks| && d.patch.Extended? && d.patch.kind == c.patch.kind
  {
    if IsAtNC(toks, c.pos, "Translation") then
      var q := Step(toks, c.pos, 1);
      var t := TranslationTail(toks, q, Quoted(At(toks, q).text));
      Cursor(t.pos, c.patch.(translation := t.text, blend := TranslationBlend))
    else c
  }

  /** Further comma-separated translation ranges: while the next token is a
      comma, append it and the (quoted) range after it. */
  function TranslationTail(toks: seq<Token>, p: nat, acc: string): (r: TextAt)
    requires p <= |toks|
    ensures p <= r.pos <= |toks|
    decreases |toks| - p
  {
    if IsAt(toks, p + 1, ",") then
      var pc := Step(toks, p, 1);
      var pv := Step(toks, pc, 1);
      TranslationTail(toks, pv, acc + At(toks, pc).text + Quoted(At(toks, pv).text))
    else TextAt(acc, p)
  }

  /** Blend: a colour; a colour and an alpha factor; or red, green, blue and
      alpha, where a missing comma before the alpha is an error. */
  function BlendStep(toks: seq<Token>, c: Cursor, colourOf: string -> Rgba): (r: PatchParse)
    requires c.pos <= |toks| && c.patch.Extended?
    ensures c.pos <= r.pos <= |toks| && r.patch.Extended? && r.patch.kind == c.patch.kind
  {
    if !IsAtNC(toks, c.pos, "Blend") then PatchParse(true, c.pos, c.patch)
    else
      var pt := c.patch.(blend := ColourBlend);
      var p1 := Step(toks, c.pos, 1);
      var first := At(toks, p1);
      if !IsAt(toks, p1 + 1, ",") then PatchParse(true, p1, pt.(colour := colourOf(first.text).(a := 255)))
      else
        var p3 := Step(toks, Step(toks, p1, 1), 1);
        var second := At(toks, p3).floatValue;
        if !IsAt(toks, p3 + 1, ",") then
          PatchParse(true, p3, pt.(colour := colourOf(first.text).(a := RealToByte(second * 255.0)), blend := TintBlend))
        else
          var p5 := Step(toks, Step(toks, p3, 1), 1);
          var rgb := pt.colour.(r := RealToByte(first.floatValue), g := RealToByte(second), b := IntToByte(At(toks, p5).intValue));
          if !IsAt(toks, p5 + 1, ",") then PatchParse(false, p5, pt.(colour := rgb))
          else
            var p7 := Step(toks, Step(toks, p5, 1), 1);
            PatchParse(true, p7, pt.(colour := rgb.(a := RealToByte(At(toks, p7).floatValue * 255.0)), blend := TintBlend))
  }

  /** A Blend line that parses gives a colour blend, whose alpha set(r, g, b)
      leaves at 255, or a tint blend. */
  lemma BlendLineBlends(toks: seq<Token>, c: Cursor, colourOf: string -> Rgba)
    requires c.pos <= |toks| && c.patch.Extended? && IsAtNC(toks, c.pos, "Blend")
    requires BlendStep(toks, c, colourOf).ok
    ensures var r := BlendStep(toks, c, colourOf);
            (r.patch.blend == ColourBlend && r.patch.colour.a == 255) || r.patch.blend == TintBlend
  {
  }

  function AlphaStep(toks: seq<Token>, c: Cursor): (d: Cursor)
    requires c.pos <= |toks| && c.patch.Extended?
    ensures c.pos <= d.pos <= |toks| && d.patch.Extended? && d.patch.kind == c.patch.kind
  {
    if IsAtNC(toks, c.pos, "Alpha") then
      var q := Step(toks, c.pos, 1);
      Cursor(q, c.patch.(alpha := At(toks, q).floatValue))
    else c
  }

  function StyleStep(toks: seq<Token>, c: Cursor): (d: Cursor)
    requires c.pos <= |toks| && c.patch.Extended?
    ensures c.pos <= d.pos <= |toks| && d.patch.Extended? && d.patch.kind == c.patch.kind
  {
    if IsAtNC(toks, c.pos, "Style") then
      var q := Step(toks, c.pos, 1);
      Cursor(q, c.patch.(style := At(toks, q).text))
    else c
  }

  // ---------------------------------------------------------------------
  // The parser as a method over the tokenizer
  // ---------------------------------------------------------------------

  /** CTPatchEx::parse. */
  method ParsePatch(tz: Tokenizer, kind: PatchKind, colourOf: string -> Rgba) returns (ok: bool, patch: Patch)
    requires tz.Valid()
    modifies tz
    ensures tz.Valid()
    ensures PatchParse(ok, tz.pos, patch) == ParsePatchSpec(tz.tokens, old(tz.pos), kind, colourOf)
  {
    patch := ReadHeader(tz, kind);
    ok := true;

    var block := tz.AdvIfNext("{", 2);
    if block {
      ghost var start, patch0 := tz.pos, patch;
      while !tz.CheckOrEnd("}")
        invariant tz.Valid() && patch.Extended?
        invariant PropsLoop(tz.tokens, tz.pos, patch, colourOf) == PropsLoop(tz.tokens, start, patch0, colourOf)
        decreases |tz.tokens| - tz.pos
      {
        ghost var before, patchBefore := tz.pos, patch;
        ok, patch := ParseProperty(tz, patch, colourOf);
        assert PatchParse(ok, tz.pos, patch) == PropLine(tz.tokens, before, patchBefore, colourOf);
        if !ok {
          return;
        }
        tz.Adv(1);
      }
    }
  }

  /** The header part of CTPatchEx::parse: name and offsets. */
  method ReadHeader(tz: Tokenizer, kind: PatchKind) returns (patch: Patch)
    requires tz.Valid()
    modifies tz
    ensures tz.Valid()
    ensures Cursor(tz.pos, patch) == ParseHeader(tz.tokens, old(tz.pos), kind)
  {
    var t := tz.Next();
    var name := Upper(t.text);
    tz.Adv(1);
    t := tz.Next();
    var x := Wrap16(t.intValue);
    tz.Adv(1);
    t := tz.Next();
    var y := Wrap16(t.intValue);
    patch := NewExtended(name, x, y, kind);
  }

  /** One pass of the loop body of CTPatchEx::parse, before the final
      advance. */
  method ParseProperty(tz: Tokenizer, patch0: Patch, colourOf: string -> Rgba) returns (ok: bool, patch: Patch)
    requires tz.Valid() && patch0.Extended?
    modifies tz
    ensures tz.Valid()
    ensures PatchParse(ok, tz.pos, patch) == PropLine(tz.tokens, old(tz.pos), patch0, colourOf)
  {
    patch := patch0;
    if tz.CheckNC("FlipX") {
      patch := patch.(flipX := true);
    }
    if tz.CheckNC("FlipY") {
      patch := patch.(flipY := true);
    }
    if tz.CheckNC("UseOffsets") {
      patch := patch.(useOffsets := true);
    }
    patch := ReadRotate(tz, patch);
    if tz.CheckNC("Translation") {
      patch := ReadTranslation(tz, patch);
    }
    if tz.CheckNC("Blend") {
      ok, patch := ReadBlend(tz, patch, colourOf);
      if !ok {
        return;
      }
    }
    ok := true;
    patch := ReadAlphaStyle(tz, patch);
  }

  method ReadRotate(tz: Tokenizer, patch0: Patch) returns (patch: Patch)
    requires tz.Valid() && patch0.Extended?
    modifies tz
    ensures tz.Valid()
    ensures Cursor(tz.pos, patch) == RotateStep(tz.tokens, Cursor(old(tz.pos), patch0))
  {
    patch := patch0;
    if tz.CheckNC("Rotate") {
      var t := tz.Next();
      patch := patch.(rotation := t.intValue);
    }
  }

  /** The Alpha and Style tests that end the loop body. */
  method ReadAlphaStyle(tz: Tokenizer, patch0: Patch) returns (patch: Patch)
    requires tz.Valid() && patch0.Extended?
    modifies tz
    ensures tz.Valid()
    ensures Cursor(tz.pos, patch) == StyleStep(tz.tokens, AlphaStep(tz.tokens, Cursor(old(tz.pos), patch0)))
  {
    patch := patch0;
    if tz.CheckNC("Alpha") {
      var t := tz.Next();
      patch := patch.(alpha := t.floatValue);
    }
    if tz.CheckNC("Style") {
      var t := tz.Next();
      patch := patch.(style := t.text);
    }
  }

  /** The Translation property, cursor on the keyword. */
  method ReadTranslation(tz: Tokenizer, patch0: Patch) returns (patch: Patch)
    requires tz.Valid() && patch0.Extended? && tz.CheckNC("Translation")
    modifies tz
    ensures tz.Valid()
    ensures Cursor(tz.pos, patch) == TranslationStep(tz.tokens, Cursor(old(tz.pos), patch0))
  {
    var t := tz.Next();
    var translate := Quoted(t.text);
    ghost var first, acc0 := tz.pos, translate;
    while tz.CheckNext(",")
      invariant tz.Valid() && first <= tz.pos
      invariant TranslationTail(tz.tokens, tz.pos, translate) == TranslationTail(tz.tokens, first, acc0)
      decreases |tz.tokens| - tz.pos
    {
      var comma := tz.Next();
      var range := tz.Next();
      translate := translate + comma.text + Quoted(range.text);
    }
    patch := patch0.(translation := translate, blend := TranslationBlend);
  }

  /** The Blend property, cursor on the keyword. */
  method ReadBlend(tz: Tokenizer, patch0: Patch, colourOf: string -> Rgba) returns (ok: bool, patch: Patch)
    requires tz.Valid() && patch0.Extended? && tz.CheckNC("Blend")
    modifies tz
    ensures tz.Valid()
    ensures PatchParse(ok, tz.pos, patch) == BlendStep(tz.tokens, Cursor(old(tz.pos), patch0), colourOf)
  {
    patch := patch0.(blend := ColourBlend);
    var first := tz.Next();
    if !tz.CheckNext(",") {
      patch := patch.(colour := colourOf(first.text).(a := 255));
      return true, patch;
    }
    tz.Adv(1);
    var t := tz.Next();
    var second := t.floatValue;
    if !tz.CheckNext(",") {
      patch := patch.(colour := colourOf(first.text).(a := RealToByte(second * 255.0)), blend := TintBlend);
      return true, patch;
    }
    tz.Adv(1);
    var colour := patch.colour.(r := RealToByte(first.floatValue), g := RealToByte(second));
    t := tz.Next();
    colour := colour.(b := IntToByte(t.intValue));
    patch := patch.(colour := colour);
    if !tz.CheckNext(",") {
      return false, patch;
    }
    tz.Adv(1);
    t := tz.Next();
    patch := patch.(colour := colour.(a := RealToByte(t.floatValue * 255.0)), blend := TintBlend);
    ok := true;
  }

  // ---------------------------------------------------------------------
  // Properties of the parse
  // ---------------------------------------------------------------------

  /** A successful property loop leaves the cursor on the closing brace or
      at the end of the input. */
  lemma {:induction false} PropsLoopStopsAtBrace(toks: seq<Token>, p: nat, patch: Patch, colourOf: string -> Rgba)
    requires p <= |toks| && patch.Extended?
    ensures var r := PropsLoop(toks, p, patch, colourOf);
            r.ok ==> r.pos == |toks| || IsAt(toks, r.pos, "}")
    decreases |toks| - p
  {
    if p >= |toks| || IsAt(toks, p, "}") {
    } else {
      var r := PropLine(toks, p, patch, colourOf);
      if r.ok {
        PropsLoopStopsAtBrace(toks, Step(toks, r.pos, 1), r.patch, colourOf);
      }
    }
  }

  /** The only way the patch parse fails is a Blend given as red, green
      and blue without a comma before the alpha: a failed parse always
      leaves the patch with a plain colour blend. */
  lemma {:induction false} PropsLoopFailureIsBlend(toks: seq<Token>, p: nat, patch: Patch, colourOf: string -> Rgba)
    requires p <= |toks| && patch.Extended?
    ensures var r := PropsLoop(toks, p, patch, colourOf);
            !r.ok ==> r.patch.blend == ColourBlend
    decreases |toks| - p
  {
    if p >= |toks| || IsAt(toks, p, "}") {
    } else {
      var r := PropLine(toks, p, patch, colourOf);
      if r.ok {
        PropsLoopFailureIsBlend(toks, Step(toks, r.pos, 1), r.patch, colourOf);
      }
    }
  }

  /** A patch without a property block is always read successfully. */
  lemma NoBlockAlwaysParses(toks: seq<Token>, p0: nat, kind: PatchKind, colourOf: string -> Rgba)
    requires p0 <= |toks|
    requires !IsAt(toks, ParseHeader(toks, p0, kind).pos + 1, "{")
    ensures ParsePatchSpec(toks, p0, kind, colourOf).ok
    ensures ParsePatchSpec(toks, p0, kind, colourOf).pos == ParseHeader(toks, p0, kind).pos
  {
  }

  /** Blend r, g, b with no fourth component: the parse fails on the blue
      value, having already stored red, green and blue. */
  lemma BlendWithoutAlphaFails(toks: seq<Token>, c: Cursor, colourOf: string -> Rgba)
    requires c.pos + 6 <= |toks| && c.patch.Extended?
    requires IsAtNC(toks, c.pos, "Blend") && IsAt(toks, c.pos + 2, ",") && IsAt(toks, c.pos + 4, ",")
    requires !IsAt(toks, c.pos + 6, ",")
    ensures var r := BlendStep(toks, c, colourOf);
            !r.ok && r.pos == c.pos + 5 && r.patch.blend == ColourBlend
            && r.patch.colour.b == IntToByte(toks[c.pos + 5].intValue)
  {
  }

  /** A keyword that names no property is skipped without effect. */
  lemma UnknownPropertyIsSkipped(toks: seq<Token>, p: nat, patch: Patch, colourOf: string -> Rgba)
    requires p <= |toks| && patch.Extended?
    requires forall k :: k in PropertyKeywords ==> !IsAtNC(toks, p, k)
    ensures PropLine(toks, p, patch, colourOf) == PatchParse(true, p, patch)
  {
    assert "FlipX" in PropertyKeywords && "FlipY" in PropertyKeywords && "UseOffsets" in PropertyKeywords;
    assert "Rotate" in PropertyKeywords && "Translation" in PropertyKeywords && "Blend" in PropertyKeywords;
    assert "Alpha" in PropertyKeywords && "Style" in PropertyKeywords;
  }

  /** The property keywords of an extended patch. */
  const PropertyKeywords: seq<string> :=
    ["FlipX", "FlipY", "UseOffsets", "Rotate", "Translation", "Blend", "Alpha", "Style"]
}

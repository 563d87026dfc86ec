/** Patches of composite textures (src/Graphics/CTexture/CTexture.cpp):
    basic patches (TEXTURE1/2 format: a name and two 16-bit offsets) and
    extended patches (ZDoom TEXTURES format: flips, rotation, alpha, draw
    style, blending), their TEXTURES text, the draw properties a style maps
    to, and the order in which a patch's image is looked up. */
module Patches {
  import opened Opt
  import opened Text

  type byte = x: int | 0 <= x < 256

  /** A C++ int16_t. */
  type Int16 = x: int | -0x8000 <= x < 0x8000

  /** Conversion of an int to int16_t: two's complement wrap-around. */
  function Wrap16(x: int): (r: Int16)
    ensures -0x8000 <= x < 0x8000 ==> r == x
    ensures (r - x) % 0x1_0000 == 0
  {
    ((x + 0x8000) % 0x1_0000) - 0x8000
  }

  /** Conversion of an int to uint8_t. */
  function IntToByte(x: int): (r: byte)
    ensures 0 <= x < 256 ==> r == x
  {
    x % 256
  }

  /** Truncation of a real toward zero. */
  function Trunc(x: real): (r: int)
    ensures 0.0 <= x ==> r as real <= x < r as real + 1.0
    ensures x < 0.0 ==> r as real - 1.0 < x <= r as real
  {
    if x >= 0.0 then x.Floor else -((-x).Floor)
  }

  /** Conversion of a double to uint8_t: truncation toward zero, reduced
      modulo 256 outside 0..255. */
  function RealToByte(x: real): byte {
    IntToByte(Trunc(x))
  }

  datatype Rgba = Rgba(r: byte, g: byte, b: byte, a: byte)

  /** The colour of a freshly constructed extended patch. */
  const DefaultColour := Rgba(0, 0, 0, 0)

  /** Type::Patch or Type::Graphic: where an extended patch is looked up first. */
  datatype PatchKind = PatchType | GraphicType

  /** The blend type of an extended patch: 0 none, 1 translation, 2 colour,
      3 tint. */
  datatype BlendType = NoBlend | TranslationBlend | ColourBlend | TintBlend

  /** A CTPatch (Basic) or a CTPatchEx (Extended). [translation] is the
      translation specification handed to the translation parser. */
  datatype Patch =
    | Basic(name: string, offsetX: Int16, offsetY: Int16)
    | Extended(name: string, offsetX: Int16, offsetY: Int16, kind: PatchKind,
               flipX: bool, flipY: bool, useOffsets: bool, rotation: int,
               alpha: real, style: string, blend: BlendType, colour: Rgba,
               translation: string)

  /** CTPatchEx(name, offset_x, offset_y, type): an extended patch with every
      extended property at its default. */
  function NewExtended(name: string, x: Int16, y: Int16, kind: PatchKind): (p: Patch)
    ensures p.Extended? && p.name == name && p.offsetX == x && p.offsetY == y && p.kind == kind
    ensures IsDefaultEx(p)
  {
    Extended(name, x, y, kind, false, false, false, 0, 1.0, "Copy", NoBlend, DefaultColour, "")
  }

  /** Every extended property is at its constructor default. */
  predicate IsDefaultEx(p: Patch)
    requires p.Extended?
  {
    !p.flipX && !p.flipY && !p.useOffsets && p.rotation == 0 && p.alpha == 1.0
    && p.style == "Copy" && p.blend == NoBlend && p.colour == DefaultColour && p.translation == ""
  }

  /** CTPatchEx(CTPatch*): an extended copy of a basic patch, of kind Patch,
      with default extended properties. */
  function ExtendedFromBasic(p: Patch): Patch
    requires p.Basic?
  {
    NewExtended(p.name, p.offsetX, p.offsetY, PatchType)
  }

  /** CTPatch(name, x, y) built from any patch: only name and offsets survive. */
  function BasicOf(p: Patch): Patch {
    Basic(p.name, p.offsetX, p.offsetY)
  }

  /** A basic patch survives the trip through the extended form unchanged,
      and the extended form carries the defaults. */
  lemma BasicExtendedRoundTrip(p: Patch)
    requires p.Basic?
    ensures BasicOf(ExtendedFromBasic(p)) == p
    ensures ExtendedFromBasic(p).kind == PatchType && IsDefaultEx(ExtendedFromBasic(p))
  {
  }

  /** An extended patch comes back from the basic form unchanged exactly when
      its kind is Patch and its extended properties are at their defaults:
      the conversion to basic is lossy. */
  lemma ExtendedBasicRoundTrip(p: Patch)
    requires p.Extended?
    ensures ExtendedFromBasic(BasicOf(p)) == p <==> p.kind == PatchType && IsDefaultEx(p)
  {
  }

  /** The patch renamed, as CTPatch::setName. */
  function Renamed(p: Patch, name: string): (r: Patch)
    ensures r.name == name && r.offsetX == p.offsetX && r.offsetY == p.offsetY
    ensures r.Basic? == p.Basic? && BasicOf(r) == Basic(name, p.offsetX, p.offsetY)
    ensures p.Extended? ==> r == p.(name := name)
  {
    p.(name := name)
  }

  /** The patch moved by (dx, dy), each offset wrapping as an int16_t. */
  function Moved(p: Patch, dx: Int16, dy: Int16): (r: Patch)
    ensures r.name == p.name && r.Basic? == p.Basic?
    ensures r.offsetX == Wrap16(p.offsetX + dx) && r.offsetY == Wrap16(p.offsetY + dy)
    ensures r.(offsetX := p.offsetX, offsetY := p.offsetY) == p
  {
    p.(offsetX := Wrap16(p.offsetX + dx), offsetY := Wrap16(p.offsetY + dy))
  }

  // ---------------------------------------------------------------------
  // TEXTURES text of an extended patch
  // ---------------------------------------------------------------------

  /** Formatting services of the host libraries: printf "%1.<d>f" of a
      number, the HTML form "#RRGGBB" of a colour, and the text and emptiness
      test of a parsed translation. */
  datatype Format = Format(
    fixed: (real, nat) -> string,
    html: (byte, byte, byte) -> string,
    translationText: string -> string,
    translationEmpty: string -> bool)

  /** One property line of an extended patch's block. */
  datatype PatchProp =
    | FlipXProp
    | FlipYProp
    | UseOffsetsProp
    | RotateProp(angle: int)
    | TranslationProp(spec: string)
    | BlendProp(colour: Rgba, tint: bool)
    | AlphaProp(alpha: real)
    | StyleProp(style: string)

  /** Position of a property in the fixed output order. */
  function Rank(q: PatchProp): nat {
    match q
    case FlipXProp => 0
    case FlipYProp => 1
    case UseOffsetsProp => 2
    case RotateProp(_) => 3
    case TranslationProp(_) => 4
    case BlendProp(_, _) => 5
    case AlphaProp(_) => 6
    case StyleProp(_) => 7
  }

  function If<T>(c: bool, x: T): seq<T> {
    if c then [x] else []
  }

  /** Property line [q] holds for patch [p]: the property is not at its
      default and the line carries the patch's value. */
  predicate Describes(p: Patch, fmt: Format, q: PatchProp)
    requires p.Extended?
  {
    match q
    case FlipXProp => p.flipX
    case FlipYProp => p.flipY
    case UseOffsetsProp => p.useOffsets
    case RotateProp(n) => p.rotation != 0 && n == p.rotation
    case TranslationProp(t) => p.blend == TranslationBlend && !fmt.translationEmpty(p.translation) && t == p.translation
    case BlendProp(c, tint) => (p.blend == ColourBlend || p.blend == TintBlend) && c == p.colour && (tint <==> p.blend == TintBlend)
    case AlphaProp(a) => p.alpha < 1.0 && a == p.alpha
    case StyleProp(st) => !EqualsNoCase(p.style, "Copy") && st == p.style
  }

  /** Every property line a patch could have, in output order, each with
      the patch's value. */
  function Candidates(p: Patch, fmt: Format): (c: seq<PatchProp>)
    requires p.Extended?
    ensures RankSorted(c)
  {
    [FlipXProp, FlipYProp, UseOffsetsProp, RotateProp(p.rotation), TranslationProp(p.translation),
     BlendProp(p.colour, p.blend == TintBlend), AlphaProp(p.alpha), StyleProp(p.style)]
  }

  /** Properties strictly ordered by their place in the output order. */
  predicate RankSorted(qs: seq<PatchProp>) {
    forall i, j :: 0 <= i < j < |qs| ==> Rank(qs[i]) < Rank(qs[j])
  }

  /** The lines of [qs] that hold for [p], in the order of [qs]. */
  function Keep(p: Patch, fmt: Format, qs: seq<PatchProp>): (r: seq<PatchProp>)
    requires p.Extended?
    ensures |r| <= |qs|
    decreases |qs|
  {
    if qs == [] then []
    else
      var rest := Keep(p, fmt, qs[1..]);
      if Describes(p, fmt, qs[0]) then [qs[0]] + rest else rest
  }

  /** Keep retains exactly the lines that hold. */
  lemma {:induction false} KeepMembers(p: Patch, fmt: Format, qs: seq<PatchProp>)
    requires p.Extended?
    ensures forall q :: q in Keep(p, fmt, qs) <==> q in qs && Describes(p, fmt, q)
    decreases |qs|
  {
    if qs != [] {
      KeepMembers(p, fmt, qs[1..]);
      assert forall q :: q in qs <==> q == qs[0] || q in qs[1..];
    }
  }

  /** Keeping some lines preserves their order. */
  lemma {:induction false} KeepSorted(p: Patch, fmt: Format, qs: seq<PatchProp>)
    requires p.Extended? && RankSorted(qs)
    ensures RankSorted(Keep(p, fmt, qs))
    decreases |qs|
  {
    if qs != [] {
      assert RankSorted(qs[1..]);
      KeepSorted(p, fmt, qs[1..]);
      var rest := Keep(p, fmt, qs[1..]);
      if Describes(p, fmt, qs[0]) {
        KeepMembers(p, fmt, qs[1..]);
        assert forall q :: q in qs[1..] ==> Rank(qs[0]) < Rank(q);
        var r := [qs[0]] + rest;
        forall i, j | 0 <= i < j < |r|
          ensures Rank(r[i]) < Rank(r[j])
        {
          if i > 0 {
            assert r[i] == rest[i - 1] && r[j] == rest[j - 1];
          } else {
            assert r[j] == rest[j - 1] && r[j] in rest;
          }
        }
      }
    }
  }

  /** The properties CTPatchEx::asText writes, in the order it writes them. */
  function PatchProps(p: Patch, fmt: Format): seq<PatchProp>
    requires p.Extended?
  {
    Keep(p, fmt, Candidates(p, fmt))
  }

  /** asText writes exactly the non-default properties, each with the
      patch's value, in the fixed order FlipX, FlipY, UseOffsets, Rotate,
      Translation, Blend, Alpha, Style. */
  lemma PatchPropsSpec(p: Patch, fmt: Format)
    requires p.Extended?
    ensures RankSorted(PatchProps(p, fmt))
    ensures forall q :: q in PatchProps(p, fmt) ==> Describes(p, fmt, q)
    ensures FlipXProp in PatchProps(p, fmt) <==> p.flipX
    ensures FlipYProp in PatchProps(p, fmt) <==> p.flipY
    ensures UseOffsetsProp in PatchProps(p, fmt) <==> p.useOffsets
    ensures RotateProp(p.rotation) in PatchProps(p, fmt) <==> p.rotation != 0
    ensures TranslationProp(p.translation) in PatchProps(p, fmt) <==> p.blend == TranslationBlend && !fmt.translationEmpty(p.translation)
    ensures BlendProp(p.colour, p.blend == TintBlend) in PatchProps(p, fmt) <==> p.blend == ColourBlend || p.blend == TintBlend
    ensures AlphaProp(p.alpha) in PatchProps(p, fmt) <==> p.alpha < 1.0
    ensures StyleProp(p.style) in PatchProps(p, fmt) <==> !EqualsNoCase(p.style, "Copy")
  {
    KeepMembers(p, fmt, Candidates(p, fmt));
    KeepSorted(p, fmt, Candidates(p, fmt));
  }

  /** The patch has nothing asText considers worth a property block. */
  predicate TextDefault(p: Patch)
    requires p.Extended?
  {
    !p.flipX && !p.flipY && !p.useOffsets && p.rotation == 0 && p.blend == NoBlend
    && p.alpha == 1.0 && EqualsNoCase(p.style, "Copy")
  }

  function KindName(k: PatchKind): string {
    match k
    case PatchType => "Patch"
    case GraphicType => "Graphic"
  }

  /** The text of one property line. */
  function PropText(q: PatchProp, fmt: Format): string {
    match q
    case FlipXProp => "\t\tFlipX\n"
    case FlipYProp => "\t\tFlipY\n"
    case UseOffsetsProp => "\t\tUseOffsets\n"
    case RotateProp(n) => "\t\tRotate " + IntText(n) + "\n"
    case TranslationProp(t) => "\t\tTranslation " + fmt.translationText(t) + "\n"
    case BlendProp(c, tint) =>
      "\t\tBlend \"" + fmt.html(c.r, c.g, c.b) + "\""
      + (if tint then ", " + fmt.fixed(c.a as real / 255.0, 1) + "\n" else "\n")
    case AlphaProp(a) => "\t\tAlpha " + fmt.fixed(a, 2) + "\n"
    case StyleProp(s) => "\t\tStyle " + s + "\n"
  }

  function PropsText(qs: seq<PatchProp>, fmt: Format): string {
    if qs == [] then "" else PropText(qs[0], fmt) + PropsText(qs[1..], fmt)
  }

  /** The header line of a patch: kind, quoted name, offsets. */
  function PatchHeader(p: Patch): string
    requires p.Extended?
  {
    "\t" + KindName(p.kind) + " \"" + p.name + "\", " + IntText(p.offsetX) + ", " + IntText(p.offsetY) + "\n"
  }

  /** CTPatchEx::asText. */
  function PatchText(p: Patch, fmt: Format): string
    requires p.Extended?
  {
    var text := PatchHeader(p);
    if TextDefault(p) then text
    else text + "\t{\n" + PropsText(PatchProps(p, fmt), fmt) + "\t}\n"
  }

  /** A patch with no flag, rotation or blending, an alpha of at least 1 and
      a style of "Copy" in any case has no property line. */
  lemma QuietHasNoProps(p: Patch, fmt: Format)
    requires p.Extended? && !p.flipX && !p.flipY && !p.useOffsets && p.rotation == 0
    requires p.blend == NoBlend && p.alpha >= 1.0 && EqualsNoCase(p.style, "Copy")
    ensures PatchProps(p, fmt) == []
  {
    if PatchProps(p, fmt) != [] {
      FirstPropDescribes(p, fmt);
      assert false;
    }
  }

  lemma FirstPropDescribes(p: Patch, fmt: Format)
    requires p.Extended? && PatchProps(p, fmt) != []
    ensures Describes(p, fmt, PatchProps(p, fmt)[0])
  {
    PatchPropsSpec(p, fmt);
    assert PatchProps(p, fmt)[0] in PatchProps(p, fmt);
  }

  /** A patch whose properties asText treats as default has no property
      lines, and one with no default-looking properties has at least one. */
  lemma TextDefaultHasNoProps(p: Patch, fmt: Format)
    requires p.Extended?
    ensures TextDefault(p) ==> PatchProps(p, fmt) == []
    ensures !TextDefault(p) && p.alpha <= 1.0 && p.blend != TranslationBlend ==> PatchProps(p, fmt) != []
  {
    PatchPropsSpec(p, fmt);
    if TextDefault(p) {
      QuietHasNoProps(p, fmt);
    }
    if !TextDefault(p) && p.alpha <= 1.0 && p.blend != TranslationBlend {
      if p.flipX {
        assert FlipXProp in PatchProps(p, fmt);
      } else if p.flipY {
        assert FlipYProp in PatchProps(p, fmt);
      } else if p.useOffsets {
        assert UseOffsetsProp in PatchProps(p, fmt);
      } else if p.rotation != 0 {
        assert RotateProp(p.rotation) in PatchProps(p, fmt);
      } else if p.blend != NoBlend {
        assert BlendProp(p.colour, p.blend == TintBlend) in PatchProps(p, fmt);
      } else if p.alpha != 1.0 {
        assert AlphaProp(p.alpha) in PatchProps(p, fmt);
      } else {
        assert StyleProp(p.style) in PatchProps(p, fmt);
      }
    }
  }

  /** An alpha above 1 is not a default, yet asText writes no line for it:
      such a patch gets an empty property block. */
  lemma OpaqueAboveOneGivesEmptyBlock(fmt: Format)
    ensures var p := Extended("WALL", 0, 0, PatchType, false, false, false, 0, 2.0, "Copy", NoBlend, DefaultColour, "");
            PatchText(p, fmt) == PatchHeader(p) + "\t{\n\t}\n"
  {
    var p := Extended("WALL", 0, 0, PatchType, false, false, false, 0, 2.0, "Copy", NoBlend, DefaultColour, "");
    QuietHasNoProps(p, fmt);
  }

  // ---------------------------------------------------------------------
  // Draw properties of a patch's style
  // ---------------------------------------------------------------------

  datatype BlendOp = Normal | Add | Subtract | ReverseSubtract | Modulate

  /** si_drawprops_t: how a patch image is drawn onto the texture. */
  datatype DrawProps = DrawProps(blend: BlendOp, alpha: real, srcAlpha: bool)

  /** Styles that draw with the source image's own alpha. */
  const SourceAlphaStyles: set<string> := {"CopyAlpha", "Overlay"}
  /** Styles that draw with the patch's alpha. */
  const PatchAlphaStyles: set<string> :=
    {"Translucent", "CopyNewAlpha", "Add", "Subtract", "ReverseSubtract", "Modulate"}

  /** The draw properties toImage derives from a patch's style and alpha.
      Styles are matched exactly (case-sensitively); an unknown style, like
      "Copy", draws opaquely with normal blending. */
  function StyleDrawProps(style: string, alpha: real): (dp: DrawProps)
    ensures dp.srcAlpha <==> style in SourceAlphaStyles
    ensures dp.alpha == if style in PatchAlphaStyles then alpha else 1.0
    ensures dp.blend == Add <==> style == "Add"
    ensures dp.blend == Subtract <==> style == "Subtract"
    ensures dp.blend == ReverseSubtract <==> style == "ReverseSubtract"
    ensures dp.blend == Modulate <==> style == "Modulate"
    ensures style !in SourceAlphaStyles + PatchAlphaStyles ==> dp == DrawProps(Normal, 1.0, false)
  {
    var dp := DrawProps(Normal, 1.0, false);
    if style == "CopyAlpha" || style == "Overlay" then dp.(srcAlpha := true)
    else if style == "Translucent" || style == "CopyNewAlpha" then dp.(alpha := alpha)
    else if style == "Add" then dp.(blend := Add, alpha := alpha)
    else if style == "Subtract" then dp.(blend := Subtract, alpha := alpha)
    else if style == "ReverseSubtract" then dp.(blend := ReverseSubtract, alpha := alpha)
    else if style == "Modulate" then dp.(blend := Modulate, alpha := alpha)
    else dp
  }

  /** Style names differing only in case do not select the same blending. */
  lemma StyleIsCaseSensitive(alpha: real)
    requires alpha != 1.0
    ensures StyleDrawProps("Translucent", alpha) != StyleDrawProps("translucent", alpha)
    ensures StyleDrawProps("add", alpha) == DrawProps(Normal, 1.0, false)
  {
    assert "translucent" !in SourceAlphaStyles + PatchAlphaStyles;
    assert "add" !in SourceAlphaStyles + PatchAlphaStyles;
  }

  // ---------------------------------------------------------------------
  // Where a patch's image is looked up
  // ---------------------------------------------------------------------

  /** Namespaces the resource manager searches; Flats stands for its flat
      lookup. */
  datatype Namespace = Patches | Graphics | Textures | Flats

  /** The first namespace of [order] in which [find] has [name]. */
  function FirstHit<E>(name: string, order: seq<Namespace>, find: (string, Namespace) -> Option<E>): (r: Option<E>)
    ensures r.None? <==> forall i :: 0 <= i < |order| ==> find(name, order[i]).None?
    ensures r.Some? ==> exists i :: 0 <= i < |order| && r == find(name, order[i])
                          && forall j :: 0 <= j < i ==> find(name, order[j]).None?
  {
    if order == [] then None
    else if find(name, order[0]).Some? then find(name, order[0])
    else
      var r := FirstHit(name, order[1..], find);
      assert forall i :: 1 <= i < |order| ==> order[i] == order[1..][i - 1];
      r
  }

  /** The search order of a patch: patches, graphics, textures for a basic
      patch; patches, flats, graphics for an extended patch of kind Patch;
      graphics, patches, flats for one of kind Graphic. */
  function SearchOrder(p: Patch): seq<Namespace> {
    if p.Basic? then [Patches, Graphics, Textures]
    else if p.kind == PatchType then [Patches, Flats, Graphics]
    else [Graphics, Patches, Flats]
  }

  /** CTPatch::getPatchEntry and CTPatchEx::getPatchEntry, with the resource
      manager as [find] (already scoped to the parent archive). */
  function PatchEntry<E>(p: Patch, find: (string, Namespace) -> Option<E>): Option<E> {
    if p.Basic? then
      var e := find(p.name, Patches);
      var e := if e.None? then find(p.name, Graphics) else e;
      if e.None? then find(p.name, Textures) else e
    else if p.kind == PatchType then
      var e := find(p.name, Patches);
      var e := if e.None? then find(p.name, Flats) else e;
      if e.None? then find(p.name, Graphics) else e
    else
      var e := find(p.name, Graphics);
      var e := if e.None? then find(p.name, Patches) else e;
      if e.None? then find(p.name, Flats) else e
  }

  /** The lookup returns the first hit in the patch's search order. */
  lemma PatchEntryIsFirstHit<E>(p: Patch, find: (string, Namespace) -> Option<E>)
    ensures PatchEntry(p, find) == FirstHit(p.name, SearchOrder(p), find)
  {
    var o := SearchOrder(p);
    FirstHitOfThree(p.name, o[0], o[1], o[2], find);
  }

  lemma FirstHitOfThree<E>(name: string, a: Namespace, b: Namespace, c: Namespace, find: (string, Namespace) -> Option<E>)
    ensures FirstHit(name, [a, b, c], find)
         == if find(name, a).Some? then find(name, a) else if find(name, b).Some? then find(name, b) else find(name, c)
  {
    assert [a, b, c][1..] == [b, c];
    assert [b, c][1..] == [c];
    assert [c][1..] == [];
    assert FirstHit(name, [c], find) == find(name, c);
    assert FirstHit(name, [b, c], find) == if find(name, b).Some? then find(name, b) else find(name, c);
  }

  /** A graphic-kind patch prefers the graphics namespace where a patch-kind
      one prefers the patches namespace. */
  lemma KindDecidesPreference<E>(p: Patch, find: (string, Namespace) -> Option<E>)
    requires p.Extended? && find(p.name, Patches).Some? && find(p.name, Graphics).Some?
    ensures p.kind == PatchType ==> PatchEntry(p, find) == find(p.name, Patches)
    ensures p.kind == GraphicType ==> PatchEntry(p, find) == find(p.name, Graphics)
  {
  }

  /** Which image loadPatchImage draws for a patch. */
  datatype PatchSource =
    | ListTexture(index: nat)   // an earlier texture of the same list
    | RegistryTexture           // a texture found by the resource manager
    | EntrySource               // the patch's own entry
    | TextureEntrySource        // an entry in the textures namespace
    | NoSource

  /** Index of the first texture of [names] matching [patch] ignoring case,
      scanning only the textures before the first one named exactly
      [own]. */
  function EarlierMatch(names: seq<string>, own: string, patch: string): (r: Option<nat>)
    ensures r.Some? ==> r.value < |names| && EqualsNoCase(names[r.value], patch)
    ensures r.Some? ==> forall j :: 0 <= j <= r.value ==> names[j] != own
    ensures r.Some? ==> forall j :: 0 <= j < r.value ==> !EqualsNoCase(names[j], patch)
    ensures r.None? ==> forall j :: 0 <= j < |names| && (forall k :: 0 <= k <= j ==> names[k] != own) ==> !EqualsNoCase(names[j], patch)
  {
    if names == [] || names[0] == own then None
    else if EqualsNoCase(names[0], patch) then Some(0)
    else
      var r := EarlierMatch(names[1..], own, patch);
      if r.None? then
        assert forall j :: 1 <= j < |names| ==> names[j] == names[1..][j - 1];
        None
      else
        assert forall j :: 1 <= j <= r.value + 1 ==> names[j] == names[1..][j - 1];
        Some(r.value + 1)
  }

  /** The in-list search of loadPatchImage, as a loop over the list. */
  method FindEarlierTexture(names: seq<string>, own: string, patch: string) returns (r: Option<nat>)
    ensures r == EarlierMatch(names, own, patch)
  {
    var a := 0;
    while a < |names|
      invariant 0 <= a <= |names|
      invariant EarlierMatch(names, own, patch) == OffsetBy(EarlierMatch(names[a..], own, patch), a)
    {
      assert names[a..][1..] == names[a + 1..];
      if names[a] == own {
        return None;
      }
      if EqualsNoCase(names[a], patch) {
        return Some(a);
      }
      a := a + 1;
    }
    return None;
  }

  function OffsetBy(r: Option<nat>, k: nat): Option<nat> {
    if r.None? then None else Some(r.value + k)
  }

  /** loadPatchImage's choice of source for patch [p] of texture [own] in a
      texture of the given format. [list] holds the names of the textures of
      the owning list, if any; [registryHas] says whether the resource
      manager knows a texture of that name; [find] is the namespace lookup
      and [textureEntry] the last-resort textures-namespace entry. */
  function ChooseSource<E>(extended: bool, own: string, p: Patch, list: Option<seq<string>>, registryHas: bool,
                           find: (string, Namespace) -> Option<E>, textureEntry: Option<E>): PatchSource
  {
    if extended && !EqualsNoCase(p.name, own) && list.Some? && EarlierMatch(list.value, own, p.name).Some? then
      ListTexture(EarlierMatch(list.value, own, p.name).value)
    else if extended && !EqualsNoCase(p.name, own) && registryHas then RegistryTexture
    else if PatchEntry(p, find).Some? then EntrySource
    else if textureEntry.Some? then TextureEntrySource
    else NoSource
  }

  /** A texture never draws itself or a texture listed after it: a texture
      taken from the list comes before the texture's own position, differs
      from its name even ignoring case, and is the first match. */
  lemma NoSelfReference<E>(extended: bool, own: string, p: Patch, list: Option<seq<string>>, registryHas: bool,
                           find: (string, Namespace) -> Option<E>, textureEntry: Option<E>)
    requires ChooseSource(extended, own, p, list, registryHas, find, textureEntry).ListTexture?
    ensures var i := ChooseSource(extended, own, p, list, registryHas, find, textureEntry).index;
            list.Some? && i < |list.value| && extended
            && !EqualsNoCase(list.value[i], own)
            && (forall j :: 0 <= j <= i ==> list.value[j] != own)
            && EqualsNoCase(list.value[i], p.name)
  {
  }

  /** A regular texture, or a patch named like its own texture, draws only
      patch or texture entries. */
  lemma RegularUsesEntries<E>(extended: bool, own: string, p: Patch, list: Option<seq<string>>, registryHas: bool,
                              find: (string, Namespace) -> Option<E>, textureEntry: Option<E>)
    requires !extended || EqualsNoCase(p.name, own)
    ensures var s := ChooseSource(extended, own, p, list, registryHas, find, textureEntry);
            s == (if PatchEntry(p, find).Some? then EntrySource
                  else if textureEntry.Some? then TextureEntrySource else NoSource)
  {
  }
}

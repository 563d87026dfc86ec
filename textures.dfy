/** Composite textures (CTexture in src/Graphics/CTexture/CTexture.cpp): an
    ordered list of patches plus size, scale, offset and flags, in either the
    regular (TEXTURE1/2) or the extended (ZDoom TEXTURES) format. The class
    edits its patch list in place; TextureState is a snapshot of all its
    fields, used to state what each operation leaves behind. */
module Textures {
  import opened Opt
  import opened Text
  import opened Tokens
  import opened Patches
  import opened PatchParsing

  /** The scalar properties of a texture (sizes, scale, offsets and flags),
      kept together as one record field of the texture object. */
  datatype Properties = Properties(
    width: int, height: int, defWidth: int, defHeight: int, scaleX: real, scaleY: real,
    offsetX: int, offsetY: int, worldPanning: bool, optional: bool, noDecals: bool, nullTexture: bool)

  /** The properties of a new or cleared texture. */
  const InitialProperties := Properties(0, 0, 0, 0, 1.0, 1.0, 0, 0, false, false, false, false)

  datatype TextureState = TextureState(
    name: string, typeName: string, extended: bool, defined: bool, props: Properties, patches: seq<Patch>)

  /** An extended texture holds extended patches and a regular one basic
      patches (asText reads every patch of an extended texture as a
      CTPatchEx). */
  predicate WellFormed(st: TextureState) {
    forall i :: 0 <= i < |st.patches| ==> (st.patches[i].Extended? <==> st.extended)
  }

  // ---------------------------------------------------------------------
  // Patch-list edits as functions of the list
  // ---------------------------------------------------------------------

  /** addPatch's placement: at [index] when it is a position of the list,
      otherwise at the end. */
  function InsertAt(ps: seq<Patch>, index: int, p: Patch): (r: seq<Patch>)
    ensures |r| == |ps| + 1
    ensures 0 <= index < |ps| ==> r[index] == p && r[..index] == ps[..index] && r[index + 1..] == ps[index..]
    ensures !(0 <= index < |ps|) ==> r == ps + [p]
  {
    if 0 <= index < |ps| then ps[..index] + [p] + ps[index..] else ps + [p]
  }

  /** Where InsertAt puts the new patch. */
  function InsertPosition(ps: seq<Patch>, index: int): (k: nat)
    ensures k <= |ps|
  {
    if 0 <= index < |ps| then index else |ps|
  }

  function RemoveAt(ps: seq<Patch>, i: nat): (r: seq<Patch>)
    requires i < |ps|
    ensures |r| == |ps| - 1 && r[..i] == ps[..i] && r[i..] == ps[i + 1..]
  {
    ps[..i] + ps[i + 1..]
  }

  /** Removing the patch just added gives back the list. */
  lemma RemoveUndoesInsert(ps: seq<Patch>, index: int, p: Patch)
    ensures InsertAt(ps, index, p)[InsertPosition(ps, index)] == p
    ensures RemoveAt(InsertAt(ps, index, p), InsertPosition(ps, index)) == ps
  {
    var r := InsertAt(ps, index, p);
    var k := InsertPosition(ps, index);
    assert RemoveAt(r, k) == r[..k] + r[k + 1..];
    if 0 <= index < |ps| {
      assert ps == ps[..k] + ps[k..];
    } else {
      assert r[..k] == ps;
    }
  }

  function Swapped(ps: seq<Patch>, i: nat, j: nat): (r: seq<Patch>)
    requires i < |ps| && j < |ps|
    ensures |r| == |ps| && r[i] == ps[j] && r[j] == ps[i]
    ensures forall k :: 0 <= k < |ps| && k != i && k != j ==> r[k] == ps[k]
  {
    ps[i := ps[j]][j := ps[i]]
  }

  /** Swapping is its own inverse and only reorders the list. */
  lemma SwapInvolution(ps: seq<Patch>, i: nat, j: nat)
    requires i < |ps| && j < |ps|
    ensures Swapped(Swapped(ps, i, j), i, j) == ps
    ensures multiset(Swapped(ps, i, j)) == multiset(ps)
  {
    var r := Swapped(Swapped(ps, i, j), i, j);
    assert forall k :: 0 <= k < |ps| ==> r[k] == ps[k];
    calc {
      multiset(Swapped(ps, i, j));
      multiset(ps[i := ps[j]][j := ps[i]]);
      multiset(ps[i := ps[j]]) - multiset{ps[i := ps[j]][j]} + multiset{ps[i]};
    }
  }

  /** The list without the patches named exactly [name], the others kept in
      order. */
  function WithoutName(ps: seq<Patch>, name: string): (r: seq<Patch>)
    ensures |r| <= |ps|
  {
    if ps == [] then []
    else if ps[0].name == name then WithoutName(ps[1..], name)
    else [ps[0]] + WithoutName(ps[1..], name)
  }

  /** Removal by name keeps exactly the patches with another name. */
  lemma {:induction false} WithoutNameMembers(ps: seq<Patch>, name: string)
    ensures forall p :: p in WithoutName(ps, name) <==> p in ps && p.name != name
  {
    if ps != [] {
      WithoutNameMembers(ps[1..], name);
      assert forall p :: p in ps <==> p == ps[0] || p in ps[1..];
    }
  }

  /** Removal by name keeps a uniformly basic or extended list so. */
  lemma {:induction false} WithoutNameUniform(ps: seq<Patch>, name: string, ext: bool)
    requires forall i :: 0 <= i < |ps| ==> (ps[i].Extended? <==> ext)
    ensures forall i :: 0 <= i < |WithoutName(ps, name)| ==> (WithoutName(ps, name)[i].Extended? <==> ext)
  {
    if ps != [] {
      WithoutNameUniform(ps[1..], name, ext);
    }
  }

  /** Removal by name removes something exactly when a patch has that
      name. */
  lemma {:induction false} WithoutNameLength(ps: seq<Patch>, name: string)
    ensures |WithoutName(ps, name)| == |ps| <==> forall p :: p in ps ==> p.name != name
  {
    if ps != [] {
      WithoutNameLength(ps[1..], name);
      assert forall p :: p in ps <==> p == ps[0] || p in ps[1..];
    }
  }

  /** Removing by name twice removes nothing more. */
  lemma {:induction false} WithoutNameIdempotent(ps: seq<Patch>, name: string)
    ensures WithoutName(WithoutName(ps, name), name) == WithoutName(ps, name)
  {
    if ps != [] {
      WithoutNameIdempotent(ps[1..], name);
      if ps[0].name != name {
        assert ([ps[0]] + WithoutName(ps[1..], name))[1..] == WithoutName(ps[1..], name);
      }
    }
  }

  /** Removal by name distributes over concatenation. */
  lemma {:induction false} WithoutNameAppend(a: seq<Patch>, b: seq<Patch>, name: string)
    ensures WithoutName(a + b, name) == WithoutName(a, name) + WithoutName(b, name)
  {
    if a != [] {
      assert (a + b)[1..] == a[1..] + b;
      WithoutNameAppend(a[1..], b, name);
    } else {
      assert a + b == b;
    }
  }

  /** A step of the removal loop over a patch named [name]: dropping it
      leaves the part still to be filtered one shorter. */
  lemma WithoutNameDrop(ps: seq<Patch>, a: nat, name: string)
    requires a < |ps| && ps[a].name == name
    ensures var rest := ps[..a] + ps[a + 1..];
            rest[..a] + WithoutName(rest[a..], name) == ps[..a] + WithoutName(ps[a..], name)
  {
    var rest := ps[..a] + ps[a + 1..];
    assert ps[a..][0] == ps[a] && ps[a..][1..] == ps[a + 1..];
    assert rest[..a] == ps[..a] && rest[a..] == ps[a + 1..];
  }

  /** A step of the removal loop over a patch with another name: it moves
      to the part already filtered. */
  lemma WithoutNameKeep(ps: seq<Patch>, a: nat, name: string)
    requires a < |ps| && ps[a].name != name
    ensures ps[..a + 1] + WithoutName(ps[a + 1..], name) == ps[..a] + WithoutName(ps[a..], name)
  {
    assert ps[a..][0] == ps[a] && ps[a..][1..] == ps[a + 1..];
    assert ps[..a + 1] == ps[..a] + [ps[a]];
  }

  /** duplicatePatch's list: the patch at [i] followed by a copy moved by
      (dx, dy). */
  function Duplicated(ps: seq<Patch>, i: nat, dx: Int16, dy: Int16): (r: seq<Patch>)
    requires i < |ps|
    ensures |r| == |ps| + 1 && r[..i + 1] == ps[..i + 1] && r[i + 2..] == ps[i + 1..]
    ensures r[i + 1] == Moved(ps[i], dx, dy)
  {
    ps[..i + 1] + [Moved(ps[i], dx, dy)] + ps[i + 1..]
  }

  /** Removing the moved copy gives back the list. */
  lemma RemoveUndoesDuplicate(ps: seq<Patch>, i: nat, dx: Int16, dy: Int16)
    requires i < |ps|
    ensures RemoveAt(Duplicated(ps, i, dx, dy), i + 1) == ps
  {
    var r := Duplicated(ps, i, dx, dy);
    assert RemoveAt(r, i + 1) == r[..i + 1] + r[i + 2..];
    assert ps == ps[..i + 1] + ps[i + 1..];
  }


  // ---------------------------------------------------------------------
  // Whole-texture operations as functions of the state
  // ---------------------------------------------------------------------

  /** The state CTexture::clear leaves: name, properties and patches back
      to their initial values and no define flag; format and type are
      kept. */
  function Cleared(st: TextureState): (r: TextureState)
    ensures r.patches == [] && !r.defined && r.props == InitialProperties && r.name == ""
    ensures r.extended == st.extended && r.typeName == st.typeName
    ensures WellFormed(r)
  {
    st.(name := "", defined := false, props := InitialProperties, patches := [])
  }

  /** Scale of a regular texture read by an extended one: 0 means 1. */
  function ExtendedScale(s: real): (r: real)
    ensures r != 0.0 && (s != 0.0 ==> r == s)
    ensures s == 0.0 ==> r == 1.0
  {
    if s == 0.0 then 1.0 else s
  }

  /** Scale in convertRegular: 1 becomes the sentinel 0, anything else is
      multiplied by 8. */
  function RegularScale(s: real): (r: real)
    ensures r == 0.0 <==> s == 1.0 || s == 0.0
    ensures s == 1.0 ==> r == 0.0
    ensures s != 1.0 ==> r == s * 8.0
  {
    if s == 1.0 then 0.0 else s * 8.0
  }

  /** CTPatchEx(CTPatch*): name and offsets kept, extended properties at
      their defaults, kind Patch. */
  function ToExtended(p: Patch): (r: Patch)
    ensures r.Extended? && BasicOf(r) == BasicOf(p) && r.kind == PatchType && IsDefaultEx(r)
  {
    NewExtended(p.name, p.offsetX, p.offsetY, PatchType)
  }

  /** Every patch replaced by its extended version. */
  function ExtendedList(ps: seq<Patch>): (r: seq<Patch>)
    ensures |r| == |ps| && forall i :: 0 <= i < |ps| ==> r[i] == ToExtended(ps[i])
  {
    seq(|ps|, i requires 0 <= i < |ps| => ToExtended(ps[i]))
  }

  /** Every patch cut down to name and offsets. */
  function BasicList(ps: seq<Patch>): (r: seq<Patch>)
    ensures |r| == |ps| && forall i :: 0 <= i < |ps| ==> r[i] == BasicOf(ps[i])
  {
    seq(|ps|, i requires 0 <= i < |ps| => BasicOf(ps[i]))
  }

  /** convertExtended: the define flag always goes; a regular texture gets
      scale 0 read as 1 and every patch converted with default extended
      properties. */
  function ExtendedOf(st: TextureState): (r: TextureState)
    requires WellFormed(st)
    ensures r.extended && !r.defined && WellFormed(r)
    ensures |r.patches| == |st.patches|
    ensures forall i :: 0 <= i < |st.patches| ==>
      BasicOf(r.patches[i]) == BasicOf(st.patches[i]) && (!st.extended ==> IsDefaultEx(r.patches[i]))
    ensures st.extended ==> r == st.(defined := false)
    ensures !st.extended ==> r.props.scaleX == ExtendedScale(st.props.scaleX) && r.props.scaleY == ExtendedScale(st.props.scaleY)
    ensures !st.extended ==> forall i :: 0 <= i < |st.patches| ==> r.patches[i] == ToExtended(st.patches[i])
    ensures r.name == st.name && r.typeName == st.typeName
    ensures r.props == st.props.(scaleX := r.props.scaleX, scaleY := r.props.scaleY)
  {
    if st.extended then st.(defined := false)
    else
      st.(defined := false,
          props := st.props.(scaleX := ExtendedScale(st.props.scaleX), scaleY := ExtendedScale(st.props.scaleY)),
          patches := ExtendedList(st.patches),
          extended := true)
  }

  /** convertRegular: an extended texture gets its scales re-encoded, every
      patch cut down to name and offsets, and the extended and define flags
      cleared; a regular texture is left alone. */
  function RegularOf(st: TextureState): (r: TextureState)
    requires WellFormed(st)
    ensures !r.extended && WellFormed(r)
    ensures |r.patches| == |st.patches|
    ensures forall i :: 0 <= i < |st.patches| ==> r.patches[i] == BasicOf(st.patches[i])
    ensures !st.extended ==> r == st
    ensures st.extended ==> !r.defined && r.props.scaleX == RegularScale(st.props.scaleX) && r.props.scaleY == RegularScale(st.props.scaleY)
    ensures r.name == st.name && r.typeName == st.typeName
    ensures r.props == st.props.(scaleX := r.props.scaleX, scaleY := r.props.scaleY)
  {
    if !st.extended then
      assert forall i :: 0 <= i < |st.patches| ==> st.patches[i] == BasicOf(st.patches[i]);
      st
    else
      st.(props := st.props.(scaleX := RegularScale(st.props.scaleX), scaleY := RegularScale(st.props.scaleY)),
          patches := BasicList(st.patches),
          extended := false, defined := false)
  }

  /** Converting twice in the same direction changes nothing more. */
  lemma ConversionsIdempotent(st: TextureState)
    requires WellFormed(st)
    ensures ExtendedOf(ExtendedOf(st)) == ExtendedOf(st)
    ensures RegularOf(RegularOf(st)) == RegularOf(st)
  {
  }

  /** Extended to regular and back restores an extended texture (apart from
      the define flag) exactly when both scales are 1 and every patch is a
      Patch-kind patch with default properties: any other scale comes back
      multiplied by 8 (or, for 0, as 1), and extended properties are lost. */
  lemma ExtendedRoundTrip(st: TextureState)
    requires st.extended && WellFormed(st)
    ensures ExtendedOf(RegularOf(st)) == st.(defined := false) <==>
      st.props.scaleX == 1.0 && st.props.scaleY == 1.0
      && forall i :: 0 <= i < |st.patches| ==> st.patches[i].kind == PatchType && IsDefaultEx(st.patches[i])
  {
    var r := ExtendedOf(RegularOf(st));
    if st.props.scaleX == 1.0 && st.props.scaleY == 1.0
       && forall i :: 0 <= i < |st.patches| ==> st.patches[i].kind == PatchType && IsDefaultEx(st.patches[i]) {
      assert forall i :: 0 <= i < |st.patches| ==> r.patches[i] == st.patches[i];
      assert r.patches == st.patches;
    }
  }

  /** Regular to extended and back restores a regular texture (apart from
      the define flag) exactly when both scales are the sentinel 0: a scale
      of 1 comes back as 0 and any other scale multiplied by 8. */
  lemma RegularRoundTrip(st: TextureState)
    requires !st.extended && WellFormed(st)
    ensures RegularOf(ExtendedOf(st)) == st.(defined := false) <==> st.props.scaleX == 0.0 && st.props.scaleY == 0.0
  {
    var r := RegularOf(ExtendedOf(st));
    assert forall i :: 0 <= i < |st.patches| ==> r.patches[i] == st.patches[i];
    assert r.patches == st.patches;
  }

  /** copyTexture's patch copy: into an extended texture, extended patches
      are copied whole and basic ones converted; into a regular texture only
      name and offsets are kept. */
  function CopiedPatch(p: Patch, fromExtended: bool, toExtended: bool): (r: Patch)
    requires p.Extended? == fromExtended
    ensures r.Extended? == toExtended && BasicOf(r) == BasicOf(p)
    ensures toExtended && fromExtended ==> r == p
  {
    if toExtended then (if fromExtended then p else ToExtended(p)) else BasicOf(p)
  }

  /** copyTexture's scale adjustment: an extended copy reads 0 as 1, a
      regular copy of an extended texture turns 1 into the sentinel 0. */
  function CopiedScale(s: real, fromExtended: bool, toExtended: bool): real {
    if toExtended then ExtendedScale(s)
    else if fromExtended && s == 1.0 then 0.0
    else s
  }

  /** The copies of [ps] copyTexture appends. */
  function CopiedList(ps: seq<Patch>, fromExtended: bool, toExtended: bool): (r: seq<Patch>)
    requires forall i :: 0 <= i < |ps| ==> ps[i].Extended? == fromExtended
    ensures |r| == |ps| && forall i :: 0 <= i < |ps| ==> r[i] == CopiedPatch(ps[i], fromExtended, toExtended)
  {
    seq(|ps|, i requires 0 <= i < |ps| => CopiedPatch(ps[i], fromExtended, toExtended))
  }

  /** The state copyTexture(src, keepType) leaves in a texture whose state
      was [dst]. */
  function CopyOf(dst: TextureState, src: TextureState, keepType: bool): (r: TextureState)
    requires WellFormed(src)
    ensures WellFormed(r)
    ensures r.extended == (if keepType then dst.extended else src.extended)
    ensures r.name == src.name && r.typeName == src.typeName
    ensures |r.patches| == |src.patches|
    ensures forall i :: 0 <= i < |src.patches| ==> BasicOf(r.patches[i]) == BasicOf(src.patches[i])
    ensures forall i :: 0 <= i < |src.patches| ==> r.patches[i] == CopiedPatch(src.patches[i], src.extended, r.extended)
    ensures r.props == src.props.(scaleX := CopiedScale(src.props.scaleX, src.extended, r.extended),
                                  scaleY := CopiedScale(src.props.scaleY, src.extended, r.extended))
    ensures r.defined <==> !keepType && src.defined && (r.extended || |src.patches| == 0)
  {
    var ext := if keepType then dst.extended else src.extended;
    var defined := if keepType then false else src.defined;
    src.(extended := ext,
         defined := if !ext && |src.patches| > 0 then false else defined,
         props := src.props.(scaleX := CopiedScale(src.props.scaleX, src.extended, ext),
                             scaleY := CopiedScale(src.props.scaleY, src.extended, ext)),
         patches := CopiedList(src.patches, src.extended, ext))
  }

  /** Copying without keeping the type reproduces the source, as long as
      an extended source has no zero scale and a regular one with patches
      is not marked as a define. */
  lemma CopyIsFaithful(dst: TextureState, src: TextureState)
    requires WellFormed(src)
    requires src.extended ==> src.props.scaleX != 0.0 && src.props.scaleY != 0.0
    requires !src.extended && |src.patches| > 0 ==> !src.defined
    ensures CopyOf(dst, src, false) == src
  {
    var r := CopyOf(dst, src, false);
    assert forall i :: 0 <= i < |src.patches| ==> r.patches[i] == src.patches[i];
    assert r.patches == src.patches;
  }

  /** Copying an extended texture into a regular one while keeping the
      regular type cuts the patches down as convertRegular does, but the
      scales are only cleared at 1 and never multiplied. */
  lemma CopyKeepingRegular(dst: TextureState, src: TextureState)
    requires WellFormed(src) && src.extended && !dst.extended
    ensures var r := CopyOf(dst, src, true);
            !r.extended && !r.defined && r.patches == RegularOf(src).patches
            && r.props.scaleX == (if src.props.scaleX == 1.0 then 0.0 else src.props.scaleX)
  {
    var r := CopyOf(dst, src, true);
    assert forall i :: 0 <= i < |src.patches| ==> r.patches[i] == RegularOf(src).patches[i];
  }

  // ---------------------------------------------------------------------
  // The patch loops of the conversions and of copyTexture
  // ---------------------------------------------------------------------

  /** The patch loop of convertExtended: each patch replaced by its
      extended version. */
  method ExtendPatches(ps0: seq<Patch>) returns (ps: seq<Patch>)
    ensures ps == ExtendedList(ps0)
  {
    ps := ps0;
    var a := 0;
    while a < |ps|
      invariant 0 <= a <= |ps| == |ps0|
      invariant forall i :: 0 <= i < a ==> ps[i] == ToExtended(ps0[i])
      invariant forall i :: a <= i < |ps| ==> ps[i] == ps0[i]
    {
      ps := ps[a := ToExtended(ps[a])];
      a := a + 1;
    }
    assert ps == ExtendedList(ps0);
  }

  /** The patch loop of convertRegular: each patch cut down to name and
      offsets. */
  method BasicPatches(ps0: seq<Patch>) returns (ps: seq<Patch>)
    ensures ps == BasicList(ps0)
  {
    ps := ps0;
    var a := 0;
    while a < |ps|
      invariant 0 <= a <= |ps| == |ps0|
      invariant forall i :: 0 <= i < a ==> ps[i] == BasicOf(ps0[i])
      invariant forall i :: a <= i < |ps| ==> ps[i] == ps0[i]
    {
      ps := ps[a := Basic(ps[a].name, ps[a].offsetX, ps[a].offsetY)];
      a := a + 1;
    }
    assert ps == BasicList(ps0);
  }

  /** The patch loop of copyTexture: the copies appended one by one. */
  method CopyPatches(src: seq<Patch>, fromExtended: bool, toExtended: bool) returns (ps: seq<Patch>)
    requires forall i :: 0 <= i < |src| ==> src[i].Extended? == fromExtended
    ensures ps == CopiedList(src, fromExtended, toExtended)
  {
    ps := [];
    var a := 0;
    while a < |src|
      invariant 0 <= a <= |src| && |ps| == a
      invariant forall i :: 0 <= i < a ==> ps[i] == CopiedPatch(src[i], fromExtended, toExtended)
    {
      var patch := src[a];
      if toExtended {
        if fromExtended {
          ps := ps + [patch];
        } else {
          ps := ps + [ToExtended(patch)];
        }
      } else {
        ps := ps + [Basic(patch.name, patch.offsetX, patch.offsetY)];
      }
      a := a + 1;
    }
    assert ps == CopiedList(src, fromExtended, toExtended);
  }

  /** One more patch appends its text after whatever [text0] precedes the
      patches' text. */
  lemma PatchesTextStep(text0: string, ps: seq<Patch>, a: nat, fmt: Format)
    requires a < |ps| && forall i :: 0 <= i < |ps| ==> ps[i].Extended?
    ensures PatchesText(ps[..a + 1], fmt) == PatchesText(ps[..a], fmt) + PatchText(ps[a], fmt)
    ensures text0 + PatchesText(ps[..a + 1], fmt) == (text0 + PatchesText(ps[..a], fmt)) + PatchText(ps[a], fmt)
  {
    assert ps[..a + 1][..a] == ps[..a];
  }

  /** The loop of removePatch(name): erases each patch named exactly
      [name], staying at the same index after an erase. */
  method RemoveNamed(ps0: seq<Patch>, name: string) returns (ps: seq<Patch>, removed: bool)
    ensures ps == WithoutName(ps0, name)
    ensures removed <==> exists p :: p in ps0 && p.name == name
  {
    ps := ps0;
    removed := false;
    var a := 0;
    while a < |ps|
      invariant 0 <= a <= |ps|
      invariant ps[..a] + WithoutName(ps[a..], name) == WithoutName(ps0, name)
      invariant !removed ==> ps == ps0
      invariant removed ==> exists p :: p in ps0 && p.name == name
      invariant forall p :: p in ps ==> p in ps0
    {
      if ps[a].name == name {
        assert ps[a] in ps;
        WithoutNameDrop(ps, a, name);
        ps := ps[..a] + ps[a + 1..];
        removed := true;
      } else {
        WithoutNameKeep(ps, a, name);
        a := a + 1;
      }
    }
    assert ps[a..] == [];
    assert ps[..a] == ps;
    WithoutNameLength(ps0, name);
  }

  /** The patch loop of asText: each patch's text appended to [text]. */
  method AppendPatchesText(text0: string, ps: seq<Patch>, fmt: Format) returns (text: string)
    requires forall i :: 0 <= i < |ps| ==> ps[i].Extended?
    ensures text == text0 + PatchesText(ps, fmt)
  {
    text := text0;
    assert ps[..0] == [] && text0 + [] == text0;
    var a := 0;
    while a < |ps|
      invariant 0 <= a <= |ps|
      invariant text == text0 + PatchesText(ps[..a], fmt)
    {
      PatchesTextStep(text0, ps, a, fmt);
      text := text + PatchText(ps[a], fmt);
      a := a + 1;
    }
    assert ps[..a] == ps;
  }

  // ---------------------------------------------------------------------
  // TEXTURES text of a texture
  // ---------------------------------------------------------------------

  /** One property line of a texture's block. */
  datatype TextureProp =
    | XScaleProp(x: real)
    | YScaleProp(y: real)
    | OffsetProp(dx: int, dy: int)
    | WorldPanningProp
    | NoDecalsProp
    | NullTextureProp

  /** Property line [q] holds for a texture with properties [pr]: the
      property is not at its default and the line carries its value. */
  predicate Shown(pr: Properties, q: TextureProp) {
    match q
    case XScaleProp(x) => pr.scaleX != 1.0 && x == pr.scaleX
    case YScaleProp(y) => pr.scaleY != 1.0 && y == pr.scaleY
    case OffsetProp(x, y) => (pr.offsetX != 0 || pr.offsetY != 0) && x == pr.offsetX && y == pr.offsetY
    case WorldPanningProp => pr.worldPanning
    case NoDecalsProp => pr.noDecals
    case NullTextureProp => pr.nullTexture
  }

  /** The lines of [qs] that hold for [pr], in the order of [qs]. */
  function ShownOf(pr: Properties, qs: seq<TextureProp>): (r: seq<TextureProp>)
    ensures |r| <= |qs|
  {
    if qs == [] then []
    else
      var rest := ShownOf(pr, qs[1..]);
      if Shown(pr, qs[0]) then [qs[0]] + rest else rest
  }

  lemma {:induction false} ShownOfMembers(pr: Properties, qs: seq<TextureProp>)
    ensures forall q :: q in ShownOf(pr, qs) <==> q in qs && Shown(pr, q)
  {
    if qs != [] {
      ShownOfMembers(pr, qs[1..]);
      assert forall q :: q in qs <==> q == qs[0] || q in qs[1..];
    }
  }

  /** The property lines asText writes, in the order XScale, YScale,
      Offset, WorldPanning, NoDecals, NullTexture. */
  function TextureProps(pr: Properties): seq<TextureProp> {
    ShownOf(pr, [XScaleProp(pr.scaleX), YScaleProp(pr.scaleY), OffsetProp(pr.offsetX, pr.offsetY),
                 WorldPanningProp, NoDecalsProp, NullTextureProp])
  }

  /** asText writes a property line exactly when the property is not at
      its default, and each line carries the texture's value. */
  lemma TexturePropsSpec(pr: Properties)
    ensures forall q :: q in TextureProps(pr) ==> Shown(pr, q)
    ensures XScaleProp(pr.scaleX) in TextureProps(pr) <==> pr.scaleX != 1.0
    ensures YScaleProp(pr.scaleY) in TextureProps(pr) <==> pr.scaleY != 1.0
    ensures OffsetProp(pr.offsetX, pr.offsetY) in TextureProps(pr) <==> pr.offsetX != 0 || pr.offsetY != 0
    ensures WorldPanningProp in TextureProps(pr) <==> pr.worldPanning
    ensures NoDecalsProp in TextureProps(pr) <==> pr.noDecals
    ensures NullTextureProp in TextureProps(pr) <==> pr.nullTexture
  {
    ShownOfMembers(pr, [XScaleProp(pr.scaleX), YScaleProp(pr.scaleY), OffsetProp(pr.offsetX, pr.offsetY),
                        WorldPanningProp, NoDecalsProp, NullTextureProp]);
  }

  /** A texture with every property at its initial value writes no
      property lines. */
  lemma InitialPropertiesShowNothing()
    ensures TextureProps(InitialProperties) == []
  {
    var r := TextureProps(InitialProperties);
    if r != [] {
      FirstShown(InitialProperties);
      assert false;
    }
  }

  lemma FirstShown(pr: Properties)
    requires TextureProps(pr) != []
    ensures Shown(pr, TextureProps(pr)[0])
  {
    TexturePropsSpec(pr);
    assert TextureProps(pr)[0] in TextureProps(pr);
  }

  function TexturePropText(q: TextureProp, fmt: Format): string {
    match q
    case XScaleProp(x) => "\tXScale " + fmt.fixed(x, 3) + "\n"
    case YScaleProp(y) => "\tYScale " + fmt.fixed(y, 3) + "\n"
    case OffsetProp(x, y) => "\tOffset " + IntText(x) + ", " + IntText(y) + "\n"
    case WorldPanningProp => "\tWorldPanning\n"
    case NoDecalsProp => "\tNoDecals\n"
    case NullTextureProp => "\tNullTexture\n"
  }

  function TexturePropsText(qs: seq<TextureProp>, fmt: Format): string {
    if qs == [] then "" else TexturePropText(qs[0], fmt) + TexturePropsText(qs[1..], fmt)
  }

  /** First line and opening brace; "Optional" after the type when set. */
  function TextureHeader(st: TextureState): string {
    st.typeName + (if st.props.optional then " Optional" else "") + " \"" + st.name + "\", "
    + IntText(st.props.width) + ", " + IntText(st.props.height) + "\n{\n"
  }

  function DefineLine(st: TextureState): string {
    "define \"" + st.name + "\" " + IntText(st.props.defWidth) + " " + IntText(st.props.defHeight) + "\n"
  }

  /** The text of the patches, one after another. */
  function PatchesText(ps: seq<Patch>, fmt: Format): string
    requires forall i :: 0 <= i < |ps| ==> ps[i].Extended?
  {
    if ps == [] then "" else PatchesText(ps[..|ps| - 1], fmt) + PatchText(ps[|ps| - 1], fmt)
  }

  /** CTexture::asText: nothing for a regular texture, a single define line
      for a define, otherwise header, property lines, patches and the
      closing brace. The block is written even when it is empty. */
  function TextureText(st: TextureState, fmt: Format): (r: string)
    requires WellFormed(st)
    ensures !st.extended ==> r == ""
    ensures st.extended && st.defined ==> r == DefineLine(st)
  {
    if !st.extended then ""
    else if st.defined then DefineLine(st)
    else TextureHeader(st) + TexturePropsText(TextureProps(st.props), fmt) + PatchesText(st.patches, fmt) + "}\n\n"
  }

  /** A new extended texture with no patches and initial properties writes
      just its header and an empty block. */
  lemma EmptyTextureText(st: TextureState, fmt: Format)
    requires st.extended && !st.defined && st.patches == [] && st.props == InitialProperties
    ensures TextureText(st, fmt) == st.typeName + " \"" + st.name + "\", 0, 0\n{\n}\n\n"
  {
    InitialPropertiesShowNothing();
    assert IntText(0) == "0";
  }

  // ---------------------------------------------------------------------
  // TEXTURES parsing as functions of the token stream
  // ---------------------------------------------------------------------

  datatype TexParse = TexParse(ok: bool, pos: nat, tex: TextureState)

  /** [a] is [b] followed by extended patches only. */
  predicate ExtendsWithExtended(a: seq<Patch>, b: seq<Patch>) {
    |b| <= |a| && a[..|b|] == b && forall i :: |b| <= i < |a| ==> a[i].Extended?
  }

  lemma ExtendsTransitive(a: seq<Patch>, b: seq<Patch>, c: seq<Patch>)
    requires ExtendsWithExtended(a, b) && ExtendsWithExtended(b, c)
    ensures ExtendsWithExtended(a, c)
  {
    assert a[..|c|] == a[..|b|][..|c|];
  }

  /** The first line of a texture definition: an optional "optional",
      then name, width and height separated by single tokens. The texture
      becomes an extended one of the given type and stops being a
      define. */
  function TexHeader(toks: seq<Token>, p0: nat, typeName: string, st: TextureState): (h: TexParse)
    requires p0 <= |toks|
    ensures p0 <= h.pos <= |toks| && h.ok
    ensures h.tex.extended && !h.tex.defined && h.tex.typeName == typeName && h.tex.patches == st.patches
    ensures h.tex.props.optional == (st.props.optional || IsAt(toks, p0 + 1, "optional"))
  {
    var opt := IsAt(toks, p0 + 1, "optional");
    var p := if opt then Step(toks, p0, 1) else p0;
    var p1 := Step(toks, p, 1);
    var p3 := Step(toks, Step(toks, p1, 1), 1);
    var p5 := Step(toks, Step(toks, p3, 1), 1);
    TexParse(true, p5, st.(typeName := typeName, extended := true, defined := false, name := Upper(At(toks, p1).text),
                            props := st.props.(optional := st.props.optional || opt,
                                               width := At(toks, p3).intValue, height := At(toks, p5).intValue)))
  }

  /** asText writes the keyword as "Optional", but the header accepts only
      "optional" spelled exactly so: the written keyword is read as the
      texture's name and the flag is not set. */
  lemma OptionalKeywordIsExact(toks: seq<Token>, p0: nat, typeName: string, st: TextureState)
    requires p0 + 1 < |toks| && toks[p0 + 1].text == "Optional" && !st.props.optional
    ensures !TexHeader(toks, p0, typeName, st).tex.props.optional
    ensures TexHeader(toks, p0, typeName, st).tex.name == Upper("Optional")
  {
    assert "Optional" != "optional" by {
      assert "Optional"[0] != "optional"[0];
    }
  }

  /** CTexture::parse starting on the type keyword at [p0]: the header,
      then the property block when a "{" follows it. */
  function ParseTextureSpec(toks: seq<Token>, p0: nat, typeName: string, st: TextureState, colourOf: string -> Rgba): (r: TexParse)
    requires p0 <= |toks|
    ensures p0 <= r.pos <= |toks|
  {
    var h := TexHeader(toks, p0, typeName, st);
    if IsAt(toks, h.pos + 1, "{") then TexPropsLoop(toks, Step(toks, h.pos, 2), h.tex, colourOf) else h
  }

  /** The property loop: stops at "}", fails at the end of input, otherwise
      reads one property and moves to the next token. */
  function TexPropsLoop(toks: seq<Token>, p: nat, st: TextureState, colourOf: string -> Rgba): (r: TexParse)
    requires p <= |toks|
    ensures p <= r.pos <= |toks|
    decreases |toks| - p
  {
    if IsAt(toks, p, "}") then TexParse(true, p, st)
    else if p >= |toks| then TexParse(false, p, st)
    else
      var s := TexProp(toks, p, st, colourOf);
      TexPropsLoop(toks, Step(toks, s.pos, 1), s.tex, colourOf)
  }

  /** One texture property (an if-else chain of case-insensitive keyword
      tests), before the loop's final advance. */
  function TexProp(toks: seq<Token>, p: nat, st: TextureState, colourOf: string -> Rgba): (r: TexParse)
    requires p <= |toks|
    ensures p <= r.pos <= |toks| && r.ok
    ensures r.tex.(props := st.props, patches := st.patches) == st
    ensures ExtendsWithExtended(r.tex.patches, st.patches)
    ensures -0x8000 <= st.props.offsetX < 0x8000 ==> -0x8000 <= r.tex.props.offsetX < 0x8000
    ensures -0x8000 <= st.props.offsetY < 0x8000 ==> -0x8000 <= r.tex.props.offsetY < 0x8000
  {
    if IsAtNC(toks, p, "XScale") then
      var q := Step(toks, p, 1);
      TexParse(true, q, st.(props := st.props.(scaleX := At(toks, q).floatValue)))
    else if IsAtNC(toks, p, "YScale") then
      var q := Step(toks, p, 1);
      TexParse(true, q, st.(props := st.props.(scaleY := At(toks, q).floatValue)))
    else if IsAtNC(toks, p, "Offset") then
      var q1 := Step(toks, p, 1);
      var q3 := Step(toks, Step(toks, q1, 1), 1);
      TexParse(true, q3, st.(props := st.props.(offsetX := Wrap16(At(toks, q1).intValue), offsetY := Wrap16(At(toks, q3).intValue))))
    else TexFlagProp(toks, p, st, colourOf)
  }

  /** The middle of the chain: the three flags. */
  function TexFlagProp(toks: seq<Token>, p: nat, st: TextureState, colourOf: string -> Rgba): (r: TexParse)
    requires p <= |toks|
    ensures p <= r.pos <= |toks| && r.ok
    ensures r.tex.(props := st.props, patches := st.patches) == st
    ensures ExtendsWithExtended(r.tex.patches, st.patches)
  {
    if IsAtNC(toks, p, "WorldPanning") then TexParse(true, p, st.(props := st.props.(worldPanning := true)))
    else if IsAtNC(toks, p, "NoDecals") then TexParse(true, p, st.(props := st.props.(noDecals := true)))
    else if IsAtNC(toks, p, "NullTexture") then TexParse(true, p, st.(props := st.props.(nullTexture := true)))
    else TexPatchProp(toks, p, st, colourOf)
  }

  /** The tail of the chain: a Patch or Graphic block is added to the
      texture even when its own parse failed; anything else is skipped. */
  function TexPatchProp(toks: seq<Token>, p: nat, st: TextureState, colourOf: string -> Rgba): (r: TexParse)
    requires p <= |toks|
    ensures p <= r.pos <= |toks| && r.ok && r.tex.(patches := st.patches) == st
    ensures ExtendsWithExtended(r.tex.patches, st.patches)
    ensures !IsAtNC(toks, p, "Patch") && !IsAtNC(toks, p, "Graphic") ==> r == TexParse(true, p, st)
  {
    if IsAtNC(toks, p, "Patch") then
      var r := ParsePatchSpec(toks, p, PatchType, colourOf);
      TexParse(true, r.pos, st.(patches := st.patches + [r.patch]))
    else if IsAtNC(toks, p, "Graphic") then
      var r := ParsePatchSpec(toks, p, GraphicType, colourOf);
      TexParse(true, r.pos, st.(patches := st.patches + [r.patch]))
    else TexParse(true, p, st)
  }

  /** A texture parse fails only by running out of input. */
  lemma {:induction false} TexLoopFailsOnlyAtEnd(toks: seq<Token>, p: nat, st: TextureState, colourOf: string -> Rgba)
    requires p <= |toks|
    ensures !TexPropsLoop(toks, p, st, colourOf).ok ==> TexPropsLoop(toks, p, st, colourOf).pos == |toks|
    decreases |toks| - p
  {
    if !IsAt(toks, p, "}") && p < |toks| {
      var s := TexProp(toks, p, st, colourOf);
      TexLoopFailsOnlyAtEnd(toks, Step(toks, s.pos, 1), s.tex, colourOf);
    }
  }

  /** No "}" from the block on means the texture parse fails. */
  lemma {:induction false} MissingBraceFails(toks: seq<Token>, p: nat, st: TextureState, colourOf: string -> Rgba)
    requires p <= |toks|
    requires forall k :: p <= k < |toks| ==> toks[k].text != "}"
    ensures !TexPropsLoop(toks, p, st, colourOf).ok
    decreases |toks| - p
  {
    if p < |toks| {
      assert !IsAt(toks, p, "}");
      var s := TexProp(toks, p, st, colourOf);
      MissingBraceFails(toks, Step(toks, s.pos, 1), s.tex, colourOf);
    }
  }

  /** Parsing never removes or alters patches already read, only appends
      extended ones, and never touches name, type or format flags. */
  lemma {:induction false} TexLoopKeepsPatches(toks: seq<Token>, p: nat, st: TextureState, colourOf: string -> Rgba)
    requires p <= |toks|
    ensures var r := TexPropsLoop(toks, p, st, colourOf);
            ExtendsWithExtended(r.tex.patches, st.patches) && r.tex.(props := st.props, patches := st.patches) == st
    decreases |toks| - p
  {
    if !IsAt(toks, p, "}") && p < |toks| {
      var s := TexProp(toks, p, st, colourOf);
      TexLoopKeepsPatches(toks, Step(toks, s.pos, 1), s.tex, colourOf);
      ExtendsTransitive(TexPropsLoop(toks, p, st, colourOf).tex.patches, s.tex.patches, st.patches);
    }
  }

  /** Parsing into a new texture, or into one that is already extended,
      gives a well-formed extended texture. */
  lemma ParsedIsWellFormed(toks: seq<Token>, p0: nat, typeName: string, st: TextureState, colourOf: string -> Rgba)
    requires p0 <= |toks| && WellFormed(st) && (st.extended || st.patches == [])
    ensures var r := ParseTextureSpec(toks, p0, typeName, st, colourOf);
            WellFormed(r.tex) && r.tex.extended && !r.tex.defined && r.tex.typeName == typeName
  {
    var h := TexHeader(toks, p0, typeName, st);
    if IsAt(toks, h.pos + 1, "{") {
      var r := TexPropsLoop(toks, Step(toks, h.pos, 2), h.tex, colourOf);
      TexLoopKeepsPatches(toks, Step(toks, h.pos, 2), h.tex, colourOf);
      forall i | 0 <= i < |r.tex.patches|
        ensures r.tex.patches[i].Extended?
      {
        if i < |h.tex.patches| {
          assert r.tex.patches[i] == r.tex.patches[..|h.tex.patches|][i];
        }
      }
    }
  }

  // ---------------------------------------------------------------------
  // The texture object
  // ---------------------------------------------------------------------

  class CTexture {
    var name: string
    var typeName: string
    var extended: bool
    var defined: bool
    var props: Properties
    var patches: seq<Patch>

    function State(): TextureState
      reads this
    {
      TextureState(name, typeName, extended, defined, props, patches)
    }

    ghost predicate Valid()
      reads this
    {
      WellFormed(State())
    }

    /** A new, empty texture of the given format. */
    constructor (extended: bool)
      ensures Valid()
      ensures State() == TextureState("", "Texture", extended, false, InitialProperties, [])
    {
      name, typeName := "", "Texture";
      this.extended, defined := extended, false;
      props := InitialProperties;
      patches := [];
    }

    /** getPatch: the patch at [index], or nothing past the end. */
    function GetPatch(index: nat): (r: Option<Patch>)
      reads this
      ensures r.Some? <==> index < |patches|
      ensures r.Some? ==> r.value == patches[index]
    {
      if index >= |patches| then None else Some(patches[index])
    }

    method Clear()
      modifies this
      ensures State() == Cleared(old(State()))
    {
      name := "";
      defined := false;
      props := InitialProperties;
      patches := [];
    }

    /** The patch addPatch creates for this texture's format. */
    function NewPatch(patchName: string, x: Int16, y: Int16): (p: Patch)
      reads this
      ensures p.Extended? == extended && p.name == patchName && p.offsetX == x && p.offsetY == y
      ensures p.Extended? ==> p.kind == PatchType && IsDefaultEx(p)
    {
      if extended then NewExtended(patchName, x, y, PatchType) else Basic(patchName, x, y)
    }

    /** addPatch: a basic or extended patch, as the texture's format, at
        [index] or at the end; the texture stops being a define. */
    method AddPatch(patchName: string, x: Int16, y: Int16, index: int) returns (ok: bool)
      requires Valid()
      modifies this
      ensures ok && Valid()
      ensures State() == old(State()).(patches := InsertAt(old(patches), index, NewPatch(patchName, x, y)), defined := false)
    {
      var np := if extended then NewExtended(patchName, x, y, PatchType) else Basic(patchName, x, y);
      if 0 <= index < |patches| {
        patches := patches[..index] + [np] + patches[index..];
      } else {
        patches := patches + [np];
      }
      defined := false;
      ok := true;
    }

    /** removePatch(index): false and no change past the end. */
    method RemovePatchAt(index: nat) returns (ok: bool)
      requires Valid()
      modifies this
      ensures Valid()
      ensures ok <==> index < old(|patches|)
      ensures !ok ==> State() == old(State())
      ensures ok ==> State() == old(State()).(patches := RemoveAt(old(patches), index), defined := false)
    {
      if index >= |patches| {
        return false;
      }
      patches := patches[..index] + patches[index + 1..];
      defined := false;
      ok := true;
    }

    /** removePatch(name): removes every patch named exactly [patchName];
        true iff one was removed; the texture stops being a define either
        way. */
    method RemovePatchNamed(patchName: string) returns (removed: bool)
      requires Valid()
      modifies this
      ensures Valid()
      ensures removed <==> exists p :: p in old(patches) && p.name == patchName
      ensures State() == old(State()).(patches := WithoutName(old(patches), patchName), defined := false)
    {
      var ps;
      ps, removed := RemoveNamed(patches, patchName);
      WithoutNameUniform(patches, patchName, extended);
      patches, defined := ps, false;
    }

    /** replacePatch: renames the patch at [index]; false and no change past
        the end. */
    method ReplacePatch(index: nat, newName: string) returns (ok: bool)
      requires Valid()
      modifies this
      ensures Valid()
      ensures ok <==> index < old(|patches|)
      ensures !ok ==> State() == old(State())
      ensures ok ==> State() == old(State()).(patches := old(patches)[index := Renamed(old(patches)[index], newName)])
    {
      if index >= |patches| {
        return false;
      }
      patches := patches[index := Renamed(patches[index], newName)];
      ok := true;
    }

    /** duplicatePatch: a copy of the patch at [index] goes before it and the
        original, now at index + 1, is moved by (dx, dy); as values, the
        patch stays at [index] and a moved copy follows it. */
    method DuplicatePatch(index: nat, dx: Int16, dy: Int16) returns (ok: bool)
      requires Valid()
      modifies this
      ensures Valid()
      ensures ok <==> index < old(|patches|)
      ensures !ok ==> State() == old(State())
      ensures ok ==> State() == old(State()).(patches := Duplicated(old(patches), index, dx, dy), defined := false)
    {
      if index >= |patches| {
        return false;
      }
      var dp := patches[index];
      patches := patches[..index] + [dp] + patches[index..];
      patches := patches[index + 1 := Moved(dp, dx, dy)];
      assert patches == Duplicated(old(patches), index, dx, dy);
      defined := false;
      ok := true;
    }

    /** swapPatches: false and no change when either index is past the end. */
    method SwapPatches(p1: nat, p2: nat) returns (ok: bool)
      requires Valid()
      modifies this
      ensures Valid()
      ensures ok <==> p1 < old(|patches|) && p2 < old(|patches|)
      ensures !ok ==> State() == old(State())
      ensures ok ==> State() == old(State()).(patches := Swapped(old(patches), p1, p2))
    {
      if p1 >= |patches| || p2 >= |patches| {
        return false;
      }
      var temp := patches[p1];
      patches := patches[p1 := patches[p2]];
      patches := patches[p2 := temp];
      ok := true;
    }

    /** copyTexture: nothing for a missing texture; otherwise clears this
        texture and copies [tex] into it. When [tex] is this texture, it is
        read after being cleared. */
    method CopyTexture(tex: CTexture?, keepType: bool)
      requires Valid() && (tex != null ==> tex.Valid())
      modifies this
      ensures Valid()
      ensures tex == null ==> State() == old(State())
      ensures tex != null && tex != this ==> State() == CopyOf(old(State()), old(tex.State()), keepType)
      ensures tex == this ==> State() == CopyOf(old(State()), Cleared(old(State())), keepType)
    {
      if tex == null {
        return;
      }
      Clear();
      var src := tex.State();
      assert tex != this ==> src == old(tex.State());
      CopyFrom(src, keepType);
    }

    /** The part of copyTexture after clear(), reading the source texture's
        state [src]. */
    method CopyFrom(src: TextureState, keepType: bool)
      requires WellFormed(src) && patches == [] && !defined
      modifies this
      ensures State() == CopyOf(old(State()), src, keepType)
    {
      name, typeName, props := src.name, src.typeName, src.props;
      if !keepType {
        extended, defined := src.extended, src.defined;
      }
      props := props.(scaleX := CopiedScale(props.scaleX, src.extended, extended),
                      scaleY := CopiedScale(props.scaleY, src.extended, extended));
      // a regular texture receives its patches through addPatch, which
      // also clears the define flag
      patches := CopyPatches(src.patches, src.extended, extended);
      if !extended && |src.patches| > 0 {
        defined := false;
      }
    }

    /** convertExtended. */
    method ConvertExtended() returns (ok: bool)
      requires Valid()
      modifies this
      ensures ok && Valid()
      ensures State() == ExtendedOf(old(State()))
    {
      if defined {
        defined := false;
      }
      if extended {
        return true;
      }
      if props.scaleX == 0.0 {
        props := props.(scaleX := 1.0);
      }
      if props.scaleY == 0.0 {
        props := props.(scaleY := 1.0);
      }
      patches := ExtendPatches(patches);
      extended := true;
      ok := true;
    }

    /** convertRegular. */
    method ConvertRegular() returns (ok: bool)
      requires Valid()
      modifies this
      ensures ok && Valid()
      ensures State() == RegularOf(old(State()))
    {
      if !extended {
        return true;
      }
      props := props.(scaleX := RegularScale(props.scaleX), scaleY := RegularScale(props.scaleY));
      patches := BasicPatches(patches);
      extended, defined := false, false;
      ok := true;
    }

    /** asText. */
    method AsText(fmt: Format) returns (text: string)
      requires Valid()
      ensures text == TextureText(State(), fmt)
    {
      if !extended {
        return "";
      }
      if defined {
        return DefineLine(State());
      }
      text := TextureHeader(State()) + TexturePropsText(TextureProps(props), fmt);
      text := AppendPatchesText(text, patches, fmt);
      text := text + "}\n\n";
    }

    /** CTexture::parse with the cursor on the type keyword. The texture is
        a new one or already extended. */
    method Parse(tz: Tokenizer, typeName0: string, colourOf: string -> Rgba) returns (ok: bool)
      requires Valid() && tz.Valid() && (extended || patches == [])
      modifies this, tz
      ensures Valid() && tz.Valid()
      ensures TexParse(ok, tz.pos, State()) == ParseTextureSpec(tz.tokens, old(tz.pos), typeName0, old(State()), colourOf)
    {
      ReadHeader(tz, typeName0);
      ok := true;
      var block := tz.AdvIfNext("{", 2);
      if block {
        ghost var start, st1 := tz.pos, State();
        while !tz.Check("}")
          invariant tz.Valid() && Valid() && extended
          invariant TexPropsLoop(tz.tokens, tz.pos, State(), colourOf) == TexPropsLoop(tz.tokens, start, st1, colourOf)
          decreases |tz.tokens| - tz.pos
        {
          if tz.AtEnd() {
            return false;
          }
          ParseProperty(tz, colourOf);
          tz.Adv(1);
        }
      }
    }

    /** The header part of CTexture::parse. */
    method ReadHeader(tz: Tokenizer, typeName0: string)
      requires Valid() && tz.Valid() && (extended || patches == [])
      modifies this, tz
      ensures Valid() && tz.Valid() && extended
      ensures TexParse(true, tz.pos, State()) == TexHeader(tz.tokens, old(tz.pos), typeName0, old(State()))
    {
      var opt := tz.AdvIfNext("optional", 1);
      if opt {
        props := props.(optional := true);
      }
      typeName, extended, defined := typeName0, true, false;
      var t := tz.Next();
      var newName := Upper(t.text);
      tz.Adv(1);
      t := tz.Next();
      var w := t.intValue;
      tz.Adv(1);
      t := tz.Next();
      name, props := newName, props.(width := w, height := t.intValue);
    }

    /** One pass of the property loop of CTexture::parse, before the final
        advance. */
    method ParseProperty(tz: Tokenizer, colourOf: string -> Rgba)
      requires Valid() && extended && tz.Valid()
      modifies this, tz
      ensures Valid() && extended && tz.Valid()
      ensures TexParse(true, tz.pos, State()) == TexProp(tz.tokens, old(tz.pos), old(State()), colourOf)
    {
      if tz.CheckNC("XScale") {
        var t := tz.Next();
        props := props.(scaleX := t.floatValue);
      } else if tz.CheckNC("YScale") {
        var t := tz.Next();
        props := props.(scaleY := t.floatValue);
      } else if tz.CheckNC("Offset") {
        var t := tz.Next();
        props := props.(offsetX := Wrap16(t.intValue));
        tz.Adv(1);
        t := tz.Next();
        props := props.(offsetY := Wrap16(t.intValue));
      } else {
        ParseFlagProperty(tz, colourOf);
      }
    }

    /** The flag branches of the property loop. */
    method ParseFlagProperty(tz: Tokenizer, colourOf: string -> Rgba)
      requires Valid() && extended && tz.Valid()
      modifies this, tz
      ensures Valid() && extended && tz.Valid()
      ensures TexParse(true, tz.pos, State()) == TexFlagProp(tz.tokens, old(tz.pos), old(State()), colourOf)
    {
      if tz.CheckNC("WorldPanning") {
        props := props.(worldPanning := true);
      } else if tz.CheckNC("NoDecals") {
        props := props.(noDecals := true);
      } else if tz.CheckNC("NullTexture") {
        props := props.(nullTexture := true);
      } else {
        ParsePatchProperty(tz, colourOf);
      }
    }

    /** The Patch and Graphic branches of the property loop. */
    method ParsePatchProperty(tz: Tokenizer, colourOf: string -> Rgba)
      requires Valid() && extended && tz.Valid()
      modifies this, tz
      ensures Valid() && extended && tz.Valid()
      ensures TexParse(true, tz.pos, State()) == TexPatchProp(tz.tokens, old(tz.pos), old(State()), colourOf)
    {
      if tz.CheckNC("Patch") {
        var ok, patch := ParsePatch(tz, PatchType, colourOf);
        patches := patches + [patch];
      } else if tz.CheckNC("Graphic") {
        var ok, patch := ParsePatch(tz, GraphicType, colourOf);
        patches := patches + [patch];
      }
    }
  }
}

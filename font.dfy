/** Bitmap fonts (src/Graphics/Font/SFont.cpp): the monochrome VGA font
    decoder, the string-width computation used for alignment, and the loaders
    that are still stubs. A font has 256 character slots, each empty or
    holding the character's bounds in the font image and its size. */
module Fonts {
  import opened Opt

  type byte = x: int | 0 <= x < 256

  datatype Rect = Rect(x1: int, y1: int, x2: int, y2: int)

  datatype FontChar = FontChar(texBounds: Rect, width: int, height: int)

  datatype Rgba = Rgba(r: int, g: int, b: int, a: int)

  /** Width and height of the generated font image. */
  const ImageSize := 256
  /** Every monochrome glyph is 8 pixels (one byte) wide. */
  const GlyphWidth := 8
  /** Glyph cells per row of the image. */
  const CellsPerRow := 32

  function Pow2(k: nat): (r: nat)
    ensures r >= 1
  {
    if k == 0 then 1 else 2 * Pow2(k - 1)
  }

  /** Bit [k] (0 = least significant) of [b] is set. */
  predicate BitSet(b: byte, k: nat) {
    (b / Pow2(k)) % 2 == 1
  }

  /** The value of the low [n] bits of [b], as read through [BitSet]. */
  function LowBits(b: byte, n: nat): nat {
    if n == 0 then 0 else LowBits(b, n - 1) + (if BitSet(b, n - 1) then Pow2(n - 1) else 0)
  }

  /** Quotient and remainder are determined by the division equation. */
  lemma DivModOf(a: int, d: int, q: int, m: int)
    requires d > 0 && a == q * d + m && 0 <= m < d
    ensures a / d == q && a % d == m
  {
    var q', m' := a / d, a % d;
    assert (q - q') * d == m' - m by {
      assert (q - q') * d == q * d - q' * d;
    }
    if q > q' {
      MulAtLeast(q - q', d);
      assert false;
    } else if q < q' {
      MulAtLeast(q' - q, d);
      assert false;
    }
  }

  lemma MulAtLeast(k: int, d: int)
    requires k >= 1 && d > 0
    ensures k * d >= d
  {
    assert k * d == (k - 1) * d + d;
  }

  /** Splitting the quotient by 2 splits the dividend accordingly. */
  lemma Regroup(b: int, d: int, x: int, m: int, y: int, t: int)
    requires b == x * d + m && x == y * 2 + t
    ensures b == y * (2 * d) + (t * d + m)
  {
    calc {
      x * d;
      (y * 2 + t) * d;
      y * 2 * d + t * d;
      y * (2 * d) + t * d;
    }
  }

  /** The remainder modulo 2d adds bit (b / d) % 2, worth d, to the
      remainder modulo d. */
  lemma ModDouble(b: int, d: int)
    requires d > 0
    ensures b % (2 * d) == b % d + ((b / d) % 2) * d
  {
    var x, m := b / d, b % d;
    var y, t := x / 2, x % 2;
    Regroup(b, d, x, m, y, t);
    assert t * d + m < 2 * d by {
      if t == 1 { } else { assert t == 0; }
    }
    DivModOf(b, 2 * d, y, t * d + m);
  }

  /** The low [n] bits of [b] are its remainder modulo 2^n. */
  lemma {:induction false} LowBitsAreRemainder(b: byte, n: nat)
    ensures LowBits(b, n) == b % Pow2(n)
  {
    if n > 0 {
      LowBitsAreRemainder(b, n - 1);
      var d := Pow2(n - 1);
      assert Pow2(n) == 2 * d;
      ModDouble(b, d);
      assert (if BitSet(b, n - 1) then d else 0) == ((b / d) % 2) * d;
    }
  }

  /** The eight bits [DrawRow] tests, from bit 7 down to bit 0, make up the
      whole row byte: no pixel of a glyph row is lost or invented. */
  lemma EightBitsRebuildByte(b: byte)
    ensures LowBits(b, 8) == b
  {
    LowBitsAreRemainder(b, 8);
    assert Pow2(8) == 256;
    DivModOf(b, 256, 0, b);
  }

  /** Left edge of the cell of glyph [a]: 32 cells of 8 pixels per row. */
  function CellX(a: nat): (x: nat)
    ensures x + GlyphWidth <= ImageSize
  {
    (a % CellsPerRow) * GlyphWidth
  }

  /** Top edge of the cell of glyph [a]: rows of cells [charHeight] pixels
      apart; with at most 32 pixel rows per glyph all 8 rows of cells fit. */
  function CellY(a: nat, charHeight: nat): (y: nat)
    ensures a < 256 && charHeight <= 32 ==> y + charHeight <= ImageSize
  {
    CellFits(a, charHeight);
    (a / CellsPerRow) * charHeight
  }

  /** Where glyph [a] sits in the image. */
  function CellBounds(a: nat, charHeight: nat): Rect {
    Rect(CellX(a), CellY(a, charHeight), CellX(a) + GlyphWidth, CellY(a, charHeight) + charHeight)
  }

  /** Index in the font data of row [row] of glyph [a]: one byte per row,
      glyphs stored one after another. */
  function RowByte(a: nat, charHeight: nat, row: nat): (i: nat)
    ensures a < 256 && row < charHeight ==> i < 256 * charHeight
  {
    CellFits(a, charHeight);
    a * charHeight + row
  }

  /** Pixel (p, row) of glyph [a]: white and opaque when bit 7 - p of the
      glyph's row byte is set, transparent black otherwise. */
  function GlyphPixel(data: seq<byte>, charHeight: nat, a: nat, row: nat, p: nat): Rgba
    requires p < GlyphWidth && row < charHeight && a < 256 && |data| == 256 * charHeight
  {
    var v := if BitSet(data[RowByte(a, charHeight, row)], 7 - p) then 255 else 0;
    Rgba(v, v, v, v)
  }

  lemma MulLeftMono(a: int, b: int, c: nat)
    requires a <= b
    ensures a * c <= b * c
  {
  }

  /** Cell [a] lies inside the image and its bytes inside the data. */
  lemma CellFits(a: nat, ch: nat)
    ensures a < 256 && ch <= 32 ==> (a / CellsPerRow) * ch + ch <= ImageSize
    ensures a < 256 ==> a * ch + ch <= 256 * ch
  {
    if a < 256 {
      MulLeftMono(a + 1, 256, ch);
      if ch <= 32 {
        MulLeftMono(a / CellsPerRow + 1, 8, ch);
      }
    }
  }

  /** Moving from cell [a] to the next one advances 8 pixels along the row of
      cells, or wraps to the start of the next row of cells; the next glyph's
      bytes follow this glyph's. */
  lemma NextCell(a: nat, ch: nat)
    ensures a % CellsPerRow < CellsPerRow - 1 ==>
      CellX(a + 1) == CellX(a) + GlyphWidth && CellY(a + 1, ch) == CellY(a, ch)
    ensures a % CellsPerRow == CellsPerRow - 1 ==>
      CellX(a + 1) == 0 && CellY(a + 1, ch) == CellY(a, ch) + ch
    ensures RowByte(a + 1, ch, 0) == RowByte(a, ch, 0) + ch
  {
    if a % CellsPerRow == CellsPerRow - 1 {
      assert (a + 1) / CellsPerRow == a / CellsPerRow + 1;
    } else {
      assert (a + 1) / CellsPerRow == a / CellsPerRow;
    }
  }

  /** Pixel (p, row) of an earlier glyph [b] lies outside the cell of glyph [a]. */
  lemma CellsDisjoint(b: nat, a: nat, ch: nat, row: nat, p: nat)
    requires b < a < 256 && row < ch && p < GlyphWidth
    ensures !(CellX(a) <= CellX(b) + p < CellX(a) + GlyphWidth
              && CellY(a, ch) <= CellY(b, ch) + row < CellY(a, ch) + ch)
  {
    if b / CellsPerRow < a / CellsPerRow {
      MulLeftMono(b / CellsPerRow + 1, a / CellsPerRow, ch);
    }
  }

  /** (x, y) is a pixel of the image outside the cell at (xoff, yoff). */
  predicate OutsideCell(x: int, y: int, xoff: int, yoff: int, charHeight: int) {
    0 <= x < ImageSize && 0 <= y < ImageSize
    && !(xoff <= x < xoff + GlyphWidth && yoff <= y < yoff + charHeight)
  }

  /** (x, y) is a pixel of the image outside the [w] pixels of pixel row [y0]
      that start at column [x0]. */
  predicate OutsideSpan(x: int, y: int, x0: int, w: int, y0: int) {
    0 <= x < ImageSize && 0 <= y < ImageSize && !(x0 <= x < x0 + w && y == y0)
  }

  /** Writes row [row] of glyph [a] into the cell at (xoff, yoff); no other
      pixel changes. */
  method DrawRow(image: array2<Rgba>, data: seq<byte>, charHeight: nat, a: nat, xoff: nat, yoff: nat, row: nat)
    requires image.Length0 == ImageSize && image.Length1 == ImageSize
    requires xoff + GlyphWidth <= ImageSize && yoff + row < ImageSize
    requires a < 256 && row < charHeight && |data| == 256 * charHeight
    modifies image
    ensures forall p :: 0 <= p < GlyphWidth ==> image[xoff + p, yoff + row] == GlyphPixel(data, charHeight, a, row, p)
    ensures forall x, y :: OutsideSpan(x, y, xoff, GlyphWidth, yoff + row) ==> image[x, y] == old(image[x, y])
  {
    var i := RowByte(a, charHeight, row);
    var p := 0;
    while p < GlyphWidth
      invariant 0 <= p <= GlyphWidth
      invariant forall q :: 0 <= q < p ==> image[xoff + q, yoff + row] == GlyphPixel(data, charHeight, a, row, q)
      invariant forall x, y :: OutsideSpan(x, y, xoff, p, yoff + row) ==> image[x, y] == old(image[x, y])
    {
      var val := ((data[i] / Pow2(7 - p)) % 2) * 255;
      image[xoff + p, yoff + row] := Rgba(val, val, val, val);
      p := p + 1;
    }
  }

  /** Writes the [charHeight] rows of glyph [a] into its cell at (xoff, yoff),
      reading one data byte per row from index [i]; returns the index of the
      next glyph's first byte. */
  method DrawGlyph(image: array2<Rgba>, data: seq<byte>, charHeight: nat, a: nat, xoff: nat, yoff: nat, i: nat)
    returns (next: nat)
    requires image.Length0 == ImageSize && image.Length1 == ImageSize
    requires 1 <= charHeight <= 32 && |data| == 256 * charHeight && a < 256
    requires xoff == CellX(a) && yoff == CellY(a, charHeight) && i == RowByte(a, charHeight, 0)
    modifies image
    ensures next == i + charHeight
    ensures forall row, p :: 0 <= row < charHeight && 0 <= p < GlyphWidth ==>
      image[xoff + p, yoff + row] == GlyphPixel(data, charHeight, a, row, p)
    ensures forall x, y :: OutsideCell(x, y, xoff, yoff, charHeight) ==> image[x, y] == old(image[x, y])
  {
    next := i;
    var row := 0;
    while row < charHeight
      invariant 0 <= row <= charHeight && next == i + row
      invariant forall r, p :: 0 <= r < row && 0 <= p < GlyphWidth ==>
        image[xoff + p, yoff + r] == GlyphPixel(data, charHeight, a, r, p)
      invariant forall x, y :: OutsideCell(x, y, xoff, yoff, charHeight) ==> image[x, y] == old(image[x, y])
    {
      DrawRow(image, data, charHeight, a, xoff, yoff, row);
      next := next + 1;
      row := row + 1;
    }
  }

  /** Glyph [a] has been drawn into its cell of [img]. */
  ghost predicate GlyphDrawn(img: array2<Rgba>, data: seq<byte>, charHeight: nat, a: nat)
    requires img.Length0 == ImageSize && img.Length1 == ImageSize
    requires charHeight <= 32 && |data| == 256 * charHeight && a < 256
    reads img
  {
    forall row, p :: 0 <= row < charHeight && 0 <= p < GlyphWidth ==>
      img[CellX(a) + p, CellY(a, charHeight) + row] == GlyphPixel(data, charHeight, a, row, p)
  }

  /** The 256-glyph loop of the monochrome loader: fills every character
      slot with its cell and draws every glyph into [img]. */
  method DrawGlyphs(characters: array<Option<FontChar>>, img: array2<Rgba>, data: seq<byte>, charHeight: nat)
    requires characters.Length == 256 && img.Length0 == ImageSize && img.Length1 == ImageSize
    requires 1 <= charHeight <= 32 && |data| == 256 * charHeight
    modifies characters, img
    ensures forall a :: 0 <= a < 256 ==>
      characters[a] == Some(FontChar(CellBounds(a, charHeight), GlyphWidth, charHeight))
    ensures forall a :: 0 <= a < 256 ==> GlyphDrawn(img, data, charHeight, a)
  {
    var xoff, yoff, i := 0, 0, 0;
    var a := 0;
    while a < 256
      invariant 0 <= a <= 256
      invariant xoff == CellX(a) && yoff == CellY(a, charHeight) && i == RowByte(a, charHeight, 0)
      invariant forall b :: 0 <= b < a ==>
        characters[b] == Some(FontChar(CellBounds(b, charHeight), GlyphWidth, charHeight))
      invariant forall b :: 0 <= b < a ==> GlyphDrawn(img, data, charHeight, b)
    {
      characters[a] := Some(FontChar(Rect(xoff, yoff, xoff + GlyphWidth, yoff + charHeight), GlyphWidth, charHeight));
      label before:
      i := DrawGlyph(img, data, charHeight, a, xoff, yoff, i);
      forall b | 0 <= b < a
        ensures GlyphDrawn(img, data, charHeight, b)
      {
        assert old@before(GlyphDrawn(img, data, charHeight, b));
        forall row, p | 0 <= row < charHeight && 0 <= p < GlyphWidth
          ensures img[CellX(b) + p, CellY(b, charHeight) + row] == GlyphPixel(data, charHeight, b, row, p)
        {
          CellsDisjoint(b, a, charHeight, row, p);
        }
      }
      NextCell(a, charHeight);
      xoff := xoff + GlyphWidth;
      if xoff >= ImageSize {
        xoff := 0;
        yoff := yoff + charHeight;
      }
      a := a + 1;
    }
  }

  class SFont {
    /** One slot per character code; empty until a loader fills it. */
    var characters: array<Option<FontChar>>
    var lineHeight: int
    var spacing: int
    /** The image the loader hands to the font's texture. */
    var image: array2<Rgba>

    ghost predicate Valid()
      reads this
    {
      characters.Length == 256
    }

    constructor ()
      ensures Valid() && fresh(characters)
      ensures forall a :: 0 <= a < 256 ==> characters[a] == None
    {
      characters := new Option<FontChar>[256](_ => None);
      lineHeight := 0;
      spacing := 0;
      image := new Rgba[0, 0];
    }

    /** Loads a monochrome VGA font: 256 glyphs of 8 x (|data| / 256) pixels,
        one byte per glyph row, most significant bit leftmost. Fails, changing
        nothing, on empty data or data whose size is not a multiple of 256. */
    method LoadFontM(data: seq<byte>) returns (ok: bool)
      requires Valid()
      requires |data| <= 256 * 32
      modifies this, characters
      ensures Valid() && characters == old(characters)
      ensures ok <==> |data| != 0 && |data| % 256 == 0
      ensures !ok ==> unchanged(this) && unchanged(characters)
      ensures ok ==> lineHeight == |data| / 256 + 1 && spacing == 1
      ensures ok ==> forall a :: 0 <= a < 256 ==>
        characters[a] == Some(FontChar(CellBounds(a, |data| / 256), GlyphWidth, |data| / 256))
      ensures ok ==> fresh(image) && image.Length0 == ImageSize && image.Length1 == ImageSize
      ensures ok ==> forall a :: 0 <= a < 256 ==> GlyphDrawn(image, data, |data| / 256, a)
    {
      if |data| == 0 || |data| % 256 != 0 {
        return false;
      }
      var charHeight := |data| / 256;
      var img := new Rgba[ImageSize, ImageSize]((x, y) => Rgba(0, 0, 0, 0));
      DrawGlyphs(characters, img, data, charHeight);
      lineHeight := charHeight + 1;
      spacing := 1;
      image := img;
      ok := true;
    }

    /** Doom alpha HUFONT fonts are not supported yet. */
    method LoadFont0(data: seq<byte>) returns (ok: bool)
      ensures !ok
    {
      ok := false;
    }

    /** ZDoom FON1 fonts are not supported yet. */
    method LoadFont1(data: seq<byte>) returns (ok: bool)
      ensures !ok
    {
      ok := false;
    }

    /** ZDoom FON2 fonts are not supported yet. */
    method LoadFont2(data: seq<byte>) returns (ok: bool)
      ensures !ok
    {
      ok := false;
    }

    /** BMF fonts are not supported yet. */
    method LoadBMF(data: seq<byte>) returns (ok: bool)
      ensures !ok
    {
      ok := false;
    }

    /** How far the pen moves for character code [c]: the glyph's width plus
        the spacing, or the spacing alone for an empty slot. */
    function Advance(c: byte): int
      requires Valid()
      reads this, characters
    {
      match characters[c]
      case Some(ch) => ch.width + spacing
      case None => spacing
    }

    /** The sum of the advances of the characters of [s]. */
    function TotalWidth(s: seq<byte>): int
      requires Valid()
      reads this, characters
    {
      if s == [] then 0 else TotalWidth(s[..|s| - 1]) + Advance(s[|s| - 1])
    }

    /** The total-width loop of drawString. */
    method StringWidth(s: seq<byte>) returns (total: int)
      requires Valid()
      ensures total == TotalWidth(s)
    {
      total := 0;
      var a := 0;
      while a < |s|
        invariant 0 <= a <= |s|
        invariant total == TotalWidth(s[..a])
      {
        assert s[..a + 1][..a] == s[..a];
        var ch := characters[s[a]];
        if ch.Some? {
          total := total + ch.value.width + spacing;
        } else {
          total := total + spacing;
        }
        a := a + 1;
      }
      assert s[..a] == s;
    }

    /** When every slot holds a glyph of width [w], a string is w + spacing
        pixels wide per character. */
    lemma {:induction false} UniformWidth(s: seq<byte>, w: int)
      requires Valid()
      requires forall a :: 0 <= a < 256 ==> characters[a].Some? && characters[a].value.width == w
      ensures TotalWidth(s) == (w + spacing) * |s|
    {
      if s != [] {
        UniformWidth(s[..|s| - 1], w);
      }
    }
  }

  /** After a successful monochrome load every character advances the pen by
      nine pixels: eight for the glyph and one of spacing. */
  method LoadedStringWidth(data: seq<byte>, s: seq<byte>) returns (ok: bool, width: int)
    requires |data| <= 256 * 32
    ensures ok <==> |data| != 0 && |data| % 256 == 0
    ensures ok ==> width == 9 * |s|
  {
    var font := new SFont();
    ok := font.LoadFontM(data);
    width := font.StringWidth(s);
    if ok {
      font.UniformWidth(s, GlyphWidth);
    }
  }
}

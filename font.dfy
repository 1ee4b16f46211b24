/**
 * Glyph metrics and the font cache (src/font.cpp, include/font.hpp).
 *
 * A font holds one `Character` record per printable ASCII code, 32 through
 * 126. FreeType and the GL texture allocator are outside the model: what
 * they answer is given to the loader as a `Rasterizer` value.
 */
module Fonts {
  import opened Wrappers

  /** `CHARS_START` and `CHARS_LEN`: the table covers codes 32 .. 32 + 95 - 1 = 126. */
  const CHARS_START: int := 32
  const CHARS_LEN: int := 95

  /** The default `fontQuality` of the constructor and `fontSize` of `calculateTextWidth`. */
  const DEFAULT_FONT_QUALITY: nat := 48
  const DEFAULT_FONT_SIZE: nat := 14

  const UINT32_MODULUS: int := 0x1_0000_0000

  /** `unsigned int`. */
  type uint32 = x: int | 0 <= x < UINT32_MODULUS

  /** `glm::ivec2`. */
  datatype IVec2 = IVec2(x: int, y: int)

  /** The `Character` record: texture id, bitmap size, bearing and advance, in pixels. */
  datatype Character = Character(textureID: uint32, size: IVec2, bearing: IVec2, advance: uint32)

  /** The fixed-size `_characters[CHARS_LEN]` array of a font. */
  type GlyphTable = t: seq<Character> | |t| == CHARS_LEN
    witness seq(CHARS_LEN, _ => Character(0, IVec2(0, 0), IVec2(0, 0), 0))

  /** An `FT_Face` pointer, kept only to be copied along with the font. */
  type FaceHandle = nat

  /** A `Font` value: copies share the face and the texture ids. */
  datatype Font = Font(face: FaceHandle, characters: GlyphTable)

  /** The table slot `getCharInfo` reads: `c - 32`, with space standing in for every code outside 32..126. */
  function GlyphIndex(c: char): (k: nat)
    ensures k < CHARS_LEN
    ensures CHARS_START <= c as int <= 126 ==> k == c as int - CHARS_START
    ensures !(CHARS_START <= c as int <= 126) ==> k == ' ' as int - CHARS_START
  {
    var code := if c as int < 32 || c as int > 126 then 32 else c as int;
    code - CHARS_START
  }

  /** `Font::getCharInfo`. */
  function GetCharInfo(f: Font, c: char): (ch: Character)
    ensures ch == f.characters[GlyphIndex(c)]
  {
    f.characters[GlyphIndex(c)]
  }

  /** Every printable character has its own slot, and the slots are exactly 0..94. */
  lemma GlyphIndexBijective(c: char, d: char, k: nat)
    requires CHARS_START <= c as int <= 126 && CHARS_START <= d as int <= 126
    requires k < CHARS_LEN
    ensures GlyphIndex(c) == GlyphIndex(d) <==> c == d
    ensures GlyphIndex((CHARS_START + k) as char) == k
  {
  }

  /** Non-printable characters are measured and drawn as a space. */
  lemma NonPrintableIsSpace(f: Font, c: char)
    requires c as int < CHARS_START || 126 < c as int
    ensures GetCharInfo(f, c) == GetCharInfo(f, ' ')
  {
  }

  /** The exact sum of the advances of the characters of `s`. */
  function TextWidth(f: Font, s: string): nat
  {
    if s == [] then 0 else TextWidth(f, s[..|s| - 1]) + GetCharInfo(f, s[|s| - 1]).advance
  }

  /** What `calculateTextWidth` returns: the sum kept in an `unsigned int`, which wraps. */
  function WrappedTextWidth(f: Font, s: string): (w: uint32)
    ensures TextWidth(f, s) < UINT32_MODULUS ==> w == TextWidth(f, s)
  {
    TextWidth(f, s) % UINT32_MODULUS
  }

  /**
   * `Font::calculateTextWidth`: adds the advance of every character, in
   * unsigned 32-bit arithmetic. `fontSize` is accepted and ignored, so the
   * result is the same for every size.
   */
  method CalculateTextWidth(f: Font, text: string, fontSize: uint32 := DEFAULT_FONT_SIZE) returns (width: uint32)
    ensures width == WrappedTextWidth(f, text)
    ensures TextWidth(f, text) < UINT32_MODULUS ==> width == TextWidth(f, text)
  {
    width := 0;
    for k := 0 to |text|
      invariant width == TextWidth(f, text[..k]) % UINT32_MODULUS
    {
      assert text[..k + 1][..k] == text[..k];
      width := (width + GetCharInfo(f, text[k]).advance) % UINT32_MODULUS;
    }
    assert text[..|text|] == text;
  }

  lemma TextWidthEmpty(f: Font)
    ensures TextWidth(f, "") == 0
  {
  }

  /** Width is additive over concatenation: measuring in pieces gives the same total. */
  lemma {:induction false} TextWidthAppend(f: Font, s: string, t: string)
    ensures TextWidth(f, s + t) == TextWidth(f, s) + TextWidth(f, t)
  {
    if t == [] {
      assert s + t == s;
    } else {
      var t' := t[..|t| - 1];
      assert (s + t)[..|s + t| - 1] == s + t';
      assert (s + t)[|s + t| - 1] == t[|t| - 1];
      TextWidthAppend(f, s, t');
    }
  }

  /** A single character is as wide as its advance. */
  lemma TextWidthSingle(f: Font, c: char)
    ensures TextWidth(f, [c]) == GetCharInfo(f, c).advance
  {
    assert [c][..0] == [];
  }

  /**
   * The advance stored for a glyph: FreeType's 26.6 fixed-point
   * `advance.x`, converted to `unsigned int` and shifted right by 6.
   * Dafny's `%` is Euclidean, so `% 2^32` is exactly the conversion.
   */
  function AdvanceFromFixed(advanceX: int): (a: uint32)
    ensures 0 <= advanceX < UINT32_MODULUS ==> a * 64 <= advanceX < a * 64 + 64
  {
    (advanceX % UINT32_MODULUS) / 64
  }

  /** What FreeType reports for one rendered glyph. */
  datatype FtGlyph = FtGlyph(bitmapWidth: int, bitmapRows: int, bitmapLeft: int, bitmapTop: int, advanceX: int)

  /**
   * The answers of the collaborators the loader calls: `FT_New_Face` for
   * a path, `FT_Load_Char` for a face, pixel height and character code
   * (None when it fails), and the id `glGenTextures` hands out for that
   * glyph's texture.
   */
  datatype Rasterizer = Rasterizer(
    newFace: string -> Result<FaceHandle, string>,
    loadChar: (FaceHandle, nat, int) -> Option<FtGlyph>,
    genTexture: (FaceHandle, int) -> uint32)

  /** The `Character` built from a loaded glyph. */
  function CharacterFrom(g: FtGlyph, texture: uint32): (ch: Character)
    ensures ch.textureID == texture && ch.advance == AdvanceFromFixed(g.advanceX)
    ensures ch.size == IVec2(g.bitmapWidth, g.bitmapRows) && ch.bearing == IVec2(g.bitmapLeft, g.bitmapTop)
  {
    Character(texture, IVec2(g.bitmapWidth, g.bitmapRows), IVec2(g.bitmapLeft, g.bitmapTop), AdvanceFromFixed(g.advanceX))
  }

  /** The entry the loader writes for code `CHARS_START + i`, if the glyph loads. */
  function LoadedGlyph(rz: Rasterizer, face: FaceHandle, fontQuality: nat, i: nat): Option<Character>
  {
    match rz.loadChar(face, fontQuality, CHARS_START + i)
    case None => None
    case Some(g) => Some(CharacterFrom(g, rz.genTexture(face, CHARS_START + i)))
  }

  /**
   * The glyph loop of the `Font` constructor: every code 32..126 is
   * loaded in turn; a glyph that fails is skipped (its slot keeps whatever
   * the uninitialised array held) and the loop goes on with the next.
   */
  method RasterizeGlyphs(rz: Rasterizer, face: FaceHandle, fontQuality: nat) returns (table: GlyphTable)
    ensures forall i :: 0 <= i < CHARS_LEN && LoadedGlyph(rz, face, fontQuality, i).Some? ==>
      table[i] == LoadedGlyph(rz, face, fontQuality, i).value
  {
    var characters := new Character[CHARS_LEN];
    for i := 0 to CHARS_LEN
      invariant forall j :: 0 <= j < i && LoadedGlyph(rz, face, fontQuality, j).Some? ==>
        characters[j] == LoadedGlyph(rz, face, fontQuality, j).value
    {
      var loaded := rz.loadChar(face, fontQuality, CHARS_START + i);
      if loaded.None? {
        continue;
      }
      var texture := rz.genTexture(face, CHARS_START + i);
      characters[i] := CharacterFrom(loaded.value, texture);
    }
    table := characters[..];
  }

  /** The process-wide `loadedFonts` map, keyed by font file path. */
  class FontCache {
    var loadedFonts: map<string, Font>

    constructor ()
      ensures loadedFonts == map[]
    {
      loadedFonts := map[];
    }

    /**
     * `Font::Font(ttfPath, fontQuality = 48)`. A path already in the cache
     * yields a copy of the cached font and loads nothing. Otherwise the
     * face is opened; if that fails the constructor throws before the
     * cache is touched; if it succeeds the glyphs are loaded and the new
     * font is stored under its path.
     */
    method LoadFont(rz: Rasterizer, ttfPath: string, fontQuality: nat := DEFAULT_FONT_QUALITY) returns (r: Result<Font, string>)
      modifies this
      ensures ttfPath in old(loadedFonts) ==> r == Ok(old(loadedFonts)[ttfPath]) && loadedFonts == old(loadedFonts)
      ensures ttfPath !in old(loadedFonts) && rz.newFace(ttfPath).Err? ==>
        r == Err(rz.newFace(ttfPath).error) && loadedFonts == old(loadedFonts)
      ensures ttfPath !in old(loadedFonts) && rz.newFace(ttfPath).Ok? ==>
        && r.Ok?
        && r.value.face == rz.newFace(ttfPath).value
        && loadedFonts == old(loadedFonts)[ttfPath := r.value]
        && forall i :: 0 <= i < CHARS_LEN && LoadedGlyph(rz, r.value.face, fontQuality, i).Some? ==>
             r.value.characters[i] == LoadedGlyph(rz, r.value.face, fontQuality, i).value
    {
      if ttfPath in loadedFonts {
        return Ok(loadedFonts[ttfPath]);
      }
      var faceResult := rz.newFace(ttfPath);
      if faceResult.Err? {
        return Err(faceResult.error);
      }
      var table := RasterizeGlyphs(rz, faceResult.value, fontQuality);
      var font := Font(faceResult.value, table);
      loadedFonts := loadedFonts[ttfPath := font];
      r := Ok(font);
    }
  }
}

/**
 * Text rendering (src/text.cpp): the module-wide initialisation flag, the
 * `Text` object with its setters, and the word-wrapping loop of
 * `Text::draw`, which walks the string once, moving a pen and emitting one
 * glyph placement per non-space character.
 *
 * The GL work of `draw` (uniforms, texture binding, the model matrix and
 * the draw call) is replaced by appending a `Placement` record to the
 * result: the glyph's texture, its computed top-left corner and its scaled
 * size. The font-wide values `fontHeight`, `maxCharHeight` and
 * `maxCharUnderflow` are given as a `FontMetrics` parameter.
 */
module TextLayout {
  import opened Geometry
  import opened Wrappers
  import opened Fonts

  /** `TextAlignment`: stored by the setter and never read by `draw`. */
  datatype TextAlignment = Left | Right | Center | Justified

  /** The font-wide metrics `draw` asks the font for. */
  datatype FontMetrics = FontMetrics(fontHeight: real, maxCharHeight: real, maxCharUnderflow: real)

  /**
   * Everything `Text::draw` reads, with the two values it derives from
   * the font first: `scale = fontSize / fontHeight` and
   * `fontOffsetY = maxCharHeight - maxCharUnderflow`.
   */
  datatype Layout = Layout(
    text: string,
    font: Font,
    fontSize: real,
    scale: real,
    topLeft: Vec2,
    renderWidth: real,
    lineHeight: real,
    fontOffsetY: real)

  /** One glyph `draw` renders: where its quad goes and how large it is. */
  datatype Placement = Placement(index: nat, textureID: uint32, xpos: real, ypos: real, width: real, height: real)

  /** The pen: current position and whether the next letter starts a word. */
  datatype Pen = Pen(x: real, y: real, startOfWord: bool)

  /**
   * `n * s` for a whole number `n`, written as `n` additions of `s`. The
   * layout scales integer pixel metrics this way so that unfolding it
   * stays within linear arithmetic; `MultipleIsProduct` shows it is the
   * product.
   */
  function Multiple(n: nat, s: real): real
  {
    if n == 0 then 0.0 else Multiple(n - 1, s) + s
  }

  /** `n * s` for a signed whole number `n`. */
  function SignedMultiple(n: int, s: real): real
  {
    if n < 0 then -Multiple(-n, s) else Multiple(n, s)
  }

  lemma {:induction false} MultipleIsProduct(n: nat, s: real)
    ensures Multiple(n, s) == n as real * s
  {
    if n > 0 {
      MultipleIsProduct(n - 1, s);
      assert (n - 1) as real * s + s == n as real * s;
    }
  }

  lemma SignedMultipleIsProduct(n: int, s: real)
    ensures SignedMultiple(n, s) == n as real * s
  {
    MultipleIsProduct(if n < 0 then -n else n, s);
  }

  lemma {:induction false} MultipleAdds(a: nat, b: nat, s: real)
    ensures Multiple(a + b, s) == Multiple(a, s) + Multiple(b, s)
    decreases b
  {
    if b > 0 {
      MultipleAdds(a, b - 1, s);
    }
  }

  /** At a scale in [0, 1] a width never grows and never turns negative. */
  lemma {:induction false} MultipleWithinUnitScale(n: nat, s: real)
    requires 0.0 <= s <= 1.0
    ensures 0.0 <= Multiple(n, s) <= n as real
  {
    if n > 0 {
      MultipleWithinUnitScale(n - 1, s);
    }
  }

  lemma {:induction false} MultipleNonNegative(n: nat, s: real)
    requires 0.0 <= s
    ensures 0.0 <= Multiple(n, s)
  {
    if n > 0 {
      MultipleNonNegative(n - 1, s);
    }
  }

  /** `fontSize * lineHeight`: how far down a line break moves the pen. */
  function LineAdvance(p: Layout): real
  {
    p.fontSize * p.lineHeight
  }

  /** A character's advance, scaled to the requested size. */
  function ScaledAdvance(p: Layout, c: char): real
  {
    Multiple(GetCharInfo(p.font, c).advance, p.scale)
  }

  function StartPen(p: Layout): Pen
  {
    Pen(p.topLeft.x, p.topLeft.y, true)
  }

  /** `text.find(' ', i)`, with "not found" replaced by the length of the text. */
  function NextSpace(s: string, i: nat): (j: nat)
    requires i <= |s|
    ensures i <= j <= |s|
    ensures j < |s| ==> s[j] == ' '
    ensures forall k :: i <= k < j ==> s[k] != ' '
    decreases |s| - i
  {
    if i == |s| || s[i] == ' ' then i else NextSpace(s, i + 1)
  }

  /** The word that starts at `i`: up to the next space or the end. */
  function WordAt(s: string, i: nat): string
    requires i <= |s|
  {
    s[i..NextSpace(s, i)]
  }

  /** The summed advances of the word that starts at `i`, measured letter by letter. */
  function WordWidth(f: Font, s: string, i: nat): nat
    requires i <= |s|
    decreases |s| - i
  {
    if i == |s| || s[i] == ' ' then 0 else GetCharInfo(f, s[i]).advance + WordWidth(f, s, i + 1)
  }

  /** The width the lookahead compares: `calculateTextWidth` of the word, an `unsigned int`. */
  function LookaheadWidth(p: Layout, i: nat): uint32
    requires i <= |p.text|
  {
    WordWidth(p.font, p.text, i) % UINT32_MODULUS
  }

  /**
   * Whether `draw` moves to a new line before the non-space character at
   * `i`, given the pen before it. The first letter of a word (other than
   * at index 0) is checked with the width of the whole word; any other
   * letter (other than at index 0) with its own scaled advance.
   */
  predicate BreaksBefore(p: Layout, i: nat, pen: Pen)
    requires i < |p.text|
  {
    if pen.startOfWord && i != 0 then
      -p.topLeft.x + pen.x + LookaheadWidth(p, i) as real > p.renderWidth
    else
      i != 0 && -p.topLeft.x + pen.x + ScaledAdvance(p, p.text[i]) > p.renderWidth
  }

  /** The pen after the possible line break before the character at `i`. */
  function LinePen(p: Layout, i: nat, pen: Pen): Pen
    requires i < |p.text|
  {
    if BreaksBefore(p, i, pen) then Pen(p.topLeft.x, pen.y + LineAdvance(p), pen.startOfWord) else pen
  }

  /** The placement of the glyph at `i`, drawn with the pen at `pen`. */
  function Place(p: Layout, i: nat, pen: Pen): Placement
    requires i < |p.text|
  {
    var ch := GetCharInfo(p.font, p.text[i]);
    Placement(
      i,
      ch.textureID,
      pen.x + SignedMultiple(ch.bearing.x, p.scale),
      pen.y + (p.fontOffsetY - ch.bearing.y as real) * p.scale,
      SignedMultiple(ch.size.x, p.scale),
      SignedMultiple(ch.size.y, p.scale))
  }

  /** One iteration of the loop: the pen after the character at `i`. */
  function Step(p: Layout, i: nat, pen: Pen): Pen
    requires i < |p.text|
  {
    if p.text[i] == ' ' then
      Pen(pen.x + ScaledAdvance(p, ' '), pen.y, true)
    else
      var lp := LinePen(p, i, pen);
      Pen(lp.x + ScaledAdvance(p, p.text[i]), lp.y, false)
  }

  /** The pen after the first `n` characters. */
  function PenAfter(p: Layout, n: nat): Pen
    requires n <= |p.text|
  {
    if n == 0 then StartPen(p) else Step(p, n - 1, PenAfter(p, n - 1))
  }

  /** Whether a line break happens before the character at `i`. */
  predicate BreakAt(p: Layout, i: nat)
    requires i < |p.text|
  {
    p.text[i] != ' ' && BreaksBefore(p, i, PenAfter(p, i))
  }

  /** The glyphs drawn for the first `n` characters, in order. */
  function PlacementsUpTo(p: Layout, n: nat): seq<Placement>
    requires n <= |p.text|
  {
    if n == 0 then []
    else if p.text[n - 1] == ' ' then PlacementsUpTo(p, n - 1)
    else PlacementsUpTo(p, n - 1) + [Place(p, n - 1, LinePen(p, n - 1, PenAfter(p, n - 1)))]
  }

  /** Everything one call of `draw` renders. */
  function Placements(p: Layout): seq<Placement>
  {
    PlacementsUpTo(p, |p.text|)
  }

  /** The number of line breaks among the first `n` characters. */
  function BreakCount(p: Layout, n: nat): nat
    requires n <= |p.text|
  {
    if n == 0 then 0 else BreakCount(p, n - 1) + (if BreakAt(p, n - 1) then 1 else 0)
  }

  /**
   * `pl` holds exactly the non-space characters among the first `n` of
   * `s`, each once, in text order: it never names a space, its indices
   * strictly increase, and every non-space index below `n` appears.
   */
  predicate NonSpacesInOrder(s: string, pl: seq<Placement>, n: nat)
    requires n <= |s|
  {
    && (forall k :: 0 <= k < |pl| ==> pl[k].index < n && s[pl[k].index] != ' ')
    && (forall k, l :: 0 <= k < l < |pl| ==> pl[k].index < pl[l].index)
    && (forall j :: 0 <= j < n && s[j] != ' ' ==> exists k :: 0 <= k < |pl| && pl[k].index == j)
  }

  /** Every non-space character is placed exactly once and in text order; no space is ever drawn. */
  lemma {:induction false} PlacementsAreNonSpacesInOrder(p: Layout, n: nat)
    requires n <= |p.text|
    ensures NonSpacesInOrder(p.text, PlacementsUpTo(p, n), n)
  {
    if n > 0 {
      PlacementsAreNonSpacesInOrder(p, n - 1);
      if p.text[n - 1] == ' ' {
        SkipSpaceKeepsOrder(p.text, PlacementsUpTo(p, n - 1), n);
      } else {
        var x := Place(p, n - 1, LinePen(p, n - 1, PenAfter(p, n - 1)));
        AppendKeepsOrder(p.text, PlacementsUpTo(p, n - 1), x, n);
      }
    }
  }

  lemma SkipSpaceKeepsOrder(s: string, pl: seq<Placement>, n: nat)
    requires 0 < n <= |s| && s[n - 1] == ' '
    requires NonSpacesInOrder(s, pl, n - 1)
    ensures NonSpacesInOrder(s, pl, n)
  {
  }

  lemma AppendKeepsOrder(s: string, pl: seq<Placement>, x: Placement, n: nat)
    requires 0 < n <= |s| && s[n - 1] != ' ' && x.index == n - 1
    requires NonSpacesInOrder(s, pl, n - 1)
    ensures NonSpacesInOrder(s, pl + [x], n)
  {
    var pl' := pl + [x];
    forall j | 0 <= j < n && s[j] != ' '
      ensures exists k :: 0 <= k < |pl'| && pl'[k].index == j
    {
      if j == n - 1 {
        assert pl'[|pl|].index == j;
      } else {
        var k :| 0 <= k < |pl| && pl[k].index == j;
        assert pl'[k] == pl[k];
      }
    }
  }

  /** Each drawn glyph is placed with the pen as it stood after the possible line break before it. */
  lemma {:induction false} PlacementsAtPen(p: Layout, n: nat)
    requires n <= |p.text|
    ensures forall k :: 0 <= k < |PlacementsUpTo(p, n)| ==>
      && PlacementsUpTo(p, n)[k].index < n
      && PlacementsUpTo(p, n)[k] == Place(p, PlacementsUpTo(p, n)[k].index, LinePen(p, PlacementsUpTo(p, n)[k].index, PenAfter(p, PlacementsUpTo(p, n)[k].index)))
  {
    if n > 0 {
      PlacementsAtPen(p, n - 1);
      if p.text[n - 1] != ' ' {
        GlyphExtendsPrefix(p, n - 1);
      }
    }
  }

  /**
   * Where a glyph goes, given the pen: `xpos = x + bearing.x * scale`,
   * `ypos = y + (fontOffsetY - bearing.y) * scale`, and its quad is the
   * bitmap size times `scale`.
   */
  lemma GlyphPlacement(p: Layout, i: nat, pen: Pen)
    requires i < |p.text|
    ensures var pl, ch := Place(p, i, pen), GetCharInfo(p.font, p.text[i]);
      && pl.index == i
      && pl.textureID == ch.textureID
      && pl.xpos == pen.x + ch.bearing.x as real * p.scale
      && pl.ypos == pen.y + (p.fontOffsetY - ch.bearing.y as real) * p.scale
      && pl.width == ch.size.x as real * p.scale
      && pl.height == ch.size.y as real * p.scale
  {
    var ch := GetCharInfo(p.font, p.text[i]);
    SignedMultipleIsProduct(ch.bearing.x, p.scale);
    SignedMultipleIsProduct(ch.size.x, p.scale);
    SignedMultipleIsProduct(ch.size.y, p.scale);
  }

  /** The glyph at index 0 never starts a new line, whatever the pen says. */
  lemma FirstCharacterNeverBreaks(p: Layout, pen: Pen)
    requires 0 < |p.text|
    ensures !BreaksBefore(p, 0, pen)
    ensures p.text[0] != ' ' ==>
      PlacementsUpTo(p, 1) == [Place(p, 0, StartPen(p))]
  {
  }

  /**
   * Spaces advance the pen by their scaled advance and mark the start of
   * a word; nothing else about the pen changes.
   */
  lemma SpaceOnlyAdvances(p: Layout, i: nat)
    requires i < |p.text| && p.text[i] == ' '
    ensures PenAfter(p, i + 1) == Pen(PenAfter(p, i).x + ScaledAdvance(p, ' '), PenAfter(p, i).y, true)
    ensures PlacementsUpTo(p, i + 1) == PlacementsUpTo(p, i)
  {
  }

  /** A non-space character adds its glyph, placed with the pen after the possible break. */
  lemma GlyphExtendsPrefix(p: Layout, i: nat)
    requires i < |p.text| && p.text[i] != ' '
    ensures PenAfter(p, i + 1) == Step(p, i, PenAfter(p, i))
    ensures PlacementsUpTo(p, i + 1) == PlacementsUpTo(p, i) + [Place(p, i, LinePen(p, i, PenAfter(p, i)))]
  {
  }

  /**
   * Around a non-space character: a line break puts the pen back at the
   * left edge and exactly one line down; without one `y` is untouched;
   * either way the pen then moves right by the glyph's scaled advance.
   */
  lemma GlyphStep(p: Layout, i: nat)
    requires i < |p.text| && p.text[i] != ' '
    ensures var before, after := PenAfter(p, i), PenAfter(p, i + 1);
      && !after.startOfWord
      && (BreakAt(p, i) ==> after.x == p.topLeft.x + ScaledAdvance(p, p.text[i]) && after.y == before.y + LineAdvance(p))
      && (!BreakAt(p, i) ==> after.x == before.x + ScaledAdvance(p, p.text[i]) && after.y == before.y)
  {
  }

  /** `startOfWord` is set exactly at the start of the text and right after a space. */
  lemma StartOfWordAfterSpace(p: Layout, i: nat)
    requires i <= |p.text|
    ensures PenAfter(p, i).startOfWord <==> i == 0 || p.text[i - 1] == ' '
  {
  }

  /**
   * The whole-word lookahead is done exactly for the first letter of each
   * word that follows a space, and it measures `text[i..j)` with `j` the
   * next space or the end: a non-empty run of non-space characters.
   */
  lemma LookaheadWord(p: Layout, i: nat)
    requires 0 < i < |p.text| && p.text[i] != ' '
    ensures PenAfter(p, i).startOfWord <==> p.text[i - 1] == ' '
    ensures var j := NextSpace(p.text, i);
      && WordAt(p.text, i) == p.text[i..j]
      && i < j && (j == |p.text| || p.text[j] == ' ')
      && forall k :: 0 <= k < |WordAt(p.text, i)| ==> WordAt(p.text, i)[k] != ' '
  {
    StartOfWordAfterSpace(p, i);
  }

  /** The pen's `y` is the top edge plus one line advance per line break so far. */
  lemma {:induction false} PenYCountsBreaks(p: Layout, n: nat)
    requires n <= |p.text|
    ensures PenAfter(p, n).y == p.topLeft.y + Multiple(BreakCount(p, n), LineAdvance(p))
    ensures BreakCount(p, n) <= n
  {
    if n > 0 {
      PenYCountsBreaks(p, n - 1);
    }
  }

  /** With a non-negative line advance the pen never moves up. */
  lemma {:induction false} PenYMonotone(p: Layout, m: nat, n: nat)
    requires m <= n <= |p.text|
    requires 0.0 <= LineAdvance(p)
    ensures PenAfter(p, m).y <= PenAfter(p, n).y
    decreases n - m
  {
    if m < n {
      PenYMonotone(p, m, n - 1);
    }
  }

  /** With a non-negative scale the pen never moves left of the left edge. */
  lemma {:induction false} PenXNotLeftOfEdge(p: Layout, n: nat)
    requires n <= |p.text|
    requires 0.0 <= p.scale
    ensures p.topLeft.x <= PenAfter(p, n).x
  {
    if n > 0 {
      PenXNotLeftOfEdge(p, n - 1);
      MultipleNonNegative(GetCharInfo(p.font, p.text[n - 1]).advance, p.scale);
    }
  }

  /**
   * A letter inside a word either ends within the render width or starts
   * a new line: only the first letter of a word, which is checked with
   * the width of the whole word instead, can stick out.
   */
  lemma MidWordGlyphFits(p: Layout, i: nat)
    requires 0 < i < |p.text| && p.text[i] != ' '
    requires !PenAfter(p, i).startOfWord
    ensures var after := PenAfter(p, i + 1);
      -p.topLeft.x + after.x <= p.renderWidth || after.x == p.topLeft.x + ScaledAdvance(p, p.text[i])
  {
  }

  /** Measuring a word from the back: the prefix up to `k + 1` adds the advance of `s[k]`. */
  lemma TextWidthExtend(f: Font, s: string, i: nat, k: nat)
    requires i <= k < |s|
    ensures TextWidth(f, s[i..k + 1]) == TextWidth(f, s[i..k]) + GetCharInfo(f, s[k]).advance
  {
    assert s[i..k + 1][..k - i] == s[i..k];
  }

  /** Up to the end of a word, its width is the width of the letters so far plus that of the rest. */
  lemma {:induction false} WordWidthSplits(f: Font, s: string, i: nat, k: nat)
    requires i <= |s| && i <= k <= NextSpace(s, i)
    ensures WordWidth(f, s, i) == TextWidth(f, s[i..k]) + WordWidth(f, s, k)
  {
    if k == i {
      assert s[i..k] == [];
    } else {
      WordWidthSplits(f, s, i, k - 1);
      TextWidthExtend(f, s, i, k - 1);
      assert s[k - 1] != ' ';
      assert WordWidth(f, s, k - 1) == GetCharInfo(f, s[k - 1]).advance + WordWidth(f, s, k);
    }
  }

  /**
   * The lookahead measures exactly the word `text[i..j)` up to the next
   * space, as `calculateTextWidth` sums it, wrap-around included.
   */
  lemma LookaheadMeasuresWord(p: Layout, i: nat)
    requires i <= |p.text|
    ensures LookaheadWidth(p, i) == WrappedTextWidth(p.font, WordAt(p.text, i))
    ensures WordWidth(p.font, p.text, i) == TextWidth(p.font, WordAt(p.text, i))
  {
    WordWidthSplits(p.font, p.text, i, NextSpace(p.text, i));
  }

  /** A passed lookahead at the first letter of a word bounds the unscaled word width. */
  lemma LookaheadBound(p: Layout, i: nat)
    requires 0 < i < |p.text| && p.text[i - 1] == ' ' && p.text[i] != ' '
    requires WordWidth(p.font, p.text, i) < UINT32_MODULUS
    requires !BreaksBefore(p, i, PenAfter(p, i))
    ensures -p.topLeft.x + PenAfter(p, i).x + WordWidth(p.font, p.text, i) as real <= p.renderWidth
  {
    StartOfWordAfterSpace(p, i);
  }

  /** Without a break, a letter moves the pen right by its scaled advance and clears `startOfWord`. */
  lemma NoBreakStep(p: Layout, k: nat, pen: Pen)
    requires k < |p.text| && p.text[k] != ' '
    requires !BreaksBefore(p, k, pen)
    ensures Step(p, k, pen) == Pen(pen.x + ScaledAdvance(p, p.text[k]), pen.y, false)
  {
  }

  /**
   * Inside a word whose lookahead passed, the pen is the word's start plus
   * the scaled width of the letters so far, and the letter at `k` has not
   * broken the line.
   */
  lemma {:induction false} PenInsideFittingWord(p: Layout, i: nat, k: nat)
    requires 0.0 <= p.scale <= 1.0
    requires 0 < i < |p.text| && p.text[i - 1] == ' ' && p.text[i] != ' '
    requires WordWidth(p.font, p.text, i) < UINT32_MODULUS
    requires !BreaksBefore(p, i, PenAfter(p, i))
    requires i <= k < NextSpace(p.text, i)
    ensures PenAfter(p, k + 1).x == PenAfter(p, i).x + Multiple(TextWidth(p.font, p.text[i..k + 1]), p.scale)
    ensures !PenAfter(p, k + 1).startOfWord
    ensures !BreaksBefore(p, k, PenAfter(p, k))
    decreases k - i
  {
    var x0 := PenAfter(p, i).x;
    var before := TextWidth(p.font, p.text[i..k]);
    TextWidthExtend(p.font, p.text, i, k);
    MultipleAdds(before, GetCharInfo(p.font, p.text[k]).advance, p.scale);
    if k == i {
      assert p.text[i..i] == [];
      NoBreakStep(p, i, PenAfter(p, i));
    } else {
      PenInsideFittingWord(p, i, k - 1);
      LookaheadBound(p, i);
      StepInsideWord(p, i, k, x0, PenAfter(p, k));
    }
  }

  /**
   * The step of `PenInsideFittingWord`: with the pen `x0` plus the scaled
   * width of the letters before `k`, the letter at `k` does not break the
   * line, given that the unscaled word fitted from `x0`.
   */
  lemma StepInsideWord(p: Layout, i: nat, k: nat, x0: real, pen: Pen)
    requires 0.0 <= p.scale <= 1.0
    requires 0 < i < |p.text| && i < k < NextSpace(p.text, i)
    requires -p.topLeft.x + x0 + WordWidth(p.font, p.text, i) as real <= p.renderWidth
    requires pen.x == x0 + Multiple(TextWidth(p.font, p.text[i..k]), p.scale) && !pen.startOfWord
    ensures !BreaksBefore(p, k, pen)
    ensures Step(p, k, pen) == Pen(pen.x + ScaledAdvance(p, p.text[k]), pen.y, false)
  {
    var adv := GetCharInfo(p.font, p.text[k]).advance;
    var before := TextWidth(p.font, p.text[i..k]);
    var upTo := TextWidth(p.font, p.text[i..k + 1]);
    TextWidthExtend(p.font, p.text, i, k);
    MultipleAdds(before, adv, p.scale);
    MultipleWithinUnitScale(upTo, p.scale);
    WordWidthSplits(p.font, p.text, i, k + 1);
  }

  /**
   * When glyphs are drawn at or below the rasterised height (scale at
   * most 1), a word whose whole-word lookahead passed is never broken in
   * the middle: the unscaled width the lookahead measures bounds the
   * scaled widths the letters then use.
   */
  lemma WordPassingLookaheadStaysOnLine(p: Layout, i: nat)
    requires 0.0 <= p.scale <= 1.0
    requires 0 < i < |p.text| && p.text[i - 1] == ' ' && p.text[i] != ' '
    requires WordWidth(p.font, p.text, i) < UINT32_MODULUS
    requires !BreaksBefore(p, i, PenAfter(p, i))
    ensures forall m :: i < m < NextSpace(p.text, i) ==> !BreakAt(p, m)
  {
    forall m | i < m < NextSpace(p.text, i)
      ensures !BreakAt(p, m)
    {
      PenInsideFittingWord(p, i, m);
    }
  }

  /** A font whose every glyph advances 10 pixels and has no size or bearing. */
  function EvenFont(): Font
  {
    Font(0, seq(CHARS_LEN, _ => Character(0, IVec2(0, 0), IVec2(0, 0), 10)))
  }

  /** `" ab"` at twice the rasterised height in a 50-pixel column. */
  function DoubleSizeLayout(): Layout
  {
    Layout(" ab", EvenFont(), 2.0, 2.0, Vec2(0.0, 0.0), 50.0, 1.0, 0.0)
  }

  /**
   * Above the rasterised height the lookahead under-measures: in
   * `DoubleSizeLayout` the word "ab" is 40 pixels wide once scaled and
   * would fit on a fresh line, yet it passes the lookahead (it is measured
   * as 20) and is then broken between its two letters.
   */
  lemma UnscaledLookaheadCanSplitWord()
    ensures var p := DoubleSizeLayout();
      && p.scale == 2.0
      && Multiple(WordWidth(p.font, p.text, 1), p.scale) <= p.renderWidth
      && !BreakAt(p, 1)
      && BreakAt(p, 2)
  {
    var p := DoubleSizeLayout();
    assert GetCharInfo(p.font, 'a').advance == 10 && GetCharInfo(p.font, 'b').advance == 10;
    assert GetCharInfo(p.font, ' ').advance == 10;
    MultipleIsProduct(10, 2.0);
    MultipleIsProduct(20, 2.0);
    assert WordWidth(p.font, p.text, 3) == 0;
    assert WordWidth(p.font, p.text, 2) == 10;
    assert WordWidth(p.font, p.text, 1) == 20;
    assert PenAfter(p, 1) == Pen(20.0, 0.0, true);
    assert PenAfter(p, 2) == Pen(40.0, 0.0, false);
  }

  /** The module-wide state of the text renderer: the `initialized` flag and the projection last set. */
  class TextModule {
    var initialized: bool
    /** The window size of the projection as last set by `init`/`onWindowResize`, if any. */
    var projection: Option<Vec2>

    constructor ()
      ensures !initialized && projection == None
    {
      initialized := false;
      projection := None;
    }

    /**
     * `TextModule::init`: a second call changes nothing; the first sets
     * the flag and then sets the projection for the window size. Both
     * report success.
     */
    method Init(rootPath: string, windowSize: Vec2) returns (ok: bool)
      modifies this
      ensures ok
      ensures initialized
      ensures old(initialized) ==> projection == old(projection)
      ensures !old(initialized) ==> projection == Some(windowSize)
    {
      if initialized {
        return true;
      }
      initialized := true;
      OnWindowResize(windowSize);
      return true;
    }

    /** `TextModule::terminate`: clears the flag; does nothing if it is already clear. */
    method Terminate()
      modifies this`initialized
      ensures !initialized
    {
      if !initialized {
        return;
      }
      initialized := false;
    }

    /** `TextModule::onWindowResize`: resets the projection, but only once initialised. */
    method OnWindowResize(windowSize: Vec2)
      modifies this`projection
      ensures initialized ==> projection == Some(windowSize)
      ensures !initialized ==> projection == old(projection)
    {
      if !initialized {
        return;
      }
      projection := Some(windowSize);
    }
  }

  /**
   * A `Text` object. The constructor sets only the string and the font;
   * the other fields are whatever they held.
   */
  class Text {
    var text: string
    var font: Font
    var fontSize: real
    var topLeft: Vec2
    var renderWidth: real
    var lineHeight: real
    var color: Vec4
    var alignment: TextAlignment

    constructor (text: string, font: Font)
      ensures this.text == text && this.font == font
    {
      this.text := text;
      this.font := font;
    }

    method SetText(text: string)
      modifies this`text
      ensures this.text == text
    {
      this.text := text;
    }

    method SetFont(font: Font)
      modifies this`font
      ensures this.font == font
    {
      this.font := font;
    }

    method SetFontSize(fontSize: real)
      modifies this`fontSize
      ensures this.fontSize == fontSize
    {
      this.fontSize := fontSize;
    }

    method SetTopLeft(topLeft: Vec2)
      modifies this`topLeft
      ensures this.topLeft == topLeft
    {
      this.topLeft := topLeft;
    }

    method SetRenderWidth(renderWidth: real)
      modifies this`renderWidth
      ensures this.renderWidth == renderWidth
    {
      this.renderWidth := renderWidth;
    }

    method SetLineHeight(lineHeight: real)
      modifies this`lineHeight
      ensures this.lineHeight == lineHeight
    {
      this.lineHeight := lineHeight;
    }

    method SetColor(color: Vec4)
      modifies this`color
      ensures this.color == color
    {
      this.color := color;
    }

    method SetAlignment(alignment: TextAlignment)
      modifies this`alignment
      ensures this.alignment == alignment
    {
      this.alignment := alignment;
    }

    /** What `draw` reads of this object, with the font's metrics. */
    function LayoutOf(metrics: FontMetrics): Layout
      requires metrics.fontHeight != 0.0
      reads this
    {
      Layout(text, font, fontSize, fontSize / metrics.fontHeight, topLeft, renderWidth, lineHeight,
        metrics.maxCharHeight - metrics.maxCharUnderflow)
    }

    /**
     * `Text::draw`: lays out the string with this object's settings and
     * the font's metrics. The colour and the alignment do not affect
     * where anything goes.
     */
    method Draw(metrics: FontMetrics) returns (placements: seq<Placement>)
      requires metrics.fontHeight != 0.0
      ensures placements == Placements(LayoutOf(metrics))
      ensures NonSpacesInOrder(text, placements, |text|)
    {
      var scale := fontSize / metrics.fontHeight;
      var fontOffsetY := metrics.maxCharHeight - metrics.maxCharUnderflow;
      placements := DrawGlyphs(Layout(text, font, fontSize, scale, topLeft, renderWidth, lineHeight, fontOffsetY));
    }
  }

  /**
   * The glyph loop of `Text::draw`: one pass over the string, moving the
   * pen and placing every non-space glyph.
   */
  method DrawGlyphs(p: Layout) returns (placements: seq<Placement>)
    ensures placements == Placements(p)
    ensures NonSpacesInOrder(p.text, placements, |p.text|)
  {
    var x := p.topLeft.x;
    var y := p.topLeft.y;
    var startOfWord := true;
    placements := [];
    var textSize := |p.text|;
    for i := 0 to textSize
      invariant Pen(x, y, startOfWord) == PenAfter(p, i)
      invariant placements == PlacementsUpTo(p, i)
    {
      var c := p.text[i];
      if c == ' ' {
        x := AdvancePast(p, x, c);
        startOfWord := true;
        SpaceOnlyAdvances(p, i);
        continue;
      }
      var placement;
      GlyphExtendsPrefix(p, i);
      x, y, placement := PlaceGlyph(p, i, x, y, startOfWord);
      startOfWord := false;
      placements := placements + [placement];
    }
    PlacementsAreNonSpacesInOrder(p, |p.text|);
  }

  /**
   * The body of the glyph loop for a non-space character: the line-break
   * decision, the glyph's placement, and the pen moved past it.
   */
  method PlaceGlyph(p: Layout, i: nat, x0: real, y0: real, startOfWord: bool) returns (x: real, y: real, placement: Placement)
    requires i < |p.text| && p.text[i] != ' '
    ensures placement == Place(p, i, LinePen(p, i, Pen(x0, y0, startOfWord)))
    ensures Pen(x, y, false) == Step(p, i, Pen(x0, y0, startOfWord))
  {
    x, y := BreakLine(p, i, x0, y0, startOfWord);
    var charData := GetCharInfo(p.font, p.text[i]);
    MultipleIsProduct(charData.advance, p.scale);
    SignedMultipleIsProduct(charData.bearing.x, p.scale);
    SignedMultipleIsProduct(charData.size.x, p.scale);
    SignedMultipleIsProduct(charData.size.y, p.scale);
    var xpos := x + charData.bearing.x as real * p.scale;
    var ypos := y + (p.fontOffsetY - charData.bearing.y as real) * p.scale;
    x := x + charData.advance as real * p.scale;
    placement := Placement(i, charData.textureID, xpos, ypos, charData.size.x as real * p.scale, charData.size.y as real * p.scale);
  }

  /** `x += charData.advance * scale`: the pen moved past character `c`. */
  method AdvancePast(p: Layout, x0: real, c: char) returns (x: real)
    ensures x == x0 + ScaledAdvance(p, c)
  {
    var charData := GetCharInfo(p.font, c);
    MultipleIsProduct(charData.advance, p.scale);
    x := x0 + charData.advance as real * p.scale;
  }

  /**
   * The line-break decision of the glyph loop: the whole-word lookahead at
   * the start of a word, the glyph's own advance elsewhere, nothing at
   * index 0. A break moves the pen to the left edge of the next line.
   */
  method BreakLine(p: Layout, i: nat, x0: real, y0: real, startOfWord: bool) returns (x: real, y: real)
    requires i < |p.text| && p.text[i] != ' '
    ensures Pen(x, y, startOfWord) == LinePen(p, i, Pen(x0, y0, startOfWord))
  {
    x, y := x0, y0;
    var charData := GetCharInfo(p.font, p.text[i]);
    if startOfWord && i != 0 {
      var idx := FindSpace(p.text, i);
      var word := p.text[i..idx];
      // the font size argument is ignored by the width computation
      var textWidth := CalculateTextWidth(p.font, word);
      LookaheadMeasuresWord(p, i);
      if -p.topLeft.x + x + textWidth as real > p.renderWidth {
        x := p.topLeft.x;
        y := y + p.fontSize * p.lineHeight;
      }
    } else if i != 0 && -p.topLeft.x + x + charData.advance as real * p.scale > p.renderWidth {
      MultipleIsProduct(charData.advance, p.scale);
      x := p.topLeft.x;
      y := y + p.fontSize * p.lineHeight;
    } else {
      MultipleIsProduct(charData.advance, p.scale);
    }
  }

  /** `std::string::find(' ', i)`, answering the length of the text when there is no space. */
  method FindSpace(s: string, i: nat) returns (idx: nat)
    requires i <= |s|
    ensures idx == NextSpace(s, i)
    ensures i <= idx <= |s| && (idx < |s| ==> s[idx] == ' ')
    ensures forall k :: i <= k < idx ==> s[k] != ' '
  {
    idx := i;
    while idx < |s| && s[idx] != ' '
      invariant i <= idx <= |s|
      invariant NextSpace(s, i) == NextSpace(s, idx)
    {
      idx := idx + 1;
    }
  }
}

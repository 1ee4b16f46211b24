# opengl-ui layout and geometry core, in Dafny

This project models the deterministic core of the opengl-ui C++ library. The
model covers the code that decides where things go on screen and leaves out
how the GPU draws them. It has five parts:

- **Text layout** (`text.dfy`, module `TextLayout`).
  - The word-wrapping loop of `Text::draw`. It walks the string once, moves a pen `(x, y)` and a
    `startOfWord` flag, and emits one glyph placement per non-space character.
  - The `Text` object and its setters.
  - The `TextModule` initialisation flag.
- **Rounded quads** (`quad.dfy`, module `Quads`).
  - The `Quad` class: setters, the clamping anchor setter, and `addChild`.
  - `draw`. It computes the anchor-corrected translation and the local model matrix, then converts
    the border radius to the quad's own scale.
  - Inside `draw`, the step-by-step correction of overlapping corner radii, the sanity clamp, and
    the per-corner check flags and inverse squared radii.
  - The recursion over the children, in insertion order.
- **Corner radii** (`radius.dfy`, modules `Radii` and `BorderRadii`).
  - Unit-tagged elliptical radii, built only by clamping factories, and their pixel/scale
    conversions.
  - The four-corner `BorderRadius` with its factories.
- **Hybrid lengths** (`dim.dfy`, module `Dimensions`): `Dim` and `Dim2`, pixel plus scale, with
  their arithmetic.
- **Fonts** (`font.dfy`, module `Fonts`).
  - The 95-entry glyph table and its lookup.
  - `calculateTextWidth`, with its unsigned 32-bit accumulator.
  - The glyph-loading loop of the `Font` constructor.
  - The path-keyed font cache.

`geometry.dfy` holds the vector types, component-wise clamping, and the transform list that stands
in for a `glm::mat4`. `wrappers.dfy` holds `Option` and `Result`.

C++ `float` is modelled as `real`, so every arithmetic claim is about exact arithmetic.

`Text::draw`'s GL calls are replaced by appending a `Placement` record. `Quad::draw`'s are replaced
by appending a `DrawCall` record, which holds the uniforms one quad sends. The values that come from
outside are parameters:

- the font's `fontHeight`, `maxCharHeight` and `maxCharUnderflow`;
- what FreeType and `glGenTextures` answer (a `Rasterizer` of functions);
- the window size.

Where the header files and the .cpp files disagree, the model follows the .cpp files:

- `include/quad.hpp` has no anchor point and declares a `setBorderTL`.
- `include/text.hpp` lists a different set of fields.
- `include/border_radius.hpp` spells the factories `ellipticalPixels`/`circularPixels` and
  `circular(int)`, and declares `int x()/y()`.

Behaviour of the source that is easy to miss:

- The overlap correction runs its four edge steps in a fixed order (left, right, top, bottom), and
  the order changes the result (`EdgeOrderMatters`).
- The word lookahead of `Text::draw` compares the word's *unscaled* advance sum with the *scaled*
  pen position. So above the rasterised height a word can pass the lookahead and still be split
  between its letters (`UnscaledLookaheadCanSplitWord`). At a scale of at most 1 a word that passes
  is never split (`WordPassingLookaheadStaysOnLine`).

## Model

| member | source | states |
|---|---|---|
| TextLayout.DrawGlyphs | src/text.cpp:130-190 | the glyph loop produces exactly the specified placements, `Placements(p)`, and they are the non-space characters, each once, in text order |
| TextLayout.Text.Draw | src/text.cpp:111-194 | `draw` computes `scale = fontSize / fontHeight` and `fontOffsetY = maxCharHeight - maxCharUnderflow` and places exactly the non-space characters, each once, in text order |
| TextLayout.PlaceGlyph | src/text.cpp:146-186 | one non-space character: its placement uses the pen after the possible line break, and the pen then moves by the glyph's scaled advance with `startOfWord` cleared |
| TextLayout.BreakLine | src/text.cpp:146-168 | the line-break decision, with the whole-word lookahead at the start of a word and the glyph's own scaled advance elsewhere, equals the specified `LinePen` |
| TextLayout.AdvancePast | src/text.cpp:141 | a space moves the pen right by its advance times `scale` |
| TextLayout.FindSpace | src/text.cpp:149-154 | `find(' ', i)`, with "not found" replaced by the length: the first space at or after `i`, else the end |
| TextLayout.NextSpace | src/text.cpp:149-154 | the index returned is at or after `i`, holds a space unless it is the end, and no space lies before it |
| TextLayout.PlacementsAreNonSpacesInOrder | src/text.cpp:135-190 | every non-space character is placed exactly once, in increasing index order, and no space is ever placed |
| TextLayout.SpaceOnlyAdvances | src/text.cpp:140-144 | a space advances `x` by its scaled advance, sets `startOfWord`, leaves `y` alone and places nothing |
| TextLayout.FirstCharacterNeverBreaks | src/text.cpp:146-168 | the character at index 0 never causes a line break, at word start or mid-word |
| TextLayout.StartOfWordAfterSpace | src/text.cpp:133-171 | `startOfWord` holds exactly at index 0 and right after a space |
| TextLayout.LookaheadWord | src/text.cpp:147-155 | the lookahead runs exactly at the first letter of a word after a space, and measures `text[i..j)` with `j` the next space or the end, a non-empty run with no spaces |
| TextLayout.LookaheadMeasuresWord | src/text.cpp:155-158 | the width the lookahead compares is `calculateTextWidth` of that word, wrap-around included |
| TextLayout.GlyphStep | src/text.cpp:159-186 | on a line break `x` resets to exactly `topLeft.x` and `y` grows by exactly `fontSize*lineHeight`; without one `y` is unchanged; then `x` advances by the scaled advance |
| TextLayout.GlyphExtendsPrefix | src/text.cpp:170-186 | a non-space character appends exactly one placement, computed with the pen after the possible break |
| TextLayout.PlacementsAtPen | src/text.cpp:173-186 | every placement of the output was computed from the pen as it stood after the possible break before its character |
| TextLayout.GlyphPlacement | src/text.cpp:126-183 | `xpos = x + bearing.x*scale`, `ypos = y + (fontOffsetY - bearing.y)*scale`, and the quad is the bitmap size times `scale` |
| TextLayout.PenYCountsBreaks | src/text.cpp:159-168 | `y` is `topLeft.y` plus one `fontSize*lineHeight` per line break so far, and `y` changes nowhere else |
| TextLayout.PenYMonotone | src/text.cpp:159-168 | with `fontSize*lineHeight >= 0` the pen never moves up |
| TextLayout.PenXNotLeftOfEdge | src/text.cpp:141-186 | with a non-negative scale the pen never moves left of `topLeft.x` |
| TextLayout.MidWordGlyphFits | src/text.cpp:164-186 | a letter inside a word either ends within `renderWidth` or starts a new line |
| TextLayout.WordPassingLookaheadStaysOnLine | src/text.cpp:147-168 | at a scale of at most 1, a word that passes the lookahead is never broken in the middle |
| TextLayout.PenInsideFittingWord | src/text.cpp:164-186 | inside a word that passed the lookahead, the pen is the word start plus the scaled width of the letters so far, and no letter breaks |
| TextLayout.UnscaledLookaheadCanSplitWord | src/text.cpp:158-168 | at scale 2 a word whose scaled width fits passes the unscaled lookahead and is then broken between its letters |
| TextLayout.MultipleIsProduct | src/text.cpp:141-186 | the repeated-addition scaling used by the layout is the product `n * scale` |
| TextLayout.TextModule.Init | src/text.cpp:20-79 | `init` always succeeds; a second call changes nothing; the first sets the flag and the projection for the window size |
| TextLayout.TextModule.Terminate | src/text.cpp:82-84 | `terminate` leaves the flag cleared and changes nothing else; it is a no-op when not initialised |
| TextLayout.TextModule.OnWindowResize | src/text.cpp:92-104 | the projection is reset to the new window size only when initialised; otherwise nothing changes |
| TextLayout.TextModule.constructor | src/text.cpp:16 | the module starts uninitialised, with no projection set |
| TextLayout.Text.constructor | src/text.cpp:109 | the constructor sets the string and the font |
| TextLayout.Text.SetText | src/text.cpp:196-198 | sets the string and no other field |
| TextLayout.Text.SetFont | src/text.cpp:204-206 | sets the font and no other field |
| TextLayout.Text.SetFontSize | src/text.cpp:212-214 | sets the font size and no other field |
| TextLayout.Text.SetTopLeft | src/text.cpp:220-222 | sets the top-left corner and no other field |
| TextLayout.Text.SetRenderWidth | src/text.cpp:228-230 | sets the render width and no other field |
| TextLayout.Text.SetLineHeight | src/text.cpp:236-238 | sets the line height and no other field |
| TextLayout.Text.SetColor | src/text.cpp:244-246 | sets the colour and no other field |
| TextLayout.Text.SetAlignment | src/text.cpp:252-254 | sets the alignment and no other field |
| Fonts.GlyphIndex | src/font.cpp:125-130 | the table slot is always below 95; it is `c - 32` for printable codes and the space's slot for every other code |
| Fonts.GetCharInfo | src/font.cpp:125-130 | `getCharInfo` reads the table at that slot |
| Fonts.GlyphIndexBijective | include/font.hpp:23-79 | the printable codes 32..126 map one-to-one onto the slots 0..94 |
| Fonts.NonPrintableIsSpace | src/font.cpp:126-127 | any code outside 32..126 is measured and drawn as a space |
| Fonts.CalculateTextWidth | src/font.cpp:132-141 | the sum of the advances of the characters, kept modulo 2^32; exact when the sum fits; `fontSize` has no effect |
| Fonts.WrappedTextWidth | src/font.cpp:136-140 | the unsigned result equals the exact width whenever the exact width fits in 32 bits |
| Fonts.TextWidthEmpty | src/font.cpp:136 | the empty string has width 0 |
| Fonts.TextWidthAppend | src/font.cpp:136-140 | width is additive: `width(s + t) == width(s) + width(t)` |
| Fonts.TextWidthSingle | src/font.cpp:138 | a single character is as wide as its advance |
| Fonts.AdvanceFromFixed | src/font.cpp:112 | the advance is `(unsigned)advance.x >> 6`: for values in range, `64*a <= advance.x < 64*a + 64` |
| Fonts.CharacterFrom | src/font.cpp:108-113 | a loaded glyph's record holds its texture id, bitmap size, bearing and converted advance |
| Fonts.RasterizeGlyphs | src/font.cpp:75-116 | every glyph that loads is stored at its slot; one that fails is skipped and the loop goes on |
| Fonts.FontCache.LoadFont | src/font.cpp:51-123 | a cached path yields a copy of the cached font and changes nothing; a face that fails to open is an error and the cache is untouched; otherwise the font is loaded and stored under its path |
| Fonts.FontCache.constructor | src/font.cpp:15 | the cache starts empty |
| Radii.AtLeastZero | src/border_radius.cpp:12-13 | `std::max(0, v)` on integers |
| Radii.TruncateToInt | src/border_radius.cpp:59 | float-to-int conversion truncates toward zero |
| Radii.EllipticalPixel | src/border_radius.cpp:11-15 | each component floored at 0 and tagged as pixels |
| Radii.EllipticalScale | src/border_radius.cpp:17-21 | each component clamped to [0, 1] and tagged as scale; values already in range are kept |
| Radii.CircularPixel | src/border_radius.cpp:23-27 | equals `ellipticalPixel(r, r)`: equal components floored at 0, pixel-tagged |
| Radii.CircularScale | src/border_radius.cpp:29-32 | equals `ellipticalScale(r, r)`: equal components clamped to [0, 1], scale-tagged |
| Radii.Zero | src/border_radius.cpp:34-36 | (0, 0), scale-tagged |
| Radii.ToVector2 | src/border_radius.cpp:46-48 | the vector of the two components |
| Radii.AxisToScale | src/border_radius.cpp:53 | one axis of pixels-to-scale lies in [0, 1] |
| Radii.AxisToPixels | src/border_radius.cpp:59 | one axis of scale-to-pixels is a whole, non-negative number |
| Radii.ToScale | src/border_radius.cpp:50-54 | a scale radius is returned unchanged; a pixel radius is divided per axis by the viewport and clamped; the result is always scale-tagged |
| Radii.ToPixels | src/border_radius.cpp:56-60 | a pixel radius is returned unchanged; a scale radius is multiplied, truncated to `int` and floored at 0; the result is always pixel-tagged |
| Radii.FactoriesCoverRadius | include/border_radius.hpp:57-66 | every value of the `Radius` invariant is the output of one of the public factories |
| Radii.ToScaleIdempotent | src/border_radius.cpp:50-54 | converting to scale twice is converting once |
| Radii.ToPixelsIdempotent | src/border_radius.cpp:56-60 | converting to pixels twice is converting once |
| Radii.PixelRoundTrip | src/border_radius.cpp:50-60 | a pixel radius that fits in a positive viewport survives pixels to scale to pixels exactly |
| Radii.ScaleRoundTrip | src/border_radius.cpp:50-60 | a scale radius taken through pixels and back loses less than one pixel per axis, and never gains |
| BorderRadii.All | src/border_radius.cpp:74-76 | the same radius on all four corners |
| BorderRadii.CircularPixel | src/border_radius.cpp:78-80 | `all(Radius::circularPixel(r))`, whose corners are pixel-tagged with `max(0, r)` on both axes |
| BorderRadii.CircularScale | src/border_radius.cpp:82-84 | `all(Radius::circularScale(r))`, whose corners are scale-tagged with `r` clamped on both axes |
| BorderRadii.Horizontal | src/border_radius.cpp:86-88 | `(left, right, left, right)` |
| BorderRadii.Vertical | src/border_radius.cpp:90-92 | `(top, top, bottom, bottom)` |
| BorderRadii.Zero | src/border_radius.cpp:94-96 | `all(Radius::zero())` |
| BorderRadii.ToScale | src/border_radius.cpp:114-121 | each corner converted to scale and kept in its position |
| BorderRadii.ToPixels | src/border_radius.cpp:123-130 | each corner converted to pixels and kept in its position |
| BorderRadii.DefaultIsZero | include/border_radius.hpp:77-82 | the default constructor equals `zero()`: unrounded scale radii on every corner |
| BorderRadii.ShapesAreFactoryOutputs | include/border_radius.hpp:86-112 | equal corners, shared left/right pairs and shared top/bottom pairs are exactly the outputs of `all`, `horizontal` and `vertical` |
| BorderRadii.ToScaleKeepsShape | src/border_radius.cpp:114-121 | converting to scale keeps the shape each factory built |
| BorderRadii.ToPixelsKeepsShape | src/border_radius.cpp:123-130 | converting to pixels keeps the shape each factory built |
| BorderRadii.ToScaleNormalises | src/border_radius.cpp:114-121 | after `toScale` every corner is a scale radius in [0, 1], and converting again changes nothing |
| BorderRadii.ToPixelsIdempotent | src/border_radius.cpp:123-130 | `toPixels` on a border radius is idempotent |
| Dimensions.Dim.FromPixels | src/dim.cpp:5-7 | the given pixels and zero scale |
| Dimensions.Dim.FromScale | src/dim.cpp:9-11 | the given scale and zero pixels |
| Dimensions.Dim.AddAssign | src/dim.cpp:18-22 | `+=` leaves the receiver holding the component-wise sum, equal to `a + b` |
| Dimensions.Dim.SubAssign | src/dim.cpp:34-37 | `-=` leaves the receiver holding the component-wise difference, equal to `a - b` |
| Dimensions.Dim2.Of | src/dim.cpp:49-52 | the four-argument constructor builds one `Dim` per axis from its own pair |
| Dimensions.Dim2.FromPixels | src/dim.cpp:54-56 | pixels on both axes, zero scale on both |
| Dimensions.Dim2.FromScale | src/dim.cpp:58-60 | scale on both axes, zero pixels on both |
| Dimensions.Dim2.AddAssign | src/dim.cpp:68-72 | `+=` adds axis by axis and equals `a + b` |
| Dimensions.Dim2.SubAssign | src/dim.cpp:84-87 | `-=` subtracts axis by axis and equals `a - b` |
| Dimensions.DefaultsAreZero | include/dim.hpp:14-104 | default-constructed `Dim` and `Dim2` are zero on every channel |
| Dimensions.PlusComponentwise | src/dim.cpp:13-22 | `+` adds pixels to pixels and scale to scale |
| Dimensions.PlusMonoid | src/dim.cpp:13-22 | `+` is commutative and associative, with the default `Dim` as identity |
| Dimensions.NegateInverse | src/dim.cpp:24-26 | unary minus negates both channels, is an involution, and is the additive inverse |
| Dimensions.MinusComponentwise | src/dim.cpp:28-37 | `a - b` subtracts channel by channel and undoes `+ b` |
| Dimensions.FactoriesRecombine | src/dim.cpp:5-60 | `fromPixels(p) + fromScale(s) == Dim(p, s)`, and the same on two axes |
| Dimensions.Dim2Pointwise | src/dim.cpp:62-87 | every `Dim2` operator acts on the x and y `Dim`s independently |
| Quads.Quad.Default | src/quad.cpp:20 | a new quad has no children and is a valid one-node tree |
| Quads.Quad.constructor | src/quad.cpp:22-26 | a new quad holds the given position, size and colour, with no children |
| Quads.Quad.SetPosition | src/quad.cpp:54-56 | sets the position and no other field |
| Quads.Quad.SetAnchorPoint | src/quad.cpp:62-64 | stores the anchor clamped to [0, 1] per component, which is the anchor itself when already in range; no other field changes |
| Quads.Quad.SetSize | src/quad.cpp:70-72 | sets the size and no other field |
| Quads.Quad.SetRotation | src/quad.cpp:78-80 | sets the rotation and no other field |
| Quads.Quad.SetColor | src/quad.cpp:86-88 | sets the colour and no other field |
| Quads.Quad.SetBorderRadius | src/quad.cpp:94-96 | sets the border radius and no other field |
| Quads.Quad.AddChild | src/quad.cpp:102-104 | appends the child after the existing children, keeping the tree acyclic |
| Quads.Quad.Draw | src/quad.cpp:106-223 | `draw` emits exactly the draw calls of this quad and then of each child's subtree, in insertion order, each child under this quad's matrix |
| Quads.Quad.DrawChildren | src/quad.cpp:219-222 | the loop over the children emits each child's subtree in insertion order, all under this quad's own matrix |
| Quads.Quad.OwnDrawCall | src/quad.cpp:111-212 | one quad's uniforms: matrix `model · translate(corrected) · rotate · scale(size)`, its colour, position and size, and corner uniforms whose edges fit |
| Quads.Quad.FramesOf | src/quad.cpp:106-223 | the quads one `draw` reaches start with this quad itself, and every matrix extends the parent's |
| Quads.Quad.ChildSteps | src/quad.cpp:220-222 | each child is a valid, strictly smaller tree, and the children's frames are concatenated in insertion order |
| Quads.AnchorLandsOnPosition | src/quad.cpp:112 | the point of the quad at its anchor lands on `pos`: anchor 0.5 gives `pos`, 0 gives `pos + size`, 1 gives `pos - size` |
| Quads.LocalModel | src/quad.cpp:115-119 | `myModel` is the parent's matrix followed by translate, rotate about z, scale |
| Quads.CornersOf | src/quad.cpp:132-135 | `toVector2` of each of the four corners |
| Quads.CorrectedBorders | src/quad.cpp:137-179 | the in-place edge steps and clamp produce the specified correction, whose edges all fit |
| Quads.ShadeCorner | src/quad.cpp:182-202 | a corner's check flag is on iff `x*y > 0`, and only then are its inverse squares `1/x²`, `1/y²` produced |
| Quads.InverseSquares | src/quad.cpp:189 | each component times the square of the radius component is 1, and both are positive |
| Quads.CornerUniformsFor | src/quad.cpp:128-212 | the corner block yields the specified uniforms: corrected radii in [0, 1] with no overlap along any edge |
| Quads.ClampCorners | src/quad.cpp:176-179 | after the sanity clamp every component lies in [0, 1] |
| Quads.FitPairShrinks | src/quad.cpp:143-148 | one edge step: nothing changes when the sum is at most 1; otherwise both corners are multiplied by `1/total`, and the edge sum becomes 1 |
| Quads.FitLeftFits | src/quad.cpp:142-148 | the left step shrinks the corners and leaves `TL.y + BL.y <= 1` |
| Quads.FitRightFits | src/quad.cpp:150-156 | the right step shrinks the corners and leaves `TR.y + BR.y <= 1` |
| Quads.FitTopFits | src/quad.cpp:158-164 | the top step shrinks the corners and leaves `TL.x + TR.x <= 1` |
| Quads.FitBottomFits | src/quad.cpp:166-172 | the bottom step shrinks the corners and leaves `BL.x + BR.x <= 1` |
| Quads.ShrinksKeepFit | src/quad.cpp:143-172 | a later step only shrinks corners, so an edge that already fits stays fitted |
| Quads.CorrectOverlapFits | src/quad.cpp:137-173 | on non-negative corners, after the four steps every edge sum is at most 1, and each corner is its original times one factor in (0, 1] |
| Quads.CorrectOverlapFixedPoints | src/quad.cpp:143-172 | the correction changes the corners iff some edge overlaps, so it is idempotent |
| Quads.CorrectOverlapShrinks | src/quad.cpp:143-172 | no component of any corner increases |
| Quads.ShrinkKeepsRatio | src/quad.cpp:146-168 | multiplying both components by one factor keeps the corner's x:y ratio |
| Quads.ShrinkBounds | src/quad.cpp:146-168 | a corner scaled by a factor in (0, 1] stays non-negative and grows on neither axis |
| Quads.ClampAfterCorrection | src/quad.cpp:175-179 | on non-negative input the sanity clamp never changes a corrected corner |
| Quads.SourceOrderOnOverlapping | src/quad.cpp:142-172 | in source order, with corners TL (1,1), TR (1,0), BL (0,1), BR (0,0), the bottom-left corner ends at (0, 0.5) |
| Quads.TopFirstOnOverlapping | src/quad.cpp:158-164 | correcting the top edge first leaves the same bottom-left corner at (0, 2/3) |
| Quads.EdgeOrderMatters | src/quad.cpp:142-172 | the order of the four edge steps changes the result |
| Quads.ShadeMeaning | src/quad.cpp:187-202 | for a non-negative corner the check flag is on iff both components are positive, and the inverse squares are sent exactly then |
| Quads.ShaderCornersMeaning | src/quad.cpp:137-212 | the corner uniforms lie in [0, 1], fit along every edge, shrink the input corners by one factor each, and are checked exactly when rounded on both axes |
| Quads.RenderAllAppend | src/quad.cpp:214-222 | the calls of a concatenation of quads are the concatenation of their calls |
| Quads.RenderedCornersFit | src/quad.cpp:137-212 | every quad a draw reaches gets corner radii in [0, 1] that do not overlap along any edge |

## Left out

- GL, GLFW and FreeType work is not modelled, and neither are shader uniforms beyond the values
  recorded in `DrawCall` and `Placement`. That covers vertex buffers, texture upload, shader
  compilation, `glDrawElements`, error polling and logging.
- `initFonts` and `terminateFonts` only drive FreeType and GL, so they are not modelled.
- Matrices are kept as the list of transforms they compose (`Translate`, `RotateZ`, `Scale`). The
  trigonometry of `glm::rotate` and the matrix products are not modelled.
- Floating-point rounding, overflow to infinity and NaN are not modelled, because every float is a
  `real`. The claims are about exact arithmetic.
- Getters are not modelled as separate members. Each one returns the stored field, which the model
  reads directly.
- `Quads.Quad.Draw` requires that each quad's on-screen size has no zero side wherever a pixel
  radius is converted (`Drawable`). The source divides by zero there.
- `TextLayout.Text.Draw` requires a non-zero `fontHeight` for the same reason.
- `Quads.ShadeCorner`: when a corner is not checked, the source leaves `inv2XX` at whatever the
  shader last held. The model records that as `None`.
- `Quads.Quad.Draw` and `Quads.Quad.DrawChildren` state their result in terms of the tree as it
  stood when the call began.
- `Quads.Quad.AddChild` requires that the child does not already contain the parent. The source
  accepts a cycle, and drawing it then never ends.
- `Quads.Quad.Draw`, `Quads.Quad.DrawChildren`, `Quads.Quad.AddChild`: the footprint (`Repr`) of
  a quad's ancestors is not refreshed when a child is added to a quad that is already nested. After
  `root.AddChild(a); a.AddChild(b)` the root is no longer `Valid`, so none of these three can be
  called on it or on any other ancestor of `a`. The model covers trees built bottom-up, where each
  quad gets its children before it is added to a parent. The six setters (`SetPosition`,
  `SetAnchorPoint`, `SetSize`, `SetRotation`, `SetColor`, `SetBorderRadius`) do not require
  `Valid`, so they stay callable on any quad, and they keep `Valid` where it held.
- `Quads.Quad.Default` leaves every field except the children unspecified: the position, size,
  colour, anchor, rotation and border radius. `Quad::Quad()` at src/quad.cpp:20 initialises none of
  them.
- `Quads.Quad.constructor` leaves the anchor, rotation and border radius unspecified. The
  initialiser list at src/quad.cpp:22-26 sets only the position, size and colour.
- `TextLayout.Text.constructor` leaves the font size, top-left corner, render width, line height,
  colour and alignment unspecified. It initialises only the string and the font.
- The only header that declares in-class defaults for quads (include/quad.hpp) is out of date and
  is not part of this model.
- `Dim` pixels are unbounded integers, so signed 32-bit overflow in `+=` is not modelled.
- `Dim::zero`, `max`, `min`, `clamp`, `toScale` and `toPixels`, and the same members of `Dim2`,
  are declared in include/dim.hpp but defined nowhere, so they are not modelled.
- The `operator<<` printers of `Dim`, `Dim2`, `Radius` and `BorderRadius` are not modelled.
- `TextAlignment` is stored by `setAlignment` and never read by `draw`, so it does not affect
  layout.
- Text characters stand for the bytes of a `std::string`. A signed `char` at or above 128 is
  negative in C++, so it is below 32 and maps to the space slot. A Dafny `char` above 126 maps to
  the space slot as well.
- The `fontSize` argument of `calculateTextWidth` is accepted and ignored, as in the source.
- The projection matrix `init` and `onWindowResize` send is recorded as the window size it is
  computed from.
- `TextLayout.Text.Draw` does not record that `Text::draw` also sets the projection uniform from its
  own window size. The module's recorded projection stays as last set by `init` or `onWindowResize`.

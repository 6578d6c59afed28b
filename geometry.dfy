/**
 * The geometry behind hit-testing and canvas sizing: the axis-aligned box of a
 * text layer, the rotated rectangle of a background layer, and the fit of the
 * photo into the 800 by 600 editing canvas.
 */
module Geometry {
  import opened Common
  import opened TextLines
  import opened Scene

  /** The parts of `ctx.font` the editor sets: weight, size in px, family. */
  datatype Font = Font(weight: string, size: real, family: string)

  function FontOf(t: TextElement): Font { Font(t.fontWeight, t.fontSize, t.fontFamily) }

  /**
   * The browser's `ctx.measureText(line).width` for a font and a letter spacing (px).
   * The editor receives it from its environment; nothing is assumed about it.
   */
  type Measure = (Font, real, string) -> real

  function Max(a: real, b: real): real { if a < b then b else a }

  /** `maxWidth` after `lines.forEach(l => maxWidth = Math.max(maxWidth, measure(l)))`, starting from 0. */
  function WidestLine(lines: seq<string>, font: Font, spacing: real, measure: Measure): (w: real)
    ensures w >= 0.0
    ensures forall i :: 0 <= i < |lines| ==> measure(font, spacing, lines[i]) <= w
    ensures w == 0.0 || exists i :: 0 <= i < |lines| && w == measure(font, spacing, lines[i])
  {
    if lines == [] then 0.0
    else
      var prefix := lines[..|lines| - 1];
      assert forall i :: 0 <= i < |prefix| ==> prefix[i] == lines[i];
      Max(WidestLine(prefix, font, spacing, measure), measure(font, spacing, lines[|lines| - 1]))
  }

  /** The `lines.forEach` loop that measures the widest line, with its `maxWidth` accumulator. */
  method MeasureWidestLine(lines: seq<string>, font: Font, spacing: real, measure: Measure) returns (maxWidth: real)
    ensures maxWidth == WidestLine(lines, font, spacing, measure)
  {
    maxWidth := 0.0;
    for i := 0 to |lines|
      invariant maxWidth == WidestLine(lines[..i], font, spacing, measure)
    {
      assert lines[..i + 1][..i] == lines[..i];
      maxWidth := Max(maxWidth, measure(font, spacing, lines[i]));
    }
    assert lines[..|lines|] == lines;
  }

  /** Height of one line of a text layer: 1.2 times the font size. */
  function LineHeight(t: TextElement): real { t.fontSize * 1.2 }

  /** `lines.length * lineHeight`: the height of a block of lines. */
  function BlockHeight(lineCount: nat, lineHeight: real): real { lineCount as real * lineHeight }

  /** An axis-aligned rectangle, bounds included. */
  datatype Box = Box(left: real, right: real, top: real, bottom: real)

  predicate InBox(b: Box, p: Point) {
    b.left <= p.x <= b.right && b.top <= p.y <= b.bottom
  }

  /**
   * The box getTextElementAtPosition tests. The width is measured with the layer's
   * font and the context's default letter spacing (0px): the layer's own
   * letterSpacing is not applied.
   */
  function TextHitBox(t: TextElement, measure: Measure): (r: Box)
    ensures r.left == t.x && r.top == t.y - t.fontSize
    ensures r.left <= r.right
    ensures forall k :: 0 <= k < |Split(t.text)| ==> measure(FontOf(t), 0.0, Split(t.text)[k]) <= r.right - r.left
    ensures r.bottom - r.top == BlockHeight(CountBreaks(t.text) + 1, LineHeight(t))
  {
    SplitCount(t.text);
    var lines := Split(t.text);
    var totalHeight := BlockHeight(|lines|, LineHeight(t));
    Box(t.x, t.x + WidestLine(lines, FontOf(t), 0.0, measure), t.y - t.fontSize, t.y + totalHeight - t.fontSize)
  }

  predicate TextContains(t: TextElement, p: Point, measure: Measure) {
    InBox(TextHitBox(t, measure), p)
  }

  /** The hit box spelled out: [x, x + widest line] by [y - size, y + n line heights - size], n = line breaks + 1. */
  lemma TextHitBoxShape(t: TextElement, p: Point, measure: Measure)
    ensures TextContains(t, p, measure) <==>
              t.x <= p.x <= t.x + WidestLine(Split(t.text), FontOf(t), 0.0, measure) &&
              t.y - t.fontSize <= p.y <= t.y + BlockHeight(CountBreaks(t.text) + 1, LineHeight(t)) - t.fontSize
  {
    SplitCount(t.text);
  }

  /** Changing a layer's letter spacing never changes which points hit it. */
  lemma HitBoxIgnoresLetterSpacing(t: TextElement, spacing: real, p: Point, measure: Measure)
    ensures TextContains(t.(letterSpacing := spacing), p, measure) == TextContains(t, p, measure)
  {
  }

  /** A single-line layer is hit exactly within its own text width, up to one font size above the baseline and 0.2 below. */
  lemma SingleLineHitBox(t: TextElement, p: Point, measure: Measure)
    requires '\n' !in t.text
    ensures TextContains(t, p, measure) <==>
              t.x <= p.x <= t.x + Max(0.0, measure(FontOf(t), 0.0, t.text)) &&
              t.y - t.fontSize <= p.y <= t.y + 0.2 * t.fontSize
  {
    JoinSplit(t.text);
    SplitCount(t.text);
    NoBreaksCountsZero(t.text);
    var lines := Split(t.text);
    assert |lines| == 1;
    assert lines[0] == t.text;
    assert lines[..0] == [];
  }

  lemma {:induction false} NoBreaksCountsZero(s: string)
    requires '\n' !in s
    ensures CountBreaks(s) == 0
  {
    if s != [] {
      assert s[0] in s;
      assert forall c :: c in s[1..] ==> c in s;
      NoBreaksCountsZero(s[1..]);
    }
  }

  /** Cosine and sine of an angle given in degrees (the source's `Math.cos`/`Math.sin` of radians). */
  datatype Trig = Trig(cos: real -> real, sin: real -> real)

  /** Centre of a background layer, its rotation pivot. */
  function Centre(b: BackgroundImage): Point {
    Point(b.x + b.width / 2.0, b.y + b.height / 2.0)
  }

  /** The point relative to the centre, turned by minus the layer's rotation into its unrotated frame. */
  function ToLocal(b: BackgroundImage, p: Point, trig: Trig): (r: Point)
    ensures p == Centre(b) ==> r == Point(0.0, 0.0)
  {
    var c := trig.cos(-b.rotation);
    var s := trig.sin(-b.rotation);
    var dx := p.x - Centre(b).x;
    var dy := p.y - Centre(b).y;
    Point(dx * c - dy * s, dx * s + dy * c)
  }

  /** The containment getBackgroundImageAtPosition tests: half-extents in the unrotated frame. */
  predicate BackgroundContains(b: BackgroundImage, p: Point, trig: Trig)
    ensures BackgroundContains(b, p, trig) ==> b.width >= 0.0 && b.height >= 0.0
    ensures p == Centre(b) && b.width >= 0.0 && b.height >= 0.0 ==> BackgroundContains(b, p, trig)
  {
    var q := ToLocal(b, p, trig);
    -b.width / 2.0 <= q.x <= b.width / 2.0 && -b.height / 2.0 <= q.y <= b.height / 2.0
  }

  /** At rotation 0 the test is exactly the rectangle [x, x + width] by [y, y + height]. */
  lemma UnrotatedBackgroundIsRectangle(b: BackgroundImage, p: Point, trig: Trig)
    requires trig.cos(0.0) == 1.0 && trig.sin(0.0) == 0.0
    requires b.rotation == 0.0
    ensures BackgroundContains(b, p, trig) <==>
              b.x <= p.x <= b.x + b.width && b.y <= p.y <= b.y + b.height
  {
  }

  /** Where the renderer puts the point (u, v) of a layer's unrotated frame: centre plus (u, v) turned by the rotation. */
  function RenderedPoint(b: BackgroundImage, u: real, v: real, trig: Trig): Point {
    var c := trig.cos(b.rotation);
    var s := trig.sin(b.rotation);
    Point(Centre(b).x + u * c - v * s, Centre(b).y + u * s + v * c)
  }

  /**
   * The hit test undoes the renderer's rotation: for trigonometry obeying cos(-a) = cos a,
   * sin(-a) = -sin a and cos^2 a + sin^2 a = 1, a drawn point maps back to its own (u, v),
   * so it hits iff it lies on the drawn image.
   */
  lemma HitTestInvertsRenderRotation(b: BackgroundImage, u: real, v: real, trig: Trig)
    requires trig.cos(-b.rotation) == trig.cos(b.rotation)
    requires trig.sin(-b.rotation) == -trig.sin(b.rotation)
    requires trig.cos(b.rotation) * trig.cos(b.rotation) + trig.sin(b.rotation) * trig.sin(b.rotation) == 1.0
    ensures ToLocal(b, RenderedPoint(b, u, v, trig), trig) == Point(u, v)
    ensures BackgroundContains(b, RenderedPoint(b, u, v, trig), trig) <==>
              -b.width / 2.0 <= u <= b.width / 2.0 && -b.height / 2.0 <= v <= b.height / 2.0
  {
  }

  /**
   * A 100 by 100 layer at the origin turned 90 degrees: the image point 10 right of
   * and 50 below its centre is drawn at (0, 60), and a click there hits the layer.
   */
  lemma QuarterTurnHit(file: FileInfo, url: string, trig: Trig)
    requires trig.cos(90.0) == 0.0 && trig.sin(90.0) == 1.0
    requires trig.cos(-90.0) == 0.0 && trig.sin(-90.0) == -1.0
    ensures var b := BackgroundImage(7, file, url, 0.0, 0.0, 100.0, 100.0, 1.0, 90.0, false);
            RenderedPoint(b, 10.0, 50.0, trig) == Point(0.0, 60.0) &&
            BackgroundContains(b, Point(0.0, 60.0), trig)
  {
  }

  /** A canvas size in px. */
  datatype Size = Size(width: real, height: real)

  const MaxCanvasWidth: real := 800.0
  const MaxCanvasHeight: real := 600.0

  /** The canvas size loadImages computes from the photo's size (before rounding). */
  function FitCanvas(width: real, height: real): (r: Size)
    requires width > 0.0 && height > 0.0
    ensures 0.0 < r.width <= MaxCanvasWidth && 0.0 < r.height <= MaxCanvasHeight
    ensures r.width * height == r.height * width
  {
    var aspectRatio := width / height;
    var first := if width > MaxCanvasWidth then Size(MaxCanvasWidth, MaxCanvasWidth / aspectRatio)
                 else Size(width, height);
    if first.height > MaxCanvasHeight then Size(MaxCanvasHeight * aspectRatio, MaxCanvasHeight)
    else first
  }

  /**
   * The fit is as small a change as possible: a photo that already fits is left
   * untouched, and otherwise the fitted size reaches one of the two limits.
   */
  lemma FitCanvasFits(width: real, height: real)
    requires width > 0.0 && height > 0.0
    ensures var r := FitCanvas(width, height);
            (width <= MaxCanvasWidth && height <= MaxCanvasHeight ==> r == Size(width, height)) &&
            (width > MaxCanvasWidth || height > MaxCanvasHeight ==>
               r.width == MaxCanvasWidth || r.height == MaxCanvasHeight)
  {
  }
}

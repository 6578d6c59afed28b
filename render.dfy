/**
 * Rendering as the ordered list of drawing calls it makes on a 2D context.
 * One parameterised frame serves both the on-screen canvas (selection
 * outlines, default smoothing) and the export canvas (no outlines,
 * high-quality smoothing for background images).
 */
module Render {
  import opened Common
  import opened TextLines
  import opened Scene
  import opened Geometry

  /** One drawing call; pixels are not modelled. */
  datatype DrawOp =
    | ClearRect
    | DrawOriginal
    | DrawBackground(id: Id, centre: Point, rotation: real, width: real, height: real, opacity: real, highQuality: bool)
    | OutlineBackground(id: Id, width: real, height: real)
    | StrokeLine(id: Id, line: string, x: real, y: real)
    | FillLine(id: Id, line: string, x: real, y: real)
    | OutlineText(id: Id, left: real, top: real, width: real, height: real)
    | DrawCutout

  datatype Mode = Interactive | Export

  /** Calls renderMultilineText makes: per line, an optional stroke then a fill, the baseline advancing by `lineHeight`. */
  function LineOps(id: Id, lines: seq<string>, x: real, y: real, lineHeight: real, stroke: bool): seq<DrawOp> {
    if lines == [] then []
    else
      LineOps(id, lines[..|lines| - 1], x, y, lineHeight, stroke) +
      LineCalls(id, lines[|lines| - 1], x, Baseline(y, |lines| - 1, lineHeight), stroke)
  }

  /** Baseline of line k: the cursor after k advances. */
  function Baseline(y: real, k: nat, lineHeight: real): real { y + k as real * lineHeight }

  /** Advancing the cursor by one line height moves to the next baseline. */
  lemma BaselineStep(y: real, k: nat, lineHeight: real)
    ensures Baseline(y, k + 1, lineHeight) == Baseline(y, k, lineHeight) + lineHeight
  {
  }

  /** The calls for one line at one baseline. */
  function LineCalls(id: Id, line: string, x: real, baseline: real, stroke: bool): seq<DrawOp> {
    (if stroke then [StrokeLine(id, line, x, baseline)] else []) + [FillLine(id, line, x, baseline)]
  }

  /** Calls per line: a stroke and a fill, or a fill alone. */
  function PerLine(stroke: bool): nat { if stroke then 2 else 1 }

  lemma {:induction false} LineOpsLength(id: Id, lines: seq<string>, x: real, y: real, lineHeight: real, stroke: bool)
    ensures |LineOps(id, lines, x, y, lineHeight, stroke)| == PerLine(stroke) * |lines|
  {
    if lines != [] {
      LineOpsLength(id, lines[..|lines| - 1], x, y, lineHeight, stroke);
    }
  }

  /** Line k is filled at baseline y + k * lineHeight, right after its stroke when stroking. */
  lemma {:induction false} LineOpsAt(id: Id, lines: seq<string>, x: real, y: real, lineHeight: real, stroke: bool, k: nat)
    requires k < |lines|
    ensures var ops := LineOps(id, lines, x, y, lineHeight, stroke);
            var per := PerLine(stroke);
            |ops| == per * |lines| &&
            ops[per * k + per - 1] == FillLine(id, lines[k], x, Baseline(y, k, lineHeight)) &&
            (stroke ==> ops[2 * k] == StrokeLine(id, lines[k], x, Baseline(y, k, lineHeight)))
  {
    var n := |lines| - 1;
    var prefix := lines[..n];
    var front := LineOps(id, prefix, x, y, lineHeight, stroke);
    LineOpsLength(id, prefix, x, y, lineHeight, stroke);
    LineOpsLength(id, lines, x, y, lineHeight, stroke);
    var ops := LineOps(id, lines, x, y, lineHeight, stroke);
    assert ops == front + LineCalls(id, lines[n], x, Baseline(y, n, lineHeight), stroke);
    if k < n {
      LineOpsAt(id, prefix, x, y, lineHeight, stroke, k);
      assert prefix[k] == lines[k];
    }
  }

  /** The dashed outline around the selected text: the widest line measured with the layer's letter spacing, plus 5px padding. */
  function TextOutline(t: TextElement, measure: Measure): DrawOp {
    var lines := Split(t.text);
    var maxWidth := WidestLine(lines, FontOf(t), t.letterSpacing, measure);
    OutlineText(t.id, t.x - 5.0, t.y - t.fontSize - 5.0, maxWidth + 10.0, BlockHeight(|lines|, LineHeight(t)) + 10.0)
  }

  /**
   * renderTextElement / renderTextElementForExport: with a stroke, a stroking pass
   * (stroke and fill per line) followed by a plain fill pass; the outline only for
   * the selected layer on screen.
   */
  function TextOps(t: TextElement, mode: Mode, selectedTextId: Option<Id>, measure: Measure): seq<DrawOp> {
    var lines := Split(t.text);
    (if t.strokeWidth > 0.0 then LineOps(t.id, lines, t.x, t.y, LineHeight(t), true) else []) +
    LineOps(t.id, lines, t.x, t.y, LineHeight(t), false) +
    (if mode == Interactive && selectedTextId == Some(t.id) then [TextOutline(t, measure)] else [])
  }

  /** renderBackgroundImage / renderBackgroundImageForExport: nothing until the image has loaded. */
  function BackgroundOps(b: BackgroundImage, mode: Mode, selectedBackgroundId: Option<Id>, loaded: set<Id>): (r: seq<DrawOp>)
    ensures r == [] <==> b.id !in loaded
    ensures r != [] ==> r[0].DrawBackground? && r[0].id == b.id && r[0].highQuality == (mode == Export)
    ensures |r| <= 2
    ensures |r| == 2 <==> b.id in loaded && mode == Interactive && selectedBackgroundId == Some(b.id)
    ensures |r| == 2 ==> r[1] == OutlineBackground(b.id, b.width, b.height)
  {
    if b.id !in loaded then []
    else
      [DrawBackground(b.id, Centre(b), b.rotation, b.width, b.height, b.opacity, mode == Export)] +
      (if mode == Interactive && selectedBackgroundId == Some(b.id) then [OutlineBackground(b.id, b.width, b.height)] else [])
  }

  /** `backgroundImages.forEach(render)`. */
  function AllBackgroundOps(bs: seq<BackgroundImage>, mode: Mode, selectedBackgroundId: Option<Id>, loaded: set<Id>): seq<DrawOp> {
    if bs == [] then []
    else AllBackgroundOps(bs[..|bs| - 1], mode, selectedBackgroundId, loaded) +
         BackgroundOps(bs[|bs| - 1], mode, selectedBackgroundId, loaded)
  }

  /** `textElements.forEach(render)`. */
  function AllTextOps(ts: seq<TextElement>, mode: Mode, selectedTextId: Option<Id>, measure: Measure): seq<DrawOp> {
    if ts == [] then []
    else AllTextOps(ts[..|ts| - 1], mode, selectedTextId, measure) + TextOps(ts[|ts| - 1], mode, selectedTextId, measure)
  }

  /** The scene as the renderer reads it. */
  datatype Frame = Frame(
    texts: seq<TextElement>, backgrounds: seq<BackgroundImage>,
    selectedTextId: Option<Id>, selectedBackgroundId: Option<Id>, loaded: set<Id>)

  /** A whole frame: clear, photo, background layers, text layers, cut-out. */
  function FrameOps(f: Frame, mode: Mode, measure: Measure): (r: seq<DrawOp>)
    ensures |r| >= 3 && r[0] == ClearRect && r[1] == DrawOriginal && r[|r| - 1] == DrawCutout
  {
    [ClearRect, DrawOriginal] +
    AllBackgroundOps(f.backgrounds, mode, f.selectedBackgroundId, f.loaded) +
    AllTextOps(f.texts, mode, f.selectedTextId, measure) +
    [DrawCutout]
  }

  /** The layer category an operation paints: the order that makes the cut-out cover the text. */
  function Rank(op: DrawOp): nat {
    match op
    case ClearRect => 0
    case DrawOriginal => 1
    case DrawBackground(_, _, _, _, _, _, _) => 2
    case OutlineBackground(_, _, _) => 2
    case StrokeLine(_, _, _, _) => 3
    case FillLine(_, _, _, _) => 3
    case OutlineText(_, _, _, _, _) => 3
    case DrawCutout => 4
  }

  predicate AllRank(ops: seq<DrawOp>, r: nat) {
    forall i :: 0 <= i < |ops| ==> Rank(ops[i]) == r
  }

  lemma {:induction false} BackgroundOpsRank(bs: seq<BackgroundImage>, mode: Mode, sel: Option<Id>, loaded: set<Id>)
    ensures AllRank(AllBackgroundOps(bs, mode, sel, loaded), 2)
  {
    if bs != [] {
      BackgroundOpsRank(bs[..|bs| - 1], mode, sel, loaded);
    }
  }

  lemma {:induction false} LineOpsRank(id: Id, lines: seq<string>, x: real, y: real, lineHeight: real, stroke: bool)
    ensures AllRank(LineOps(id, lines, x, y, lineHeight, stroke), 3)
  {
    if lines != [] {
      LineOpsRank(id, lines[..|lines| - 1], x, y, lineHeight, stroke);
    }
  }

  lemma {:induction false} TextOpsRank(ts: seq<TextElement>, mode: Mode, sel: Option<Id>, measure: Measure)
    ensures AllRank(AllTextOps(ts, mode, sel, measure), 3)
  {
    if ts != [] {
      TextOpsRank(ts[..|ts| - 1], mode, sel, measure);
      var t := ts[|ts| - 1];
      var lines := Split(t.text);
      LineOpsRank(t.id, lines, t.x, t.y, LineHeight(t), true);
      LineOpsRank(t.id, lines, t.x, t.y, LineHeight(t), false);
    }
  }

  /**
   * The stacking invariant: every frame starts by clearing and drawing the photo,
   * ends with the cut-out, and never paints a lower category after a higher one:
   * photo, then all background layers, then all text layers, then the cut-out.
   */
  lemma StackingOrder(f: Frame, mode: Mode, measure: Measure)
    ensures var ops := FrameOps(f, mode, measure);
            (forall i, j :: 0 <= i < j < |ops| ==> Rank(ops[i]) <= Rank(ops[j])) &&
            (forall i :: 0 <= i < |ops| - 1 ==> ops[i] != DrawCutout)
  {
    var bops := AllBackgroundOps(f.backgrounds, mode, f.selectedBackgroundId, f.loaded);
    var tops := AllTextOps(f.texts, mode, f.selectedTextId, measure);
    BackgroundOpsRank(f.backgrounds, mode, f.selectedBackgroundId, f.loaded);
    TextOpsRank(f.texts, mode, f.selectedTextId, measure);
    assert FrameOps(f, mode, measure) == [ClearRect, DrawOriginal] + bops + tops + [DrawCutout];
    LayersRankSorted(bops, tops);
  }

  /** Clear, photo, rank-2 calls, rank-3 calls, cut-out: ranks never decrease and only the last call is the cut-out. */
  lemma LayersRankSorted(bops: seq<DrawOp>, tops: seq<DrawOp>)
    requires AllRank(bops, 2) && AllRank(tops, 3)
    ensures var ops := [ClearRect, DrawOriginal] + bops + tops + [DrawCutout];
            (forall i, j :: 0 <= i < j < |ops| ==> Rank(ops[i]) <= Rank(ops[j])) &&
            (forall i :: 0 <= i < |ops| - 1 ==> ops[i] != DrawCutout)
  {
    var ops := [ClearRect, DrawOriginal] + bops + tops + [DrawCutout];
    assert forall i :: 2 <= i < 2 + |bops| ==> ops[i] == bops[i - 2];
    assert forall i :: 2 + |bops| <= i < 2 + |bops| + |tops| ==> ops[i] == tops[i - 2 - |bops|];
    assert forall i :: 0 <= i < |ops| ==>
      Rank(ops[i]) == (if i == 0 then 0 else if i == 1 then 1 else if i < 2 + |bops| then 2
                       else if i < 2 + |bops| + |tops| then 3 else 4);
  }

  /** Ids of the background images drawn, in drawing order. */
  function DrawnBackgroundIds(ops: seq<DrawOp>): seq<Id> {
    if ops == [] then []
    else (if ops[0].DrawBackground? then [ops[0].id] else []) + DrawnBackgroundIds(ops[1..])
  }

  lemma {:induction false} DrawnBackgroundIdsAppend(a: seq<DrawOp>, b: seq<DrawOp>)
    ensures DrawnBackgroundIds(a + b) == DrawnBackgroundIds(a) + DrawnBackgroundIds(b)
  {
    if a != [] {
      assert (a + b)[0] == a[0];
      assert (a + b)[1..] == a[1..] + b;
      DrawnBackgroundIdsAppend(a[1..], b);
    } else {
      assert a + b == b;
    }
  }

  /** Ids of the layers whose image has loaded, in list order. */
  function LoadedIds(bs: seq<BackgroundImage>, loaded: set<Id>): seq<Id> {
    if bs == [] then []
    else LoadedIds(bs[..|bs| - 1], loaded) + (if bs[|bs| - 1].id in loaded then [bs[|bs| - 1].id] else [])
  }

  lemma {:induction false} TextOpsDrawNoBackground(ts: seq<TextElement>, mode: Mode, sel: Option<Id>, measure: Measure)
    ensures DrawnBackgroundIds(AllTextOps(ts, mode, sel, measure)) == []
  {
    var ops := AllTextOps(ts, mode, sel, measure);
    TextOpsRank(ts, mode, sel, measure);
    NoneOfRank3IsBackground(ops);
  }

  lemma {:induction false} NoneOfRank3IsBackground(ops: seq<DrawOp>)
    requires AllRank(ops, 3)
    ensures DrawnBackgroundIds(ops) == []
  {
    if ops != [] {
      NoneOfRank3IsBackground(ops[1..]);
    }
  }

  /**
   * Background layers are painted in list order, and a layer is skipped exactly
   * when its image has not loaded.
   */
  lemma {:induction false} BackgroundsDrawnInListOrder(f: Frame, mode: Mode, measure: Measure)
    ensures DrawnBackgroundIds(FrameOps(f, mode, measure)) == LoadedIds(f.backgrounds, f.loaded)
  {
    var bops := AllBackgroundOps(f.backgrounds, mode, f.selectedBackgroundId, f.loaded);
    var tops := AllTextOps(f.texts, mode, f.selectedTextId, measure);
    assert FrameOps(f, mode, measure) == [ClearRect, DrawOriginal] + bops + tops + [DrawCutout];
    BackgroundLayersDrawn(f.backgrounds, mode, f.selectedBackgroundId, f.loaded);
    TextOpsDrawNoBackground(f.texts, mode, f.selectedTextId, measure);
    FrameDrawsBackgroundPass(bops, tops);
  }

  /** Around the two layer passes, a frame draws no background image itself, and the text pass draws none either. */
  lemma FrameDrawsBackgroundPass(bops: seq<DrawOp>, tops: seq<DrawOp>)
    requires DrawnBackgroundIds(tops) == []
    ensures DrawnBackgroundIds([ClearRect, DrawOriginal] + bops + tops + [DrawCutout]) == DrawnBackgroundIds(bops)
  {
    DrawnBackgroundIdsAppend([ClearRect, DrawOriginal], bops);
    DrawnBackgroundIdsAppend([ClearRect, DrawOriginal] + bops, tops);
    DrawnBackgroundIdsAppend([ClearRect, DrawOriginal] + bops + tops, [DrawCutout]);
    assert DrawnBackgroundIds([ClearRect, DrawOriginal]) == [];
    assert DrawnBackgroundIds([DrawCutout]) == [];
  }

  /** Dropping the last element of `ts + us`, for non-empty `us`, drops it from `us`. */
  lemma AppendDropLast<T>(ts: seq<T>, us: seq<T>)
    requires us != []
    ensures (ts + us)[..|ts + us| - 1] == ts + us[..|us| - 1]
    ensures (ts + us)[|ts + us| - 1] == us[|us| - 1]
  {
  }

  /** The text pass over two lists in a row is the pass over the first, then over the second. */
  lemma {:induction false} AllTextOpsAppend(ts: seq<TextElement>, us: seq<TextElement>, mode: Mode, sel: Option<Id>, measure: Measure)
    ensures AllTextOps(ts + us, mode, sel, measure) == AllTextOps(ts, mode, sel, measure) + AllTextOps(us, mode, sel, measure)
  {
    if us == [] {
      assert ts + us == ts;
    } else {
      var n := |us| - 1;
      var xs := ts + us;
      AppendDropLast(ts, us);
      var front := AllTextOps(ts, mode, sel, measure);
      var middle := AllTextOps(us[..n], mode, sel, measure);
      var last := TextOps(us[n], mode, sel, measure);
      calc {
        AllTextOps(xs, mode, sel, measure);
        AllTextOps(ts + us[..n], mode, sel, measure) + last;
        { AllTextOpsAppend(ts, us[..n], mode, sel, measure); }
        (front + middle) + last;
        front + (middle + last);
        front + AllTextOps(us, mode, sel, measure);
      }
    }
  }

  /**
   * Text layers are painted in list order: the calls for layer k come after those of
   * every earlier layer and before those of every later one, so a later layer covers
   * an earlier one.
   */
  lemma TextsDrawnInListOrder(ts: seq<TextElement>, mode: Mode, sel: Option<Id>, measure: Measure, k: nat)
    requires k < |ts|
    ensures AllTextOps(ts, mode, sel, measure) ==
              AllTextOps(ts[..k], mode, sel, measure) + TextOps(ts[k], mode, sel, measure) + AllTextOps(ts[k + 1..], mode, sel, measure)
  {
    assert ts == ts[..k] + [ts[k]] + ts[k + 1..];
    AllTextOpsAppend(ts[..k] + [ts[k]], ts[k + 1..], mode, sel, measure);
    AllTextOpsAppend(ts[..k], [ts[k]], mode, sel, measure);
    assert [ts[k]][..0] == [];
  }

  lemma {:induction false} BackgroundLayersDrawn(bs: seq<BackgroundImage>, mode: Mode, sel: Option<Id>, loaded: set<Id>)
    ensures DrawnBackgroundIds(AllBackgroundOps(bs, mode, sel, loaded)) == LoadedIds(bs, loaded)
  {
    if bs != [] {
      var b := bs[|bs| - 1];
      BackgroundLayersDrawn(bs[..|bs| - 1], mode, sel, loaded);
      DrawnBackgroundIdsAppend(AllBackgroundOps(bs[..|bs| - 1], mode, sel, loaded), BackgroundOps(b, mode, sel, loaded));
      OneBackgroundDrawn(b, mode, sel, loaded);
    }
  }

  /** One background layer draws its own image once if it has loaded, and nothing otherwise. */
  lemma OneBackgroundDrawn(b: BackgroundImage, mode: Mode, sel: Option<Id>, loaded: set<Id>)
    ensures DrawnBackgroundIds(BackgroundOps(b, mode, sel, loaded)) == (if b.id in loaded then [b.id] else [])
  {
    var one := BackgroundOps(b, mode, sel, loaded);
    if b.id in loaded {
      var outline := OutlineBackground(b.id, b.width, b.height);
      assert DrawnBackgroundIds([outline]) == [];
      assert one[1..] == [] || one[1..] == [outline];
      assert DrawnBackgroundIds(one) == [b.id] + DrawnBackgroundIds(one[1..]);
    }
  }


  predicate IsOutline(op: DrawOp) {
    op.OutlineBackground? || op.OutlineText?
  }

  lemma {:induction false} LineOpsNoOutline(id: Id, lines: seq<string>, x: real, y: real, lineHeight: real, stroke: bool)
    ensures forall i :: 0 <= i < |LineOps(id, lines, x, y, lineHeight, stroke)| ==> !IsOutline(LineOps(id, lines, x, y, lineHeight, stroke)[i])
  {
    if lines != [] {
      LineOpsNoOutline(id, lines[..|lines| - 1], x, y, lineHeight, stroke);
    }
  }

  lemma {:induction false} ExportTextsNoOutline(ts: seq<TextElement>, sel: Option<Id>, measure: Measure)
    ensures forall i :: 0 <= i < |AllTextOps(ts, Export, sel, measure)| ==> !IsOutline(AllTextOps(ts, Export, sel, measure)[i])
  {
    if ts != [] {
      ExportTextsNoOutline(ts[..|ts| - 1], sel, measure);
      var t := ts[|ts| - 1];
      LineOpsNoOutline(t.id, Split(t.text), t.x, t.y, LineHeight(t), true);
      LineOpsNoOutline(t.id, Split(t.text), t.x, t.y, LineHeight(t), false);
    }
  }

  lemma {:induction false} ExportBackgroundsNoOutline(bs: seq<BackgroundImage>, sel: Option<Id>, loaded: set<Id>)
    ensures forall i :: 0 <= i < |AllBackgroundOps(bs, Export, sel, loaded)| ==> !IsOutline(AllBackgroundOps(bs, Export, sel, loaded)[i])
  {
    if bs != [] {
      ExportBackgroundsNoOutline(bs[..|bs| - 1], sel, loaded);
    }
  }

  /** The export frame carries no selection outline, whatever is selected. */
  lemma ExportHasNoOutlines(f: Frame, measure: Measure)
    ensures forall i :: 0 <= i < |FrameOps(f, Export, measure)| ==> !IsOutline(FrameOps(f, Export, measure)[i])
  {
    ExportTextsNoOutline(f.texts, f.selectedTextId, measure);
    ExportBackgroundsNoOutline(f.backgrounds, f.selectedBackgroundId, f.loaded);
  }

  /**
   * Per text layer: with a stroke every line is stroked once and filled twice
   * (the stroking pass fills as well), without a stroke filled once; the
   * outline adds one call for the selected layer on screen.
   */
  lemma TextOpsCount(t: TextElement, mode: Mode, sel: Option<Id>, measure: Measure)
    ensures var n := CountBreaks(t.text) + 1;
            var outline := if mode == Interactive && sel == Some(t.id) then 1 else 0;
            |TextOps(t, mode, sel, measure)| == (if t.strokeWidth > 0.0 then 3 * n else n) + outline
  {
    SplitCount(t.text);
    var lines := Split(t.text);
    LineOpsLength(t.id, lines, t.x, t.y, LineHeight(t), true);
    LineOpsLength(t.id, lines, t.x, t.y, LineHeight(t), false);
    assert |LineOps(t.id, lines, t.x, t.y, LineHeight(t), true)| == 2 * |lines|;
    assert |LineOps(t.id, lines, t.x, t.y, LineHeight(t), false)| == |lines|;
  }

  /**
   * The layout of one text layer's calls: the stroking pass (present exactly when the
   * stroke width is positive), then the plain fill pass, then, only for the selected
   * layer on screen, the outline as the last call.
   */
  lemma TextOpsLayout(t: TextElement, mode: Mode, sel: Option<Id>, measure: Measure)
    ensures var ops := TextOps(t, mode, sel, measure);
            var lines := Split(t.text);
            var stroke := if t.strokeWidth > 0.0 then LineOps(t.id, lines, t.x, t.y, LineHeight(t), true) else [];
            var fill := LineOps(t.id, lines, t.x, t.y, LineHeight(t), false);
            var selected := mode == Interactive && sel == Some(t.id);
            (stroke != [] <==> t.strokeWidth > 0.0) &&
            fill != [] &&
            |ops| == |stroke| + |fill| + (if selected then 1 else 0) &&
            ops[..|stroke|] == stroke &&
            ops[|stroke|..|stroke| + |fill|] == fill &&
            (selected ==> ops[|ops| - 1] == TextOutline(t, measure))
  {
  }

  /** `renderMultilineText`: the per-line loop with its `currentY` cursor; also returns the block height. */
  method RenderMultilineText(id: Id, text: string, x: real, y: real, lineHeight: real, stroke: bool)
    returns (ops: seq<DrawOp>, lines: seq<string>, totalHeight: real)
    ensures lines == Split(text) && totalHeight == BlockHeight(|lines|, lineHeight)
    ensures ops == LineOps(id, lines, x, y, lineHeight, stroke)
  {
    lines := Split(text);
    ops := [];
    var currentY := y;
    for i := 0 to |lines|
      invariant currentY == Baseline(y, i, lineHeight)
      invariant ops == LineOps(id, lines[..i], x, y, lineHeight, stroke)
    {
      assert lines[..i + 1][..i] == lines[..i];
      assert LineOps(id, lines[..i + 1], x, y, lineHeight, stroke) == ops + LineCalls(id, lines[i], x, currentY, stroke);
      if stroke {
        ops := ops + [StrokeLine(id, lines[i], x, currentY)];
      }
      ops := ops + [FillLine(id, lines[i], x, currentY)];
      BaselineStep(y, i, lineHeight);
      currentY := currentY + lineHeight;
    }
    assert lines[..|lines|] == lines;
    totalHeight := BlockHeight(|lines|, lineHeight);
  }
}

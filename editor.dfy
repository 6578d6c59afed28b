/**
 * The editor screen: a state holder whose handlers change the layer lists, the
 * selection, the open property panels, the pointer-drag record and the export
 * bookkeeping, plus the read-only hit tests and renderer those handlers use.
 */
module Editor {
  import opened Common
  import opened TextLines
  import opened ListOps
  import opened Scene
  import opened Geometry
  import opened Render
  import opened Export

  /** The source's drag record. */
  datatype DragState = DragState(isDragging: bool, dragOffset: Point, draggedTextId: Option<Id>, draggedBackgroundId: Option<Id>)

  /** Idle: what mouse-up, mouse-leave and a click on empty canvas install. */
  const NotDragging: DragState := DragState(false, Point(0.0, 0.0), None, None)

  /**
   * The record only ever takes the three shapes of the pointer machine: idle,
   * dragging a text layer, or dragging a background layer (never both).
   */
  predicate DragWellFormed(d: DragState) {
    d == NotDragging || (d.isDragging && d.draggedTextId.Some? != d.draggedBackgroundId.Some?)
  }

  /** Hover feedback while no drag is in progress. */
  datatype Cursor = Grab | Crosshair

  function TextHit(p: Point, measure: Measure): TextElement -> bool {
    t => TextContains(t, p, measure)
  }

  function BackgroundHit(p: Point, trig: Trig): BackgroundImage -> bool {
    b => BackgroundContains(b, p, trig)
  }

  /** What getTextElementAtPosition returns: the last-drawn text layer whose box holds `p`. */
  function TextAtPosition(ts: seq<TextElement>, p: Point, measure: Measure): Option<TextElement> {
    Topmost(ts, TextHit(p, measure))
  }

  /** What getBackgroundImageAtPosition returns: the last-drawn background layer whose rotated rectangle holds `p`. */
  function BackgroundAtPosition(bs: seq<BackgroundImage>, p: Point, trig: Trig): Option<BackgroundImage> {
    Topmost(bs, BackgroundHit(p, trig))
  }

  /** The comparison getTextElementAtPosition writes out is the text hit box. */
  lemma TextHitUnfolds(t: TextElement, p: Point, measure: Measure, maxWidth: real, totalHeight: real)
    requires maxWidth == WidestLine(Split(t.text), FontOf(t), 0.0, measure)
    requires totalHeight == BlockHeight(|Split(t.text)|, t.fontSize * 1.2)
    ensures TextHit(p, measure)(t) <==>
              p.x >= t.x && p.x <= t.x + maxWidth && p.y >= t.y - t.fontSize && p.y <= t.y + totalHeight - t.fontSize
  {
  }

  /** The comparison getBackgroundImageAtPosition writes out is the rotated-rectangle test. */
  lemma BackgroundHitUnfolds(b: BackgroundImage, p: Point, trig: Trig, rotatedX: real, rotatedY: real)
    requires rotatedX == ToLocal(b, p, trig).x && rotatedY == ToLocal(b, p, trig).y
    ensures BackgroundHit(p, trig)(b) <==>
              rotatedX >= -b.width / 2.0 && rotatedX <= b.width / 2.0 &&
              rotatedY >= -b.height / 2.0 && rotatedY <= b.height / 2.0
  {
  }

  /** No two layers of the list share an id (true unless two were created in the same millisecond). */
  predicate UniqueTextIds(ts: seq<TextElement>) {
    forall i, j :: 0 <= i < j < |ts| ==> ts[i].id != ts[j].id
  }

  predicate UniqueBackgroundIds(bs: seq<BackgroundImage>) {
    forall i, j :: 0 <= i < j < |bs| ==> bs[i].id != bs[j].id
  }

  /** Moving the only layer with an id to where it already is changes nothing. */
  lemma MoveTextInPlace(ts: seq<TextElement>, i: nat)
    requires i < |ts| && UniqueTextIds(ts)
    ensures MoveTexts(ts, ts[i].id, Point(ts[i].x, ts[i].y)) == ts
  {
  }

  lemma MoveBackgroundInPlace(bs: seq<BackgroundImage>, i: nat)
    requires i < |bs| && UniqueBackgroundIds(bs)
    ensures MoveBackgrounds(bs, bs[i].id, Point(bs[i].x, bs[i].y)) == bs
  {
  }

  /** The drag record a press installs, given what the two hit tests found: a text hit wins over a background hit; the offset is the press point minus the layer's (x, y). */
  function DragFor(text: Option<TextElement>, background: Option<BackgroundImage>, p: Point): (d: DragState)
    ensures DragWellFormed(d)
    ensures d.isDragging <==> text.Some? || background.Some?
    ensures d.draggedTextId == (if text.Some? then Some(text.value.id) else None)
    ensures d.draggedBackgroundId == (if text.None? && background.Some? then Some(background.value.id) else None)
    ensures text.Some? ==> DragTarget(d, p) == Point(text.value.x, text.value.y)
    ensures text.None? && background.Some? ==> DragTarget(d, p) == Point(background.value.x, background.value.y)
  {
    if text.Some? then DragState(true, Point(p.x - text.value.x, p.y - text.value.y), Some(text.value.id), None)
    else if background.Some? then DragState(true, Point(p.x - background.value.x, p.y - background.value.y), None, Some(background.value.id))
    else NotDragging
  }

  /** The drag record a press at `p` installs on the scene (ts, bs). */
  function PressDrag(ts: seq<TextElement>, bs: seq<BackgroundImage>, p: Point, measure: Measure, trig: Trig): DragState {
    DragFor(TextAtPosition(ts, p, measure), BackgroundAtPosition(bs, p, trig), p)
  }

  /** Where a move to `p` puts the dragged layer: the pointer minus the recorded offset. */
  function DragTarget(d: DragState, p: Point): Point {
    Point(p.x - d.dragOffset.x, p.y - d.dragOffset.y)
  }

  predicate DraggingText(d: DragState) { d.isDragging && d.draggedTextId.Some? }

  predicate DraggingBackground(d: DragState) { d.isDragging && d.draggedTextId.None? && d.draggedBackgroundId.Some? }

  /** The text layers after a move to `p` under the drag record `d`. */
  function DraggedTexts(ts: seq<TextElement>, d: DragState, p: Point): seq<TextElement> {
    if DraggingText(d) then MoveTexts(ts, d.draggedTextId.value, DragTarget(d, p)) else ts
  }

  /** The background layers after a move to `p` under the drag record `d`. */
  function DraggedBackgrounds(bs: seq<BackgroundImage>, d: DragState, p: Point): seq<BackgroundImage> {
    if DraggingBackground(d) then MoveBackgrounds(bs, d.draggedBackgroundId.value, DragTarget(d, p)) else bs
  }

  /**
   * A press at `p` followed by a move to the same `p` leaves every layer where it was,
   * provided layer ids are distinct; a press never records a malformed drag.
   */
  lemma PressThenMoveInPlace(ts: seq<TextElement>, bs: seq<BackgroundImage>, p: Point, measure: Measure, trig: Trig)
    requires UniqueTextIds(ts) && UniqueBackgroundIds(bs)
    ensures var d := PressDrag(ts, bs, p, measure, trig);
            DragWellFormed(d) && DraggedTexts(ts, d, p) == ts && DraggedBackgrounds(bs, d, p) == bs
  {
    var d := PressDrag(ts, bs, p, measure, trig);
    match TextAtPosition(ts, p, measure)
    case Some(t) =>
      TopmostIsTopmostHit(ts, TextHit(p, measure));
      var i :| 0 <= i < |ts| && ts[i] == t;
      assert DragTarget(d, p) == Point(t.x, t.y);
      MoveTextInPlace(ts, i);
    case None =>
      match BackgroundAtPosition(bs, p, trig)
      case Some(b) =>
        TopmostIsTopmostHit(bs, BackgroundHit(p, trig));
        var i :| 0 <= i < |bs| && bs[i] == b;
        assert DragTarget(d, p) == Point(b.x, b.y);
        MoveBackgroundInPlace(bs, i);
      case None =>
  }

  /** One step of getTextElementAtPosition: the widest line and the block height of one layer against the point. */
  method InTextBounds(t: TextElement, p: Point, measure: Measure) returns (inside: bool)
    ensures inside == TextContains(t, p, measure)
  {
    var lines := Split(t.text);
    var lineHeight := t.fontSize * 1.2;
    var totalHeight := BlockHeight(|lines|, lineHeight);
    var maxWidth := MeasureWidestLine(lines, FontOf(t), 0.0, measure);
    TextHitUnfolds(t, p, measure, maxWidth, totalHeight);
    inside := p.x >= t.x && p.x <= t.x + maxWidth && p.y >= t.y - t.fontSize && p.y <= t.y + totalHeight - t.fontSize;
  }

  /** One step of getBackgroundImageAtPosition: the point relative to the centre, turned by minus the rotation, against the half-extents. */
  method InRotatedBounds(b: BackgroundImage, p: Point, trig: Trig) returns (inside: bool)
    ensures inside == BackgroundContains(b, p, trig)
  {
    var centerX := b.x + b.width / 2.0;
    var centerY := b.y + b.height / 2.0;
    var cos := trig.cos(-b.rotation);
    var sin := trig.sin(-b.rotation);
    var dx := p.x - centerX;
    var dy := p.y - centerY;
    var rotatedX := dx * cos - dy * sin;
    var rotatedY := dx * sin + dy * cos;
    BackgroundHitUnfolds(b, p, trig, rotatedX, rotatedY);
    inside := rotatedX >= -b.width / 2.0 && rotatedX <= b.width / 2.0 &&
              rotatedY >= -b.height / 2.0 && rotatedY <= b.height / 2.0;
  }

  class EditorScreen {
    /** ctx.measureText of the browser. */
    const measure: Measure
    /** Math.cos / Math.sin, in degrees. */
    const trig: Trig

    var textElements: seq<TextElement>
    var selectedTextId: Option<Id>
    var isLoading: bool
    var canvasSize: Size
    var showTextEditor: bool
    var isExporting: bool
    var exportProgress: int
    var backgroundImages: seq<BackgroundImage>
    var selectedBackgroundId: Option<Id>
    /** Ids present in backgroundImageCache: the images whose onload has fired. */
    var loadedBackgrounds: set<Id>
    var showBackgroundControls: bool
    var dragState: DragState

    ghost predicate Valid()
      reads this
    {
      && DragWellFormed(dragState)
      && canvasSize.width > 0.0 && canvasSize.height > 0.0
      && exportProgress in Milestones
      && (!isExporting ==> exportProgress == 0)
    }

    /** The scene the renderer reads. */
    function CurrentFrame(): Frame
      reads this
    {
      Frame(textElements, backgroundImages, selectedTextId, selectedBackgroundId, loadedBackgrounds)
    }

    /** The editor as first shown: empty scene, nothing selected, 800 by 600, still loading. */
    constructor (measure: Measure, trig: Trig)
      ensures Valid()
      ensures this.measure == measure && this.trig == trig
      ensures textElements == [] && backgroundImages == [] && loadedBackgrounds == {}
      ensures selectedTextId == None && selectedBackgroundId == None
      ensures !showTextEditor && !showBackgroundControls && !isExporting && exportProgress == 0
      ensures isLoading && canvasSize == Size(800.0, 600.0) && dragState == NotDragging
    {
      this.measure := measure;
      this.trig := trig;
      textElements := [];
      selectedTextId := None;
      isLoading := true;
      canvasSize := Size(800.0, 600.0);
      showTextEditor := false;
      isExporting := false;
      exportProgress := 0;
      backgroundImages := [];
      selectedBackgroundId := None;
      loadedBackgrounds := {};
      showBackgroundControls := false;
      dragState := NotDragging;
    }

    /** loadImages, once both images have decoded: size the canvas to the photo and leave the loading state. */
    method LoadImages(originalWidth: real, originalHeight: real)
      requires Valid()
      requires originalWidth > 0.0 && originalHeight > 0.0
      modifies this`canvasSize, this`isLoading
      ensures Valid()
      ensures canvasSize == FitCanvas(originalWidth, originalHeight) && !isLoading
    {
      FitCanvasFits(originalWidth, originalHeight);
      canvasSize := FitCanvas(originalWidth, originalHeight);
      isLoading := false;
    }

    // ---------------------------------------------------------------- hit tests

    /** getTextElementAtPosition: scan from the last text layer down, measuring each layer's widest line. */
    method TextElementAtPosition(p: Point) returns (found: Option<TextElement>)
      ensures found == TextAtPosition(textElements, p, measure)
    {
      var ts := textElements;
      ghost var hit := TextHit(p, measure);
      var i := |ts| - 1;
      while i >= 0
        invariant -1 <= i < |ts|
        invariant TopmostIndex(ts, |ts|, hit) == TopmostIndex(ts, i + 1, hit)
      {
        var t := ts[i];
        var inside := InTextBounds(t, p, measure);
        if inside {
          return Some(t);
        }
        i := i - 1;
      }
      return None;
    }


    /** getBackgroundImageAtPosition: scan from the last background layer down, undoing each layer's rotation. */
    method BackgroundImageAtPosition(p: Point) returns (found: Option<BackgroundImage>)
      ensures found == BackgroundAtPosition(backgroundImages, p, trig)
    {
      var bs := backgroundImages;
      ghost var hit := BackgroundHit(p, trig);
      var i := |bs| - 1;
      while i >= 0
        invariant -1 <= i < |bs|
        invariant TopmostIndex(bs, |bs|, hit) == TopmostIndex(bs, i + 1, hit)
      {
        var b := bs[i];
        var inside := InRotatedBounds(b, p, trig);
        if inside {
          return Some(b);
        }
        i := i - 1;
      }
      return None;
    }


    // ---------------------------------------------------------------- rendering

    /** renderTextElement (on screen) or renderTextElementForExport. */
    method RenderTextElement(t: TextElement, mode: Mode) returns (ops: seq<DrawOp>)
      ensures ops == TextOps(t, mode, selectedTextId, measure)
    {
      var lineHeight := t.fontSize * 1.2;
      assert lineHeight == LineHeight(t);
      ops := [];
      if t.strokeWidth > 0.0 {
        var strokeOps, _, _ := RenderMultilineText(t.id, t.text, t.x, t.y, lineHeight, true);
        ops := strokeOps;
      }
      var fillOps, lines, totalHeight := RenderMultilineText(t.id, t.text, t.x, t.y, lineHeight, false);
      ops := ops + fillOps;
      if mode == Interactive && selectedTextId == Some(t.id) {
        var outline := RenderOutline(t, lines, totalHeight);
        ops := ops + [outline];
      }
    }

    /** The dashed selection outline of renderTextElement, from the lines and block height just drawn. */
    method RenderOutline(t: TextElement, lines: seq<string>, totalHeight: real) returns (op: DrawOp)
      requires lines == Split(t.text) && totalHeight == BlockHeight(|lines|, LineHeight(t))
      ensures op == TextOutline(t, measure)
    {
      var maxWidth := MeasureWidestLine(lines, FontOf(t), t.letterSpacing, measure);
      op := OutlineText(t.id, t.x - 5.0, t.y - t.fontSize - 5.0, maxWidth + 10.0, totalHeight + 10.0);
    }

    /** renderBackgroundImage (on screen) or renderBackgroundImageForExport. */
    method RenderBackgroundImage(b: BackgroundImage, mode: Mode) returns (ops: seq<DrawOp>)
      ensures ops == BackgroundOps(b, mode, selectedBackgroundId, loadedBackgrounds)
    {
      ops := [];
      if b.id in loadedBackgrounds {
        ops := [DrawBackground(b.id, Point(b.x + b.width / 2.0, b.y + b.height / 2.0), b.rotation,
                               b.width, b.height, b.opacity, mode == Export)];
        if mode == Interactive && selectedBackgroundId == Some(b.id) {
          ops := ops + [OutlineBackground(b.id, b.width, b.height)];
        }
      }
    }

    /** `backgroundImages.forEach(...)` of both renderers. */
    method DrawBackgrounds(mode: Mode) returns (ops: seq<DrawOp>)
      ensures ops == AllBackgroundOps(backgroundImages, mode, selectedBackgroundId, loadedBackgrounds)
    {
      ops := [];
      for i := 0 to |backgroundImages|
        invariant ops == AllBackgroundOps(backgroundImages[..i], mode, selectedBackgroundId, loadedBackgrounds)
      {
        assert backgroundImages[..i + 1][..i] == backgroundImages[..i];
        assert AllBackgroundOps(backgroundImages[..i + 1], mode, selectedBackgroundId, loadedBackgrounds) ==
               AllBackgroundOps(backgroundImages[..i], mode, selectedBackgroundId, loadedBackgrounds) +
               BackgroundOps(backgroundImages[i], mode, selectedBackgroundId, loadedBackgrounds);
        var one := RenderBackgroundImage(backgroundImages[i], mode);
        ops := ops + one;
      }
      assert backgroundImages[..|backgroundImages|] == backgroundImages;
    }

    /** `textElements.forEach(...)` of both renderers. */
    method DrawTexts(mode: Mode) returns (ops: seq<DrawOp>)
      ensures ops == AllTextOps(textElements, mode, selectedTextId, measure)
    {
      ops := [];
      for i := 0 to |textElements|
        invariant ops == AllTextOps(textElements[..i], mode, selectedTextId, measure)
      {
        assert textElements[..i + 1][..i] == textElements[..i];
        assert AllTextOps(textElements[..i + 1], mode, selectedTextId, measure) ==
               AllTextOps(textElements[..i], mode, selectedTextId, measure) + TextOps(textElements[i], mode, selectedTextId, measure);
        var one := RenderTextElement(textElements[i], mode);
        ops := ops + one;
      }
      assert textElements[..|textElements|] == textElements;
    }

    /** The layered draw shared by the screen and the export canvas: clear, photo, backgrounds, texts, cut-out. */
    method DrawFrame(mode: Mode) returns (ops: seq<DrawOp>)
      ensures ops == FrameOps(CurrentFrame(), mode, measure)
    {
      var backgrounds := DrawBackgrounds(mode);
      var texts := DrawTexts(mode);
      ops := [ClearRect, DrawOriginal] + backgrounds + texts + [DrawCutout];
    }

    /** renderCanvas: nothing until the photo and the cut-out have loaded. */
    method RenderCanvas() returns (ops: seq<DrawOp>)
      ensures ops == if isLoading then [] else FrameOps(CurrentFrame(), Interactive, measure)
    {
      if isLoading {
        return [];
      }
      ops := DrawFrame(Interactive);
    }

    // ---------------------------------------------------------------- text layers

    /** addTextElement: append the default "pov" layer, select it and open the text editor; the background selection is left as it was. */
    method AddTextElement(now: Id)
      requires Valid()
      modifies this`textElements, this`selectedTextId, this`showTextEditor
      ensures Valid()
      ensures textElements == old(textElements) + [DefaultText(now, canvasSize.width)]
      ensures selectedTextId == Some(now) && showTextEditor
    {
      var newText := DefaultText(now, canvasSize.width);
      textElements := textElements + [newText];
      selectedTextId := Some(newText.id);
      showTextEditor := true;
    }

    /** updateTextElement: merge the patch into every text layer carrying `id`. */
    method UpdateTextElement(id: Id, patch: TextPatch)
      requires Valid()
      modifies this`textElements
      ensures Valid()
      ensures textElements == UpdateTexts(old(textElements), id, patch)
    {
      textElements := UpdateTexts(textElements, id, patch);
    }

    /** deleteTextElement: drop the text layers carrying `id`, clear the text selection, close the text editor. */
    method DeleteTextElement(id: Id)
      requires Valid()
      modifies this`textElements, this`selectedTextId, this`showTextEditor
      ensures Valid()
      ensures textElements == RemoveTexts(old(textElements), id)
      ensures selectedTextId == None && !showTextEditor
    {
      textElements := RemoveTexts(textElements, id);
      selectedTextId := None;
      showTextEditor := false;
    }

    /** The window keydown listener: Delete removes the selected text only while the text editor is closed. */
    method KeyDown(key: string)
      requires Valid()
      modifies this`textElements, this`selectedTextId, this`showTextEditor
      ensures Valid()
      ensures if key == "Delete" && old(selectedTextId).Some? && !old(showTextEditor) then
                textElements == RemoveTexts(old(textElements), old(selectedTextId).value) &&
                selectedTextId == None && !showTextEditor
              else
                textElements == old(textElements) && selectedTextId == old(selectedTextId) &&
                showTextEditor == old(showTextEditor)
    {
      if key == "Delete" && selectedTextId.Some? && !showTextEditor {
        DeleteTextElement(selectedTextId.value);
      }
    }

    /** openTextEditor: only when a text layer is selected. */
    method OpenTextEditor()
      requires Valid()
      modifies this`showTextEditor
      ensures Valid()
      ensures showTextEditor == (old(showTextEditor) || selectedTextId.Some?)
    {
      if selectedTextId.Some? {
        showTextEditor := true;
      }
    }

    method CloseTextEditor()
      requires Valid()
      modifies this`showTextEditor
      ensures Valid() && !showTextEditor
    {
      showTextEditor := false;
    }

    // ---------------------------------------------------------------- background layers

    /** updateBackgroundImage: merge the patch into every background layer carrying `id`. */
    method UpdateBackgroundImage(id: Id, patch: BackgroundPatch)
      requires Valid()
      modifies this`backgroundImages
      ensures Valid()
      ensures backgroundImages == UpdateBackgrounds(old(backgroundImages), id, patch)
    {
      backgroundImages := UpdateBackgrounds(backgroundImages, id, patch);
    }

    /** deleteBackgroundImage: drop the layers carrying `id`, clear the background selection, close its controls. */
    method DeleteBackgroundImage(id: Id)
      requires Valid()
      modifies this`backgroundImages, this`selectedBackgroundId, this`showBackgroundControls
      ensures Valid()
      ensures backgroundImages == RemoveBackgrounds(old(backgroundImages), id)
      ensures selectedBackgroundId == None && !showBackgroundControls
    {
      backgroundImages := RemoveBackgrounds(backgroundImages, id);
      selectedBackgroundId := None;
      showBackgroundControls := false;
    }

    method OpenBackgroundControls()
      requires Valid()
      modifies this`showBackgroundControls
      ensures Valid()
      ensures showBackgroundControls == (old(showBackgroundControls) || selectedBackgroundId.Some?)
    {
      if selectedBackgroundId.Some? {
        showBackgroundControls := true;
      }
    }

    method CloseBackgroundControls()
      requires Valid()
      modifies this`showBackgroundControls
      ensures Valid() && !showBackgroundControls
    {
      showBackgroundControls := false;
    }

    /**
     * handleBackgroundImageSelect: validate the chosen file; an accepted file becomes a
     * new last background layer and is selected (the text selection is left as it was).
     * A rejection leaves the scene untouched.
     */
    method HandleBackgroundImageSelect(file: Option<FileInfo>, now: Id, url: string) returns (check: UploadCheck)
      requires Valid()
      modifies this`backgroundImages, this`selectedBackgroundId
      ensures Valid()
      ensures check == CheckBackgroundFile(file)
      ensures check.Accepted? ==>
                backgroundImages == old(backgroundImages) + [NewBackground(now, check.file, url)] &&
                selectedBackgroundId == Some(now)
      ensures !check.Accepted? ==>
                backgroundImages == old(backgroundImages) && selectedBackgroundId == old(selectedBackgroundId)
    {
      if file.None? {
        return NoFile;
      }
      var f := file.value;
      if !IsImageType(f) {
        return NotAnImage;
      }
      if f.size > MaxBackgroundBytes {
        return TooLarge;
      }
      var backgroundImage := NewBackground(now, f, url);
      backgroundImages := backgroundImages + [backgroundImage];
      selectedBackgroundId := Some(backgroundImage.id);
      return Accepted(f);
    }

    /** The image's onload callback: its id enters the cache, so the layer is drawn from now on. */
    method BackgroundImageLoaded(id: Id)
      requires Valid()
      modifies this`loadedBackgrounds
      ensures Valid()
      ensures loadedBackgrounds == old(loadedBackgrounds) + {id}
    {
      loadedBackgrounds := loadedBackgrounds + {id};
    }

    // ---------------------------------------------------------------- pointer machine

    /**
     * handleCanvasMouseDown: a text hit wins over a background hit. A text hit selects
     * the text, clears the background selection and starts a text drag (the text editor
     * is left as it was); a background hit selects it, clears the text selection, closes
     * the text editor and starts a background drag; a miss clears both selections, closes
     * the text editor and goes idle. The offset is the click minus the layer's (x, y).
     */
    method MouseDown(p: Point)
      requires Valid()
      modifies this`selectedTextId, this`selectedBackgroundId, this`showTextEditor, this`dragState
      ensures Valid()
      ensures selectedTextId.None? || selectedBackgroundId.None?
      ensures dragState == PressDrag(textElements, backgroundImages, p, measure, trig)
      ensures selectedTextId == dragState.draggedTextId && selectedBackgroundId == dragState.draggedBackgroundId
      ensures showTextEditor == (old(showTextEditor) && dragState.draggedTextId.Some?)
    {
      var clickedText := TextElementAtPosition(p);
      var clickedBackground := BackgroundImageAtPosition(p);
      Press(clickedText, clickedBackground, p);
    }

    /** The branches of handleCanvasMouseDown, given what the two hit tests found. */
    method Press(clickedText: Option<TextElement>, clickedBackground: Option<BackgroundImage>, p: Point)
      requires Valid()
      modifies this`selectedTextId, this`selectedBackgroundId, this`showTextEditor, this`dragState
      ensures Valid()
      ensures dragState == DragFor(clickedText, clickedBackground, p)
      ensures selectedTextId == dragState.draggedTextId && selectedBackgroundId == dragState.draggedBackgroundId
      ensures showTextEditor == (old(showTextEditor) && dragState.draggedTextId.Some?)
    {
      if clickedText.Some? {
        var t := clickedText.value;
        selectedBackgroundId := None;
        selectedTextId := Some(t.id);
        dragState := DragState(true, Point(p.x - t.x, p.y - t.y), Some(t.id), None);
      } else if clickedBackground.Some? {
        var b := clickedBackground.value;
        selectedTextId := None;
        showTextEditor := false;
        selectedBackgroundId := Some(b.id);
        dragState := DragState(true, Point(p.x - b.x, p.y - b.y), None, Some(b.id));
      } else {
        selectedTextId := None;
        selectedBackgroundId := None;
        showTextEditor := false;
        dragState := NotDragging;
      }
    }

    /**
     * handleCanvasMouseMove: while dragging, move the dragged layer(s) to the pointer minus
     * the offset and touch nothing else; otherwise only report the hover cursor.
     */
    method MouseMove(p: Point) returns (cursor: Option<Cursor>)
      requires Valid()
      modifies this`textElements, this`backgroundImages
      ensures Valid()
      ensures textElements == DraggedTexts(old(textElements), dragState, p)
      ensures backgroundImages == DraggedBackgrounds(old(backgroundImages), dragState, p)
      ensures cursor == if DraggingText(dragState) || DraggingBackground(dragState) then None
                        else Some(if TextAtPosition(textElements, p, measure).Some? ||
                                     BackgroundAtPosition(backgroundImages, p, trig).Some? then Grab else Crosshair)
    // A drag always names its layer, so during a drag a layer moves and no hover cursor is set.
    ensures dragState.isDragging <==> cursor.None?
    {
      var target := Point(p.x - dragState.dragOffset.x, p.y - dragState.dragOffset.y);
      if dragState.isDragging && dragState.draggedTextId.Some? {
        textElements := MoveTexts(textElements, dragState.draggedTextId.value, target);
        cursor := None;
      } else if dragState.isDragging && dragState.draggedBackgroundId.Some? {
        backgroundImages := MoveBackgrounds(backgroundImages, dragState.draggedBackgroundId.value, target);
        cursor := None;
      } else {
        var textAtPosition := TextElementAtPosition(p);
        var backgroundAtPosition := BackgroundImageAtPosition(p);
        cursor := Some(if textAtPosition.Some? || backgroundAtPosition.Some? then Grab else Crosshair);
      }
    }

    /** handleCanvasMouseUp: end any drag; the selection stays. */
    method MouseUp()
      requires Valid()
      modifies this`dragState
      ensures Valid() && dragState == NotDragging
    {
      dragState := NotDragging;
    }

    /** handleCanvasMouseLeave: the same as releasing the button. */
    method MouseLeave()
      requires Valid()
      modifies this`dragState
      ensures Valid() && dragState == NotDragging
    {
      dragState := NotDragging;
    }

    // ---------------------------------------------------------------- export

    /**
     * exportImage, up to the moment the download is issued. A call while an export is
     * still in flight (or before the canvas is mounted) does nothing. Otherwise the
     * progress runs through the milestones the environment lets it reach; a failure
     * resets it to 0 and ends the export, a success leaves it at 90 until the cleanup
     * timer fires. The export canvas is twice the editing canvas and is drawn with the
     * same layering as the screen, without outlines.
     */
    method ExportImage(canvasMounted: bool, env: ExportEnv)
      returns (progressLog: seq<int>, exportSize: Option<Size>, ops: seq<DrawOp>, download: Option<string>)
      requires Valid()
      modifies this`isExporting, this`exportProgress
      ensures Valid()
      ensures !canvasMounted || old(isExporting) ==>
                progressLog == [] && exportSize == None && ops == [] && download == None &&
                isExporting == old(isExporting) && exportProgress == old(exportProgress)
      ensures canvasMounted && !old(isExporting) ==>
                && progressLog == Milestones[..MilestonesReached(env)] + (if ExportFails(env) then [0] else [])
                && exportProgress == progressLog[|progressLog| - 1]
                && isExporting == !ExportFails(env)
                && exportSize == (if env.contextAvailable then Some(Size(2.0 * canvasSize.width, 2.0 * canvasSize.height)) else None)
                && ops == (if env.contextAvailable && env.imagesAvailable then FrameOps(CurrentFrame(), Export, measure) else [])
                && download == (if ExportFails(env) then None else Some(ExportFileName(env.isoTimestamp)))
    {
      if !canvasMounted || isExporting {
        return [], None, [], None;
      }
      progressLog, exportSize, ops, download := RunExport(env);
    }

    /** The body of exportImage once the guard has let it through: the `try` block and the `toBlob` callback. */
    method RunExport(env: ExportEnv)
      returns (progressLog: seq<int>, exportSize: Option<Size>, ops: seq<DrawOp>, download: Option<string>)
      requires Valid() && !isExporting
      modifies this`isExporting, this`exportProgress
      ensures Valid()
      ensures progressLog == Milestones[..MilestonesReached(env)] + (if ExportFails(env) then [0] else [])
      ensures exportProgress == progressLog[|progressLog| - 1]
      ensures isExporting == !ExportFails(env)
      ensures exportSize == (if env.contextAvailable then Some(Size(2.0 * canvasSize.width, 2.0 * canvasSize.height)) else None)
      ensures ops == (if env.contextAvailable && env.imagesAvailable then FrameOps(CurrentFrame(), Export, measure) else [])
      ensures download == (if ExportFails(env) then None else Some(ExportFileName(env.isoTimestamp)))
    {
      exportSize, ops, download := None, [], None;
      isExporting := true;
      exportProgress := 0;
      progressLog := [0];
      if !env.contextAvailable {
        isExporting := false;
        exportProgress := 0;
        progressLog := progressLog + [0];
        assert progressLog == Milestones[..1] + [0];
        return;
      }
      var scale := 2.0;
      exportSize := Some(Size(canvasSize.width * scale, canvasSize.height * scale));
      var steps;
      steps, ops, download := ExportSteps(env);
      assert Milestones[..MilestonesReached(env)] == [0] + Milestones[1..MilestonesReached(env)];
      progressLog := progressLog + steps;
    }

    /** What exportImage reports once the 2x context exists: 30, 50, 80, 90 as far as it gets, then 0 if it fails. */
    method ExportSteps(env: ExportEnv) returns (steps: seq<int>, ops: seq<DrawOp>, download: Option<string>)
      requires Valid() && isExporting && env.contextAvailable
      modifies this`isExporting, this`exportProgress
      ensures Valid()
      ensures steps == Milestones[1..MilestonesReached(env)] + (if ExportFails(env) then [0] else [])
      ensures exportProgress == steps[|steps| - 1]
      ensures isExporting == !ExportFails(env)
      ensures ops == (if env.imagesAvailable then FrameOps(CurrentFrame(), Export, measure) else [])
      ensures download == (if ExportFails(env) then None else Some(ExportFileName(env.isoTimestamp)))
    {
      steps := PrepareExport();
      if !env.imagesAvailable {
        isExporting := false;
        exportProgress := 0;
        steps := steps + [0];
        ops, download := [], None;
        assert steps == Milestones[1..3] + [0];
        return;
      }
      var encoded;
      encoded, ops, download := DrawAndEncode(env);
      if env.blobProduced {
        assert steps + encoded == Milestones[1..3] + Milestones[3..5];
        assert Milestones[1..3] + Milestones[3..5] == Milestones[1..5];
      } else {
        assert steps + encoded == Milestones[1..3] + Milestones[3..4] + [0];
        assert Milestones[1..3] + Milestones[3..4] == Milestones[1..4];
      }
      steps := steps + encoded;
    }

    /**
     * The middle of exportImage: the readiness wait (every cached background image is
     * already complete, so it ends at once), reported as 30, then a final on-screen
     * render, reported as 50.
     */
    method PrepareExport() returns (steps: seq<int>)
      requires Valid() && isExporting
      modifies this`exportProgress
      ensures Valid() && steps == Milestones[1..3] && exportProgress == steps[|steps| - 1]
    {
      exportProgress := 30;
      steps := [30];
      var _ := RenderCanvas();
      exportProgress := 50;
      steps := steps + [50];
    }

    /** The end of exportImage: the export frame is drawn (80), then `toBlob` either delivers the PNG (90) or fails (0). */
    method DrawAndEncode(env: ExportEnv) returns (steps: seq<int>, ops: seq<DrawOp>, download: Option<string>)
      requires Valid() && isExporting && env.contextAvailable && env.imagesAvailable
      modifies this`isExporting, this`exportProgress
      ensures Valid()
      ensures steps == Milestones[3..MilestonesReached(env)] + (if ExportFails(env) then [0] else [])
      ensures exportProgress == steps[|steps| - 1]
      ensures isExporting == !ExportFails(env)
      ensures ops == FrameOps(CurrentFrame(), Export, measure)
      ensures download == (if ExportFails(env) then None else Some(ExportFileName(env.isoTimestamp)))
    {
      ops := DrawFrame(Export);
      steps, download := EncodeFrame(env);
    }

    /** Encoding the drawn frame: 80 once drawn, then 90 and the download, or a reset to 0 with no blob. */
    method EncodeFrame(env: ExportEnv) returns (steps: seq<int>, download: Option<string>)
      requires Valid() && isExporting && env.contextAvailable && env.imagesAvailable
      modifies this`isExporting, this`exportProgress
      ensures Valid()
      ensures steps == Milestones[3..MilestonesReached(env)] + (if ExportFails(env) then [0] else [])
      ensures exportProgress == steps[|steps| - 1]
      ensures isExporting == !ExportFails(env)
      ensures download == (if ExportFails(env) then None else Some(ExportFileName(env.isoTimestamp)))
    {
      download := None;
      exportProgress := 80;
      steps := [80];
      var fileName := ExportFileName(env.isoTimestamp);
      if env.blobProduced {
        exportProgress := 90;
        steps := steps + [90];
        download := Some(fileName);
        assert Milestones[3..5] == [80, 90];
      } else {
        isExporting := false;
        exportProgress := 0;
        steps := steps + [0];
        assert Milestones[3..4] == [80];
      }
    }

    /** The cleanup timer after a download: the export is over and the progress returns to 0. */
    method FinishExport()
      requires Valid()
      modifies this`isExporting, this`exportProgress
      ensures Valid() && !isExporting && exportProgress == 0
    {
      isExporting := false;
      exportProgress := 0;
    }
  }

  /**
   * Pressing on a layer and moving the pointer to the same point leaves every layer where
   * it was (layer ids being distinct), and releasing ends the drag.
   */
  method PressMoveReleaseInPlace(e: EditorScreen, p: Point)
    requires e.Valid()
    requires UniqueTextIds(e.textElements) && UniqueBackgroundIds(e.backgroundImages)
    modifies e
    ensures e.Valid()
    ensures e.textElements == old(e.textElements) && e.backgroundImages == old(e.backgroundImages)
    ensures e.dragState == NotDragging
  {
    PressThenMoveInPlace(e.textElements, e.backgroundImages, p, e.measure, e.trig);
    e.MouseDown(p);
    var _ := e.MouseMove(p);
    e.MouseUp();
  }
}

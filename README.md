# Text Behind Image — a Dafny model of the editor and the app page

Text Behind Image lets a user pick a photo. The photo's background is removed, and
the user then places text layers (and extra background images) *between* the original
photo and the cut-out subject, so the subject seems to stand in front of the text.
This project models the two stateful parts of the web app and proves properties of them:

* the **editor screen** (`src/components/EditorScreen.tsx`): the scene of text layers
  and background layers; the handlers that add, patch and delete layers; the upload
  check for background images; the two hit tests (an axis-aligned box per text layer,
  a rotated rectangle per background layer); the pointer machine (press, move,
  release, leave); the layered draw order on screen and in the export; the export
  guard, progress milestones and file name; the fit of the photo into the 800 by 600 canvas;
* the **app page** (`src/app/app/page.tsx`): the upload → processing → editor state
  machine, with a processing error leading back to upload.

Layout:

| file | module | contents |
|---|---|---|
| `common.dfy` | `Common` | ids, `Option`, file metadata, the `image/` type test |
| `text_lines.dfy` | `TextLines` | JavaScript's `split('\n')`, its inverse `Join`, line counting |
| `list_ops.dfy` | `ListOps` | map-by-id, filter-by-id and the topmost-first scan, generic over the element type |
| `scene.dfy` | `Scene` | the layer records, partial updates, default layers, the upload check |
| `geometry.dfy` | `Geometry` | widest line, text hit box, rotated-rectangle test, canvas fit |
| `render.dfy` | `Render` | draw calls as a sequence of `DrawOp`s, and the stacking order |
| `export.dfy` | `Export` | download file name, progress milestones |
| `editor.dfy` | `Editor` | class `EditorScreen`: the component's state and handlers |
| `app_home.dfy` | `AppHome` | class `App`: the page's state and handlers; screen selection |

Each React handler becomes a method of a class whose fields are the component's
state variables. Each `prev.map` / `prev.filter` / spread update becomes a function
that the method assigns to the field. Each loop of the source becomes a `while` or
`for` loop proved equal to a specification function. The canvas is modelled by the
ordered list of draw calls a render issues.

Behaviours of the code a reader may not expect:

* Selections are not kept exclusive. `addTextElement` selects the new text and leaves the
  background selection alone; an accepted background upload selects the new image and
  leaves the text selection alone. Only a mouse-down guarantees that at most one is selected.
* A mouse-down on a text layer does not close the text editor (only background hits and misses do).
* The text hit box measures lines with the context's default letter spacing, because
  the renderer's `ctx.save()`/`ctx.restore()` resets `letterSpacing`. The on-screen
  selection outline measures them with the layer's own spacing.
  So for a positive spacing the hit box is narrower than the outline.
* A stroked text layer is filled twice. The stroking pass strokes and fills every line, and a
  second pass fills again.
* A successful export stays "in progress" (progress 90) until the cleanup timer fires,
  so a second export in that window is refused.

## Model

| member | source | states |
|---|---|---|
| TextLines.Split | src/components/EditorScreen.tsx:185 | `text.split('\n')` always yields at least one piece |
| TextLines.JoinSplit | src/components/EditorScreen.tsx:185 | joining the pieces with '\n' gives back the text: splitting loses nothing |
| TextLines.SplitCount | src/components/EditorScreen.tsx:699-701 | the number of lines is the number of line breaks plus one |
| TextLines.SplitPiecesHaveNoBreak | src/components/EditorScreen.tsx:185 | no piece contains a line break |
| ListOps.UpdateWhere | src/components/EditorScreen.tsx:417-421 | `prev.map(e => e.id === id ? f(e) : e)`: same length, matching elements replaced by f of themselves, all others unchanged |
| ListOps.RemoveWhere | src/components/EditorScreen.tsx:424-428 | `prev.filter(e => e.id !== id)`: keeps exactly the non-matching elements in order, shrinks by the number of matches, unchanged if none match |
| ListOps.TopmostIndex | src/components/EditorScreen.tsx:695-718 | the downward scan from index k-1 returns an index below k |
| ListOps.TopmostIndexIsTopmostHit | src/components/EditorScreen.tsx:695-718 | the scan returns nothing iff no element hits; otherwise the returned element hits and none above it does |
| ListOps.TopmostIsTopmostHit | src/components/EditorScreen.tsx:723-749 | the returned element is the last element of the list that hits; none iff no element hits |
| Scene.ApplyTextPatch | src/components/EditorScreen.tsx:419 | `{ ...textElement, ...updates }`: each of the twelve fields takes the patch's value when the patch carries it and keeps the layer's value otherwise |
| Scene.ApplyBackgroundPatch | src/components/EditorScreen.tsx:449 | `{ ...backgroundImage, ...updates }`: each of the ten fields takes the patch's value when the patch carries it and keeps the layer's value otherwise |
| Scene.ApplyTextPatchIdempotent | src/components/EditorScreen.tsx:417-421 | applying the same text patch twice is the same as once, and an empty patch changes nothing |
| Scene.ApplyBackgroundPatchIdempotent | src/components/EditorScreen.tsx:447-451 | the same two laws for background patches |
| Scene.DefaultText | src/components/EditorScreen.tsx:395-411 | the new text layer reads "pov", sits at (canvas width / 2, 60), 48px, opacity 1, no stroke, no letter spacing |
| Scene.NewBackground | src/components/EditorScreen.tsx:486-498 | the new background layer holds the file, sits at (0, 0), 200 by 200, opacity 1, rotation 0 |
| Scene.CheckBackgroundFile | src/components/EditorScreen.tsx:469-484 | a file is accepted iff present, of an image type and at most 10 MiB; an image over 10 MiB is refused as too large |
| Scene.SizeLimitIsInclusive | src/components/EditorScreen.tsx:480 | exactly 10485760 bytes is accepted, one byte more is refused, and a text/plain file is refused as not an image |
| Geometry.WidestLine | src/components/EditorScreen.tsx:706-710 | the widest-line accumulator is non-negative, at least every line's width, and either 0 or one line's width |
| Geometry.MeasureWidestLine | src/components/EditorScreen.tsx:706-710 | the `maxWidth` loop computes the widest line |
| Geometry.TextHitBox | src/components/EditorScreen.tsx:698-713 | the box the text scan tests: left edge x, top edge y − font size, as wide as the widest line (so never inverted and at least every line's width), as tall as (breaks + 1) line heights |
| Geometry.TextHitBoxShape | src/components/EditorScreen.tsx:698-716 | a point hits a text layer iff x ≤ px ≤ x + widest line and y − size ≤ py ≤ y + (breaks + 1)·lineHeight − size |
| Geometry.HitBoxIgnoresLetterSpacing | src/components/EditorScreen.tsx:696-710 | a layer's letter spacing never changes which points hit it |
| Geometry.SingleLineHitBox | src/components/EditorScreen.tsx:698-716 | a one-line layer is hit within its text width, from one font size above the baseline to 0.2 font sizes below |
| Geometry.BackgroundContains | src/components/EditorScreen.tsx:727-746 | the rotated-rectangle test: only a layer with non-negative width and height is ever hit, and such a layer is always hit at its centre, whatever its rotation |
| Geometry.UnrotatedBackgroundIsRectangle | src/components/EditorScreen.tsx:723-748 | at rotation 0 the background test is exactly the rectangle [x, x+w] × [y, y+h] |
| Geometry.HitTestInvertsRenderRotation | src/components/EditorScreen.tsx:723-748 | undoing the rotation maps each drawn point back to its place in the image, so a drawn point hits iff it lies on the drawn image |
| Geometry.QuarterTurnHit | src/components/EditorScreen.tsx:723-748 | a 100×100 layer at the origin turned 90° is drawn and hit at (0, 60) |
| Geometry.FitCanvas | src/components/EditorScreen.tsx:111-127 | the fitted canvas lies within 800×600, is positive and keeps the photo's aspect ratio |
| Geometry.FitCanvasFits | src/components/EditorScreen.tsx:110-128 | the fit changes no more than it must: a photo that fits is kept, otherwise a limit is reached |
| Render.LineOpsLength | src/components/EditorScreen.tsx:177-198 | a multi-line pass issues one call per line, two when stroking |
| Render.LineOpsAt | src/components/EditorScreen.tsx:177-198 | line k is filled (and stroked, when stroking) at baseline y + k·lineHeight, in line order |
| Render.RenderMultilineText | src/components/EditorScreen.tsx:177-198 | the `currentY` loop issues exactly those calls and returns the lines and their total height |
| Render.TextOps | src/components/EditorScreen.tsx:200-290 | the calls for one text layer: the stroking pass when the stroke width is positive, the fill pass, and the outline for the selected layer on screen; the layout is stated by TextOpsLayout, the size by TextOpsCount and each line's calls by LineOpsAt |
| Render.TextOpsCount | src/components/EditorScreen.tsx:200-257 | per text layer: 3n calls with a stroke (stroke + two fills per line), n without, plus one outline if selected on screen |
| Render.TextOpsLayout | src/components/EditorScreen.tsx:200-290 | a text layer's calls are the stroking pass, present exactly when the stroke width is positive, then the non-empty fill pass, then, only for the layer selected on screen, `TextOutline` as the last call |
| Render.BackgroundOps | src/components/EditorScreen.tsx:293-371 | no call for a layer whose image has not loaded; otherwise the image of that layer, high quality exactly in export, followed by the layer's outline (`OutlineBackground` of its id and size) exactly when it is selected on screen (at most two calls) |
| Render.FrameOps | src/components/EditorScreen.tsx:156-173 | a frame starts by clearing and drawing the photo and ends with the cut-out |
| Render.StackingOrder | src/components/EditorScreen.tsx:146-174 | along a frame the layer ranks never decrease (clear and photo, then backgrounds, then texts, then the cut-out), so every background is drawn before every text and nothing is drawn over the cut-out |
| Render.BackgroundLayersDrawn | src/components/EditorScreen.tsx:293-336 | the background pass draws exactly the loaded layers, each once, in list order; unloaded layers are skipped |
| Render.BackgroundsDrawnInListOrder | src/components/EditorScreen.tsx:146-174 | the images a whole frame draws are exactly the loaded background layers in list order |
| Render.TextOpsDrawNoBackground | src/components/EditorScreen.tsx:200-257 | the text pass draws no background image |
| Render.DrawnBackgroundIdsAppend | src/components/EditorScreen.tsx:163-165 | the images drawn by two passes in a row are those of the first, then those of the second |
| Render.AllTextOpsAppend | src/components/EditorScreen.tsx:167-170 | the text pass over two lists in a row is the pass over the first, then the pass over the second |
| Render.TextsDrawnInListOrder | src/components/EditorScreen.tsx:167-170 | text layers are painted in list order: layer k's calls come after those of every earlier layer and before those of every later one |
| Render.ExportHasNoOutlines | src/components/EditorScreen.tsx:260-290 | an export frame contains no selection outline, whatever is selected |
| Render.ExportTextsNoOutline | src/components/EditorScreen.tsx:260-290 | the export text pass draws no outline |
| Render.ExportBackgroundsNoOutline | src/components/EditorScreen.tsx:339-371 | the export background pass draws no outline |
| Export.ExportFileName | src/components/EditorScreen.tsx:636-637 | the name is "text-behind-image-", at most 19 characters of stamp, then ".png" |
| Export.ExportFileNameShape | src/components/EditorScreen.tsx:636-637 | each stamp character is the timestamp's, with ':' and '.' turned to '-', so the stamp holds neither |
| Export.ExportFileNameExample | src/components/EditorScreen.tsx:636-637 | 2024-05-06T07:08:09.123Z names the file text-behind-image-2024-05-06T07-08-09.png |
| Export.MilestonesReached | src/components/EditorScreen.tsx:520-668 | a run reaches between one and all five milestones, all five exactly when it succeeds; with a context it passes 30, and with the images too it passes 80 |
| Export.ProgressIsMonotone | src/components/EditorScreen.tsx:520-669 | the progress values rise strictly through 0, 30, 50, 80, 90; a failed run ends at 0 and a run ends at 90 iff it succeeds |
| Editor.TextHitUnfolds | src/components/EditorScreen.tsx:712-716 | the comparison written in the text scan is the text hit box |
| Editor.BackgroundHitUnfolds | src/components/EditorScreen.tsx:741-746 | the comparison written in the background scan is the rotated-rectangle test |
| Editor.MoveTextInPlace | src/components/EditorScreen.tsx:805-815 | with distinct ids, moving a text layer to where it is changes nothing |
| Editor.MoveBackgroundInPlace | src/components/EditorScreen.tsx:816-827 | with distinct ids, moving a background layer to where it is changes nothing |
| Editor.PressThenMoveInPlace | src/components/EditorScreen.tsx:752-835 | with distinct ids, the drag record a press makes, applied at the same point, moves no text layer and no background layer, and the record is well formed |
| Editor.InTextBounds | src/components/EditorScreen.tsx:696-716 | one step of the text scan: the computed comparison holds iff the point is in the layer's hit box |
| Editor.InRotatedBounds | src/components/EditorScreen.tsx:723-748 | one step of the background scan: the computed comparison holds iff the point is in the layer's rotated rectangle |
| Editor.PressMoveReleaseInPlace | src/components/EditorScreen.tsx:752-855 | press, move to the same point and release: no layer moves and the drag ends |
| Editor.DragFor | src/components/EditorScreen.tsx:757-795 | the record a press installs is well formed; it drags iff something was hit; a text hit wins; the press point minus the offset is the pressed layer's own (x, y) |
| Editor.EditorScreen.constructor | src/components/EditorScreen.tsx:63-87 | the editor starts empty, with nothing selected, 800×600, loading and idle |
| Editor.EditorScreen.LoadImages | src/components/EditorScreen.tsx:90-131 | the canvas takes the fitted size of the photo and loading ends |
| Editor.EditorScreen.TextElementAtPosition | src/components/EditorScreen.tsx:687-719 | the scan returns the topmost text layer whose box holds the point, or none |
| Editor.EditorScreen.BackgroundImageAtPosition | src/components/EditorScreen.tsx:721-750 | the scan returns the topmost background layer whose rotated rectangle holds the point, or none |
| Editor.EditorScreen.RenderTextElement | src/components/EditorScreen.tsx:200-290 | the calls for one text layer, on screen or for export |
| Editor.EditorScreen.RenderBackgroundImage | src/components/EditorScreen.tsx:293-371 | the calls for one background layer: none unless loaded, high quality in export, outline only on screen when selected |
| Editor.EditorScreen.DrawBackgrounds | src/components/EditorScreen.tsx:162-165 | the background loop issues the background pass of the current scene |
| Editor.EditorScreen.DrawTexts | src/components/EditorScreen.tsx:167-170 | the text loop issues the text pass of the current scene |
| Editor.EditorScreen.DrawFrame | src/components/EditorScreen.tsx:156-173 | one frame of the current scene, in stacking order |
| Editor.EditorScreen.RenderCanvas | src/components/EditorScreen.tsx:146-174 | nothing while loading, otherwise the on-screen frame |
| Editor.EditorScreen.AddTextElement | src/components/EditorScreen.tsx:395-414 | exactly one default layer is appended, selected, and the text editor opens |
| Editor.EditorScreen.UpdateTextElement | src/components/EditorScreen.tsx:417-421 | the patch is merged into the layers with that id; order, length and other layers unchanged |
| Editor.EditorScreen.DeleteTextElement | src/components/EditorScreen.tsx:424-428 | the layers with that id are removed, the text selection clears and the text editor closes |
| Editor.EditorScreen.KeyDown | src/components/EditorScreen.tsx:381-392 | Delete removes the selected text only when one is selected and the text editor is closed; otherwise nothing changes |
| Editor.EditorScreen.OpenTextEditor | src/components/EditorScreen.tsx:431-435 | the text editor opens only when a text layer is selected |
| Editor.EditorScreen.CloseTextEditor | src/components/EditorScreen.tsx:438-440 | the text editor is closed |
| Editor.EditorScreen.UpdateBackgroundImage | src/components/EditorScreen.tsx:447-451 | the patch is merged into the background layers with that id; all else unchanged |
| Editor.EditorScreen.DeleteBackgroundImage | src/components/EditorScreen.tsx:453-457 | the background layers with that id are removed, the selection clears and the controls close |
| Editor.EditorScreen.OpenBackgroundControls | src/components/EditorScreen.tsx:459-463 | the controls open only when a background layer is selected |
| Editor.EditorScreen.CloseBackgroundControls | src/components/EditorScreen.tsx:465-467 | the controls are closed |
| Editor.EditorScreen.HandleBackgroundImageSelect | src/components/EditorScreen.tsx:469-517 | a file passing the check becomes one new last layer and is selected; a refused file leaves layers and selection untouched |
| Editor.EditorScreen.BackgroundImageLoaded | src/components/EditorScreen.tsx:501-505 | once an image has loaded its layer is in the cache and is drawn |
| Editor.EditorScreen.MouseDown | src/components/EditorScreen.tsx:752-796 | the drag record is the one the topmost text hit, else the topmost background hit, calls for (PressDrag); the selections are the dragged ids, so at most one layer is selected; the text editor stays open only on a text hit |
| Editor.EditorScreen.Press | src/components/EditorScreen.tsx:757-795 | given the two hit-test results: a text hit wins over a background hit; each case sets the selections, the editor and the drag record (offset from the layer's corner) as the source does |
| Editor.EditorScreen.MouseMove | src/components/EditorScreen.tsx:799-835 | while dragging, only the layers with the dragged id move, to the pointer minus the offset (DraggedTexts, DraggedBackgrounds); otherwise no layer moves and the cursor is grab over a layer, crosshair elsewhere; a hover cursor is set exactly when no drag is in progress, because a drag always names its layer |
| Editor.EditorScreen.MouseUp | src/components/EditorScreen.tsx:838-845 | the drag ends (idle record); selections are untouched |
| Editor.EditorScreen.MouseLeave | src/components/EditorScreen.tsx:848-855 | the same as releasing the button |
| Editor.EditorScreen.ExportImage | src/components/EditorScreen.tsx:520-669 | refused while exporting or unmounted, with nothing changed; otherwise what RunExport states |
| Editor.EditorScreen.RunExport | src/components/EditorScreen.tsx:524-668 | the milestones reached, a 2× canvas, the export frame without outlines, the file name, and a reset to 0 on failure; success leaves the export running at 90 |
| Editor.EditorScreen.ExportSteps | src/components/EditorScreen.tsx:548-661 | after the context is made: 30, 50, then 0 if the images are missing, else the drawing and encoding steps |
| Editor.EditorScreen.PrepareExport | src/components/EditorScreen.tsx:548-585 | the readiness wait and the final on-screen render report 30 then 50 |
| Editor.EditorScreen.DrawAndEncode | src/components/EditorScreen.tsx:603-661 | the export draws the full frame in export mode, then reports the encoding steps |
| Editor.EditorScreen.EncodeFrame | src/components/EditorScreen.tsx:632-661 | 80 once drawn, then 90 with the download name if a blob is produced, else 0 and the export ends |
| Editor.EditorScreen.FinishExport | src/components/EditorScreen.tsx:647-655 | the cleanup timer ends the export and resets the progress to 0 |
| AppHome.ScreenFor | src/app/app/page.tsx:46-63 | processing screen iff processing with a file, editor iff editor with images, else upload; the banner shows the error iff it is non-empty |
| AppHome.ScreenFollowsState | src/app/app/page.tsx:46-109 | with the fields the handlers keep consistent, the screen shown is exactly the one the state names |
| AppHome.App.constructor | src/app/app/page.tsx:17-20 | the page starts on upload with no file, no images and no error |
| AppHome.App.HandleFileSelect | src/app/app/page.tsx:23-30 | an image file is stored, the state becomes processing and the error clears; no file or another type changes nothing |
| AppHome.App.HandleProcessingComplete | src/app/app/page.tsx:36-39 | both images are stored and the editor is shown |
| AppHome.App.HandleProcessingError | src/app/app/page.tsx:41-44 | the message is recorded and the upload screen shows it; the selected file stays |
| AppHome.RetryAfterError | src/app/app/page.tsx:23-44 | choose, fail, choose again, succeed: the editor shows the new images and the error is gone |

## Left out

- Canvas pixels are not modelled: `drawImage`, `fillText`, `strokeText`, fonts, colours, alpha, dashes and image smoothing. A render is its ordered list of draw calls.
- `ctx.measureText` is a browser call. It is the editor's `measure` parameter, and nothing is assumed about it.
- `Math.cos`/`Math.sin` are the editor's `trig` parameter, taking degrees. Lemmas that need a trigonometric fact state it as a requirement. `Math.PI` and floating-point rounding are not modelled; numbers are reals.
- Editor.EditorScreen.LoadImages: the `Math.round` of the fitted size is not modelled, and the photo's dimensions must be positive. For a zero dimension the source divides by zero.
- Image decoding, `Promise.all`/`Promise.race`, the 5 s and 10 s waits and the 50 ms / 100 ms pauses are asynchronous and are not modelled. An image enters the cache only from its `onload`, so every cached image is complete and the export's readiness wait finishes at once.
- Editor.EditorScreen.ExportImage: `toBlob`, object URLs, the download click, `alert`, `console` output and the 500 ms cleanup are not modelled. Whether the context, the images and the blob are available is part of the `env` argument. The cleanup is the separate `FinishExport`. The per-layer `try`/`catch` is left out because the modelled layer renders cannot throw. The screen frame redrawn during export (`PrepareExport`) is computed and dropped.
- `getCanvasMousePos`, the DOM scaling from client to canvas coordinates, is not modelled; handlers receive canvas coordinates. The text scan's null guards on canvas and context are left out, because the canvas is mounted while the editor is shown.
- Ids are `Date.now().toString()` in the source; here they are naturals (the millisecond clock is the `now` parameter). Two layers created in the same millisecond share an id. The model allows that, and update, delete and drag act on every layer with the id.
- Object URLs for background files are the `url` parameter. The optional `isDragging`/`isSelected` record fields are never read by the source; `isSelected` is kept with its initial value, and `isDragging` is dropped.
- React batching and stale closures are not modelled; each handler reads the current state.
- `renderCanvas`'s dependency list (src/components/EditorScreen.tsx:174) names `renderBackgroundImage` and `renderTextElement`, which are declared further down (:293, :200). Under native `const` semantics every render of the editor would raise a temporal-dead-zone `ReferenceError`. Compiled to `var`, the callback would depend only on the two lists, so a selection change or a finished background load would not redraw until a list changes. The model sets both outcomes aside: every redraw reads the current scene, as if the two callbacks were declared before `renderCanvas`.
- `src/components/ProcessingScreen.tsx` (background removal, local storage, timed progress stages), `src/components/TextEditingToolbar.tsx` (form controls that forward partial updates), the landing page, `next.config.mjs` and all JSX markup are not part of this model.
- Processing itself is not modelled: `HandleProcessingComplete` and `HandleProcessingError` are the callbacks the processing screen invokes, with its results as arguments.

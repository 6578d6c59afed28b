/**
 * The editor's layer records, the partial updates the property editors send,
 * the defaults a new layer gets, and the checks an uploaded background file must pass.
 */
module Scene {
  import opened Common
  import opened ListOps

  /** A point in canvas coordinates. */
  datatype Point = Point(x: real, y: real)

  /** A text layer; (x, y) is the baseline of its first line. */
  datatype TextElement = TextElement(
    id: Id, text: string, x: real, y: real,
    fontSize: real, fontFamily: string, fontWeight: string, color: string,
    opacity: real, letterSpacing: real, strokeWidth: real, strokeColor: string)

  /** A background-image layer; (x, y) is its top-left corner before rotation, rotation is in degrees. */
  datatype BackgroundImage = BackgroundImage(
    id: Id, file: FileInfo, url: string, x: real, y: real,
    width: real, height: real, opacity: real, rotation: real, isSelected: bool)

  function TextId(t: TextElement): Id { t.id }
  function BackgroundId(b: BackgroundImage): Id { b.id }

  /** `Partial<TextElement>`: each present field overrides the layer's own. */
  datatype TextPatch = TextPatch(
    id: Option<Id>, text: Option<string>, x: Option<real>, y: Option<real>,
    fontSize: Option<real>, fontFamily: Option<string>, fontWeight: Option<string>, color: Option<string>,
    opacity: Option<real>, letterSpacing: Option<real>, strokeWidth: Option<real>, strokeColor: Option<string>)

  /** `Partial<BackgroundImage>`. */
  datatype BackgroundPatch = BackgroundPatch(
    id: Option<Id>, file: Option<FileInfo>, url: Option<string>, x: Option<real>, y: Option<real>,
    width: Option<real>, height: Option<real>, opacity: Option<real>, rotation: Option<real>,
    isSelected: Option<bool>)

  function Pick<T>(patch: Option<T>, current: T): T {
    match patch
    case Some(v) => v
    case None => current
  }

  /** `{ ...t, ...patch }`: every field the patch carries takes the patch's value, every other keeps the layer's. */
  function ApplyTextPatch(t: TextElement, p: TextPatch): (r: TextElement)
    ensures p.id.Some? ==> r.id == p.id.value
    ensures p.id.None? ==> r.id == t.id
    ensures p.text.Some? ==> r.text == p.text.value
    ensures p.text.None? ==> r.text == t.text
    ensures p.x.Some? ==> r.x == p.x.value
    ensures p.x.None? ==> r.x == t.x
    ensures p.y.Some? ==> r.y == p.y.value
    ensures p.y.None? ==> r.y == t.y
    ensures p.fontSize.Some? ==> r.fontSize == p.fontSize.value
    ensures p.fontSize.None? ==> r.fontSize == t.fontSize
    ensures p.fontFamily.Some? ==> r.fontFamily == p.fontFamily.value
    ensures p.fontFamily.None? ==> r.fontFamily == t.fontFamily
    ensures p.fontWeight.Some? ==> r.fontWeight == p.fontWeight.value
    ensures p.fontWeight.None? ==> r.fontWeight == t.fontWeight
    ensures p.color.Some? ==> r.color == p.color.value
    ensures p.color.None? ==> r.color == t.color
    ensures p.opacity.Some? ==> r.opacity == p.opacity.value
    ensures p.opacity.None? ==> r.opacity == t.opacity
    ensures p.letterSpacing.Some? ==> r.letterSpacing == p.letterSpacing.value
    ensures p.letterSpacing.None? ==> r.letterSpacing == t.letterSpacing
    ensures p.strokeWidth.Some? ==> r.strokeWidth == p.strokeWidth.value
    ensures p.strokeWidth.None? ==> r.strokeWidth == t.strokeWidth
    ensures p.strokeColor.Some? ==> r.strokeColor == p.strokeColor.value
    ensures p.strokeColor.None? ==> r.strokeColor == t.strokeColor
  {
    TextElement(
      Pick(p.id, t.id), Pick(p.text, t.text), Pick(p.x, t.x), Pick(p.y, t.y),
      Pick(p.fontSize, t.fontSize), Pick(p.fontFamily, t.fontFamily), Pick(p.fontWeight, t.fontWeight),
      Pick(p.color, t.color), Pick(p.opacity, t.opacity), Pick(p.letterSpacing, t.letterSpacing),
      Pick(p.strokeWidth, t.strokeWidth), Pick(p.strokeColor, t.strokeColor))
  }

  /** `{ ...b, ...patch }`: every field the patch carries takes the patch's value, every other keeps the layer's. */
  function ApplyBackgroundPatch(b: BackgroundImage, p: BackgroundPatch): (r: BackgroundImage)
    ensures p.id.Some? ==> r.id == p.id.value
    ensures p.id.None? ==> r.id == b.id
    ensures p.file.Some? ==> r.file == p.file.value
    ensures p.file.None? ==> r.file == b.file
    ensures p.url.Some? ==> r.url == p.url.value
    ensures p.url.None? ==> r.url == b.url
    ensures p.x.Some? ==> r.x == p.x.value
    ensures p.x.None? ==> r.x == b.x
    ensures p.y.Some? ==> r.y == p.y.value
    ensures p.y.None? ==> r.y == b.y
    ensures p.width.Some? ==> r.width == p.width.value
    ensures p.width.None? ==> r.width == b.width
    ensures p.height.Some? ==> r.height == p.height.value
    ensures p.height.None? ==> r.height == b.height
    ensures p.opacity.Some? ==> r.opacity == p.opacity.value
    ensures p.opacity.None? ==> r.opacity == b.opacity
    ensures p.rotation.Some? ==> r.rotation == p.rotation.value
    ensures p.rotation.None? ==> r.rotation == b.rotation
    ensures p.isSelected.Some? ==> r.isSelected == p.isSelected.value
    ensures p.isSelected.None? ==> r.isSelected == b.isSelected
  {
    BackgroundImage(
      Pick(p.id, b.id), Pick(p.file, b.file), Pick(p.url, b.url), Pick(p.x, b.x), Pick(p.y, b.y),
      Pick(p.width, b.width), Pick(p.height, b.height), Pick(p.opacity, b.opacity),
      Pick(p.rotation, b.rotation), Pick(p.isSelected, b.isSelected))
  }

  /** Applying a patch twice is applying it once, and a patch with no fields changes nothing. */
  lemma ApplyTextPatchIdempotent(t: TextElement, p: TextPatch)
    ensures ApplyTextPatch(ApplyTextPatch(t, p), p) == ApplyTextPatch(t, p)
    ensures ApplyTextPatch(t, TextPatch(None, None, None, None, None, None, None, None, None, None, None, None)) == t
  {
  }

  /** The same two laws for background patches. */
  lemma ApplyBackgroundPatchIdempotent(b: BackgroundImage, p: BackgroundPatch)
    ensures ApplyBackgroundPatch(ApplyBackgroundPatch(b, p), p) == ApplyBackgroundPatch(b, p)
    ensures ApplyBackgroundPatch(b, BackgroundPatch(None, None, None, None, None, None, None, None, None, None)) == b
  {
  }

  /** `textElements.map(...)` of updateTextElement. */
  function UpdateTexts(ts: seq<TextElement>, id: Id, p: TextPatch): seq<TextElement> {
    UpdateWhere(ts, TextId, id, t => ApplyTextPatch(t, p))
  }

  /** `textElements.filter(...)` of deleteTextElement. */
  function RemoveTexts(ts: seq<TextElement>, id: Id): seq<TextElement> {
    RemoveWhere(ts, TextId, id)
  }

  /** `backgroundImages.map(...)` of updateBackgroundImage. */
  function UpdateBackgrounds(bs: seq<BackgroundImage>, id: Id, p: BackgroundPatch): seq<BackgroundImage> {
    UpdateWhere(bs, BackgroundId, id, b => ApplyBackgroundPatch(b, p))
  }

  /** `backgroundImages.filter(...)` of deleteBackgroundImage. */
  function RemoveBackgrounds(bs: seq<BackgroundImage>, id: Id): seq<BackgroundImage> {
    RemoveWhere(bs, BackgroundId, id)
  }

  /** Text layers matching `id` moved to `pos`, as a text drag does. */
  function MoveTexts(ts: seq<TextElement>, id: Id, pos: Point): seq<TextElement> {
    UpdateWhere(ts, TextId, id, (t: TextElement) => t.(x := pos.x, y := pos.y))
  }

  /** Background layers matching `id` moved to `pos`, as a background drag does. */
  function MoveBackgrounds(bs: seq<BackgroundImage>, id: Id, pos: Point): seq<BackgroundImage> {
    UpdateWhere(bs, BackgroundId, id, (b: BackgroundImage) => b.(x := pos.x, y := pos.y))
  }

  /** The layer "Add Text" creates: "pov", centred horizontally, 60px from the top, 48px white Arial. */
  function DefaultText(id: Id, canvasWidth: real): (t: TextElement)
    ensures t.id == id && t.text == "pov" && t.x == canvasWidth / 2.0 && t.y == 60.0
    ensures t.fontSize == 48.0 && t.opacity == 1.0 && t.strokeWidth == 0.0 && t.letterSpacing == 0.0
  {
    TextElement(id, "pov", canvasWidth / 2.0, 60.0, 48.0, "Arial, sans-serif", "400",
                "#ffffff", 1.0, 0.0, 0.0, "#000000")
  }

  /** The layer an accepted upload creates: top-left corner at the origin, 200 by 200, opaque, unrotated. */
  function NewBackground(id: Id, file: FileInfo, url: string): (b: BackgroundImage)
    ensures b.id == id && b.file == file && b.x == 0.0 && b.y == 0.0
    ensures b.width == 200.0 && b.height == 200.0 && b.opacity == 1.0 && b.rotation == 0.0
  {
    BackgroundImage(id, file, url, 0.0, 0.0, 200.0, 200.0, 1.0, 0.0, false)
  }

  /** Largest accepted background upload, in bytes (10 MiB). */
  const MaxBackgroundBytes: nat := 10 * 1024 * 1024

  /** Outcome of validating a background upload; the rejections are the two alerts. */
  datatype UploadCheck = NoFile | NotAnImage | TooLarge | Accepted(file: FileInfo)

  /** The validation steps of handleBackgroundImageSelect, in their order. */
  function CheckBackgroundFile(file: Option<FileInfo>): (r: UploadCheck)
    ensures r.Accepted? <==> file.Some? && IsImageType(file.value) && file.value.size <= MaxBackgroundBytes
    ensures r.Accepted? ==> r.file == file.value
    ensures r == TooLarge <==> file.Some? && IsImageType(file.value) && file.value.size > MaxBackgroundBytes
  {
    match file
    case None => NoFile
    case Some(f) =>
      if !IsImageType(f) then NotAnImage
      else if f.size > MaxBackgroundBytes then TooLarge
      else Accepted(f)
  }

  /** The size limit is inclusive: exactly 10 MiB passes, one byte more does not. */
  lemma SizeLimitIsInclusive(name: string)
    ensures CheckBackgroundFile(Some(FileInfo(name, "image/png", 10485760))).Accepted?
    ensures CheckBackgroundFile(Some(FileInfo(name, "image/png", 10485761))) == TooLarge
    ensures CheckBackgroundFile(Some(FileInfo(name, "text/plain", 1))) == NotAnImage
  {
    assert StartsWith("image/png", "image/");
    assert "text/plain"[..6][0] != "image/"[0];
  }
}

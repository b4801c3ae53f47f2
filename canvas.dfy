/**
 * The drawing and media collaborators that the prediction wrappers call, reduced to
 * what the wrappers depend on. An image is its shape plus opaque contents: the picture
 * it started from and the marks drawn on it, in drawing order. Pixel values, fonts and
 * blending are not modelled; the marks are the log of the drawing calls.
 */
module Canvas {
  import opened Wrappers

  /** A colour: an RGB triple supplied by the caller, or entry `index` of the default
      palette generated for `count` classes (the palette itself is not modelled). */
  datatype Color = Rgb(r: int, g: int, b: int) | Palette(count: nat, index: nat)

  /** A box row in floating-point pixel coordinates `[x1, y1, x2, y2]`. */
  datatype BoxF = BoxF(x1: real, y1: real, x2: real, y2: real)

  /** A box in integer pixel coordinates, as handed to the box renderer. */
  datatype Box = Box(x1: int, y1: int, x2: int, y2: int)

  /** The text written next to a box: a class name followed by a space and an optional
      score (predictions), or a class name alone (ground truth). */
  datatype Title = Scored(name: string, score: Option<real>) | Plain(name: string)

  /** One call of a drawing primitive, as recorded on the image it drew on. */
  datatype Mark =
    | BoxMark(classId: nat, title: Title, color: Color, thickness: Option<nat>, box: Box)
    | LabelMark(text: string, confidence: real)
    | MaskOverlay(mask: seq<seq<int>>, numClasses: nat, alpha: real, colors: seq<Color>, classNames: seq<string>)
    | Pasted(top: nat, left: nat, picture: Image)
    | Caption(text: string, x: int, y: int)

  /** What an image was made from: a source picture, a white canvas, or two images side by side. */
  datatype Ground = Photo(id: nat) | White | Beside(left: Image, right: Image)

  /** An image of `height` x `width` pixels with `channels` channels. */
  datatype Image = Image(height: nat, width: nat, channels: nat, ground: Ground, marks: seq<Mark>)

  predicate SameShape(a: Image, b: Image)
  {
    a.height == b.height && a.width == b.width && a.channels == b.channels
  }

  /** The box renderer `draw_bbox`: the image keeps its shape and gains one box. */
  function DrawBox(img: Image, classId: nat, title: Title, color: Color, thickness: Option<nat>, box: Box): Image
  {
    img.(marks := img.marks + [BoxMark(classId, title, color, thickness, box)])
  }

  /** The label renderer `draw_label`. */
  function DrawLabel(img: Image, text: string, confidence: real): Image
  {
    img.(marks := img.marks + [LabelMark(text, confidence)])
  }

  /** The segmentation overlay `overlay_segmentation`. */
  function OverlaySegmentation(img: Image, mask: seq<seq<int>>, numClasses: nat, alpha: real,
                               colors: seq<Color>, classNames: seq<string>): Image
  {
    img.(marks := img.marks + [MaskOverlay(mask, numClasses, alpha, colors, classNames)])
  }

  /** Python's `int()` applied to a float: truncation toward zero. */
  function Trunc(x: real): (n: int)
    ensures 0.0 <= x ==> n as real <= x < n as real + 1.0
    ensures x < 0.0 ==> n as real - 1.0 < x <= n as real
  {
    if x >= 0.0 then x.Floor else -((-x).Floor)
  }

  /** A float box converted coordinate by coordinate with `int()`. */
  function ToPixels(b: BoxF): Box
  {
    Box(Trunc(b.x1), Trunc(b.y1), Trunc(b.x2), Trunc(b.y2))
  }

  /** `class_names or self.class_names`: a missing or empty list means the whole vocabulary. */
  function RequestedClassNames(vocab: seq<string>, classNames: Option<seq<string>>): (names: seq<string>)
    ensures classNames.Some? && classNames.value != [] ==> names == classNames.value
    ensures classNames.None? || classNames.value == [] ==> names == vocab
  {
    if classNames.Some? && classNames.value != [] then classNames.value else vocab
  }

  /** `generate_color_mapping(n)`: one colour per class. */
  function GenerateColorMapping(n: nat): (colors: seq<Color>)
    ensures |colors| == n
    ensures forall i :: 0 <= i < n ==> colors[i] == Palette(n, i)
  {
    seq(n, (i: int) requires 0 <= i < n => Palette(n, i as nat))
  }

  /** A caller-supplied colour mapping is documented as one colour per class. */
  predicate ColorsCover(mapping: Option<seq<Color>>, n: nat)
  {
    mapping.Some? ==> mapping.value == [] || n <= |mapping.value|
  }

  /** `color_mapping or generate_color_mapping(n)`: a missing or empty mapping is replaced
      by the default palette for `n` classes; any other mapping is used as given. */
  function ResolveColors(mapping: Option<seq<Color>>, n: nat): (colors: seq<Color>)
    ensures ColorsCover(mapping, n) ==> n <= |colors|
    ensures mapping.Some? && mapping.value != [] ==> colors == mapping.value
    ensures mapping.None? || mapping.value == [] ==> |colors| == n
  {
    if mapping.Some? && mapping.value != [] then mapping.value else GenerateColorMapping(n)
  }

  // Side-by-side composition of predictions and ground truth.

  const PaddingTop: nat := 60
  const PaddingLeft: nat := 10

  /** `int(height + height / 8)` for a non-negative height. */
  function CanvasHeight(h: nat): (height: nat)
    ensures 8 * height <= 9 * h < 8 * (height + 1)
  {
    h + h / 8
  }

  /** `int(width + width / 20)` for a non-negative width. */
  function CanvasWidth(w: nat): (width: nat)
    ensures 20 * width <= 21 * w < 20 * (width + 1)
  {
    w + w / 20
  }

  /** The slice assignment at offset (60, 10) fits inside the enlarged canvas. */
  predicate PasteFits(h: nat, w: nat)
  {
    h + PaddingTop <= CanvasHeight(h) && w + PaddingLeft <= CanvasWidth(w)
  }

  /** The paste fits exactly when the image is at least 480 pixels high and 200 pixels wide. */
  lemma PasteFitsExactly(h: nat, w: nat)
    ensures PasteFits(h, w) <==> 480 <= h && 200 <= w
  {
    assert PaddingTop <= h / 8 <==> 480 <= h;
    assert PaddingLeft <= w / 20 <==> 200 <= w;
  }

  /** A white canvas (`np.ones(...) * 255`). */
  function WhiteCanvas(h: nat, w: nat, ch: nat): Image
  {
    Image(h, w, ch, White, [])
  }

  /** The slice assignment `canvas[top : top + h, left : left + w] = picture`. */
  function Paste(canvas: Image, picture: Image, top: nat, left: nat): Image
    requires top + picture.height <= canvas.height && left + picture.width <= canvas.width
    requires picture.channels == canvas.channels
  {
    canvas.(marks := canvas.marks + [Pasted(top, left, picture)])
  }

  /** `cv2.putText` at pixel position (x, y). */
  function PutText(img: Image, text: string, x: int, y: int): Image
  {
    img.(marks := img.marks + [Caption(text, x, y)])
  }

  /** `cv2.hconcat` of two images of equal height. */
  function HConcat(a: Image, b: Image): Image
    requires a.height == b.height && a.channels == b.channels
  {
    Image(a.height, a.width + b.width, a.channels, Beside(a, b), [])
  }
}

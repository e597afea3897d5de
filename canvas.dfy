/**
 * Pillow images as values. A `Picture` records its size, its mode, the colour it was created
 * with and, in order, the drawing operations and pastes applied to it; pixels themselves,
 * rasterisation, blending and blurring belong to Pillow and are not computed.
 */
module Canvas {

  datatype Mode = L | RGB | RGBA

  /** A fill as the source writes it: a colour string (`'#2d2d2d'`, `'white'`), a grey level
      for `'L'` images, or a tuple. */
  datatype Paint = Named(spec: string) | Level(v: int) | Opaque(r: int, g: int, b: int) | Translucent(r: int, g: int, b: int, a: int)

  /** Pillow's `[x0, y0, x1, y1]` shape box: both corners are drawn. */
  datatype Box = Box(x0: int, y0: int, x1: int, y1: int)

  /** A half-open pixel area: columns `x .. x + width - 1`, rows `y .. y + height - 1`. */
  datatype Rect = Rect(x: int, y: int, width: int, height: int)

  datatype Font = TrueType(path: string, size: nat) | DefaultFont

  /** The `mask` argument of `paste`: none, the pasted layer's own alpha, or another image. */
  datatype PasteMask = NoMask | OwnAlpha | MaskImage(mask: Picture)

  datatype Mark =
    | Rectangle(box: Box, fill: Paint)
    | RoundedRectangle(box: Box, radius: nat, fill: Paint)
    | Ellipse(box: Box, fill: Paint)
    | Line(box: Box, fill: Paint)
    | Text(x: int, y: int, text: string, fill: Paint, font: Font)
    | PutData(values: seq<int>)
    | PutAlpha(alpha: Picture)
    | Paste(x: int, y: int, layer: Picture, mask: PasteMask)
    | GaussianBlur(radius: nat)

  datatype Picture = Picture(width: nat, height: nat, mode: Mode, background: Paint, marks: seq<Mark>)

  /** `Image.new(mode, (width, height), colour)` */
  function New(mode: Mode, width: nat, height: nat, background: Paint): (p: Picture)
    ensures p.width == width && p.height == height && p.mode == mode && p.marks == []
    ensures p.background == background
  {
    Picture(width, height, mode, background, [])
  }

  /** One drawing call (`ImageDraw` shape, `putdata`, `putalpha`, `paste`) on the image. */
  function Draw(p: Picture, m: Mark): (q: Picture)
    ensures q.width == p.width && q.height == p.height && q.mode == p.mode && q.background == p.background
    ensures q.marks == p.marks + [m]
  {
    p.(marks := p.marks + [m])
  }

  /** Several drawing calls in order. */
  function DrawAll(p: Picture, ms: seq<Mark>): (q: Picture)
    ensures q.width == p.width && q.height == p.height && q.mode == p.mode && q.background == p.background
    ensures q.marks == p.marks + ms
  {
    p.(marks := p.marks + ms)
  }

  /** Drawing several calls and then one more is drawing them all. */
  lemma DrawAllSnoc(p: Picture, ms: seq<Mark>, m: Mark)
    ensures DrawAll(p, ms + [m]) == Draw(DrawAll(p, ms), m)
  {
    assert p.marks + (ms + [m]) == (p.marks + ms) + [m];
  }

  /** The fully transparent `(0, 0, 0, 0)` of new RGBA layers. */
  const Clear := Translucent(0, 0, 0, 0)

  /** On a picture with nothing drawn, the i-th mark drawn stays the i-th mark. */
  lemma DrawnOnNewAt(p: Picture, ms: seq<Mark>, m: Mark, i: nat)
    requires p.marks == [] && i < |ms|
    ensures Draw(DrawAll(p, ms), m).marks[i] == ms[i]
  {
    assert DrawAll(p, ms).marks == ms;
  }

  /** `img.filter(ImageFilter.GaussianBlur(radius))`: a new image of the same size. */
  function Blurred(p: Picture, radius: nat): (q: Picture)
    ensures q.width == p.width && q.height == p.height && q.mode == p.mode && q.background == p.background
    ensures q.marks == p.marks + [GaussianBlur(radius)]
  {
    Draw(p, GaussianBlur(radius))
  }

  /** `img.convert('RGBA')` when the mode is another one; the image itself otherwise. */
  function AsRgba(p: Picture): (q: Picture)
    ensures q.width == p.width && q.height == p.height && q.mode == RGBA
    ensures p.mode == RGBA ==> q == p
  {
    if p.mode == RGBA then p else p.(mode := RGBA)
  }

  /** The area an image covers when pasted with its top-left corner at (x, y). */
  function Footprint(x: int, y: int, p: Picture): Rect {
    Rect(x, y, p.width, p.height)
  }

  function Frame(p: Picture): Rect {
    Rect(0, 0, p.width, p.height)
  }

  predicate Inside(inner: Rect, outer: Rect) {
    outer.x <= inner.x && inner.x + inner.width <= outer.x + outer.width
    && outer.y <= inner.y && inner.y + inner.height <= outer.y + outer.height
  }

  /** The areas share no pixel. */
  predicate Disjoint(a: Rect, b: Rect) {
    a.x + a.width <= b.x || b.x + b.width <= a.x || a.y + a.height <= b.y || b.y + b.height <= a.y
  }

  /** The pixels a box covers (Pillow draws both corners). */
  function BoxArea(b: Box): Rect {
    Rect(b.x0, b.y0, b.x1 - b.x0 + 1, b.y1 - b.y0 + 1)
  }

  /** The area `r` in the coordinates of a layer whose origin sits at (dx, dy). */
  function Shifted(r: Rect, dx: int, dy: int): Rect {
    Rect(r.x + dx, r.y + dy, r.width, r.height)
  }

  /** The space left between `inner` and the four sides of `outer`: left, top, right, bottom. */
  function Margins(inner: Rect, outer: Rect): (int, int, int, int) {
    (inner.x - outer.x, inner.y - outer.y,
     outer.x + outer.width - (inner.x + inner.width), outer.y + outer.height - (inner.y + inner.height))
  }

  /** The fixed image every bot sends when rendering raised: 800 x 200, dark grey, with
      `"Error: " + message` written at (50, 90) in DejaVu Sans 20 or Pillow's default font. */
  function ErrorPicture(message: string, dejaVuLoads: bool): (p: Picture)
    ensures p.width == 800 && p.height == 200 && p.mode == RGB
    ensures |p.marks| == 1 && p.marks[0].Text? && p.marks[0].x == 50 && p.marks[0].y == 90
    ensures p.marks[0].text == "Error: " + message && p.background == Named("#1e1e1e")
    ensures p.marks[0].fill == Named("white")
    ensures p.marks[0].font == if dejaVuLoads then TrueType("/usr/share/fonts/truetype/dejavu/DejaVuSans.ttf", 20) else DefaultFont
  {
    var font := if dejaVuLoads then TrueType("/usr/share/fonts/truetype/dejavu/DejaVuSans.ttf", 20) else DefaultFont;
    Draw(New(RGB, 800, 200, Named("#1e1e1e")), Text(50, 90, "Error: " + message, Named("white"), font))
  }
}

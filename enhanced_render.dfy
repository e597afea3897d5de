/**
 * The enhanced renderer: the code image gets one background treatment (a vertical gradient,
 * rounded corners or a drop shadow, chosen by name) and optionally a "CodeBot" watermark in its
 * bottom-right corner.
 */
module EnhancedRender {
  import opened Wrappers
  import opened Canvas
  import opened Highlight
  import Colour

  // ---------------------------------------------------------------- vertical gradient

  function RgbFill(c: Colour.Rgb): Paint {
    Opaque(c.r, c.g, c.b)
  }

  /** The horizontal lines of rows `0 .. n-1`, each in its interpolated colour. */
  function RowLines(width: nat, height: nat, top: Colour.Rgb, bottom: Colour.Rgb, n: nat): (lines: seq<Mark>)
    requires n <= height
    ensures |lines| == n
  {
    seq(n, y requires 0 <= y < n => Line(Box(0, y, width, y), RgbFill(Colour.RowColour(top, bottom, y, height))))
  }

  /** `img` pasted over the gradient, through its own alpha when it has one. */
  function PasteOver(img: Picture): Mark {
    Paste(0, 0, img, if img.mode == RGBA then OwnAlpha else NoMask)
  }

  const BadHexLiteral := "invalid literal for int() with base 16"

  /**
   * What `add_gradient_background` produces. The two colours are read (from offsets 1, 3 and 5)
   * inside the row loop, so an unreadable colour raises only when there is a row to draw.
   */
  function VerticalGradient(img: Picture, colours: (string, string)): (r: Result<Picture>)
    ensures r.Success? <==>
      img.height == 0 || (Colour.Components(colours.0, 1).Some? && Colour.Components(colours.1, 1).Some?)
    ensures r.Failure? ==> r.error == BadHexLiteral
    // the same size as the input, one line per row in row order, the image pasted last
    ensures r.Success? ==>
      && r.value.width == img.width && r.value.height == img.height && r.value.mode == RGB
      && |r.value.marks| == img.height + 1
      && (forall y :: 0 <= y < img.height ==> r.value.marks[y].Line? && r.value.marks[y].box == Box(0, y, img.width, y))
      && r.value.marks[img.height] == PasteOver(img)
  {
    var base := New(RGB, img.width, img.height, Named(colours.0));
    if img.height == 0 then Success(Draw(base, PasteOver(img)))
    else
      var top := Colour.Components(colours.0, 1);
      var bottom := Colour.Components(colours.1, 1);
      if top.None? || bottom.None? then Failure(BadHexLiteral)
      else Success(Draw(DrawAll(base, RowLines(img.width, img.height, top.value, bottom.value, img.height)), PasteOver(img)))
  }

  lemma RowLinesSnoc(width: nat, height: nat, top: Colour.Rgb, bottom: Colour.Rgb, n: nat)
    requires n < height
    ensures RowLines(width, height, top, bottom, n + 1)
         == RowLines(width, height, top, bottom, n) + [Line(Box(0, n, width, n), RgbFill(Colour.RowColour(top, bottom, n, height)))]
  {
    var a := RowLines(width, height, top, bottom, n + 1);
    var b := RowLines(width, height, top, bottom, n) + [Line(Box(0, n, width, n), RgbFill(Colour.RowColour(top, bottom, n, height)))];
    forall i | 0 <= i < n + 1
      ensures a[i] == b[i]
    {
    }
  }

  /** Row `y` of a gradient that was drawn is the line of that row in its interpolated colour. */
  lemma GradientLineAt(img: Picture, colours: (string, string), y: nat)
    requires y < img.height
    requires Colour.Components(colours.0, 1).Some? && Colour.Components(colours.1, 1).Some?
    ensures VerticalGradient(img, colours).Success?
    ensures VerticalGradient(img, colours).value.marks[y]
         == Line(Box(0, y, img.width, y),
                 RgbFill(Colour.RowColour(Colour.Components(colours.0, 1).value, Colour.Components(colours.1, 1).value, y, img.height)))
  {
    var top, bottom := Colour.Components(colours.0, 1).value, Colour.Components(colours.1, 1).value;
    var lines := RowLines(img.width, img.height, top, bottom, img.height);
    var base := New(RGB, img.width, img.height, Named(colours.0));
    assert VerticalGradient(img, colours) == Success(Draw(DrawAll(base, lines), PasteOver(img)));
    DrawnOnNewAt(base, lines, PasteOver(img), y);
  }

  /** Row 0 of the gradient is the first colour exactly; every row's channels lie between the
      two colours' channels. */
  lemma GradientRowColours(img: Picture, colours: (string, string), y: nat)
    requires y < img.height
    requires Colour.Components(colours.0, 1).Some? && Colour.Components(colours.1, 1).Some?
    ensures var top, bottom := Colour.Components(colours.0, 1).value, Colour.Components(colours.1, 1).value;
      var r := VerticalGradient(img, colours);
      && r.Success? && r.value.marks[0].Line? && r.value.marks[0].fill == RgbFill(top)
      && FilledBetween(r.value.marks[y], top, bottom)
  {
    var top, bottom := Colour.Components(colours.0, 1).value, Colour.Components(colours.1, 1).value;
    var h := img.height;
    GradientLineAt(img, colours, 0);
    GradientLineAt(img, colours, y);
    Colour.RowChannelRange(top.r, bottom.r, y, h);
    Colour.RowChannelRange(top.g, bottom.g, y, h);
    Colour.RowChannelRange(top.b, bottom.b, y, h);
  }

  predicate Between(a: int, b: int, v: int) {
    (if a <= b then a else b) <= v <= (if a <= b then b else a)
  }

  /** A line drawn in an opaque colour whose every channel lies between those of `top` and `bottom`. */
  predicate FilledBetween(m: Mark, top: Colour.Rgb, bottom: Colour.Rgb) {
    && m.Line? && m.fill.Opaque?
    && Between(top.r, bottom.r, m.fill.r) && Between(top.g, bottom.g, m.fill.g) && Between(top.b, bottom.b, m.fill.b)
  }

  /** `add_gradient_background`: one line per row, the two colours read again on every row. */
  method AddGradientBackground(img: Picture, colours: (string, string)) returns (r: Result<Picture>)
    ensures r == VerticalGradient(img, colours)
  {
    var width, height := img.width, img.height;
    var gradient := New(RGB, width, height, Named(colours.0));
    ghost var base := gradient;
    ghost var top, bottom := Colour.Components(colours.0, 1), Colour.Components(colours.1, 1);
    ghost var first := if top.Some? then top.value else Colour.Rgb(0, 0, 0);
    ghost var last := if bottom.Some? then bottom.value else Colour.Rgb(0, 0, 0);
    assert gradient == DrawAll(base, RowLines(width, height, first, last, 0));
    for y := 0 to height
      invariant y > 0 ==> top.Some? && bottom.Some?
      invariant gradient == DrawAll(base, RowLines(width, height, first, last, y))
    {
      var start := Colour.Components(colours.0, 1);
      var end := Colour.Components(colours.1, 1);
      if start.None? || end.None? {
        return Failure(BadHexLiteral);
      }
      var colour := Colour.RowColour(start.value, end.value, y, height);
      var line := Line(Box(0, y, width, y), RgbFill(colour));
      RowLinesSnoc(width, height, first, last, y);
      DrawAllSnoc(base, RowLines(width, height, first, last, y), line);
      gradient := Draw(gradient, line);
    }
    gradient := Draw(gradient, PasteOver(img));
    r := Success(gradient);
  }

  // ---------------------------------------------------------------- rounded corners

  /** The alpha mask: black, with a white rounded rectangle over the whole image. */
  function CornerMask(img: Picture, radius: nat): (mask: Picture)
    ensures mask.mode == L && mask.width == img.width && mask.height == img.height
    ensures mask.background == Level(0)
    ensures mask.marks == [RoundedRectangle(Box(0, 0, img.width, img.height), radius, Level(255))]
  {
    Draw(New(L, img.width, img.height, Level(0)), RoundedRectangle(Box(0, 0, img.width, img.height), radius, Level(255)))
  }

  /**
   * `add_rounded_corners`: the image copied onto a transparent RGBA layer of the same size whose
   * alpha is then replaced by the mask, so alpha is 0 wherever the mask is 0 (outside the
   * rounded rectangle), whatever the image's own alpha was.
   */
  function RoundedCorners(img: Picture, radius: nat): (p: Picture)
    ensures p.width == img.width && p.height == img.height && p.mode == RGBA
    ensures p.marks == [Paste(0, 0, img, NoMask), PutAlpha(CornerMask(img, radius))]
  {
    DrawAll(New(RGBA, img.width, img.height, Clear), [Paste(0, 0, img, NoMask), PutAlpha(CornerMask(img, radius))])
  }

  // ---------------------------------------------------------------- drop shadow

  /** The shadow layer before compositing: a translucent black copy of the image's footprint at
      `offset`, blurred with radius 15. */
  function ShadowLayer(img: Picture, offset: (nat, nat)): (s: Picture)
    ensures s.width == img.width + 2 * offset.0 && s.height == img.height + 2 * offset.1 && s.mode == RGBA
    ensures |s.marks| == 2 && s.marks[1] == GaussianBlur(15)
    ensures s.marks[0].Paste? && s.marks[0].x == offset.0 && s.marks[0].y == offset.1
    ensures s.marks[0].layer.width == img.width && s.marks[0].layer.height == img.height
    ensures s.marks[0].layer.background == Translucent(0, 0, 0, 128) && s.marks[0].layer.marks == []
    ensures s.background == Clear
  {
    var shadow := New(RGBA, img.width + offset.0 * 2, img.height + offset.1 * 2, Clear);
    var shape := New(RGBA, img.width, img.height, Translucent(0, 0, 0, 128));
    Blurred(Draw(shadow, Paste(offset.0, offset.1, shape, NoMask)), 15)
  }

  /**
   * `add_shadow`: the result is `2 * offset` larger than the image; the image is pasted at
   * `offset`, the same place its shadow was pasted in the shadow layer, so before the blur the
   * shadow lies exactly under the image, and the image keeps a margin of `offset` on each side.
   */
  function DropShadow(img: Picture, offset: (nat, nat)): (p: Picture)
    ensures p.width == img.width + 2 * offset.0 && p.height == img.height + 2 * offset.1 && p.mode == RGBA
    ensures |p.marks| == 2 && p.marks[0].Paste? && p.marks[1].Paste? && p.marks[1].layer == img
    ensures var shadow := p.marks[0].layer;
      && p.marks[0].x == 0 && p.marks[0].y == 0
      && |shadow.marks| == 2 && shadow.marks[0].Paste?
      && Footprint(shadow.marks[0].x, shadow.marks[0].y, shadow.marks[0].layer) == Footprint(p.marks[1].x, p.marks[1].y, img)
    ensures Margins(Footprint(p.marks[1].x, p.marks[1].y, img), Frame(p)) == (offset.0, offset.1, offset.0, offset.1)
    ensures p.background == Translucent(255, 255, 255, 0)
    ensures p.marks[0] == Paste(0, 0, ShadowLayer(img, offset), NoMask)
    ensures p.marks[1].mask == if img.mode == RGBA then OwnAlpha else NoMask
  {
    var shadow := ShadowLayer(img, offset);
    DrawAll(New(RGBA, shadow.width, shadow.height, Translucent(255, 255, 255, 0)),
            [Paste(0, 0, shadow, NoMask), Paste(offset.0, offset.1, img, if img.mode == RGBA then OwnAlpha else NoMask)])
  }

  // ---------------------------------------------------------------- watermark

  const WatermarkText := "CodeBot"

  /**
   * `add_watermark`. `bbox` is what `textbbox((0, 0), text, font)` reports for the text in the
   * font that loaded. The text is placed 15 pixels from the right and 10 from the bottom; its
   * backing rectangle therefore always ends at column `W - 10` and row `H - 8`, whatever the text
   * measures. The image keeps its size and mode.
   */
  function Watermark(img: Picture, bbox: Box, dejaVuLoads: bool): (p: Picture)
    ensures p.width == img.width && p.height == img.height && p.mode == img.mode
    ensures |p.marks| == |img.marks| + 2 && p.marks[..|img.marks|] == img.marks
    ensures var back, text := p.marks[|img.marks|], p.marks[|img.marks| + 1];
      && back.Rectangle? && back.box.x1 == img.width - 10 && back.box.y1 == img.height - 8
      && back.fill == Translucent(0, 0, 0, 100)
      && text.Text? && text.text == WatermarkText && text.fill == Translucent(255, 255, 255, 150)
      // the rectangle frames the text: 5 pixels left and right, 2 above and below
      && back.box.x0 == text.x - 5 && back.box.y0 == text.y - 2
      && back.box.x1 == text.x + (bbox.x1 - bbox.x0) + 5 && back.box.y1 == text.y + (bbox.y1 - bbox.y0) + 2
  {
    var font := if dejaVuLoads then TrueType("/usr/share/fonts/truetype/dejavu/DejaVuSans.ttf", 12) else DefaultFont;
    var textWidth, textHeight := bbox.x1 - bbox.x0, bbox.y1 - bbox.y0;
    var x, y := img.width - textWidth - 15, img.height - textHeight - 10;
    DrawAll(img, [Rectangle(Box(x - 5, y - 2, x + textWidth + 5, y + textHeight + 2), Translucent(0, 0, 0, 100)),
                  Text(x, y, WatermarkText, Translucent(255, 255, 255, 150), font)])
  }

  // ---------------------------------------------------------------- dispatch

  const GradientColours := ("#1a1a2e", "#16213e")

  /**
   * The background step of `create_enhanced_code_image`: at most one treatment, chosen by name;
   * `"solid"` and every unknown name leave the image as it is. Only the gradient can fail.
   */
  function Styled(img: Picture, backgroundStyle: string): (r: Result<Picture>)
    ensures backgroundStyle !in {"gradient", "rounded", "shadow"} ==> r == Success(img)
    ensures r.Failure? ==> backgroundStyle == "gradient"
    ensures r.Success? && backgroundStyle != "shadow" ==> r.value.width == img.width && r.value.height == img.height
    ensures backgroundStyle == "shadow" ==> r.Success? && r.value.width == img.width + 20 && r.value.height == img.height + 20
  {
    if backgroundStyle == "gradient" then VerticalGradient(img, GradientColours)
    else if backgroundStyle == "rounded" then Success(RoundedCorners(img, 20))
    else if backgroundStyle == "shadow" then Success(DropShadow(img, (10, 10)))
    else Success(img)
  }

  /** The built-in gradient colours always read, so the background step never fails. */
  lemma StyledSucceeds(img: Picture, backgroundStyle: string)
    ensures Styled(img, backgroundStyle).Success?
  {
    if backgroundStyle == "gradient" && img.height > 0 {
      var a, b := GradientColours.0, GradientColours.1;
      assert Colour.SixDigitsAt(a, 1) by {
        assert forall k :: 1 <= k < 7 ==> Colour.IsHexDigit(a[k]);
      }
      assert Colour.SixDigitsAt(b, 1) by {
        assert forall k :: 1 <= k < 7 ==> Colour.IsHexDigit(b[k]);
      }
      Colour.ComponentsOfDigits(a, 1);
      Colour.ComponentsOfDigits(b, 1);
    }
  }

  function EnhancedOptions(style: string, lineNumbers: bool): (o: FormatterOptions)
    ensures o.style == style && o.fontName == "DejaVu Sans Mono" && o.fontSize == 16
    ensures o.lineNumbers == lineNumbers && o.lineNumberSeparator == lineNumbers
    ensures o.lineNumberBg.Some? <==> lineNumbers
    ensures o.lineNumberFg.Some? <==> lineNumbers
  {
    FormatterOptions(style, "DejaVu Sans Mono", 16, lineNumbers, lineNumbers,
                     if lineNumbers then Some("#1e1e1e") else None,
                     if lineNumbers then Some("#858585") else None, None)
  }

  /**
   * The picture `create_enhanced_code_image` produces. A failure while highlighting gives the
   * error picture; otherwise the image, made RGBA, goes through the background step and then,
   * when asked, gets the watermark on top of whatever that step produced.
   */
  function EnhancedImage(code: string, language: string, style: string, backgroundStyle: string,
                         addWatermark: bool, lineNumbers: bool, highlight: Highlighter,
                         bbox: Box, dejaVuLoads: bool): (image: Picture)
    ensures var rendered := highlight(code, LexerFor(language), EnhancedOptions(style, lineNumbers));
      && (rendered.Failure? ==> image == ErrorPicture(rendered.error, dejaVuLoads))
      && (rendered.Success? ==>
            var styled := Styled(AsRgba(rendered.value), backgroundStyle);
            && (styled.Failure? ==> image == ErrorPicture(styled.error, dejaVuLoads))
            && (styled.Success? ==>
                  image == if addWatermark then Watermark(styled.value, bbox, dejaVuLoads) else styled.value))
  {
    match highlight(code, LexerFor(language), EnhancedOptions(style, lineNumbers))
    case Failure(e) => ErrorPicture(e, dejaVuLoads)
    case Success(img) =>
      match Styled(AsRgba(img), backgroundStyle)
      case Failure(e) => ErrorPicture(e, dejaVuLoads)
      case Success(styled) => if addWatermark then Watermark(styled, bbox, dejaVuLoads) else styled
  }

  /** `create_enhanced_code_image`, with the gradient drawn by its row loop. */
  method CreateEnhancedCodeImage(code: string, language: string, style: string, backgroundStyle: string,
                                 addWatermark: bool, lineNumbers: bool, highlight: Highlighter,
                                 bbox: Box, dejaVuLoads: bool)
    returns (image: Picture)
    ensures image == EnhancedImage(code, language, style, backgroundStyle, addWatermark, lineNumbers, highlight, bbox, dejaVuLoads)
  {
    var lexer := LexerFor(language);
    var rendered := highlight(code, lexer, EnhancedOptions(style, lineNumbers));
    if rendered.Failure? {
      return ErrorPicture(rendered.error, dejaVuLoads);
    }
    var img := AsRgba(rendered.value);
    if backgroundStyle == "gradient" {
      var r := AddGradientBackground(img, GradientColours);
      if r.Failure? {
        return ErrorPicture(r.error, dejaVuLoads);
      }
      img := r.value;
    } else if backgroundStyle == "rounded" {
      img := RoundedCorners(img, 20);
    } else if backgroundStyle == "shadow" {
      img := DropShadow(img, (10, 10));
    }
    if addWatermark {
      img := Watermark(img, bbox, dejaVuLoads);
    }
    image := img;
  }
}

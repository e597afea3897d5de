/**
 * The macOS-window renderer: a diagonal gradient canvas, a dark window with a title bar and
 * three coloured buttons, a soft shadow under the code and under the window, and the fallbacks
 * for unknown themes and fonts and for failed rendering.
 */
module MacosRender {
  import opened Wrappers
  import opened Registry
  import opened Canvas
  import opened Highlight
  import Colour

  // ---------------------------------------------------------------- gradient background

  /** The first `n` values of row `y` of the gradient mask. */
  function MaskRow(width: nat, height: nat, y: nat, n: nat): (row: seq<nat>)
    requires n <= width
    ensures |row| == n
  {
    if n == 0 then [] else MaskRow(width, height, y, n - 1) + [Colour.MaskValue(n - 1, y, width, height)]
  }

  /** The first `rows` rows of the mask, in row-major order. */
  function MaskRows(width: nat, height: nat, rows: nat): seq<nat> {
    if rows == 0 then [] else MaskRows(width, height, rows - 1) + MaskRow(width, height, rows - 1, width)
  }

  lemma {:induction false} MaskLength(width: nat, height: nat, rows: nat)
    ensures |MaskRows(width, height, rows)| == rows * width
  {
    if rows > 0 {
      MaskLength(width, height, rows - 1);
      assert (rows - 1) * width + width == rows * width;
    }
  }

  lemma MulMonotone(a: nat, b: nat, w: nat)
    requires a <= b
    ensures a * w <= b * w
  {
    assert b * w == a * w + (b - a) * w;
  }

  /** Row `y` ends before row `rows - 1` begins. */
  lemma RowBefore(width: nat, rows: nat, x: nat, y: nat)
    requires x < width && y + 1 < rows
    ensures y * width + x < (rows - 1) * width
  {
    MulMonotone(y + 1, rows - 1, width);
    assert (y + 1) * width == y * width + width;
  }

  lemma {:induction false} MaskRowAt(width: nat, height: nat, y: nat, n: nat, x: nat)
    requires x < n <= width
    ensures MaskRow(width, height, y, n)[x] == Colour.MaskValue(x, y, width, height)
    decreases n
  {
    if x < n - 1 {
      MaskRowAt(width, height, y, n - 1, x);
    }
  }

  /** The mask holds `width * height` values in row-major order: entry `y * width + x` is the
      value of pixel (x, y). */
  lemma {:induction false} MaskAt(width: nat, height: nat, rows: nat, x: nat, y: nat)
    requires x < width && y < rows
    ensures y * width + x < |MaskRows(width, height, rows)|
    ensures MaskRows(width, height, rows)[y * width + x] == Colour.MaskValue(x, y, width, height)
    decreases rows
  {
    var prefix := MaskRows(width, height, rows - 1);
    MaskLength(width, height, rows - 1);
    MaskLength(width, height, rows);
    if y == rows - 1 {
      MaskRowAt(width, height, y, width, x);
    } else {
      RowBefore(width, rows, x, y);
      MaskAt(width, height, rows - 1, x, y);
    }
  }

  /** The values `create_gradient_background` collects for its mask, row by row. */
  method GradientMask(width: nat, height: nat) returns (mask: seq<nat>)
    ensures mask == MaskRows(width, height, height)
  {
    mask := [];
    var y := 0;
    while y < height
      invariant y <= height
      invariant mask == MaskRows(width, height, y)
    {
      ghost var before := mask;
      var x := 0;
      while x < width
        invariant x <= width
        invariant mask == before + MaskRow(width, height, y, x)
      {
        mask := mask + [Colour.MaskValue(x, y, width, height)];
        x := x + 1;
      }
      y := y + 1;
    }
  }

  /** The gradient picture: `color1` everywhere, with `color2` pasted over it through the mask. */
  function GradientBackground(width: nat, height: nat, color1: string, color2: string): (p: Picture)
    ensures p.width == width && p.height == height && p.mode == RGB && p.background == Named(color1)
    ensures |p.marks| == 1 && BlendsOver(p.marks[0], width, height, color2)
  {
    var top := New(RGB, width, height, Named(color2));
    var mask := Draw(New(L, width, height, Level(0)), PutData(MaskRows(width, height, height)));
    Draw(New(RGB, width, height, Named(color1)), Paste(0, 0, top, MaskImage(mask)))
  }

  /** `m` pastes a full-size, undrawn `color2` layer at the origin through an `'L'` mask whose
      only operation is `putdata` of the row-major mask values. */
  predicate BlendsOver(m: Mark, width: nat, height: nat, color2: string) {
    && m.Paste? && m.x == 0 && m.y == 0
    && m.layer.width == width && m.layer.height == height && m.layer.mode == RGB
    && m.layer.background == Named(color2) && m.layer.marks == []
    && m.mask.MaskImage? && m.mask.mask.width == width && m.mask.mask.height == height
    && m.mask.mask.mode == L && m.mask.mask.marks == [PutData(MaskRows(width, height, height))]
  }

  method CreateGradientBackground(width: nat, height: nat, color1: string, color2: string) returns (base: Picture)
    ensures base == GradientBackground(width, height, color1, color2)
  {
    base := New(RGB, width, height, Named(color1));
    var top := New(RGB, width, height, Named(color2));
    var mask := New(L, width, height, Level(0));
    var data := GradientMask(width, height);
    mask := Draw(mask, PutData(data));
    base := Draw(base, Paste(0, 0, top, MaskImage(mask)));
  }

  // ---------------------------------------------------------------- window geometry

  const TitlebarHeight := 60
  const Padding := 80
  const BorderRadius := 20
  const ButtonStartX := 25
  const ButtonSpacing := 20
  /** Red, yellow and green. */
  const ButtonColours := ["#ff5f56", "#ffbd2e", "#27c93f"]

  /**
   * Where `create_macos_window` puts things. Each shape box is in the coordinates of the layer
   * it is drawn on; `window` and `windowShadow` are in canvas coordinates, `titlebar`, `code`
   * and `codeShadow` in window coordinates.
   */
  datatype Geometry = Geometry(
    windowWidth: nat, windowHeight: nat,
    canvas: Rect,
    window: Rect, windowShape: Box,
    titlebar: Rect, titlebarShape: Box, titlebarPatch: Box, buttons: seq<Box>,
    code: Rect,
    codeShadow: Rect, codeShadowBox: Box,
    windowShadow: Rect, windowShadowBox: Box)

  function WindowFrame(g: Geometry): Rect {
    Rect(0, 0, g.windowWidth, g.windowHeight)
  }

  function Layout(codeWidth: nat, codeHeight: nat): (g: Geometry)
    // window and canvas sizes
    ensures g.windowWidth == codeWidth + 2 * Padding
    ensures g.windowHeight == codeHeight + TitlebarHeight + 2 * Padding
    ensures g.canvas == Rect(0, 0, g.windowWidth + 100, g.windowHeight + 100)
    // the window keeps a 50-pixel margin on every side of the canvas
    ensures g.window.width == g.windowWidth && g.window.height == g.windowHeight
    ensures Margins(g.window, g.canvas) == (50, 50, 50, 50)
    // the code lies inside the window, below the title bar, with the padding on every side
    ensures g.code.width == codeWidth && g.code.height == codeHeight
    ensures Inside(g.code, WindowFrame(g)) && Inside(g.titlebar, WindowFrame(g)) && Disjoint(g.code, g.titlebar)
    ensures Margins(g.code, WindowFrame(g)) == (Padding, TitlebarHeight + Padding, Padding, Padding)
    // the title bar spans the top of the window; its square patch covers the last 20 rows
    ensures g.titlebar == Rect(0, 0, g.windowWidth, TitlebarHeight)
    ensures g.titlebarPatch.y0 == TitlebarHeight - BorderRadius && g.titlebarPatch.y1 == TitlebarHeight
    ensures g.titlebarShape.y1 == TitlebarHeight + BorderRadius
    // three 13 x 13 buttons centred on the title bar's middle row, 20 pixels apart, not overlapping
    ensures |g.buttons| == 3
    ensures forall i :: 0 <= i < 3 ==>
      g.buttons[i].x0 == ButtonStartX + ButtonSpacing * i
      && g.buttons[i].y0 + g.buttons[i].y1 == TitlebarHeight
      && BoxArea(g.buttons[i]).width == 13 && BoxArea(g.buttons[i]).height == 13
      && Inside(BoxArea(g.buttons[i]), g.titlebar)
    ensures forall i, j :: 0 <= i < j < 3 ==> Disjoint(BoxArea(g.buttons[i]), BoxArea(g.buttons[j]))
    // before blurring, each shadow starts at the origin of what it shadows and covers it
    ensures g.codeShadow.x + g.codeShadowBox.x0 == g.code.x && g.codeShadow.y + g.codeShadowBox.y0 == g.code.y
    ensures Inside(g.code, Shifted(BoxArea(g.codeShadowBox), g.codeShadow.x, g.codeShadow.y))
    ensures Inside(BoxArea(g.codeShadowBox), Rect(0, 0, g.codeShadow.width, g.codeShadow.height))
    ensures g.windowShadow.x + g.windowShadowBox.x0 == g.window.x && g.windowShadow.y + g.windowShadowBox.y0 == g.window.y
    ensures Inside(g.window, Shifted(BoxArea(g.windowShadowBox), g.windowShadow.x, g.windowShadow.y))
    ensures Inside(BoxArea(g.windowShadowBox), Rect(0, 0, g.windowShadow.width, g.windowShadow.height))
    ensures Inside(g.windowShadow, g.canvas)
  {
    var ww := codeWidth + Padding * 2;
    var wh := codeHeight + TitlebarHeight + Padding * 2;
    var buttonY := TitlebarHeight / 2;
    var codeX, codeY := Padding, TitlebarHeight + Padding;
    Geometry(
      windowWidth := ww, windowHeight := wh,
      canvas := Rect(0, 0, ww + 100, wh + 100),
      window := Rect(50, 50, ww, wh),
      windowShape := Box(0, 0, ww, wh),
      titlebar := Rect(0, 0, ww, TitlebarHeight),
      titlebarShape := Box(0, 0, ww, TitlebarHeight + BorderRadius),
      titlebarPatch := Box(0, TitlebarHeight - BorderRadius, ww, TitlebarHeight),
      buttons := seq(3, i requires 0 <= i < 3 =>
        var x := ButtonStartX + ButtonSpacing * i; Box(x, buttonY - 6, x + 12, buttonY + 6)),
      code := Rect(codeX, codeY, codeWidth, codeHeight),
      codeShadow := Rect(codeX - 10, codeY - 10, codeWidth + 20, codeHeight + 20),
      codeShadowBox := Box(10, 10, codeWidth + 10, codeHeight + 10),
      windowShadow := Rect(20, 20, ww + 60, wh + 60),
      windowShadowBox := Box(30, 30, ww + 30, wh + 30))
  }

  // ---------------------------------------------------------------- window composition

  function ButtonMarks(g: Geometry): (ms: seq<Mark>)
    requires |g.buttons| == 3
    ensures |ms| == 3
  {
    seq(3, i requires 0 <= i < 3 => Ellipse(g.buttons[i], Named(ButtonColours[i])))
  }

  /** The title-bar layer: rounded top, square bottom patch, and the three buttons. */
  function TitlebarLayer(g: Geometry): Picture
    requires |g.buttons| == 3 && g.titlebar.width >= 0 && g.titlebar.height >= 0
  {
    DrawAll(New(RGBA, g.titlebar.width, g.titlebar.height, Clear),
            [RoundedRectangle(g.titlebarShape, BorderRadius, Named("#323232")),
             Rectangle(g.titlebarPatch, Named("#323232"))] + ButtonMarks(g))
  }

  /** The shadow under the code: a translucent black rectangle, blurred with radius 10. */
  function CodeShadowLayer(g: Geometry): Picture
    requires g.codeShadow.width >= 0 && g.codeShadow.height >= 0
  {
    Blurred(Draw(New(RGBA, g.codeShadow.width, g.codeShadow.height, Clear),
                 Rectangle(g.codeShadowBox, Translucent(0, 0, 0, 50))), 10)
  }

  function WindowShadowLayer(g: Geometry): Picture
    requires g.windowShadow.width >= 0 && g.windowShadow.height >= 0
  {
    Blurred(Draw(New(RGBA, g.windowShadow.width, g.windowShadow.height, Clear),
                 RoundedRectangle(g.windowShadowBox, BorderRadius, Translucent(0, 0, 0, 80))), 20)
  }

  function WindowLayer(code: Picture, g: Geometry): Picture
    requires g == Layout(code.width, code.height)
  {
    DrawAll(New(RGBA, g.windowWidth, g.windowHeight, Clear),
            [RoundedRectangle(g.windowShape, BorderRadius, Named("#2d2d2d")),
             Paste(0, 0, TitlebarLayer(g), OwnAlpha),
             Paste(g.codeShadow.x, g.codeShadow.y, CodeShadowLayer(g), OwnAlpha),
             Paste(g.code.x, g.code.y, code, NoMask)])
  }

  /** The picture `create_macos_window` returns for a code image and a pair of gradient colours. */
  function MacosWindow(code: Picture, colours: (string, string)): (p: Picture)
    ensures var g := Layout(code.width, code.height);
      && p.width == g.canvas.width && p.height == g.canvas.height && p.mode == RGBA
      && |p.marks| == 3
      // the gradient fills the whole canvas
      && p.marks[0] == Paste(0, 0, GradientBackground(g.canvas.width, g.canvas.height, colours.0, colours.1), NoMask)
      // the window shadow and then the window are pasted over it, with their own alpha
      && p.marks[1].Paste? && p.marks[1].mask == OwnAlpha
      && Footprint(p.marks[1].x, p.marks[1].y, p.marks[1].layer) == g.windowShadow
      && p.marks[2].Paste? && p.marks[2].mask == OwnAlpha
      && Footprint(p.marks[2].x, p.marks[2].y, p.marks[2].layer) == g.window
      // the code image itself is the window's last layer, at the code position
      && |p.marks[2].layer.marks| == 4
      && p.marks[2].layer.marks[3] == Paste(g.code.x, g.code.y, code, NoMask)
  {
    var g := Layout(code.width, code.height);
    DrawAll(New(RGBA, g.canvas.width, g.canvas.height, Clear),
            [Paste(0, 0, GradientBackground(g.canvas.width, g.canvas.height, colours.0, colours.1), NoMask),
             Paste(g.windowShadow.x, g.windowShadow.y, WindowShadowLayer(g), OwnAlpha),
             Paste(g.window.x, g.window.y, WindowLayer(code, g), OwnAlpha)])
  }

  /** The title-bar part of `create_macos_window`: rounded top, square patch, then the three
      buttons drawn one by one. */
  method CreateTitlebar(codeWidth: nat, codeHeight: nat) returns (titlebar: Picture)
    ensures titlebar == TitlebarLayer(Layout(codeWidth, codeHeight))
  {
    var g := Layout(codeWidth, codeHeight);
    titlebar := New(RGBA, g.windowWidth, TitlebarHeight, Clear);
    titlebar := Draw(titlebar, RoundedRectangle(Box(0, 0, g.windowWidth, TitlebarHeight + BorderRadius), BorderRadius, Named("#323232")));
    titlebar := Draw(titlebar, Rectangle(Box(0, TitlebarHeight - BorderRadius, g.windowWidth, TitlebarHeight), Named("#323232")));
    ghost var bare := titlebar;
    var buttonY := TitlebarHeight / 2;
    for i := 0 to 3
      invariant titlebar == DrawAll(bare, ButtonMarks(g)[..i])
    {
      var x := ButtonStartX + ButtonSpacing * i;
      titlebar := Draw(titlebar, Ellipse(Box(x, buttonY - 6, x + 12, buttonY + 6), Named(ButtonColours[i])));
      assert ButtonMarks(g)[..i + 1] == ButtonMarks(g)[..i] + [ButtonMarks(g)[i]];
    }
    assert ButtonMarks(g)[..3] == ButtonMarks(g);
  }

  /** `create_macos_window`: the gradient is computed by its loops and the buttons drawn one by one. */
  method CreateMacosWindow(code: Picture, colours: (string, string)) returns (canvas: Picture)
    ensures canvas == MacosWindow(code, colours)
  {
    var g := Layout(code.width, code.height);
    var background := CreateGradientBackground(g.canvas.width, g.canvas.height, colours.0, colours.1);

    var window := New(RGBA, g.windowWidth, g.windowHeight, Clear);
    window := Draw(window, RoundedRectangle(Box(0, 0, g.windowWidth, g.windowHeight), BorderRadius, Named("#2d2d2d")));

    var titlebar := CreateTitlebar(code.width, code.height);
    window := Draw(window, Paste(0, 0, titlebar, OwnAlpha));

    var shadow := New(RGBA, code.width + 20, code.height + 20, Clear);
    shadow := Draw(shadow, Rectangle(Box(10, 10, code.width + 10, code.height + 10), Translucent(0, 0, 0, 50)));
    shadow := Blurred(shadow, 10);
    var codeX, codeY := Padding, TitlebarHeight + Padding;
    window := Draw(window, Paste(codeX - 10, codeY - 10, shadow, OwnAlpha));
    assert shadow == CodeShadowLayer(g);
    window := Draw(window, Paste(codeX, codeY, code, NoMask));
    assert window == WindowLayer(code, g);

    var windowShadow := New(RGBA, g.windowWidth + 60, g.windowHeight + 60, Clear);
    windowShadow := Draw(windowShadow, RoundedRectangle(Box(30, 30, g.windowWidth + 30, g.windowHeight + 30), BorderRadius, Translucent(0, 0, 0, 80)));
    windowShadow := Blurred(windowShadow, 20);
    assert windowShadow == WindowShadowLayer(g);

    canvas := New(RGBA, g.windowWidth + 100, g.windowHeight + 100, Clear);
    canvas := Draw(canvas, Paste(0, 0, background, NoMask));
    canvas := Draw(canvas, Paste(20, 20, windowShadow, OwnAlpha));
    canvas := Draw(canvas, Paste(50, 50, window, OwnAlpha));
  }

  // ---------------------------------------------------------------- themes, fonts, fallbacks

  datatype Theme = Theme(name: string, style: string, gradient: (string, string))

  const Monokai := Theme("🌙 Monokai", "monokai", ("#7b2cbf", "#5a189a"))

  const Themes: Table<Theme> := [
    ("monokai", Monokai),
    ("dracula", Theme("🧛 Dracula", "dracula", ("#6c5ce7", "#a29bfe"))),
    ("nord", Theme("❄️ Nord", "nord", ("#5e60ce", "#7209b7"))),
    ("github-dark", Theme("🌃 GitHub Dark", "github-dark", ("#4895ef", "#4361ee"))),
    ("one-dark", Theme("🌑 One Dark", "one-dark", ("#f72585", "#b5179e"))),
    ("solarized-dark", Theme("☀️ Solarized Dark", "solarized-dark", ("#fb5607", "#ff006e"))),
    ("material", Theme("🎨 Material", "material", ("#06ffa5", "#00d9ff"))),
    ("gruvbox", Theme("🟤 Gruvbox", "gruvbox-dark", ("#fb8500", "#ffb703")))
  ]

  datatype FontChoice = FontChoice(name: string, path: string, fallback: string)

  const DejaVuMono := "DejaVu Sans Mono"
  const Fira := FontChoice("✨ Fira Code", "/usr/share/fonts/truetype/firacode/FiraCode-Regular.ttf", DejaVuMono)

  const Fonts: Table<FontChoice> := [
    ("fira", Fira),
    ("jetbrains", FontChoice("🚀 JetBrains Mono", "/usr/share/fonts/truetype/jetbrains/JetBrainsMono-Regular.ttf", DejaVuMono)),
    ("cascadia", FontChoice("💻 Cascadia Code", "/usr/share/fonts/truetype/cascadia/CascadiaCode.ttf", DejaVuMono)),
    ("dejavu", FontChoice("📝 DejaVu Sans Mono", DejaVuMono, DejaVuMono)),
    ("ubuntu", FontChoice("🟠 Ubuntu Mono", "/usr/share/fonts/truetype/ubuntu/UbuntuMono-R.ttf", DejaVuMono)),
    ("hack", FontChoice("🔧 Hack", "/usr/share/fonts/truetype/hack/Hack-Regular.ttf", DejaVuMono))
  ]

  /** `THEMES.get(theme, THEMES["monokai"])` */
  function ThemeFor(theme: string): (t: Theme)
    ensures theme in Keys(Themes) ==> (theme, t) in Themes
    ensures theme !in Keys(Themes) ==> t == Monokai
  {
    match Lookup(Themes, theme)
    case Some(t) => t
    case None => Monokai
  }

  /** `FONTS.get(font, FONTS["fira"])` */
  function FontFor(font: string): (f: FontChoice)
    ensures font in Keys(Fonts) ==> (font, f) in Fonts
    ensures font !in Keys(Fonts) ==> f == Fira
  {
    match Lookup(Fonts, font)
    case Some(f) => f
    case None => Fira
  }

  /**
   * The font name handed to the formatter. `installed` is the set of paths for which
   * `os.path.exists` holds. The font's own file is used exactly when it exists; any other name
   * than the fallback is that existing file.
   */
  function FontName(font: string, installed: set<string>): (name: string)
    ensures name != FontFor(font).fallback ==> name == FontFor(font).path && name in installed
    ensures FontFor(font).path in installed ==> name == FontFor(font).path
    ensures FontFor(font).path !in installed ==> name == FontFor(font).fallback
  {
    var f := FontFor(font);
    if f.path != f.fallback && f.path in installed then f.path else f.fallback
  }

  function MacosOptions(theme: string, showLineNumbers: bool, font: string, installed: set<string>): (o: FormatterOptions)
    ensures o.style == ThemeFor(theme).style && o.fontName == FontName(font, installed)
    ensures o.fontSize == 16 && o.lineNumbers == showLineNumbers && o.lineNumberSeparator
    ensures o.lineNumberBg == Some("#1e1e1e") && o.lineNumberFg == Some("#858585") && o.hlColor == None
  {
    FormatterOptions(ThemeFor(theme).style, FontName(font, installed), 16, showLineNumbers, true,
                     Some("#1e1e1e"), Some("#858585"), None)
  }

  /**
   * The picture `create_code_image` of the macOS bot produces. A failure anywhere in
   * highlighting yields the error picture; otherwise the code image, made RGBA, is framed by the
   * theme's gradient window, 260 pixels wider and 320 taller than the code.
   */
  function CodeImage(code: string, language: string, theme: string, showLineNumbers: bool,
                     font: string, installed: set<string>, highlight: Highlighter, dejaVuLoads: bool): (image: Picture)
    ensures var rendered := highlight(code, LexerFor(language), MacosOptions(theme, showLineNumbers, font, installed));
      && (rendered.Failure? ==> image == ErrorPicture(rendered.error, dejaVuLoads))
      && (rendered.Success? ==>
            && image == MacosWindow(AsRgba(rendered.value), ThemeFor(theme).gradient)
            && image.width == rendered.value.width + 260 && image.height == rendered.value.height + 320)
  {
    match highlight(code, LexerFor(language), MacosOptions(theme, showLineNumbers, font, installed))
    case Failure(e) => ErrorPicture(e, dejaVuLoads)
    case Success(img) => MacosWindow(AsRgba(img), ThemeFor(theme).gradient)
  }

  /** `create_code_image`, drawing the window through `CreateMacosWindow`. */
  method CreateCodeImage(code: string, language: string, theme: string, showLineNumbers: bool,
                         font: string, installed: set<string>, highlight: Highlighter, dejaVuLoads: bool)
    returns (image: Picture)
    ensures image == CodeImage(code, language, theme, showLineNumbers, font, installed, highlight, dejaVuLoads)
  {
    var lexer := LexerFor(language);
    var details := ThemeFor(theme);
    var options := MacosOptions(theme, showLineNumbers, font, installed);
    var rendered := highlight(code, lexer, options);
    match rendered
    case Failure(e) =>
      image := ErrorPicture(e, dejaVuLoads);
    case Success(img) =>
      var codeImg := AsRgba(img);
      image := CreateMacosWindow(codeImg, details.gradient);
  }
}

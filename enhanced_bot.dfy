/**
 * The enhanced bot: per-user theme, language, background style, watermark switch and
 * line-number switch; a one-column keyboard of background styles; and the styled images of
 * `EnhancedRender`. Its handlers register no theme or language keyboard, but its button handler
 * still understands `theme_` and `lang_` data.
 */
module EnhancedBot {
  import opened Wrappers
  import opened Strings
  import opened Registry
  import opened Keyboard
  import opened Canvas
  import opened Highlight
  import opened Session
  import opened EnhancedRender
  import Fence

  /** An entry of `THEMES`: the display name and the Pygments style listed with it. */
  datatype Theme = Theme(name: string, style: string)

  const Themes: Table<Theme> := [
    ("monokai", Theme("🌙 Monokai", "monokai")),
    ("github-dark", Theme("🌃 GitHub Dark", "github-dark")),
    ("dracula", Theme("🧛 Dracula", "dracula")),
    ("nord", Theme("❄️ Nord", "nord")),
    ("one-dark", Theme("🌑 One Dark", "one-dark")),
    ("solarized-dark", Theme("☀️ Solarized Dark", "solarized-dark")),
    ("solarized-light", Theme("☀️ Solarized Light", "solarized-light")),
    ("gruvbox", Theme("🟤 Gruvbox", "gruvbox-dark")),
    ("material", Theme("🎨 Material", "material"))
  ]

  const Languages: Table<string> := [
    ("python", "🐍 Python"),
    ("javascript", "📜 JavaScript"),
    ("typescript", "📘 TypeScript"),
    ("java", "☕ Java"),
    ("cpp", "⚙️ C++"),
    ("csharp", "🔷 C#"),
    ("go", "🐹 Go"),
    ("rust", "🦀 Rust"),
    ("php", "🐘 PHP"),
    ("ruby", "💎 Ruby"),
    ("swift", "🍎 Swift"),
    ("kotlin", "🟣 Kotlin"),
    ("html", "🌐 HTML"),
    ("css", "🎨 CSS"),
    ("sql", "🗄️ SQL"),
    ("bash", "💻 Bash"),
    ("auto", "🤖 Auto")
  ]

  const BackgroundStyles: Table<string> := [
    ("solid", "⬛ Solid"),
    ("gradient", "🌈 Gradient"),
    ("rounded", "⭕ Rounded"),
    ("shadow", "💫 Shadow")
  ]

  function ThemeName(t: Theme): string { t.name }
  function Name(s: string): string { s }

  datatype Settings = Settings(theme: string, language: string, fontSize: int, backgroundStyle: string,
                               addWatermark: bool, lineNumbers: bool)

  const Defaults := Settings("monokai", "auto", 16, "gradient", false, true)

  // ---------------------------------------------------------------- the store as functions

  /** The presser's settings after a button press with callback `data`. */
  function Pressed(s: Settings, data: string): Settings {
    match Decode(data, "theme_")
    case Some(theme) => s.(theme := theme)
    case None =>
      match Decode(data, "lang_")
      case Some(language) => s.(language := language)
      case None =>
        match Decode(data, "bg_")
        case Some(style) => s.(backgroundStyle := style)
        case None => s
  }

  /** The store after a button press: only the presser's entry changes. */
  function AfterCallback(users: map<int, Settings>, id: int, data: string): (m: map<int, Settings>)
    ensures m.Keys == users.Keys + {id}
    ensures forall k :: k in users && k != id ==> m[k] == users[k]
  {
    var m := WithDefaults(users, id, Defaults);
    m[id := Pressed(m[id], data)]
  }

  /** What the press answers: the new choice's name, or the `KeyError` of looking it up. */
  function CallbackOutcome(data: string): Outcome {
    match Decode(data, "theme_")
    case Some(theme) => Confirm(Themes, theme, ThemeName)
    case None =>
      match Decode(data, "lang_")
      case Some(language) => Confirm(Languages, language, Name)
      case None =>
        match Decode(data, "bg_")
        case Some(style) => Confirm(BackgroundStyles, style, Name)
        case None => Ignored
  }

  /** `watermark_command` flips the watermark switch and touches nothing else. */
  function AfterWatermark(users: map<int, Settings>, id: int): (m: map<int, Settings>)
    ensures m.Keys == users.Keys + {id}
    ensures forall k :: k in users && k != id ==> m[k] == users[k]
    ensures var before := WithDefaults(users, id, Defaults)[id];
      m[id] == before.(addWatermark := !before.addWatermark)
  {
    var m := WithDefaults(users, id, Defaults);
    m[id := m[id].(addWatermark := !m[id].addWatermark)]
  }

  /** The names of the current theme, language and background style, looked up with
      `TABLE[key]`: the first missing id raises. Used by `settings_command` and by the caption. */
  function Names(s: Settings): (c: Result<seq<string>>)
    ensures c.Success? <==>
      s.theme in Keys(Themes) && s.language in Keys(Languages) && s.backgroundStyle in Keys(BackgroundStyles)
    ensures c.Failure? ==> c.error in {s.theme, s.language, s.backgroundStyle}
    ensures c.Failure? && s.theme !in Keys(Themes) ==> c.error == s.theme
    ensures c.Failure? && s.theme in Keys(Themes) && s.language !in Keys(Languages) ==> c.error == s.language
    ensures c.Failure? && s.theme in Keys(Themes) && s.language in Keys(Languages) ==> c.error == s.backgroundStyle
    ensures c.Success? ==>
      && |c.value| == 3
      && (exists t :: (s.theme, t) in Themes && c.value[0] == t.name)
      && (s.language, c.value[1]) in Languages
      && (s.backgroundStyle, c.value[2]) in BackgroundStyles
  {
    match (Lookup(Themes, s.theme), Lookup(Languages, s.language), Lookup(BackgroundStyles, s.backgroundStyle))
    case (None, _, _) => Failure(s.theme)
    case (_, None, _) => Failure(s.language)
    case (_, _, None) => Failure(s.backgroundStyle)
    case (Some(t), Some(l), Some(b)) => Success([t.name, l, b])
  }

  // ---------------------------------------------------------------- the store

  class SettingsStore {
    var users: map<int, Settings>

    constructor()
      ensures users == map[]
    {
      users := map[];
    }

    /** `get_user_settings` */
    method Get(id: int) returns (s: Settings)
      modifies this
      ensures users == WithDefaults(old(users), id, Defaults)
      ensures s == users[id]
    {
      if id !in users {
        users := users[id := Defaults];
      }
      s := users[id];
    }

    /** `watermark_command`: returns the new state of the switch. */
    method ToggleWatermark(id: int) returns (enabled: bool)
      modifies this
      ensures users == AfterWatermark(old(users), id)
      ensures enabled == users[id].addWatermark
    {
      var settings := Get(id);
      settings := settings.(addWatermark := !settings.addWatermark);
      users := users[id := settings];
      enabled := settings.addWatermark;
    }

    /** `button_callback` */
    method ButtonCallback(id: int, data: string) returns (outcome: Outcome)
      modifies this
      ensures users == AfterCallback(old(users), id, data)
      ensures outcome == CallbackOutcome(data)
    {
      var settings := Get(id);
      settings, outcome := Press(settings, data);
      users := users[id := settings];
    }

    /** `settings_command`: the three names (or the `KeyError`) and the two switches. */
    method ShowSettings(id: int) returns (names: Result<seq<string>>, watermark: bool, lineNumbers: bool)
      modifies this
      ensures users == WithDefaults(old(users), id, Defaults)
      ensures names == Names(users[id])
      ensures watermark == users[id].addWatermark && lineNumbers == users[id].lineNumbers
    {
      var settings := Get(id);
      names := Names(settings);
      watermark := settings.addWatermark;
      lineNumbers := settings.lineNumbers;
    }

    /** `handle_code`. Unlike the other bots it adopts no language hint: the settings are only
        read. `bbox` is the watermark text's bounding box, measured by Pillow. */
    method HandleCode(id: int, text: string, highlight: Highlighter, bbox: Box, dejaVuLoads: bool)
      returns (reply: Reply)
      modifies this
      ensures users == WithDefaults(old(users), id, Defaults)
      ensures var s := users[id];
        var image := EnhancedImage(Fence.Body(text), s.language, s.theme, s.backgroundStyle, s.addWatermark,
                                   s.lineNumbers, highlight, bbox, dejaVuLoads);
        reply == match Names(s)
                 case Success(lines) => Photo(image, lines)
                 case Failure(key) => Failed(key)
    {
      var settings := Get(id);
      var code := text;
      if StartsWith(text, Fence.Ticks) && EndsWith(text, Fence.Ticks) {
        var lines := Split(text, '\n');
        code := Join(Inner(lines), "\n");
      }
      reply := Respond(settings, code, highlight, bbox, dejaVuLoads);
    }
  }

  /** The body of `button_callback` on the presser's settings dictionary: the field its prefix
      names is overwritten, then the new id's display name is looked up. */
  method Press(settings: Settings, data: string) returns (next: Settings, outcome: Outcome)
    ensures next == Pressed(settings, data) && outcome == CallbackOutcome(data)
  {
    next := settings;
    if StartsWith(data, "theme_") {
      var theme := RemoveAll(data, "theme_");
      next := next.(theme := theme);
      outcome := Confirm(Themes, theme, ThemeName);
    } else if StartsWith(data, "lang_") {
      var language := RemoveAll(data, "lang_");
      next := next.(language := language);
      outcome := Confirm(Languages, language, Name);
    } else if StartsWith(data, "bg_") {
      var style := RemoveAll(data, "bg_");
      next := next.(backgroundStyle := style);
      outcome := Confirm(BackgroundStyles, style, Name);
    } else {
      outcome := Ignored;
    }
  }

  /** The rest of `handle_code`: the image is drawn with the theme id as the Pygments style, the
      background style and both switches, and captioned with the three names. */
  method Respond(settings: Settings, code: string, highlight: Highlighter, bbox: Box, dejaVuLoads: bool)
    returns (reply: Reply)
    ensures var image := EnhancedImage(code, settings.language, settings.theme, settings.backgroundStyle,
                                       settings.addWatermark, settings.lineNumbers, highlight, bbox, dejaVuLoads);
      reply == match Names(settings)
               case Success(lines) => Photo(image, lines)
               case Failure(key) => Failed(key)
  {
    var image := CreateEnhancedCodeImage(code, settings.language, settings.theme, settings.backgroundStyle,
                                         settings.addWatermark, settings.lineNumbers, highlight, bbox, dejaVuLoads);
    var caption := Names(settings);
    reply := match caption
             case Success(lines) => Photo(image, lines)
             case Failure(key) => Failed(key);
  }

  /** `background_command`'s keyboard: one style per row, in table order. */
  function BackgroundKeyboard(): (rows: seq<seq<Button>>)
    ensures |rows| == 4
    ensures forall r :: 0 <= r < 4 ==>
      rows[r] == [Button(BackgroundStyles[r].1, "bg_" + BackgroundStyles[r].0)]
  {
    Column(BackgroundStyles, Name, "bg_")
  }

  // ---------------------------------------------------------------- properties

  /** A button press changes at most one field of the presser's settings and no other user's. */
  lemma CallbackChangesOneField(users: map<int, Settings>, id: int, data: string)
    ensures var before, after := WithDefaults(users, id, Defaults), AfterCallback(users, id, data);
      && (forall k :: k in users && k != id ==> after[k] == users[k])
      && after[id].addWatermark == before[id].addWatermark && after[id].lineNumbers == before[id].lineNumbers
      && after[id].fontSize == before[id].fontSize
      && (StartsWith(data, "theme_") ==> after[id] == before[id].(theme := RemoveAll(data, "theme_")))
      && (!StartsWith(data, "theme_") && StartsWith(data, "lang_") ==>
            after[id] == before[id].(language := RemoveAll(data, "lang_")))
      && (!StartsWith(data, "theme_") && !StartsWith(data, "lang_") && StartsWith(data, "bg_") ==>
            after[id] == before[id].(backgroundStyle := RemoveAll(data, "bg_")))
      && (!StartsWith(data, "theme_") && !StartsWith(data, "lang_") && !StartsWith(data, "bg_") ==> after == before)
  {
  }

  /** Toggling the watermark twice restores the store as the first access left it. */
  lemma WatermarkTwice(users: map<int, Settings>, id: int)
    ensures AfterWatermark(AfterWatermark(users, id), id) == WithDefaults(users, id, Defaults)
  {
    var m := WithDefaults(users, id, Defaults);
    assert AfterWatermark(users, id)[id].(addWatermark := !AfterWatermark(users, id)[id].addWatermark) == m[id];
  }

  lemma BackgroundStylesDistinct() ensures Distinct(BackgroundStyles) {}
  lemma BackgroundStylesPlain() ensures Plain(BackgroundStyles) {}

  /** Every background button, once pressed, selects its style and answers with the name it
      shows; the next image then goes through that style's background step, which succeeds. */
  lemma BackgroundButtonSelects(users: map<int, Settings>, id: int, k: nat, img: Picture)
    requires k < |BackgroundStyles|
    ensures var b := BackgroundKeyboard()[k][0];
      && AfterCallback(users, id, b.data)[id]
         == WithDefaults(users, id, Defaults)[id].(backgroundStyle := BackgroundStyles[k].0)
      && CallbackOutcome(b.data) == Confirmed(b.text)
      && Styled(img, AfterCallback(users, id, b.data)[id].backgroundStyle).Success?
  {
    BackgroundStylesDistinct();
    BackgroundStylesPlain();
    ButtonDecodes(BackgroundStyles, Name, "bg_", k);
    var data := "bg_" + BackgroundStyles[k].0;
    assert Buttons(BackgroundStyles, Name, "bg_")[k].data == data;
    FirstCharDiffers(data, "theme_");
    FirstCharDiffers(data, "lang_");
    StyledSucceeds(img, BackgroundStyles[k].0);
  }
}

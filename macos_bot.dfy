/**
 * The macOS-window bot: per-user theme, language, font and line-number switch, two-column
 * keyboards for the three tables, and the framed images of `MacosRender`.
 */
module MacosBot {
  import opened Wrappers
  import opened Strings
  import opened Registry
  import opened Keyboard
  import opened Canvas
  import opened Highlight
  import opened Session
  import opened MacosRender
  import Fence

  const Languages: Table<string> := [
    ("python", "🐍 Python"),
    ("javascript", "📜 JavaScript"),
    ("typescript", "📘 TypeScript"),
    ("java", "☕ Java"),
    ("cpp", "⚙️ C++"),
    ("csharp", "🔷 C#"),
    ("go", "🐹 Go"),
    ("rust", "🦀 Rust"),
    ("php", "🐘 PHP"),
    ("ruby", "💎 Ruby"),
    ("swift", "🍎 Swift"),
    ("kotlin", "🟣 Kotlin"),
    ("html", "🌐 HTML"),
    ("css", "🎨 CSS"),
    ("sql", "🗄️ SQL"),
    ("bash", "💻 Bash"),
    ("auto", "🤖 Auto")
  ]

  function LanguageName(s: string): string { s }
  function ThemeName(t: Theme): string { t.name }
  function FontLabel(f: FontChoice): string { f.name }

  datatype Settings = Settings(theme: string, language: string, showLineNumbers: bool, font: string)

  const Defaults := Settings("monokai", "auto", true, "fira")

  // ---------------------------------------------------------------- the store as functions

  /** The presser's settings after a button press with callback `data`. */
  function Pressed(s: Settings, data: string): Settings {
    match Decode(data, "theme_")
    case Some(theme) => s.(theme := theme)
    case None =>
      match Decode(data, "lang_")
      case Some(language) => s.(language := language)
      case None =>
        match Decode(data, "font_")
        case Some(font) => s.(font := font)
        case None => s
  }

  /** The store after a button press: only the presser's entry changes. */
  function AfterCallback(users: map<int, Settings>, id: int, data: string): (m: map<int, Settings>)
    ensures m.Keys == users.Keys + {id}
    ensures forall k :: k in users && k != id ==> m[k] == users[k]
  {
    var m := WithDefaults(users, id, Defaults);
    m[id := Pressed(m[id], data)]
  }

  /** What the press answers: the new choice's name, or the `KeyError` of looking it up. */
  function CallbackOutcome(data: string): Outcome {
    match Decode(data, "theme_")
    case Some(theme) => Confirm(Themes, theme, ThemeName)
    case None =>
      match Decode(data, "lang_")
      case Some(language) => Confirm(Languages, language, LanguageName)
      case None =>
        match Decode(data, "font_")
        case Some(font) => Confirm(Fonts, font, FontLabel)
        case None => Ignored
  }

  /** `toggle_numbers_command` flips the switch and touches nothing else. */
  function AfterToggle(users: map<int, Settings>, id: int): (m: map<int, Settings>)
    ensures m.Keys == users.Keys + {id}
    ensures forall k :: k in users && k != id ==> m[k] == users[k]
    ensures var before := WithDefaults(users, id, Defaults)[id];
      m[id].showLineNumbers == !before.showLineNumbers
      && m[id].theme == before.theme && m[id].language == before.language && m[id].font == before.font
  {
    var m := WithDefaults(users, id, Defaults);
    m[id := m[id].(showLineNumbers := !m[id].showLineNumbers)]
  }

  /** The sender's settings after a code message: a known language hint in a fenced message is
      adopted. */
  function Adopted(s: Settings, text: string): Settings {
    match Fence.Selected(text, Keys(Languages))
    case Some(language) => s.(language := language)
    case None => s
  }

  /** The store after a code message: only the sender's entry changes. */
  function AfterMessage(users: map<int, Settings>, id: int, text: string): (m: map<int, Settings>)
    ensures m.Keys == users.Keys + {id}
    ensures forall k :: k in users && k != id ==> m[k] == users[k]
  {
    var m := WithDefaults(users, id, Defaults);
    m[id := Adopted(m[id], text)]
  }

  /** The names of the current theme, language and font, looked up with `TABLE[key]`: the first
      missing id raises. Used by `settings_command` and by the photo caption. */
  function Names(s: Settings): (c: Result<seq<string>>)
    ensures c.Success? <==> s.theme in Keys(Themes) && s.language in Keys(Languages) && s.font in Keys(Fonts)
    ensures c.Failure? ==> c.error in {s.theme, s.language, s.font}
    ensures c.Failure? && s.theme !in Keys(Themes) ==> c.error == s.theme
    ensures c.Failure? && s.theme in Keys(Themes) && s.language !in Keys(Languages) ==> c.error == s.language
    ensures c.Failure? && s.theme in Keys(Themes) && s.language in Keys(Languages) ==> c.error == s.font
    ensures c.Success? ==>
      && |c.value| == 3 && c.value[0] == ThemeFor(s.theme).name
      && (s.language, c.value[1]) in Languages && c.value[2] == FontFor(s.font).name
  {
    match (Lookup(Themes, s.theme), Lookup(Languages, s.language), Lookup(Fonts, s.font))
    case (None, _, _) => Failure(s.theme)
    case (_, None, _) => Failure(s.language)
    case (_, _, None) => Failure(s.font)
    case (Some(t), Some(l), Some(f)) => Success([t.name, l, f.name])
  }

  // ---------------------------------------------------------------- the store

  class SettingsStore {
    var users: map<int, Settings>

    constructor()
      ensures users == map[]
    {
      users := map[];
    }

    /** `get_user_settings` */
    method Get(id: int) returns (s: Settings)
      modifies this
      ensures users == WithDefaults(old(users), id, Defaults)
      ensures s == users[id]
    {
      if id !in users {
        users := users[id := Defaults];
      }
      s := users[id];
    }

    /** `toggle_numbers_command`: returns the new state of the switch. */
    method ToggleNumbers(id: int) returns (enabled: bool)
      modifies this
      ensures users == AfterToggle(old(users), id)
      ensures enabled == users[id].showLineNumbers
    {
      var settings := Get(id);
      settings := settings.(showLineNumbers := !settings.showLineNumbers);
      users := users[id := settings];
      enabled := settings.showLineNumbers;
    }

    /** `button_callback` */
    method ButtonCallback(id: int, data: string) returns (outcome: Outcome)
      modifies this
      ensures users == AfterCallback(old(users), id, data)
      ensures outcome == CallbackOutcome(data)
    {
      var settings := Get(id);
      settings, outcome := Press(settings, data);
      users := users[id := settings];
    }

    /** `settings_command`: the three names (or the `KeyError`) and the switch. */
    method ShowSettings(id: int) returns (names: Result<seq<string>>, lineNumbers: bool)
      modifies this
      ensures users == WithDefaults(old(users), id, Defaults)
      ensures names == Names(users[id]) && lineNumbers == users[id].showLineNumbers
    {
      var settings := Get(id);
      names := Names(settings);
      lineNumbers := settings.showLineNumbers;
    }

    /** `handle_code`. `installed` is the set of font files present on the machine. The image is
        drawn with the theme and font fallbacks, but the caption looks the ids up directly. */
    method HandleCode(id: int, text: string, installed: set<string>, highlight: Highlighter, dejaVuLoads: bool)
      returns (reply: Reply)
      modifies this
      ensures users == AfterMessage(old(users), id, text)
      ensures var s := users[id];
        var image := CodeImage(Fence.Body(text), s.language, s.theme, s.showLineNumbers, s.font,
                               installed, highlight, dejaVuLoads);
        reply == match Names(s)
                 case Success(lines) => Photo(image, lines)
                 case Failure(key) => Failed(key)
    {
      var settings := Get(id);
      var code;
      settings, code := ReadMessage(settings, text);
      users := users[id := settings];
      reply := Respond(settings, code, installed, highlight, dejaVuLoads);
    }
  }

  /** The second half of `handle_code`: the image drawn with the sender's settings, captioned
      with the three names; a missing id raises before the photo is sent. */
  method Respond(settings: Settings, code: string, installed: set<string>, highlight: Highlighter, dejaVuLoads: bool)
    returns (reply: Reply)
    ensures var image := CodeImage(code, settings.language, settings.theme, settings.showLineNumbers, settings.font,
                                   installed, highlight, dejaVuLoads);
      reply == match Names(settings)
               case Success(lines) => Photo(image, lines)
               case Failure(key) => Failed(key)
  {
    var image := CreateCodeImage(code, settings.language, settings.theme, settings.showLineNumbers,
                                 settings.font, installed, highlight, dejaVuLoads);
    var caption := Names(settings);
    reply := match caption
             case Success(lines) => Photo(image, lines)
             case Failure(key) => Failed(key);
  }

  /** The body of `button_callback` on the presser's settings dictionary: the field its prefix
      names is overwritten, then the new id's display name is looked up. */
  method Press(settings: Settings, data: string) returns (next: Settings, outcome: Outcome)
    ensures next == Pressed(settings, data) && outcome == CallbackOutcome(data)
  {
    next := settings;
    if StartsWith(data, "theme_") {
      var theme := RemoveAll(data, "theme_");
      next := next.(theme := theme);
      outcome := Confirm(Themes, theme, ThemeName);
    } else if StartsWith(data, "lang_") {
      var language := RemoveAll(data, "lang_");
      next := next.(language := language);
      outcome := Confirm(Languages, language, LanguageName);
    } else if StartsWith(data, "font_") {
      var font := RemoveAll(data, "font_");
      next := next.(font := font);
      outcome := Confirm(Fonts, font, FontLabel);
    } else {
      outcome := Ignored;
    }
  }

  /** The first half of `handle_code` on the sender's settings dictionary: the fence is removed
      and a known language hint is adopted. */
  method ReadMessage(settings: Settings, text: string) returns (next: Settings, code: string)
    ensures next == Adopted(settings, text) && code == Fence.Body(text)
  {
    next := settings;
    code := text;
    if StartsWith(text, Fence.Ticks) && EndsWith(text, Fence.Ticks) {
      var lines := Split(text, '\n');
      code := Join(Inner(lines), "\n");
      if StartsWith(lines[0], Fence.Ticks) && |lines[0]| > 3 {
        var hint := Strip(lines[0][3..]);
        if hint in Keys(Languages) {
          assert Fence.Selected(text, Keys(Languages)) == Some(hint);
          next := next.(language := hint);
        }
      }
    }
  }

  method ThemeKeyboard() returns (keyboard: seq<seq<Button>>)
    ensures keyboard == Pairs(Buttons(Themes, ThemeName, "theme_"))
    ensures |keyboard| == 4 && Flatten(keyboard) == Buttons(Themes, ThemeName, "theme_")
  {
    keyboard := TwoColumnKeyboard(Themes, ThemeName, "theme_");
    PairsShape(Buttons(Themes, ThemeName, "theme_"));
  }

  method LanguageKeyboard() returns (keyboard: seq<seq<Button>>)
    ensures keyboard == Pairs(Buttons(Languages, LanguageName, "lang_"))
    ensures |keyboard| == 9 && Flatten(keyboard) == Buttons(Languages, LanguageName, "lang_")
  {
    keyboard := TwoColumnKeyboard(Languages, LanguageName, "lang_");
    PairsShape(Buttons(Languages, LanguageName, "lang_"));
  }

  method FontKeyboard() returns (keyboard: seq<seq<Button>>)
    ensures keyboard == Pairs(Buttons(Fonts, FontLabel, "font_"))
    ensures |keyboard| == 3 && Flatten(keyboard) == Buttons(Fonts, FontLabel, "font_")
  {
    keyboard := TwoColumnKeyboard(Fonts, FontLabel, "font_");
    PairsShape(Buttons(Fonts, FontLabel, "font_"));
  }

  // ---------------------------------------------------------------- properties

  /** A button press changes at most one field of the presser's settings and no other user's. */
  lemma CallbackChangesOneField(users: map<int, Settings>, id: int, data: string)
    ensures var before, after := WithDefaults(users, id, Defaults), AfterCallback(users, id, data);
      && (forall k :: k in users && k != id ==> after[k] == users[k])
      && after[id].showLineNumbers == before[id].showLineNumbers
      && (StartsWith(data, "theme_") ==> after[id] == before[id].(theme := RemoveAll(data, "theme_")))
      && (!StartsWith(data, "theme_") && StartsWith(data, "lang_") ==>
            after[id] == before[id].(language := RemoveAll(data, "lang_")))
      && (!StartsWith(data, "theme_") && !StartsWith(data, "lang_") && StartsWith(data, "font_") ==>
            after[id] == before[id].(font := RemoveAll(data, "font_")))
      && (!StartsWith(data, "theme_") && !StartsWith(data, "lang_") && !StartsWith(data, "font_") ==> after == before)
  {
  }

  /** Toggling twice restores the store as the first access left it. */
  lemma ToggleTwice(users: map<int, Settings>, id: int)
    ensures AfterToggle(AfterToggle(users, id), id) == WithDefaults(users, id, Defaults)
  {
    var m := WithDefaults(users, id, Defaults);
    assert AfterToggle(users, id)[id].(showLineNumbers := !AfterToggle(users, id)[id].showLineNumbers) == m[id];
  }

  lemma ThemesDistinct() ensures Distinct(Themes) {}
  lemma ThemesPlain() ensures Plain(Themes) {}
  lemma LanguagesDistinct() ensures Distinct(Languages) {
    LanguagesHeadDistinct();
    LanguagesTailDistinct();
    LanguagesHalvesApart();
    assert Languages == Languages[..8] + Languages[8..];
    DistinctConcat(Languages[..8], Languages[8..]);
  }
  lemma LanguagesHeadDistinct() ensures Distinct(Languages[..8]) {}
  lemma LanguagesTailDistinct() ensures Distinct(Languages[8..]) {}
  lemma LanguagesHalvesApart() ensures Apart(Languages[..8], Languages[8..]) {}
  lemma LanguagesPlain() ensures Plain(Languages) {}
  lemma FontsDistinct() ensures Distinct(Fonts) {}
  lemma FontsPlain() ensures Plain(Fonts) {}

  lemma ThemeButtonSelects(users: map<int, Settings>, id: int, k: nat)
    requires k < |Themes|
    ensures var b := Buttons(Themes, ThemeName, "theme_")[k];
      && AfterCallback(users, id, b.data)[id] == WithDefaults(users, id, Defaults)[id].(theme := Themes[k].0)
      && CallbackOutcome(b.data) == Confirmed(b.text)
  {
    ThemesDistinct();
    ThemesPlain();
    ButtonDecodes(Themes, ThemeName, "theme_", k);
  }

  lemma LanguageButtonSelects(users: map<int, Settings>, id: int, k: nat)
    requires k < |Languages|
    ensures var b := Buttons(Languages, LanguageName, "lang_")[k];
      && AfterCallback(users, id, b.data)[id] == WithDefaults(users, id, Defaults)[id].(language := Languages[k].0)
      && CallbackOutcome(b.data) == Confirmed(b.text)
  {
    LanguagesDistinct();
    LanguagesPlain();
    ButtonDecodes(Languages, LanguageName, "lang_", k);
    var data := Buttons(Languages, LanguageName, "lang_")[k].data;
    assert data == "lang_" + Languages[k].0;
    FirstCharDiffers(data, "theme_");
  }

  lemma FontButtonSelects(users: map<int, Settings>, id: int, k: nat)
    requires k < |Fonts|
    ensures var b := Buttons(Fonts, FontLabel, "font_")[k];
      && AfterCallback(users, id, b.data)[id] == WithDefaults(users, id, Defaults)[id].(font := Fonts[k].0)
      && CallbackOutcome(b.data) == Confirmed(b.text)
  {
    FontsDistinct();
    FontsPlain();
    ButtonDecodes(Fonts, FontLabel, "font_", k);
    var data := Buttons(Fonts, FontLabel, "font_")[k].data;
    assert data == "font_" + Fonts[k].0;
    FirstCharDiffers(data, "theme_");
    FirstCharDiffers(data, "lang_");
  }

  /** A code message changes at most the sender's language, and only to a listed language. */
  lemma MessageChangesOnlyLanguage(users: map<int, Settings>, id: int, text: string)
    ensures var before, after := WithDefaults(users, id, Defaults), AfterMessage(users, id, text);
      && (forall k :: k in users && k != id ==> after[k] == users[k])
      && after[id] == before[id].(language := after[id].language)
      && (after[id].language == before[id].language || after[id].language in Keys(Languages))
      && (!Fence.IsFenced(text) ==> after == before)
  {
  }
}

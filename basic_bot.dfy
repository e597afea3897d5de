/**
 * The basic bot: per-user theme and language, two-column selection keyboards, and plain
 * Pygments images.
 */
module BasicBot {
  import opened Wrappers
  import opened Strings
  import opened Registry
  import opened Keyboard
  import opened Canvas
  import opened Highlight
  import opened Session
  import Fence

  const Themes: Table<string> := [
    ("monokai", "🌙 Monokai (Dark)"),
    ("github-dark", "🌃 GitHub Dark"),
    ("dracula", "🧛 Dracula"),
    ("nord", "❄️ Nord"),
    ("one-dark", "🌑 One Dark"),
    ("solarized-dark", "☀️ Solarized Dark"),
    ("solarized-light", "☀️ Solarized Light"),
    ("github-light", "☁️ GitHub Light"),
    ("default", "📝 Default")
  ]

  const Languages: Table<string> := [
    ("python", "🐍 Python"),
    ("javascript", "📜 JavaScript"),
    ("typescript", "📘 TypeScript"),
    ("java", "☕ Java"),
    ("cpp", "⚙️ C++"),
    ("csharp", "🔷 C#"),
    ("go", "🐹 Go"),
    ("rust", "🦀 Rust"),
    ("php", "🐘 PHP"),
    ("ruby", "💎 Ruby"),
    ("swift", "🍎 Swift"),
    ("kotlin", "🟣 Kotlin"),
    ("html", "🌐 HTML"),
    ("css", "🎨 CSS"),
    ("sql", "🗄️ SQL"),
    ("bash", "💻 Bash"),
    ("auto", "🤖 Auto-detect")
  ]

  function Name(s: string): string { s }

  datatype Settings = Settings(theme: string, language: string, fontSize: int)

  const Defaults := Settings("monokai", "auto", 16)

  // ---------------------------------------------------------------- the store as functions

  /** The presser's settings after a button press with callback `data`. */
  function Pressed(s: Settings, data: string): Settings {
    match Decode(data, "theme_")
    case Some(theme) => s.(theme := theme)
    case None =>
      match Decode(data, "lang_")
      case Some(language) => s.(language := language)
      case None => s
  }

  /** The store after a button press: only the presser's entry changes. */
  function AfterCallback(users: map<int, Settings>, id: int, data: string): (m: map<int, Settings>)
    ensures m.Keys == users.Keys + {id}
    ensures forall k :: k in users && k != id ==> m[k] == users[k]
  {
    var m := WithDefaults(users, id, Defaults);
    m[id := Pressed(m[id], data)]
  }

  /** What the press answers: the new choice's name, or the `KeyError` of looking it up. */
  function CallbackOutcome(data: string): Outcome {
    match Decode(data, "theme_")
    case Some(theme) => Confirm(Themes, theme, Name)
    case None =>
      match Decode(data, "lang_")
      case Some(language) => Confirm(Languages, language, Name)
      case None => Ignored
  }

  /** The sender's settings after a code message: a known language hint in a fenced message is
      adopted. */
  function Adopted(s: Settings, text: string): Settings {
    match Fence.Selected(text, Keys(Languages))
    case Some(language) => s.(language := language)
    case None => s
  }

  /** The store after a code message: only the sender's entry changes. */
  function AfterMessage(users: map<int, Settings>, id: int, text: string): (m: map<int, Settings>)
    ensures m.Keys == users.Keys + {id}
    ensures forall k :: k in users && k != id ==> m[k] == users[k]
  {
    var m := WithDefaults(users, id, Defaults);
    m[id := Adopted(m[id], text)]
  }

  function BasicOptions(style: string): (o: FormatterOptions)
    ensures o.style == style && o.fontName == "DejaVu Sans Mono" && o.fontSize == 16
    ensures o.lineNumbers && o.lineNumberSeparator && o.hlColor == Some("#3e4451")
    ensures o.lineNumberBg == Some("#1e1e1e") && o.lineNumberFg == Some("#858585")
  {
    FormatterOptions(style, "DejaVu Sans Mono", 16, true, true, Some("#1e1e1e"), Some("#858585"), Some("#3e4451"))
  }

  /** `create_code_image`: the highlighted image, or the error picture when highlighting raised. */
  function CodeImage(code: string, language: string, style: string, highlight: Highlighter, dejaVuLoads: bool): (p: Picture)
    ensures highlight(code, LexerFor(language), BasicOptions(style)).Failure? ==>
      p == ErrorPicture(highlight(code, LexerFor(language), BasicOptions(style)).error, dejaVuLoads)
    ensures highlight(code, LexerFor(language), BasicOptions(style)).Success? ==>
      p == highlight(code, LexerFor(language), BasicOptions(style)).value
  {
    match highlight(code, LexerFor(language), BasicOptions(style))
    case Success(img) => img
    case Failure(e) => ErrorPicture(e, dejaVuLoads)
  }

  /** The caption `THEMES[theme]`, `LANGUAGES[language]`; the first missing id raises. */
  function Caption(s: Settings): (c: Result<seq<string>>)
    ensures c.Success? <==> s.theme in Keys(Themes) && s.language in Keys(Languages)
    ensures c.Failure? && s.theme !in Keys(Themes) ==> c.error == s.theme
    ensures c.Failure? && s.theme in Keys(Themes) ==> c.error == s.language
    ensures c.Success? ==> |c.value| == 2 && (s.theme, c.value[0]) in Themes && (s.language, c.value[1]) in Languages
  {
    match (Lookup(Themes, s.theme), Lookup(Languages, s.language))
    case (None, _) => Failure(s.theme)
    case (_, None) => Failure(s.language)
    case (Some(t), Some(l)) => Success([t, l])
  }

  /** `settings_command`: names of the current choices, `'Unknown'` for an id missing from the
      tables, and the font size; it never raises. */
  function SettingsView(s: Settings): (view: (string, string, int))
    ensures s.theme in Keys(Themes) ==> (s.theme, view.0) in Themes
    ensures s.theme !in Keys(Themes) ==> view.0 == "Unknown"
    ensures s.language in Keys(Languages) ==> (s.language, view.1) in Languages
    ensures s.language !in Keys(Languages) ==> view.1 == "Unknown"
    ensures view.2 == s.fontSize
  {
    var theme := match Lookup(Themes, s.theme) case Some(t) => t case None => "Unknown";
    var language := match Lookup(Languages, s.language) case Some(l) => l case None => "Unknown";
    (theme, language, s.fontSize)
  }

  // ---------------------------------------------------------------- the store

  /** `user_settings`, the dictionary of every user's settings. */
  class SettingsStore {
    var users: map<int, Settings>

    constructor()
      ensures users == map[]
    {
      users := map[];
    }

    /** `get_user_settings` */
    method Get(id: int) returns (s: Settings)
      modifies this
      ensures users == WithDefaults(old(users), id, Defaults)
      ensures s == users[id]
    {
      if id !in users {
        users := users[id := Defaults];
      }
      s := users[id];
    }

    /** `settings_command`: the first access files the defaults; the view never raises. */
    method ShowSettings(id: int) returns (view: (string, string, int))
      modifies this
      ensures users == WithDefaults(old(users), id, Defaults)
      ensures view == SettingsView(users[id])
    {
      var settings := Get(id);
      view := SettingsView(settings);
    }

    /** `button_callback`: the store is updated before the name is looked up, so an unknown id
        raises with the store already changed. */
    method ButtonCallback(id: int, data: string) returns (outcome: Outcome)
      modifies this
      ensures users == AfterCallback(old(users), id, data)
      ensures outcome == CallbackOutcome(data)
    {
      var settings := Get(id);
      settings, outcome := Press(settings, data);
      users := users[id := settings];
    }

    /** `handle_code` */
    method HandleCode(id: int, text: string, highlight: Highlighter, dejaVuLoads: bool) returns (reply: Reply)
      modifies this
      ensures users == AfterMessage(old(users), id, text)
      ensures var s := users[id];
        var image := CodeImage(Fence.Body(text), s.language, s.theme, highlight, dejaVuLoads);
        reply == match Caption(s)
                 case Success(lines) => Photo(image, lines)
                 case Failure(key) => Failed(key)
    {
      var settings := Get(id);
      var code;
      settings, code := ReadMessage(settings, text);
      users := users[id := settings];
      var image := CodeImage(code, settings.language, settings.theme, highlight, dejaVuLoads);
      var caption := Caption(settings);
      reply := match caption
               case Success(lines) => Photo(image, lines)
               case Failure(key) => Failed(key);
    }
  }

  /** The body of `button_callback` on the presser's settings dictionary: the field its prefix
      names is overwritten, then the new id's display name is looked up. */
  method Press(settings: Settings, data: string) returns (next: Settings, outcome: Outcome)
    ensures next == Pressed(settings, data) && outcome == CallbackOutcome(data)
  {
    next := settings;
    if StartsWith(data, "theme_") {
      var theme := RemoveAll(data, "theme_");
      next := next.(theme := theme);
      outcome := Confirm(Themes, theme, Name);
    } else if StartsWith(data, "lang_") {
      var language := RemoveAll(data, "lang_");
      next := next.(language := language);
      outcome := Confirm(Languages, language, Name);
    } else {
      outcome := Ignored;
    }
  }

  /** The first half of `handle_code` on the sender's settings dictionary: the fence is removed
      and a known language hint is adopted. */
  method ReadMessage(settings: Settings, text: string) returns (next: Settings, code: string)
    ensures next == Adopted(settings, text) && code == Fence.Body(text)
  {
    next := settings;
    code := text;
    if StartsWith(text, Fence.Ticks) && EndsWith(text, Fence.Ticks) {
      var lines := Split(text, '\n');
      code := Join(Inner(lines), "\n");
      if StartsWith(lines[0], Fence.Ticks) && |lines[0]| > 3 {
        var hint := Strip(lines[0][3..]);
        if hint in Keys(Languages) {
          assert Fence.Selected(text, Keys(Languages)) == Some(hint);
          next := next.(language := hint);
        }
      }
    }
  }

  /** `theme_command`'s keyboard and `language_command`'s. */
  method ThemeKeyboard() returns (keyboard: seq<seq<Button>>)
    ensures keyboard == Pairs(Buttons(Themes, Name, "theme_"))
    ensures |keyboard| == 5 && Flatten(keyboard) == Buttons(Themes, Name, "theme_")
  {
    keyboard := TwoColumnKeyboard(Themes, Name, "theme_");
    PairsShape(Buttons(Themes, Name, "theme_"));
  }

  method LanguageKeyboard() returns (keyboard: seq<seq<Button>>)
    ensures keyboard == Pairs(Buttons(Languages, Name, "lang_"))
    ensures |keyboard| == 9 && Flatten(keyboard) == Buttons(Languages, Name, "lang_")
  {
    keyboard := TwoColumnKeyboard(Languages, Name, "lang_");
    PairsShape(Buttons(Languages, Name, "lang_"));
  }

  // ---------------------------------------------------------------- properties

  /** A button press changes at most one field of the presser's settings and no other user's. */
  lemma CallbackChangesOneField(users: map<int, Settings>, id: int, data: string)
    ensures var before, after := WithDefaults(users, id, Defaults), AfterCallback(users, id, data);
      && (forall k :: k in users && k != id ==> after[k] == users[k])
      && (StartsWith(data, "theme_") ==>
            after[id] == before[id].(theme := RemoveAll(data, "theme_")))
      && (!StartsWith(data, "theme_") && StartsWith(data, "lang_") ==>
            after[id] == before[id].(language := RemoveAll(data, "lang_")))
      && (!StartsWith(data, "theme_") && !StartsWith(data, "lang_") ==> after == before)
  {
  }

  /** The press is applied even when the id is not in the table and the answer raises. */
  lemma UnknownThemeStillStored(users: map<int, Settings>, id: int, theme: string)
    requires '_' !in theme && theme !in Keys(Themes)
    ensures CallbackOutcome("theme_" + theme) == MissingKey(theme)
    ensures AfterCallback(users, id, "theme_" + theme)[id] == WithDefaults(users, id, Defaults)[id].(theme := theme)
  {
    assert StartsWith("theme_" + theme, "theme_");
    PrefixRemoved("theme_", theme, '_');
  }

  lemma ThemesDistinct() ensures Distinct(Themes) {}
  lemma ThemesPlain() ensures Plain(Themes) {}
  lemma LanguagesDistinct() ensures Distinct(Languages) {
    LanguagesHeadDistinct();
    LanguagesTailDistinct();
    LanguagesHalvesApart();
    assert Languages == Languages[..8] + Languages[8..];
    DistinctConcat(Languages[..8], Languages[8..]);
  }
  lemma LanguagesHeadDistinct() ensures Distinct(Languages[..8]) {}
  lemma LanguagesTailDistinct() ensures Distinct(Languages[8..]) {}
  lemma LanguagesHalvesApart() ensures Apart(Languages[..8], Languages[8..]) {}
  lemma LanguagesPlain() ensures Plain(Languages) {}

  /** Every theme button, once pressed, selects its theme and answers with the name it shows. */
  lemma ThemeButtonSelects(users: map<int, Settings>, id: int, k: nat)
    requires k < |Themes|
    ensures var b := Buttons(Themes, Name, "theme_")[k];
      && AfterCallback(users, id, b.data)[id] == WithDefaults(users, id, Defaults)[id].(theme := Themes[k].0)
      && CallbackOutcome(b.data) == Confirmed(b.text)
  {
    ThemesDistinct();
    ThemesPlain();
    ButtonDecodes(Themes, Name, "theme_", k);
  }

  lemma LanguageButtonSelects(users: map<int, Settings>, id: int, k: nat)
    requires k < |Languages|
    ensures var b := Buttons(Languages, Name, "lang_")[k];
      && AfterCallback(users, id, b.data)[id] == WithDefaults(users, id, Defaults)[id].(language := Languages[k].0)
      && CallbackOutcome(b.data) == Confirmed(b.text)
  {
    LanguagesDistinct();
    LanguagesPlain();
    ButtonDecodes(Languages, Name, "lang_", k);
    var data := Buttons(Languages, Name, "lang_")[k].data;
    assert data == "lang_" + Languages[k].0;
    FirstCharDiffers(data, "theme_");
  }

  /** A code message changes at most the sender's language, and only to a listed language. */
  lemma MessageChangesOnlyLanguage(users: map<int, Settings>, id: int, text: string)
    ensures var before, after := WithDefaults(users, id, Defaults), AfterMessage(users, id, text);
      && (forall k :: k in users && k != id ==> after[k] == users[k])
      && after[id].theme == before[id].theme && after[id].fontSize == before[id].fontSize
      && (after[id].language == before[id].language || after[id].language in Keys(Languages))
      && (!Fence.IsFenced(text) ==> after == before)
  {
  }
}

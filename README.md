# Code-image Telegram bots, modelled in Dafny

The repository holds three Telegram bots. Each one turns a code message into a syntax-highlighted picture.

- **`code_image_bot.py`, the basic bot.** It keeps a theme and a language per user and offers both through two-column inline keyboards. It renders plain Pygments images.
- **`code_image_bot_macos.py`, the macOS bot.** It adds a font choice and a line-number switch. It frames the code image in a macOS-style window: a title bar with three buttons, shadows, and a diagonal gradient background in the theme's colours.
- **`code_image_bot_enhanced.py`, the enhanced bot.** It adds a background style (solid, gradient, rounded corners or drop shadow) and a watermark switch.

All three keep settings in one dictionary, keyed by user id, that `get_user_settings` fills with defaults on first access. All three strip a Markdown code fence from an incoming message. The basic and macOS bots then adopt the fence's language hint when it names a listed language.

The model is split into modules that follow this structure:

| module | file | what it holds |
|---|---|---|
| `Wrappers` | `wrappers.dfy` | `Option`, `Result` |
| `Strings` | `strings.dfy` | Python's `startswith`, `split`, `join`, `strip`, `lstrip`, `replace(pat, "")` and `lines[1:-1]` |
| `Registry` | `registry.dfy` | the display tables (`THEMES`, `LANGUAGES`, …) as ordered lists of (id, entry) pairs, `dict.get` |
| `Session` | `session.dfy` | `get_user_settings`, the `prefix + id` callback data and its decoding, the `KeyError` of a missing id |
| `Keyboard` | `keyboard.dfy` | the two-column keyboard loop and the one-column keyboard |
| `Fence` | `fence.dfy` | code-fence removal and the language hint |
| `Colour` | `colour.dfy` | `hex_to_rgb`, the `int(s, 16)` reads, the diagonal mask value and the row interpolation |
| `Canvas` | `canvas.dfy` | a Pillow picture as its size, mode, background and the ordered list of drawing operations applied to it; the error picture |
| `Highlight` | `highlight.dfy` | lexer choice and the formatter options; Pygments itself is a function parameter |
| `MacosRender` | `macos_render.dfy` | the gradient background, the window geometry and composition, the themes, the fonts, `create_code_image` of the macOS bot |
| `EnhancedRender` | `enhanced_render.dfy` | the vertical gradient, rounded corners, shadow, watermark, `create_enhanced_code_image` |
| `BasicBot`, `MacosBot`, `EnhancedBot` | `basic_bot.dfy`, `macos_bot.dfy`, `enhanced_bot.dfy` | each bot's tables, settings record, and the `SettingsStore` class whose `users` map the handlers update |

Each handler that changes the settings dictionary is a method of `SettingsStore` and reassigns `users`. The method is proved equal to a function of the old map, such as `AfterCallback`, `AfterMessage` or `AfterToggle`. The properties the bots rely on are lemmas about those functions. Drawing is modelled as the list of operations Pillow is asked to perform, in order, not as pixels. The loops of the source are methods proved equal to the function they compute:

- the two-column keyboard;
- the per-pixel mask;
- the per-row gradient;
- the title-bar buttons.

## Model

| member | source | states |
|---|---|---|
| Session.WithDefaults | code_image_bot.py:64-72 | the first access files the defaults under an unseen id; every other entry, and an existing entry for the id, is kept; the key set grows by the id only |
| Session.WithDefaultsIdempotent | code_image_bot_macos.py:176-185 | a second `get_user_settings` for the same id changes nothing |
| Session.Confirm | code_image_bot.py:205-220 | the confirmation names the new choice exactly when its id is in the table (with that entry's display name); otherwise the `KeyError` carries the id |
| Session.Decode | code_image_bot.py:205-216 | callback data yields an id exactly when it starts with the prefix |
| Session.ButtonDecodes | code_image_bot.py:131-141 | in a table without repeated or underscored ids, the k-th button's data decodes back to the k-th id and the confirmation shows the button's own text |
| Registry.Lookup | code_image_bot.py:183-184 | `dict.get` finds an entry exactly when the id is listed, and the entry found is the one listed under it |
| Registry.LookupAt | code_image_bot.py:27-37 | in a table without repeated ids, the entry at position k is what its id looks up |
| Strings.JoinSplit | code_image_bot.py:293-295 | `"\n".join(text.split("\n"))` is the text again |
| Strings.SplitJoin | code_image_bot.py:293-295 | splitting pieces that were joined gives back the pieces, when none holds the separator |
| Strings.Strip | code_image_bot.py:298 | `strip()` keeps the slice of the text that starts at its first non-whitespace character; everything cut before or after that slice is whitespace, the slice neither starts nor ends with whitespace, and whitespace-free text is kept whole |
| Strings.LStrip | code_image_bot_macos.py:190 | `lstrip('#')` removes exactly the leading run of `#` |
| Strings.PrefixRemoved | code_image_bot.py:210-211 | `("theme_" + id).replace("theme_", "")` is the id when the id has no underscore |
| Strings.RemoveAllAbsent | code_image_bot.py:210-211 | `replace(pat, "")` leaves text in which `pat` never occurs unchanged |
| Keyboard.TwoColumnKeyboard | code_image_bot.py:127-141 | the nested loop builds the table's buttons in order, two per row |
| Keyboard.PairsShape | code_image_bot.py:131-141 | a two-column keyboard of n buttons has ceil(n/2) rows, all full except possibly the last, which holds one button when n is odd; read row by row it is the button list |
| Keyboard.PairsExtend | code_image_bot.py:131-141 | each outer iteration appends exactly the next pair (or the last single button) as one row |
| Keyboard.Column | code_image_bot_enhanced.py:285-288 | a one-column keyboard has one row per table entry, one button each, in table order |
| Keyboard.FlattenSingletons | code_image_bot_enhanced.py:285-288 | single-button rows read in order give back the buttons |
| Fence.Body | code_image_bot.py:292-295 | an unfenced message is rendered as it is; a fenced message of three or more lines is rendered as text whose lines are exactly its inner lines, without the first and the last; a fenced message of one or two lines renders the empty text; the result is never longer than the message |
| Fence.Hint | code_image_bot.py:297-298 | a hint exists exactly for a fenced message whose first line is longer than the three backticks, and it is that line after the backticks, stripped |
| Fence.Selected | code_image_bot.py:297-300 | the hint is adopted exactly when it is a listed language id |
| Fence.FencedRoundTrip | code_image_bot_macos.py:601-608 | for a typed message of backticks, language, newline, code, newline and backticks, the cleaned code is exactly the typed code and the hint is the stripped language (none when it was empty) |
| Fence.FirstLineOpensFence | code_image_bot.py:292-297 | a fenced message's first line always starts with the backticks, so that part of the second test never fails |
| Fence.BareFence | code_image_bot.py:292-300 | the message of three backticks alone is fenced, renders the empty text and carries no hint |
| Fence.JoinLength | code_image_bot.py:295 | joining n parts with a one-character separator adds n - 1 characters |
| Colour.HexToRgb | code_image_bot_macos.py:188-191 | every component read is between -15 and 255 (a leading minus sign in a pair is accepted by `int`) |
| Colour.HexRoundTrip | code_image_bot_macos.py:188-191 | the canonical `#rrggbb` spelling of a byte colour reads back as that colour |
| Colour.HexCanonical | code_image_bot_macos.py:188-191 | a `#RRGGBB` literal reads as byte components whose canonical spelling is the literal in lower case |
| Colour.ShortHexFails | code_image_bot_macos.py:188-191 | a short literal (four or fewer characters after the `#`s) cannot be read |
| Colour.ComponentsOfDigits | code_image_bot_enhanced.py:102-103 | six hexadecimal digits read as the three two-digit values |
| Colour.ParseHex | code_image_bot_enhanced.py:102-103 | `int(pair, 16)` of at most two characters is at most 255 and at least -15, negative only with a minus sign, fails on the empty string, and fails whenever the pair holds one of the information separators U+001C to U+001F |
| Colour.SpaceAroundDigit | code_image_bot_macos.py:191 | a digit with whitespace that `int()` skips before or after it reads as the digit |
| Colour.SeparatorAroundDigit | code_image_bot_macos.py:191 | a digit next to an information separator (U+001C to U+001F) cannot be read, although `str.isspace` holds for the separator |
| Colour.MaskRange | code_image_bot_macos.py:201-204 | the diagonal mask is 0 at the top-left pixel and at most 254 everywhere on the image |
| Colour.MaskMonotone | code_image_bot_macos.py:201-204 | the mask grows weakly to the right and downwards |
| Colour.RowChannelRange | code_image_bot_enhanced.py:101-110 | row 0 has the first colour exactly, and each row's channel lies between the two colours' channels |
| Colour.DivBetween | code_image_bot_macos.py:204 | floor division stays between the bounds the numerator lies between |
| Colour.TruncBetween | code_image_bot_enhanced.py:106-108 | `int()` of a quotient (truncation toward zero) stays between the bounds the numerator lies between |
| Canvas.New | code_image_bot_macos.py:196 | a new picture has the requested size, mode and colour, and nothing drawn |
| Canvas.DrawAll | code_image_bot_macos.py:230-237 | drawing keeps size, mode and the colour the picture was created with, and appends the operations in order |
| Canvas.AsRgba | code_image_bot_macos.py:367-368 | `convert('RGBA')` is applied only when needed and keeps the size |
| Canvas.ErrorPicture | code_image_bot.py:263-280 | the error image is 800 by 200, RGB, on a `#1e1e1e` background, with `Error: ` and the message written at (50, 90) in white, in DejaVu Sans 20 when it loads and the default font otherwise |
| Highlight.LexerFor | code_image_bot.py:237-240 | `"auto"` guesses the lexer; any other language is looked up by name |
| MacosRender.GradientMask | code_image_bot_macos.py:198-204 | the nested loop produces the row-major mask |
| MacosRender.MaskAt | code_image_bot_macos.py:198-204 | the mask has width times height entries and the entry for pixel (x, y) is `int(255 * (x + y) / (width + height))` |
| MacosRender.MaskLength | code_image_bot_macos.py:201-204 | the mask data has one entry per pixel |
| MacosRender.GradientBackground | code_image_bot_macos.py:194-208 | the result has the requested size and a `color1` base; its one operation pastes an undrawn full-size `color2` layer at the origin through an `L` mask whose only operation puts the row-major mask values |
| MacosRender.CreateGradientBackground | code_image_bot_macos.py:194-208 | the function's steps produce that background |
| MacosRender.Layout | code_image_bot_macos.py:214-306 | the window is the code plus 160 wide and the code plus 220 tall; the canvas is 100 larger with a 50-pixel margin around the window; the code sits inside the window below the title bar with 80 pixels on every side; the three 13-pixel buttons are 20 apart, inside the title bar and disjoint; each shadow, before blurring, covers what it shadows |
| MacosRender.MacosWindow | code_image_bot_macos.py:211-314 | the result is the canvas size, RGBA, and is the gradient, then the window shadow, then the window, pasted in that order with their own alpha, the code image being the window's last layer at the code position |
| MacosRender.CreateTitlebar | code_image_bot_macos.py:239-274 | the button loop draws the title bar layer the window uses |
| MacosRender.CreateMacosWindow | code_image_bot_macos.py:211-314 | the step-by-step composition produces that picture |
| MacosRender.ThemeFor | code_image_bot_macos.py:335 | a listed theme gives its own entry; any other gives Monokai |
| MacosRender.FontFor | code_image_bot_macos.py:338 | a listed font gives its own entry; any other gives Fira Code |
| MacosRender.FontName | code_image_bot_macos.py:339-349 | the font file is used exactly when it exists, otherwise the fallback; any name other than the fallback is an existing file |
| MacosRender.MacosOptions | code_image_bot_macos.py:352-360 | the formatter uses the theme's Pygments style, the chosen font name, size 16, the line-number switch with a separator, line-number background `#1e1e1e` and foreground `#858585`, and no highlight colour |
| MacosRender.CodeImage | code_image_bot_macos.py:317-397 | a highlighting failure gives the error picture; otherwise the RGBA code image framed by the theme's gradient window, 260 wider and 320 taller |
| MacosRender.CreateCodeImage | code_image_bot_macos.py:317-397 | the method produces that picture |
| EnhancedRender.VerticalGradient | code_image_bot_enhanced.py:94-115 | the gradient succeeds exactly when the image has no rows or both colours read; a failure is the `int()` error; on success the size is kept, there is one line per row in row order, and the image is pasted last |
| EnhancedRender.AddGradientBackground | code_image_bot_enhanced.py:94-115 | the row loop, which re-reads both colours on every row, produces that result |
| EnhancedRender.GradientLineAt | code_image_bot_enhanced.py:101-110 | row y is the full-width line at y in the interpolated colour of that row |
| EnhancedRender.GradientRowColours | code_image_bot_enhanced.py:101-110 | row 0 is the first colour and every row's channels lie between the two colours' channels |
| EnhancedRender.RowLinesSnoc | code_image_bot_enhanced.py:101-110 | each iteration appends the line of its own row |
| EnhancedRender.CornerMask | code_image_bot_enhanced.py:120-123 | the mask is L mode, the image's size, black, with a white rounded rectangle over the whole image |
| EnhancedRender.RoundedCorners | code_image_bot_enhanced.py:118-130 | the result keeps the size, is RGBA, and is the image with its alpha replaced by the mask |
| EnhancedRender.ShadowLayer | code_image_bot_enhanced.py:135-143 | the shadow layer is a transparent RGBA picture twice the offset larger; an undrawn shape of the image's size, filled with black at alpha 128, is pasted at the offset and then blurred with radius 15 |
| EnhancedRender.DropShadow | code_image_bot_enhanced.py:133-150 | the result is twice the offset larger; the image sits exactly over its unblurred shadow with a margin of the offset on every side; the pasted layer is `ShadowLayer` (black at alpha 128, blurred at 15), the background is transparent white, and the image pastes through its own alpha only when it is RGBA |
| EnhancedRender.Watermark | code_image_bot_enhanced.py:153-179 | size and mode and earlier drawing are kept; the backing rectangle frames the text (5 pixels across, 2 up and down) and always ends 10 from the right and 8 from the bottom |
| EnhancedRender.Styled | code_image_bot_enhanced.py:220-225 | unknown and `solid` styles leave the image alone; only the gradient can fail; every style but the shadow keeps the size; the shadow adds 20 each way |
| EnhancedRender.StyledSucceeds | code_image_bot_enhanced.py:221 | the built-in gradient colours always read, so the background step never fails |
| EnhancedRender.EnhancedOptions | code_image_bot_enhanced.py:201-209 | the line-number colours and separator are set exactly when line numbers are on |
| EnhancedRender.EnhancedImage | code_image_bot_enhanced.py:182-255 | a highlighting failure gives the error picture; otherwise the RGBA image goes through the background step and then, when asked, gets the watermark on top of that step's result |
| EnhancedRender.CreateEnhancedCodeImage | code_image_bot_enhanced.py:182-255 | the method, with its gradient loop, produces that picture |
| BasicBot.AfterCallback | code_image_bot.py:196-220 | a button press adds at most the presser to the store and changes no other user |
| BasicBot.AfterMessage | code_image_bot.py:283-300 | a code message adds at most the sender to the store and changes no other user |
| BasicBot.Caption | code_image_bot.py:316-317 | the caption exists exactly when both ids are listed, with their display names; a missing theme raises with the theme id, and otherwise a missing language raises with the language id |
| BasicBot.SettingsView | code_image_bot.py:177-193 | the names of the listed choices, `Unknown` for an unlisted id, and the font size; it never raises |
| BasicBot.CodeImage | code_image_bot.py:223-280 | the highlighted image, or the error picture with the highlighting error |
| BasicBot.BasicOptions | code_image_bot.py:243-252 | the formatter is asked for the chosen style, DejaVu Sans Mono at 16, line numbers with a separator, line-number background `#1e1e1e` and foreground `#858585`, and the `#3e4451` highlight colour |
| BasicBot.SettingsStore.constructor | code_image_bot.py:61 | the store starts empty |
| BasicBot.SettingsStore.Get | code_image_bot.py:64-72 | the store becomes `WithDefaults` of the old store, and the result is the user's entry |
| BasicBot.SettingsStore.ShowSettings | code_image_bot.py:177-193 | only the first access changes the store, and the view of the user's entry is reported |
| BasicBot.SettingsStore.ButtonCallback | code_image_bot.py:196-220 | the store becomes `AfterCallback` of the old store, and the answer is the confirmation or the `KeyError` |
| BasicBot.SettingsStore.HandleCode | code_image_bot.py:283-327 | the store becomes `AfterMessage` of the old store; the reply is the image of the cleaned code with the sender's new settings, captioned, or the `KeyError` of the caption |
| BasicBot.Press | code_image_bot.py:205-220 | the prefix chain on the callback data computes `Pressed` and `CallbackOutcome` |
| BasicBot.ReadMessage | code_image_bot.py:292-300 | the fence removal computes the cleaned code and `Adopted` |
| BasicBot.ThemeKeyboard | code_image_bot.py:125-148 | the theme keyboard is the theme buttons two per row, five rows |
| BasicBot.LanguageKeyboard | code_image_bot.py:151-174 | the language keyboard is the language buttons two per row, nine rows |
| BasicBot.CallbackChangesOneField | code_image_bot.py:196-220 | a press changes only the field its prefix names, to the data without the prefix; other data changes nothing beyond the first access |
| BasicBot.UnknownThemeStillStored | code_image_bot.py:208-213 | an unlisted theme id is stored before its name lookup raises |
| BasicBot.ThemesDistinct | code_image_bot.py:27-37 | no theme id is listed twice |
| BasicBot.LanguagesDistinct | code_image_bot.py:40-58 | no language id is listed twice |
| BasicBot.ThemeButtonSelects | code_image_bot.py:131-141 | pressing the k-th theme button selects the k-th theme and confirms with the button's text |
| BasicBot.LanguageButtonSelects | code_image_bot.py:157-167 | pressing the k-th language button selects the k-th language and confirms with the button's text |
| BasicBot.MessageChangesOnlyLanguage | code_image_bot.py:283-300 | a code message changes at most the sender's language, only to a listed language, and an unfenced message changes nothing |
| MacosBot.AfterCallback | code_image_bot_macos.py:559-590 | a button press adds at most the presser to the store and changes no other user |
| MacosBot.AfterToggle | code_image_bot_macos.py:526-534 | the toggle flips the presser's line-number switch and changes nothing else |
| MacosBot.AfterMessage | code_image_bot_macos.py:593-608 | a code message adds at most the sender to the store and changes no other user |
| MacosBot.Names | code_image_bot_macos.py:621-625 | the three names exist exactly when the theme, language and font ids are listed; the first missing id in that order is the one raised |
| MacosBot.SettingsStore.constructor | code_image_bot_macos.py:173 | the store starts empty |
| MacosBot.SettingsStore.Get | code_image_bot_macos.py:176-185 | the store becomes `WithDefaults` of the old store, and the result is the user's entry |
| MacosBot.SettingsStore.ToggleNumbers | code_image_bot_macos.py:526-534 | the store becomes `AfterToggle` of the old store, and the result is the new switch |
| MacosBot.SettingsStore.ButtonCallback | code_image_bot_macos.py:559-590 | the store becomes `AfterCallback` of the old store, and the answer is the confirmation or the `KeyError` |
| MacosBot.SettingsStore.ShowSettings | code_image_bot_macos.py:537-556 | only the first access changes the store; the three names (or the `KeyError`) and the switch are reported |
| MacosBot.SettingsStore.HandleCode | code_image_bot_macos.py:593-632 | the store becomes `AfterMessage` of the old store; the reply is the framed image of the cleaned code with the new settings, captioned with the three names, or the `KeyError` |
| MacosBot.Respond | code_image_bot_macos.py:612-627 | the reply is the framed image with the caption names, or the `KeyError` of a missing id |
| MacosBot.Press | code_image_bot_macos.py:567-590 | the prefix chain computes `Pressed` and `CallbackOutcome` |
| MacosBot.ReadMessage | code_image_bot_macos.py:601-608 | the fence removal computes the cleaned code and `Adopted` |
| MacosBot.ThemeKeyboard | code_image_bot_macos.py:448-471 | the theme keyboard is the theme buttons two per row, four rows |
| MacosBot.LanguageKeyboard | code_image_bot_macos.py:474-497 | the language keyboard is the language buttons two per row, nine rows |
| MacosBot.FontKeyboard | code_image_bot_macos.py:500-523 | the font keyboard is the font buttons two per row, three rows |
| MacosBot.CallbackChangesOneField | code_image_bot_macos.py:559-590 | a press changes only the field its prefix names and never the line-number switch; other data changes nothing beyond the first access |
| MacosBot.ToggleTwice | code_image_bot_macos.py:526-534 | toggling twice restores the store as the first access left it |
| MacosBot.FontsDistinct | code_image_bot_macos.py:139-170 | no font id is listed twice |
| MacosBot.LanguagesDistinct | code_image_bot_macos.py:118-136 | no language id is listed twice |
| MacosBot.ThemeButtonSelects | code_image_bot_macos.py:453-464 | pressing the k-th theme button selects the k-th theme and confirms with the button's text |
| MacosBot.LanguageButtonSelects | code_image_bot_macos.py:479-490 | pressing the k-th language button selects the k-th language and confirms with the button's text |
| MacosBot.FontButtonSelects | code_image_bot_macos.py:505-516 | pressing the k-th font button selects the k-th font and confirms with the button's text |
| MacosBot.MessageChangesOnlyLanguage | code_image_bot_macos.py:593-608 | a code message changes at most the sender's language, only to a listed language, and an unfenced message changes nothing |
| EnhancedBot.AfterCallback | code_image_bot_enhanced.py:326-354 | a button press adds at most the presser to the store and changes no other user |
| EnhancedBot.AfterWatermark | code_image_bot_enhanced.py:298-306 | the command flips the presser's watermark switch and changes nothing else |
| EnhancedBot.Names | code_image_bot_enhanced.py:381-385 | the three names exist exactly when the theme, language and background ids are listed; the first missing id in that order is the one raised |
| EnhancedBot.BackgroundKeyboard | code_image_bot_enhanced.py:283-288 | one row per background style, in table order, each button showing the style's name with data `bg_` + id |
| EnhancedBot.SettingsStore.constructor | code_image_bot_enhanced.py:77 | the store starts empty |
| EnhancedBot.SettingsStore.Get | code_image_bot_enhanced.py:80-91 | the store becomes `WithDefaults` of the old store, and the result is the user's entry |
| EnhancedBot.SettingsStore.ToggleWatermark | code_image_bot_enhanced.py:298-306 | the store becomes `AfterWatermark` of the old store, and the result is the new switch |
| EnhancedBot.SettingsStore.ButtonCallback | code_image_bot_enhanced.py:326-354 | the store becomes `AfterCallback` of the old store, and the answer is the confirmation or the `KeyError` |
| EnhancedBot.SettingsStore.ShowSettings | code_image_bot_enhanced.py:309-323 | only the first access changes the store; the three names (or the `KeyError`) and both switches are reported |
| EnhancedBot.SettingsStore.HandleCode | code_image_bot_enhanced.py:357-393 | only the first access changes the store, because no hint is adopted; the reply is the styled image of the cleaned code, captioned with the three names, or the `KeyError` |
| EnhancedBot.Respond | code_image_bot_enhanced.py:371-385 | the reply is the styled image with the caption names, or the `KeyError` of a missing id |
| EnhancedBot.Press | code_image_bot_enhanced.py:334-354 | the prefix chain computes `Pressed` and `CallbackOutcome` |
| EnhancedBot.CallbackChangesOneField | code_image_bot_enhanced.py:326-354 | a press changes only the field its prefix names and never the switches; other data changes nothing beyond the first access |
| EnhancedBot.WatermarkTwice | code_image_bot_enhanced.py:298-306 | toggling the watermark twice restores the store as the first access left it |
| EnhancedBot.BackgroundStylesDistinct | code_image_bot_enhanced.py:69-74 | no background style is listed twice |
| EnhancedBot.BackgroundButtonSelects | code_image_bot_enhanced.py:283-288 | pressing the k-th background button selects that style, confirms with the button's text, and the next image's background step succeeds |

## Left out

- Telegram I/O is not modelled. That covers `start`, `help_command`, `hello`, `main`, the handler registration, `query.answer`, the status messages and their deletion, and the Markdown texts. A reply is modelled as the picture with its caption lines, or the `KeyError` raised while building the caption. A callback's answer is modelled as the confirmed display name, or that `KeyError`.
- The handlers are asynchronous in the source. The model runs each handler to completion, one at a time.
- Pygments is a function parameter. `highlight` returns either a picture or an error message. The lexer and formatter options it receives are modelled; what it draws is not.
- The basic bot's `create_code_image` sends the formatter's bytes without opening them, and the other two open them with `Image.open`. The model represents both as the highlighter's picture. Failures of `Image.open` and of `convert` are folded into the highlighter's failure.
- Pixels, blurring, antialiasing, ellipse and rounded-rectangle rasterisation, PNG encoding and `BytesIO` are not modelled. A picture is its size, its mode, its background and its ordered drawing operations. Pillow's drawing boxes include their end points, so a box from x to x + 12 covers 13 pixels.
- Python's floating-point arithmetic is replaced by exact rationals. `MaskValue` computes `int(255 * (x + y) / (width + height))`, and `RowChannel` computes `int(c1 + (c2 - c1) * y / height)`, both with exact division and truncation. A rounding difference of floats near an integer is not modelled.
- `Colour.ParseHex` accepts what `int(s, 16)` accepts for at most two characters: hexadecimal digits, an optional sign, and surrounding whitespace other than the information separators U+001C to U+001F. Non-ASCII decimal digits, which `int` also reads, are not modelled. The `ValueError` text is abbreviated to `invalid literal for int() with base 16`, without the quoted literal.
- `hex_to_rgb` is modelled as `Colour.HexToRgb`, but the macOS bot's code never calls it. The gradient colours reach Pillow as colour names, so Pillow's own colour parsing and its failures are not modelled.
- `os.path.exists` is the set `installed` of existing font paths. Whether the DejaVu TrueType font loads is the boolean `dejaVuLoads`. The watermark text's bounding box, as `textbbox` measures it, is the input `bbox`.
- `add_watermark` draws on the picture it is given and returns that same picture. The model returns a new value, so the aliasing is not captured. The image is not used afterwards, so nothing observable is lost.
- Pillow compatibility patches, the Telegram compatibility layer, `config.py`, `examples.py` and logging are not part of this model.
- `BasicBot.CodeImage`, `MacosRender.CodeImage` and `EnhancedRender.EnhancedImage` do not model exceptions raised inside Pillow for a bad colour name or a zero-sized image. Only failures of highlighting and of the enhanced gradient's `int()` reads reach the error picture.
- The enhanced bot registers no theme or language command. Its button handler still understands `theme_` and `lang_` data, so the model keeps those branches. It also passes the theme id, not the table's `style` entry, as the Pygments style: `gruvbox` is listed with style `gruvbox-dark` but is drawn with style `gruvbox`. The model follows the code.
- The enhanced bot's `handle_code` removes the fence but never adopts a language hint. The model follows the code.
- The enhanced bot's `font_size` setting is stored but never used for drawing. The model keeps it in the settings record only.

/**
 * What the bots hand to Pygments. Lexing, highlighting and `ImageFormatter`'s drawing are
 * Pygments' own; the model keeps only the choice of lexer and the formatter options, and takes
 * the outcome of `highlight(...)` (an image, or the message of the exception it raised) as input.
 */
module Highlight {
  import opened Wrappers
  import opened Canvas

  /** `guess_lexer(code)` for `"auto"`, `get_lexer_by_name(language, stripall=True)` otherwise. */
  datatype Lexer = Guess | ByName(name: string)

  function LexerFor(language: string): (l: Lexer)
    ensures l.Guess? <==> language == "auto"
    ensures l.ByName? ==> l.name == language
  {
    if language == "auto" then Guess else ByName(language)
  }

  datatype FormatterOptions = FormatterOptions(
    style: string,
    fontName: string,
    fontSize: nat,
    lineNumbers: bool,
    lineNumberSeparator: bool,
    lineNumberBg: Option<string>,
    lineNumberFg: Option<string>,
    hlColor: Option<string>)

  /** `highlight(code, lexer, formatter)` read back with `Image.open`: the code image, or the
      message of the exception raised on the way (an unknown language, a lexer that cannot be
      guessed, a font that cannot be loaded). */
  type Highlighter = (string, Lexer, FormatterOptions) -> Result<Picture>
}

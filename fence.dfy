/**
 * Cleaning of an incoming code message in `handle_code`, common to the three bots: a message
 * that starts and ends with three backticks loses its first and last lines, and the rest of the
 * opening line, stripped, is a candidate language hint. This is the "starts and ends with ```"
 * case of a fenced code block (section 4.5 of the CommonMark specification) and nothing more.
 */
module Fence {
  import opened Wrappers
  import opened Strings

  const Ticks := "```"

  /** `code.startswith("```") and code.endswith("```")` */
  predicate IsFenced(text: string) {
    StartsWith(text, Ticks) && EndsWith(text, Ticks)
  }

  /** `code.split("\n")` */
  function Lines(text: string): seq<string> {
    Split(text, '\n')
  }

  /** The code that is rendered: `"\n".join(lines[1:-1])` for a fenced message, the message itself otherwise. */
  function Body(text: string): (body: string)
    ensures !IsFenced(text) ==> body == text
    ensures IsFenced(text) && |Lines(text)| >= 3 ==> Split(body, '\n') == Inner(Lines(text))
    ensures IsFenced(text) && |Lines(text)| <= 2 ==> body == ""
    ensures |body| <= |text|
  {
    if IsFenced(text) then
      var lines := Lines(text);
      var code := Join(Inner(lines), "\n");
      JoinSplitInner(text);
      assert |lines| >= 3 ==> Split(code, '\n') == Inner(lines) by {
        if |lines| >= 3 {
          SplitJoin(Inner(lines), '\n');
        }
      }
      code
    else text
  }

  /** The hint candidate `lines[0][3:].strip()`, present when the message is fenced and its
      opening line `lines[0]` starts with ``` and is longer than three characters. */
  function Hint(text: string): (h: Option<string>)
    ensures h.Some? <==> IsFenced(text) && |Lines(text)[0]| > 3
    ensures h.Some? ==> h.value == Strip(Lines(text)[0][3..])
  {
    if IsFenced(text) then
      var first := Lines(text)[0];
      FirstLineOpensFence(text);
      if StartsWith(first, Ticks) && |first| > 3 then Some(Strip(first[3..])) else None
    else None
  }

  /** The language the message selects: the hint, when it is one of the `known` language ids. */
  function Selected(text: string, known: seq<string>): (lang: Option<string>)
    ensures lang.Some? ==> lang.value in known && Hint(text) == Some(lang.value)
    ensures Hint(text).Some? && Hint(text).value in known ==> lang == Hint(text)
  {
    match Hint(text)
    case Some(h) => if h in known then Some(h) else None
    case None => None
  }

  /** The fenced message a user types: ``` + language + newline + code + newline + ```. */
  function Fenced(lang: string, code: string): string {
    Ticks + lang + "\n" + code + "\n" + Ticks
  }

  /** The inner lines of a text rejoin to no more characters than the text has. */
  lemma JoinSplitInner(text: string)
    ensures |Join(Inner(Lines(text)), "\n")| <= |text|
  {
    var lines := Lines(text);
    JoinSplit(text, '\n');
    if |lines| >= 2 {
      JoinLength(lines, "\n");
      JoinLength(Inner(lines), "\n");
      SumInner(lines);
    }
  }

  function Sum(parts: seq<string>): nat
    decreases |parts|
  {
    if |parts| == 0 then 0 else |parts[0]| + Sum(parts[1..])
  }

  /** With a one-character separator, a join of `n > 0` parts has `n - 1` separators. */
  lemma {:induction false} JoinLength(parts: seq<string>, sep: string)
    requires |sep| == 1
    ensures |parts| > 0 ==> |Join(parts, sep)| + 1 == Sum(parts) + |parts|
    decreases |parts|
  {
    if |parts| > 1 {
      JoinLength(parts[1..], sep);
    }
  }

  lemma SumInner(parts: seq<string>)
    requires |parts| >= 2
    ensures Sum(Inner(parts)) <= Sum(parts)
  {
    SumSplit(parts, 1);
    SumSplit(parts[1..], |parts| - 2);
    assert parts[1..][..|parts| - 2] == Inner(parts);
  }

  lemma {:induction false} SumSplit(parts: seq<string>, k: nat)
    requires k <= |parts|
    ensures Sum(parts) == Sum(parts[..k]) + Sum(parts[k..])
    decreases k
  {
    if k > 0 {
      SumSplit(parts[1..], k - 1);
      assert parts[1..][..k - 1] == parts[..k][1..];
      assert parts[1..][k - 1..] == parts[k..];
    }
  }

  /** Whenever the message is fenced, its first line starts with ```, so the source's second
      `startswith` test on `lines[0]` never rejects a hint. */
  lemma FirstLineOpensFence(text: string)
    requires IsFenced(text)
    ensures StartsWith(Lines(text)[0], Ticks)
  {
    SplitKeepsPrefix(text, Ticks, '\n');
  }

  /** Cleaning the fenced message recovers exactly the code and the typed language hint. */
  lemma {:induction false} FencedRoundTrip(lang: string, code: string)
    requires '\n' !in lang
    ensures IsFenced(Fenced(lang, code))
    ensures Body(Fenced(lang, code)) == code
    ensures Hint(Fenced(lang, code)) == if lang == "" then None else Some(Strip(lang))
  {
    var text := Fenced(lang, code);
    var opening := Ticks + lang;
    assert '\n' !in opening;
    assert text == opening + "\n" + (code + "\n" + Ticks);
    SplitConcat(opening, code + "\n" + Ticks, '\n');
    SplitConcat(code, Ticks, '\n');
    SplitFree(opening, '\n');
    SplitFree(Ticks, '\n');
    var lines := Lines(text);
    assert lines == [opening] + Split(code, '\n') + [Ticks];
    assert Inner(lines) == Split(code, '\n');
    JoinSplit(code, '\n');
    assert StartsWith(text, Ticks);
    assert EndsWith(text, Ticks);
    assert opening[3..] == lang;
  }

  /** The bare message ``` is fenced, renders nothing and carries no hint. */
  lemma BareFence()
    ensures IsFenced(Ticks) && Body(Ticks) == "" && Hint(Ticks) == None
  {
    SplitFree(Ticks, '\n');
  }
}

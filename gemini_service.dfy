/** The build-to-text serialiser whose text is embedded at the start of every request
    to the advisor: a header line, then one line per present part. The instruction text
    around it and the request itself are not modelled. */
module GeminiService {
  import opened Types

  /** One entry of the build as enumerated: its category key and the value under it. */
  type Entry = (Category, Option<Part>)

  /** The header line: its title followed by a line break. */
  const Title: string := "Current PC Build Parts:"
  const Header: string := Title + "\n"

  /** The text of a present part's line, the template `- ${key}: ${name} (${brand})`. */
  function EntryBody(key: Category, p: Part): string
  {
    "- " + Label(key) + ": " + p.name + " (" + p.brand + ")"
  }

  /** The line a present part contributes: its text and a line break. */
  function EntryLine(key: Category, p: Part): string
  {
    EntryBody(key, p) + "\n"
  }

  /** The text an entry contributes; an absent part contributes nothing. */
  function EntryText(e: Entry): string
  {
    match e.1
    case Some(p) => EntryLine(e.0, p)
    case None => ""
  }

  /** The lines of a sequence of entries, each appended after those of the entries before it. */
  function Lines(entries: seq<Entry>): string
  {
    if entries == [] then "" else Lines(entries[..|entries| - 1]) + EntryText(entries[|entries| - 1])
  }

  /** The prompt: the header followed by the lines of the entries in enumeration order. */
  function PromptText(entries: seq<Entry>): string
  {
    Header + Lines(entries)
  }

  /** `buildToPrompt`: start from the header and append the line of every present part,
      entry by entry. */
  method BuildToPrompt(entries: seq<Entry>) returns (prompt: string)
    ensures prompt == PromptText(entries)
  {
    prompt := Header;
    for i := 0 to |entries|
      invariant prompt == PromptText(entries[..i])
    {
      var (key, part) := entries[i];
      ghost var before := prompt;
      if part.Some? {
        prompt := prompt + EntryLine(key, part.value);
      }
      assert prompt == before + EntryText(entries[i]);
      PromptStep(entries, i);
    }
    assert entries[..|entries|] == entries;
  }

  /** One turn of the loop appends the text of one entry. */
  lemma PromptStep(entries: seq<Entry>, i: int)
    requires 0 <= i < |entries|
    ensures PromptText(entries[..i + 1]) == PromptText(entries[..i]) + EntryText(entries[i])
  {
    assert entries[..i + 1] == entries[..i] + [entries[i]];
    LinesSnoc(entries[..i], entries[i]);
  }

  /** Enumerating one more entry appends its text, and nothing else, to the prompt. */
  lemma LinesSnoc(init: seq<Entry>, e: Entry)
    ensures Lines(init + [e]) == Lines(init) + EntryText(e)
    ensures PromptText(init + [e]) == PromptText(init) + EntryText(e)
  {
    assert (init + [e])[..|init|] == init;
  }

  /** A build without parts serialises to the header alone. */
  lemma {:induction false} PromptOfEmptyBuild(entries: seq<Entry>)
    requires forall i :: 0 <= i < |entries| ==> entries[i].1 == None
    ensures PromptText(entries) == Header
    decreases |entries|
  {
    if entries != [] {
      PromptOfEmptyBuild(entries[..|entries| - 1]);
    }
  }

  /** Every prompt starts with the header. */
  lemma PromptStartsWithHeader(entries: seq<Entry>)
    ensures |Header| <= |PromptText(entries)| && PromptText(entries)[..|Header|] == Header
  {
  }

  /** The number of line breaks in a text. */
  function LineBreaks(s: string): nat
  {
    multiset(s)['\n']
  }

  lemma NoLineBreak(s: string)
    requires '\n' !in s
    ensures LineBreaks(s) == 0
  {
    assert '\n' !in multiset(s);
  }

  /** The number of entries that hold a part. */
  function PresentCount(entries: seq<Entry>): nat
  {
    if entries == [] then 0
    else PresentCount(entries[..|entries| - 1]) + (if entries[|entries| - 1].1.Some? then 1 else 0)
  }

  /** A part whose name and brand are single-line text. */
  predicate SingleLine(p: Part)
  {
    '\n' !in p.name && '\n' !in p.brand
  }

  lemma EntryBodySingleLine(key: Category, p: Part)
    requires SingleLine(p)
    ensures '\n' !in EntryBody(key, p)
  {
    LabelsDistinctSingleLine();
  }

  /** A present part adds exactly one line break, an absent one none. */
  lemma EntryTextLineBreaks(e: Entry)
    requires e.1.Some? ==> SingleLine(e.1.value)
    ensures LineBreaks(EntryText(e)) == if e.1.Some? then 1 else 0
  {
    if e.1.Some? {
      var p := e.1.value;
      EntryBodySingleLine(e.0, p);
      NoLineBreak(EntryBody(e.0, p));
      assert multiset(EntryLine(e.0, p)) == multiset(EntryBody(e.0, p)) + multiset("\n");
    }
  }

  lemma TitleIsSingleLine()
    ensures '\n' !in Title
  {
  }

  /** The header is exactly one line. */
  lemma HeaderIsOneLine()
    ensures LineBreaks(Header) == 1
  {
    TitleIsSingleLine();
    NoLineBreak(Title);
    assert multiset(Header) == multiset(Title) + multiset{'\n'};
  }

  lemma {:induction false} LinesLineCount(entries: seq<Entry>)
    requires forall i :: 0 <= i < |entries| && entries[i].1.Some? ==> SingleLine(entries[i].1.value)
    ensures LineBreaks(Lines(entries)) == PresentCount(entries)
    decreases |entries|
  {
    if entries != [] {
      var init, last := entries[..|entries| - 1], entries[|entries| - 1];
      LinesLineCount(init);
      EntryTextLineBreaks(last);
      assert Lines(entries) == Lines(init) + EntryText(last);
      assert multiset(Lines(entries)) == multiset(Lines(init)) + multiset(EntryText(last));
    }
  }

  /** With single-line names and brands, the prompt has one line for the header and one
      per present part. */
  lemma PromptLineCount(entries: seq<Entry>)
    requires forall i :: 0 <= i < |entries| && entries[i].1.Some? ==> SingleLine(entries[i].1.value)
    ensures LineBreaks(PromptText(entries)) == 1 + PresentCount(entries)
  {
    HeaderIsOneLine();
    LinesLineCount(entries);
    assert multiset(PromptText(entries)) == multiset(Header) + multiset(Lines(entries));
  }
}

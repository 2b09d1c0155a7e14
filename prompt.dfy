/** The user prompt built by `user_prompt_for`. */
module Prompt {
  import opened Wrappers
  import opened PyRuntime

  const TitleLead := "You are looking at a website titled "

  /** The fixed instruction; the source spells it over three lines joined by
      backslash continuations, so it holds no line break before the two
      that end it. */
  const Instruction := "The contents of this website is as follows; please provide a short summary of this website in markdown. If it includes news or announcements, then summarize these too.\n\n"

  /** Everything in the prompt that comes before the page text. */
  function Header(title: Option<string>): string {
    TitleLead + Format(title) + ". " + Instruction
  }

  /** The prompt: the title sentence, the instruction, then the text verbatim. */
  function UserPromptFor(title: Option<string>, text: string): (p: string)
    ensures StartsWith(p, TitleLead)
    ensures StartsWith(p, Header(title))
    ensures EndsWith(p, text)
    ensures |p| == |Header(title)| + |text|
  {
    var lead := TitleLead + Format(title) + ". ";
    var instructed := lead + Instruction;
    var p := instructed + text;
    StartsWithConcat(TitleLead, Format(title) + ". " + Instruction + text);
    assert TitleLead + (Format(title) + ". " + Instruction + text) == p;
    StartsWithConcat(instructed, text);
    EndsWithConcat(instructed, text);
    p
  }

  /** Reads the page text back out of a prompt built for `title`. */
  function TextOfPrompt(title: Option<string>, p: string): (r: Option<string>)
  {
    var h := Header(title);
    if StartsWith(p, h) then Some(p[|h|..]) else None
  }

  /** The text is recovered from the prompt unchanged. */
  lemma TextOfPromptRoundTrip(title: Option<string>, text: string)
    ensures TextOfPrompt(title, UserPromptFor(title, text)) == Some(text)
  {
    var p := UserPromptFor(title, text);
    assert p[|Header(title)|..] == p[|p| - |text|..];
  }

  /** A prompt for `title` is exactly the one built from the text read out of it. */
  lemma TextOfPromptInverse(title: Option<string>, p: string, text: string)
    requires TextOfPrompt(title, p) == Some(text)
    ensures UserPromptFor(title, text) == p
  {
    var h := Header(title);
    var q := UserPromptFor(title, text);
    assert p == p[..|h|] + p[|h|..];
    assert q == q[..|h|] + q[|h|..];
    assert q[|h|..] == q[|q| - |text|..];
  }

  /** Different texts give different prompts for the same title. */
  lemma UserPromptForInjective(title: Option<string>, a: string, b: string)
    requires UserPromptFor(title, a) == UserPromptFor(title, b)
    ensures a == b
  {
    TextOfPromptRoundTrip(title, a);
    TextOfPromptRoundTrip(title, b);
  }

  /** The rendered title appears in the prompt, right after the lead. */
  lemma PromptContainsTitle(title: Option<string>, text: string)
    ensures Contains(UserPromptFor(title, text), Format(title))
  {
    ContainsAfter(TitleLead, Format(title), ". ", Instruction, text);
  }

  /** The instruction stands immediately before the page text. */
  lemma PromptContainsInstruction(title: Option<string>, text: string)
    ensures Contains(UserPromptFor(title, text), Instruction)
    ensures EndsWith(UserPromptFor(title, text), Instruction + text)
  {
    ContainsBefore(TitleLead + Format(title) + ". ", Instruction, text);
  }

  /** A title element whose `.string` is `None` is rendered as the word None. */
  lemma NoneTitleRendered(text: string)
    ensures StartsWith(UserPromptFor(None, text), TitleLead + "None" + ". ")
  {
    StartsWithThree(TitleLead, Format(None), ". ", Instruction, text);
  }
}

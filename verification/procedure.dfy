/** The error-absorbing procedure fetcher `get_legal_procedure` (app.py:133-140).

  The generative-text service is a parameter: given a prompt it either
  returns a response, returns nothing, or raises with a message. The fetcher
  turns each of the three into text and never raises itself.
 */
module Procedure {
  import opened Wrappers

  /** What one call to the provider ends in */
  datatype ProviderOutcome =
    | Responded(text: string)   // a response object; its `.text` is returned verbatim
    | NoResponse                // a falsy response
    | Raised(message: string)   // any exception, carrying `str(e)`

  type Provider = string -> ProviderOutcome

  const PromptPrefix: string := "What are the legal procedures for "
  const PromptSuffix: string := " under Indian Cyber Law?"
  const NoProcedure: string := "No procedure found."
  const ErrorPrefix: string := "Error retrieving procedure: "

  /** The question sent to the provider for a Section (app.py:136) */
  function Prompt(section: string): (p: string)
    ensures |p| == |PromptPrefix| + |section| + |PromptSuffix|
    ensures p[..|PromptPrefix|] == PromptPrefix
    ensures p[|PromptPrefix|..|PromptPrefix| + |section|] == section
    ensures p[|PromptPrefix| + |section|..] == PromptSuffix
  {
    PromptPrefix + section + PromptSuffix
  }

  /** Recovers the Section a prompt asks about */
  function PromptSection(p: string): (r: Option<string>)
    ensures r.Some? ==> Prompt(r.value) == p
  {
    if |p| >= |PromptPrefix| + |PromptSuffix|
       && p[..|PromptPrefix|] == PromptPrefix
       && p[|p| - |PromptSuffix|..] == PromptSuffix
    then
      var s := p[|PromptPrefix|..|p| - |PromptSuffix|];
      assert p == p[..|PromptPrefix|] + s + p[|p| - |PromptSuffix|..];
      Some(s)
    else None
  }

  /** Different Sections are asked about with different prompts */
  lemma PromptRoundTrip(section: string)
    ensures PromptSection(Prompt(section)) == Some(section)
  {
    var p := Prompt(section);
    assert p[|p| - |PromptSuffix|..] == PromptSuffix;
  }

  /** `get_legal_procedure` (app.py:134-140): always text, never an error */
  function GetLegalProcedure(section: string, provider: Provider): (r: string)
    ensures provider(Prompt(section)).Responded? ==> r == provider(Prompt(section)).text
    ensures provider(Prompt(section)).NoResponse? ==> r == "No procedure found."
    ensures provider(Prompt(section)).Raised? ==>
      |r| == |ErrorPrefix| + |provider(Prompt(section)).message|
      && r[..|ErrorPrefix|] == "Error retrieving procedure: "
      && r[|ErrorPrefix|..] == provider(Prompt(section)).message
  {
    match provider(Prompt(section))
    case Responded(text) => text
    case NoResponse => NoProcedure
    case Raised(message) => ErrorPrefix + message
  }

  /** The result depends on the provider only through its answer to this Section's prompt */
  lemma ProcedureDependsOnlyOnPrompt(section: string, p1: Provider, p2: Provider)
    requires p1(Prompt(section)) == p2(Prompt(section))
    ensures GetLegalProcedure(section, p1) == GetLegalProcedure(section, p2)
  {
  }
}

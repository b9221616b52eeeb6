/** `summarizeComments` (index.js:68-80): asks the text-generation service for
    a summary and degrades to a fixed fallback when that fails. The Gemini
    call is not modelled; its outcome for a prompt is an input. */
module Summarizer {
  import opened Text

  /** What `model.generateContent(prompt)` and `result.response.text()` gave:
      the generated text, or a thrown error. */
  datatype Generation = Generated(text: string) | GenerationFailed

  /** The fixed instruction placed before the corpus. */
  const PromptPreamble: string := "Summarize these YouTube comments in a few bullet points:\n\n"

  /** The text returned instead of a summary when generation fails. */
  const SummaryFallback: string := "⚠️ Could not summarize comments."

  /** The prompt: the instruction, then the corpus unchanged. */
  function Prompt(comments: string): (p: string)
    ensures StartsWith(p, PromptPreamble)
    ensures p[|PromptPreamble|..] == comments
  {
    PromptPreamble + comments
  }

  /** The prompt determines the corpus it was built from. */
  lemma PromptInjective(a: string, b: string)
    requires Prompt(a) == Prompt(b)
    ensures a == b
  {
    assert a == Prompt(a)[|PromptPreamble|..];
  }

  /** `summarizeComments`: never fails; the result is the generated text
      verbatim, or the fallback, and always the fallback when generation failed. */
  function SummarizeComments(comments: string, generate: string -> Generation): (summary: string)
    ensures generate(Prompt(comments)).Generated? ==> summary == generate(Prompt(comments)).text
    ensures generate(Prompt(comments)).GenerationFailed? ==> summary == SummaryFallback
  {
    match generate(Prompt(comments))
    case Generated(text) => text
    case GenerationFailed => SummaryFallback
  }
}

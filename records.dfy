/** The JSON records the pipeline passes between its stages, as datatypes.
    A record starts as a WildChat conversation (`id`, `conversation_hash`,
    `conversations`), gains a `references` list per turn during enrichment
    and an `answers` list per turn during answer generation. */
module Records {
  import opened Common

  /** The outcome of a step that can raise: the value, or the exception it stops with. */
  datatype Result<T> = Ok(value: T) | Err(error: string)

  /** `ref['type']`: how the referenced document is fetched. */
  datatype RefType = PDF | Text | Markdown | WebPage

  /** `ref['summary']`: absent, JSON `null` (the summarizer failed) or a string. */
  datatype SummaryField = MissingSummary | NullSummary | Summary(text: string)

  /** One search result kept as a reference of a turn. `idx` is its position in
      the search engine's `organic_results` list, `position` the engine's own
      rank (`ref['index']`). */
  datatype Reference = Reference(
    refId: string, idx: int, position: int, title: string, snippet: string,
    url: string, refType: RefType, mainBody: string, summary: SummaryField)

  /** One `[n]` citation of a sentence, resolved to a reference id. */
  datatype Citation = Citation(idx: int, refId: string)

  datatype Sentence = Sentence(sentenceId: string, idx: int, text: string, citations: seq<Citation>)

  datatype Answer = Answer(answerId: string, content: string, model: string, sentences: seq<Sentence>)

  /** One turn: a `query`/`answer` pair, in that key order, with the keys later
      stages add. */
  datatype Content = Content(query: string, answer: string,
                             references: Option<seq<Reference>>, answers: Option<seq<Answer>>)

  datatype Conversations = Conversations(turn: int, lang: string, topic: Option<string>, contents: seq<Content>)

  datatype Record = Record(id: string, hash: string, conversations: Option<Conversations>)

  /** A turn as the WildChat extraction writes it: only `query` and `answer`. */
  function Turn(query: string, answer: string): (c: Content)
    ensures c.references.None? && c.answers.None?
  {
    Content(query, answer, None, None)
  }
}

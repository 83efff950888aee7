/** Answer generation: for every turn of an enriched record, each configured
    chat model is asked to answer the query from the turn's first five
    references; the reply is split into sentences and every `[n]` citation of
    a sentence is resolved to a reference id. The chat services are oracle
    functions. */
module LlmGenAnswer {
  import opened Common
  import opened Records
  import opened Staging
  import BuildRef

  /** `prompt_gen_cn` and `prompt_gen_en`, the instructions that open an answer prompt. */
  datatype AnswerPrompts = AnswerPrompts(cn: string, en: string)

  /** The module's own instruction texts. */
  const SourceAnswerPrompts: AnswerPrompts := AnswerPrompts(
    "说明：仅使用提供的搜索结果（其中一些可能无关紧要）为给定问题写一个准确、引人入胜、简洁的答案，并正确引用。使用公正和新闻的语气。总是引用任何事实主张。当引用多个搜索结果时，请使用[1][2][3]。每句话至少引用一份文件，最多引用三份文件。如果有多个文档支持该句子，则只引用文档中足够小的子集。\n\n",
    "Instruction: Write an accurate, engaging, and concise answer for the given question using only the provided search results (some of which might be irrelevant) and cite them properly. Use an unbiased and journalistic tone. Always cite for any factual claim. When citing several search results, use [1][2][3]. Cite at least one document and at most three documents in each sentence. If multiple documents support the sentence, only cite a minimum sufficient subset of the documents.\n\n")

  datatype Role = User | Assistant

  /** One `{"role": …, "content": …}` entry of a chat history. */
  datatype Message = Message(role: Role, content: string)

  /** The instruction texts and the two chat clients: given the model name, its
      base URL and the message list, the reply text, or `None` when the request
      raises. */
  datatype Chat = Chat(
    prompts: AnswerPrompts,
    openAi: (string, string, seq<Message>) -> Option<string>,
    anthropic: (string, string, seq<Message>) -> Option<string>)

  // ---------------------------------------------------------------------------
  // The answer prompt

  /** `f"{ref['summary']}"`: JSON `null` renders as `None`, and a missing key raises. */
  function SummaryText(f: SummaryField): (r: Result<string>)
    ensures r.Err? <==> f.MissingSummary?
    ensures f.Summary? ==> r == Ok(f.text)
  {
    match f
    case MissingSummary => Err("KeyError")
    case NullSummary => Ok("None")
    case Summary(t) => Ok(t)
  }

  /** The label `[n]` the prompt gives a document; also the citation form the
      instructions ask for. */
  function Token(n: nat): string {
    "[" + NatToString(n) + "]"
  }

  /** The prompt line of the reference at position `i`, numbered `i + 1`:
      `文档 [n](标题: title) summary (url)` in Chinese and
      `Document [n](Title: title) summary (url)` otherwise. */
  function DocLine(lang: string, i: nat, ref: Reference, summary: string): string {
    Concat([DocLabel(lang, i + 1), if lang == "Chinese" then "(标题: " else "(Title: ",
            ref.title, ") ", summary, " (", ref.url, ")\n"])
  }

  /** The pieces of an f-string, one after the other. */
  function Concat(parts: seq<string>): string
    decreases |parts|
  {
    if |parts| == 0 then "" else parts[0] + Concat(parts[1..])
  }

  /** The label that opens a document line. */
  function DocLabel(lang: string, n: nat): string {
    if lang == "Chinese" then "文档 " + Token(n) else "Document " + Token(n)
  }

  /** How many references the prompt shows: the loop stops at index 5. */
  function Shown(refs: seq<Reference>): (n: nat)
    ensures n <= 5 && n <= |refs|
    ensures n < 5 ==> n == |refs|
  {
    if |refs| < 5 then |refs| else 5
  }

  /** The lines of the first `k` references, or the error of the first one
      without a summary. */
  function DocLines(refs: seq<Reference>, lang: string, k: nat): Result<string>
    requires k <= |refs|
  {
    if k == 0 then Ok("")
    else
      match DocLines(refs, lang, k - 1)
      case Err(e) => Err(e)
      case Ok(d) =>
        match SummaryText(refs[k - 1].summary)
        case Err(e) => Err(e)
        case Ok(s) => Ok(d + DocLine(lang, k - 1, refs[k - 1], s))
  }

  function Instructions(pr: AnswerPrompts, lang: string): string {
    if lang == "Chinese" then pr.cn else pr.en
  }

  function QuestionLine(lang: string, query: string): string {
    if lang == "Chinese" then "\n问题: " + query else "\nQuestion: " + query
  }

  /** The prompt `gen_answer` sends: the instructions, a line per shown
      reference, an empty line and the question. */
  function AnswerPrompt(pr: AnswerPrompts, query: string, refs: seq<Reference>, lang: string): Result<string> {
    match DocLines(refs, lang, Shown(refs))
    case Err(e) => Err(e)
    case Ok(d) => Ok(Instructions(pr, lang) + d + "\n" + QuestionLine(lang, query))
  }

  /** The prompt-building loop of `gen_answer`. */
  method GenAnswerPrompt(pr: AnswerPrompts, query: string, refs: seq<Reference>, lang: string)
    returns (r: Result<string>)
    ensures r == AnswerPrompt(pr, query, refs, lang)
  {
    var prompt := Instructions(pr, lang);
    var index := 0;
    assert DocLines(refs, lang, 0) == Ok("");
    while index < |refs|
      invariant index <= Shown(refs)
      invariant DocLines(refs, lang, index).Ok?
      invariant prompt == Instructions(pr, lang) + DocLines(refs, lang, index).value
    {
      if index >= 5 {
        break;
      }
      var summary := SummaryText(refs[index].summary);
      if summary.Err? {
        DocLinesErrStays(refs, lang, index + 1, Shown(refs));
        return Err("KeyError");
      }
      var line := DocLine(lang, index, refs[index], summary.value);
      ghost var d := DocLines(refs, lang, index).value;
      DocLinesStep(refs, lang, index, d, summary.value, line);
      AppendAssoc(Instructions(pr, lang), d, line);
      prompt := prompt + line;
      index := index + 1;
    }
    assert index == Shown(refs);
    r := Ok(prompt + "\n" + QuestionLine(lang, query));
  }

  lemma DocLinesStep(refs: seq<Reference>, lang: string, k: nat, d: string, summary: string, line: string)
    requires k < |refs| && DocLines(refs, lang, k) == Ok(d) && SummaryText(refs[k].summary) == Ok(summary)
    requires line == DocLine(lang, k, refs[k], summary)
    ensures DocLines(refs, lang, k + 1) == Ok(d + line)
  {
  }

  /** Once a reference lacks its summary, the later lines do not matter. */
  lemma {:induction false} DocLinesErrStays(refs: seq<Reference>, lang: string, j: nat, k: nat)
    requires j <= k <= |refs| && DocLines(refs, lang, j).Err?
    ensures DocLines(refs, lang, k) == DocLines(refs, lang, j)
    decreases k
  {
    if k > j {
      DocLinesErrStays(refs, lang, j, k - 1);
    }
  }

  /** The lines of `k` references can be built exactly when none of them lacks
      its summary. */
  lemma {:induction false} DocLinesOk(refs: seq<Reference>, lang: string, k: nat)
    requires k <= |refs|
    ensures DocLines(refs, lang, k).Ok? <==> forall i :: 0 <= i < k ==> !refs[i].summary.MissingSummary?
    decreases k
  {
    if k > 0 {
      DocLinesOk(refs, lang, k - 1);
    }
  }

  /** A prompt is produced exactly when every shown reference has a `summary` key. */
  lemma AnswerPromptOk(pr: AnswerPrompts, query: string, refs: seq<Reference>, lang: string)
    ensures AnswerPrompt(pr, query, refs, lang).Ok? <==>
            forall i :: 0 <= i < Shown(refs) ==> !refs[i].summary.MissingSummary?
  {
    DocLinesOk(refs, lang, Shown(refs));
  }

  /** The lines of the first `j` references are followed, in the lines of the
      first `k`, by the line of reference `j`. */
  lemma {:induction false} DocLinesPrefix(refs: seq<Reference>, lang: string, j: nat, k: nat)
    requires j < k <= |refs| && DocLines(refs, lang, k).Ok?
    ensures DocLines(refs, lang, j).Ok? && SummaryText(refs[j].summary).Ok?
    ensures IsPrefix(DocLines(refs, lang, j).value + DocLine(lang, j, refs[j], SummaryText(refs[j].summary).value),
                     DocLines(refs, lang, k).value)
    decreases k
  {
    var d := DocLines(refs, lang, k - 1);
    assert d.Ok? && SummaryText(refs[k - 1].summary).Ok?;
    var line := DocLine(lang, k - 1, refs[k - 1], SummaryText(refs[k - 1].summary).value);
    assert DocLines(refs, lang, k).value == d.value + line;
    assert IsPrefix(d.value, d.value + line);
    if j < k - 1 {
      DocLinesPrefix(refs, lang, j, k - 1);
      PrefixTrans(DocLines(refs, lang, j).value + DocLine(lang, j, refs[j], SummaryText(refs[j].summary).value),
                  d.value, DocLines(refs, lang, k).value);
    }
  }

  /** The prompt opens with the instructions and ends with an empty line and
      the question. */
  lemma PromptLayout(pr: AnswerPrompts, query: string, refs: seq<Reference>, lang: string)
    requires AnswerPrompt(pr, query, refs, lang).Ok?
    ensures var p := AnswerPrompt(pr, query, refs, lang).value;
            IsPrefix(Instructions(pr, lang), p) && EndsWith(p, "\n" + QuestionLine(lang, query))
  {
    var p := AnswerPrompt(pr, query, refs, lang).value;
    var head := Instructions(pr, lang);
    var body := head + DocLines(refs, lang, Shown(refs)).value;
    var tail := "\n" + QuestionLine(lang, query);
    AppendAssoc(body, "\n", QuestionLine(lang, query));
    assert p == body + tail;
    assert IsPrefix(head, body) && IsPrefix(body, p);
    PrefixTrans(head, body, p);
    assert p[|p| - |tail|..] == tail;
    EndsWithSlice(p, tail);
  }

  /** The prompt shows the reference at each position `i < 5`, with its
      summary, on a line that opens with the label `[i + 1]`. */
  lemma PromptShowsDocuments(pr: AnswerPrompts, query: string, refs: seq<Reference>, lang: string, i: nat)
    requires AnswerPrompt(pr, query, refs, lang).Ok? && i < Shown(refs)
    ensures SummaryText(refs[i].summary).Ok?
    ensures var line := DocLine(lang, i, refs[i], SummaryText(refs[i].summary).value);
            Contains(AnswerPrompt(pr, query, refs, lang).value, line) && IsPrefix(DocLabel(lang, i + 1), line)
  {
    var head := Instructions(pr, lang);
    var d := DocLines(refs, lang, Shown(refs)).value;
    assert AnswerPrompt(pr, query, refs, lang).value == head + d + ("\n" + QuestionLine(lang, query));
    DocLinesPrefix(refs, lang, i, Shown(refs));
    PrefixInfix(head, d, "\n" + QuestionLine(lang, query), DocLines(refs, lang, i).value,
                DocLine(lang, i, refs[i], SummaryText(refs[i].summary).value));
    LabelOpensLine(lang, i, refs[i], SummaryText(refs[i].summary).value);
  }

  lemma LabelOpensLine(lang: string, i: nat, ref: Reference, summary: string)
    ensures IsPrefix(DocLabel(lang, i + 1), DocLine(lang, i, ref, summary))
  {
    var tag := DocLabel(lang, i + 1);
    var parts := [tag, if lang == "Chinese" then "(标题: " else "(Title: ", ref.title, ") ", summary, " (", ref.url, ")\n"];
    assert DocLine(lang, i, ref, summary) == tag + Concat(parts[1..]);
  }

  /** References after the fifth never reach the prompt. */
  lemma PromptIgnoresLaterReferences(pr: AnswerPrompts, query: string, refs: seq<Reference>, lang: string)
    requires |refs| > 5
    ensures AnswerPrompt(pr, query, refs, lang) == AnswerPrompt(pr, query, refs[..5], lang)
  {
    DocLinesSame(refs, refs[..5], lang, 5);
  }

  lemma {:induction false} DocLinesSame(a: seq<Reference>, b: seq<Reference>, lang: string, k: nat)
    requires k <= |a| && k <= |b| && a[..k] == b[..k]
    ensures DocLines(a, lang, k) == DocLines(b, lang, k)
    decreases k
  {
    if k > 0 {
      assert a[..k - 1] == a[..k][..k - 1] && b[..k - 1] == b[..k][..k - 1];
      assert a[k - 1] == a[..k][k - 1] && b[k - 1] == b[..k][k - 1];
      DocLinesSame(a, b, lang, k - 1);
    }
  }

  // ---------------------------------------------------------------------------
  // Dispatch to a chat service

  datatype Provider = OpenAi | Anthropic | NoProvider

  /** Model names containing `gpt`, `moonshot` or `llama` go through the OpenAI
      client, other names containing `claude` through the Anthropic client. */
  function Route(model: string): Provider {
    if Contains(model, "gpt") || Contains(model, "moonshot") || Contains(model, "llama") then OpenAi
    else if Contains(model, "claude") then Anthropic
    else NoProvider
  }

  /** The OpenAI-served model names the module mentions: the search-backed
      Llama model, GPT-4o and the Moonshot model. */
  lemma RouteOfLlama()
    ensures Route("llama-3-sonar-large-32k-online") == OpenAi
  {
    LeadingNameRoutes("llama-3-sonar-large-32k-online", "llama");
  }

  lemma RouteOfGpt()
    ensures Route("gpt-4o") == OpenAi
  {
    LeadingNameRoutes("gpt-4o", "gpt");
  }

  lemma RouteOfMoonshot()
    ensures Route("moonshot-v1-128k") == OpenAi
  {
    LeadingNameRoutes("moonshot-v1-128k", "moonshot");
  }

  /** A model name that opens with one of the OpenAI marks goes to OpenAI. */
  lemma LeadingNameRoutes(model: string, mark: string)
    requires mark == "gpt" || mark == "moonshot" || mark == "llama"
    requires IsPrefix(mark, model)
    ensures Route(model) == OpenAi
  {
    ContainsAt(model, mark, 0);
  }

  /** One call of `gen_by_ChatGPT` or `gen_by_Claude`: the service receives
      the history followed by the prompt as a user message. A reply is
      appended to the history as an assistant message, without the prompt
      before it; a request that raises yields `""` and an empty history. */
  function Exchange(call: (string, string, seq<Message>) -> Option<string>, model: string, baseurl: string,
                    prompt: string, history: seq<Message>): (string, seq<Message>)
  {
    match call(model, baseurl, history + [Message(User, prompt)])
    case None => ("", [])
    case Some(reply) => (reply, history + [Message(Assistant, reply)])
  }

  /** `gen_answer`: the answer text and the history to keep, or the `KeyError`
      of a shown reference without a summary. */
  function GenAnswerSpec(chat: Chat, query: string, refs: seq<Reference>, model: string, baseurl: string,
                         lang: string, history: seq<Message>): Result<(string, seq<Message>)>
  {
    match AnswerPrompt(chat.prompts, query, refs, lang)
    case Err(e) => Err(e)
    case Ok(p) =>
      match Route(model)
      case OpenAi => Ok(Exchange(chat.openAi, model, baseurl, p, history))
      case Anthropic => Ok(Exchange(chat.anthropic, model, baseurl, p, history))
      case NoProvider => Ok(("", []))
  }

  method GenAnswer(chat: Chat, query: string, refs: seq<Reference>, model: string, baseurl: string,
                   lang: string, history: seq<Message>) returns (r: Result<(string, seq<Message>)>)
    ensures r == GenAnswerSpec(chat, query, refs, model, baseurl, lang, history)
  {
    var prompt := GenAnswerPrompt(chat.prompts, query, refs, lang);
    if prompt.Err? {
      return Err(prompt.error);
    }
    var provider := Route(model);
    if provider == OpenAi {
      r := Ok(Exchange(chat.openAi, model, baseurl, prompt.value, history));
    } else if provider == Anthropic {
      r := Ok(Exchange(chat.anthropic, model, baseurl, prompt.value, history));
    } else {
      r := Ok(("", []));
    }
  }

  /** A history made of replies only. */
  predicate RepliesOnly(h: seq<Message>) {
    forall i :: 0 <= i < |h| ==> h[i].role == Assistant
  }

  /** What `gen_answer` does to a history: it is reset to empty, or it gains
      exactly the answer as an assistant message; the prompt is never kept, so
      a history of replies stays one. An unknown model answers `""` and resets
      it. */
  lemma GenAnswerHistory(chat: Chat, query: string, refs: seq<Reference>, model: string, baseurl: string,
                         lang: string, history: seq<Message>)
    requires GenAnswerSpec(chat, query, refs, model, baseurl, lang, history).Ok?
    ensures var (answer, h) := GenAnswerSpec(chat, query, refs, model, baseurl, lang, history).value;
            && (h == [] || h == history + [Message(Assistant, answer)])
            && (RepliesOnly(history) ==> RepliesOnly(h))
            && (Route(model) == NoProvider ==> answer == "" && h == [])
  {
  }

  // ---------------------------------------------------------------------------
  // Citations

  /** The length of the run of ASCII digits that starts `s`. */
  function DigitRun(s: string): (n: nat)
    ensures n <= |s|
    ensures forall i :: 0 <= i < n ==> IsDigit(s[i])
    ensures n < |s| ==> !IsDigit(s[n])
    decreases |s|
  {
    if |s| > 0 && IsDigit(s[0]) then 1 + DigitRun(s[1..]) else 0
  }

  /** `re.findall(r'\[\d+\]', s)` with each match read by `int(match[1:-1])`:
      the numbers of the `[digits]` tokens of `s` from left to right, the scan
      going on after each token. */
  function Numbers(s: string): seq<nat>
    decreases |s|
  {
    if |s| == 0 then []
    else if s[0] == '[' && 0 < DigitRun(s[1..]) && 1 + DigitRun(s[1..]) < |s| && s[1 + DigitRun(s[1..])] == ']' then
      var d := DigitRun(s[1..]);
      [ParseDigits(s[1..][..d])] + Numbers(s[d + 2..])
    else Numbers(s[1..])
  }

  /** The tokens `[n1][n2]…` a sentence cites its documents with. */
  function Tokens(ns: seq<nat>): string
    decreases |ns|
  {
    if |ns| == 0 then "" else Token(ns[0]) + Tokens(ns[1..])
  }

  lemma {:induction false} DigitRunOf(t: string, tail: string)
    requires forall i :: 0 <= i < |t| ==> IsDigit(t[i])
    requires |tail| > 0 && !IsDigit(tail[0])
    ensures DigitRun(t + tail) == |t|
    decreases |t|
  {
    if |t| > 0 {
      assert (t + tail)[1..] == t[1..] + tail;
      DigitRunOf(t[1..], tail);
    } else {
      assert t + tail == tail;
    }
  }

  /** A citation token is read back as its number. */
  lemma NumbersOfToken(n: nat, rest: string)
    ensures Numbers(Token(n) + rest) == [n] + Numbers(rest)
  {
    var t := NatToString(n);
    var s := Token(n) + rest;
    assert s == "[" + t + "]" + rest;
    assert s[1..] == t + ("]" + rest);
    DigitRunOf(t, "]" + rest);
    assert s[1 + |t|] == ']';
    assert s[1..][..|t|] == t;
    ParseNatToString(n);
    assert s[|t| + 2..] == rest;
  }

  /** Text without `[` holds no token. */
  lemma {:induction false} NumbersSkip(text: string, rest: string)
    requires '[' !in text
    ensures Numbers(text + rest) == Numbers(rest)
    decreases |text|
  {
    if |text| > 0 {
      var s := text + rest;
      assert s[0] == text[0] && s[1..] == text[1..] + rest;
      assert '[' !in text[1..];
      NumbersSkip(text[1..], rest);
    } else {
      assert text + rest == rest;
    }
  }

  /** Reading the numbers of a text without `[` followed by citation tokens
      gives the cited numbers back, in order and with repetitions. */
  lemma {:induction false} NumbersOfTokens(text: string, ns: seq<nat>)
    requires '[' !in text
    ensures Numbers(text + Tokens(ns)) == ns
    decreases |ns|
  {
    NumbersSkip(text, Tokens(ns));
    if |ns| > 0 {
      NumbersOfToken(ns[0], Tokens(ns[1..]));
      NumbersOfTokens("", ns[1..]);
      assert "" + Tokens(ns[1..]) == Tokens(ns[1..]);
      assert ns == [ns[0]] + ns[1..];
    } else {
      assert Tokens(ns) == "";
    }
  }

  /** A sentence without `[` cites nothing. */
  lemma NumbersWithoutBracket(s: string)
    requires '[' !in s
    ensures Numbers(s) == []
  {
    NumbersOfTokens(s, []);
    assert s + Tokens([]) == s;
  }

  /** The `ref_id` of the first reference, in list order, whose `idx` is `n`. */
  function FirstWithIdx(refs: seq<Reference>, n: int): (r: Option<string>)
    ensures r.None? <==> forall i :: 0 <= i < |refs| ==> refs[i].idx != n
    decreases |refs|
  {
    if |refs| == 0 then None
    else if refs[0].idx == n then Some(refs[0].refId)
    else FirstWithIdx(refs[1..], n)
  }

  /** The first match is the reference at the first position holding `n`. */
  lemma {:induction false} FirstWithIdxFirst(refs: seq<Reference>, n: int) returns (i: nat)
    requires FirstWithIdx(refs, n).Some?
    ensures i < |refs| && refs[i].idx == n && refs[i].refId == FirstWithIdx(refs, n).value
    ensures forall j :: 0 <= j < i ==> refs[j].idx != n
    decreases |refs|
  {
    if refs[0].idx == n {
      i := 0;
    } else {
      var i' := FirstWithIdxFirst(refs[1..], n);
      i := i' + 1;
      assert refs[i] == refs[1..][i'];
      forall j | 0 <= j < i ensures refs[j].idx != n {
        if j > 0 { assert refs[j] == refs[1..][j - 1]; }
      }
    }
  }

  /** `extract_numbers_and_ref_ids` as written: each number is looked up as a
      reference `idx`; numbers without a match are dropped. */
  function CitationsByIdx(ns: seq<nat>, refs: seq<Reference>): seq<Citation>
    decreases |ns|
  {
    if |ns| == 0 then []
    else
      var n := ns[|ns| - 1];
      CitationsByIdx(ns[..|ns| - 1], refs) +
        (match FirstWithIdx(refs, n) case None => [] case Some(id) => [Citation(n, id)])
  }

  /** The nested loops of `extract_numbers_and_ref_ids`, the inner one left at
      the first reference whose `idx` is the number. */
  method ExtractNumbersAndRefIds(sentence: string, refs: seq<Reference>) returns (cites: seq<Citation>)
    ensures cites == CitationsByIdx(Numbers(sentence), refs)
  {
    var numbers := Numbers(sentence);
    cites := [];
    var i := 0;
    while i < |numbers|
      invariant i <= |numbers|
      invariant cites == CitationsByIdx(numbers[..i], refs)
    {
      var n := numbers[i];
      assert numbers[..i + 1][..i] == numbers[..i];
      var j := 0;
      while j < |refs|
        invariant j <= |refs|
        invariant FirstWithIdx(refs, n) == FirstWithIdx(refs[j..], n)
      {
        if refs[j].idx == n {
          cites := cites + [Citation(n, refs[j].refId)];
          break;
        }
        assert refs[j..][1..] == refs[j + 1..];
        j := j + 1;
      }
      i := i + 1;
    }
    assert numbers[..i] == numbers;
  }

  /** Every citation found as written names a reference whose `idx` is the
      cited number, the first such one; when every number matches some
      reference, the citations are the numbers in order, repetitions kept. */
  lemma {:induction false} CitationsByIdxFacts(ns: seq<nat>, refs: seq<Reference>)
    ensures var cs := CitationsByIdx(ns, refs);
            && |cs| <= |ns|
            && (forall k :: 0 <= k < |cs| ==> FirstWithIdx(refs, cs[k].idx) == Some(cs[k].refId))
            && ((forall k :: 0 <= k < |ns| ==> FirstWithIdx(refs, ns[k]).Some?) ==>
                  |cs| == |ns| && forall k :: 0 <= k < |ns| ==> cs[k].idx == ns[k])
    decreases |ns|
  {
    if |ns| > 0 {
      var init := ns[..|ns| - 1];
      CitationsByIdxFacts(init, refs);
      assert forall k :: 0 <= k < |init| ==> init[k] == ns[k];
    }
  }

  /** A reference numbered `idx`, shown as document `[1]` of the prompt. */
  function SampleRef(id: string, idx: int): Reference {
    Reference(id, idx, 1, "t", "s", "u", WebPage, "b", Summary("s"))
  }

  /** `idx` is a reference's position in the search results counted from 0,
      while the prompt labels the references from `[1]`: with two references a
      sentence citing `[1]`, the document the prompt showed first, is resolved
      to the second reference. */
  lemma CitationOffByOne()
    ensures var refs := [SampleRef("first", 0), SampleRef("second", 1)];
            && IsPrefix(DocLabel("English", 1), DocLine("English", 0, refs[0], "s"))
            && CitationsByIdx(Numbers("See " + Tokens([1])), refs) == [Citation(1, "second")]
  {
    var refs := [SampleRef("first", 0), SampleRef("second", 1)];
    NumbersOfTokens("See ", [1]);
    assert CitationsByIdx([1], refs) == CitationsByIdx([], refs) + [Citation(1, "second")];
    var line := DocLine("English", 0, refs[0], "s");
    assert line[..|DocLabel("English", 1)|] == DocLabel("English", 1);
  }

  /** The reference the prompt shows as document `[n]`. */
  function PromptedRef(refs: seq<Reference>, n: int): (r: Option<Reference>)
    ensures r.Some? <==> 1 <= n <= Shown(refs)
  {
    if 1 <= n <= Shown(refs) then Some(refs[n - 1]) else None
  }

  /** Each cited number resolved to the reference the prompt labelled with it;
      numbers of no shown document are dropped. */
  function ResolveCitations(ns: seq<nat>, refs: seq<Reference>): seq<Citation>
    decreases |ns|
  {
    if |ns| == 0 then []
    else
      var n := ns[|ns| - 1];
      ResolveCitations(ns[..|ns| - 1], refs) +
        (match PromptedRef(refs, n) case None => [] case Some(ref) => [Citation(n, ref.refId)])
  }

  /** The citation extraction resolving `[n]` to the `n`-th shown reference. */
  method ExtractCitations(sentence: string, refs: seq<Reference>) returns (cites: seq<Citation>)
    ensures cites == ResolveCitations(Numbers(sentence), refs)
  {
    var numbers := Numbers(sentence);
    cites := [];
    var i := 0;
    while i < |numbers|
      invariant i <= |numbers|
      invariant cites == ResolveCitations(numbers[..i], refs)
    {
      var n := numbers[i];
      assert numbers[..i + 1][..i] == numbers[..i];
      if 1 <= n && n <= 5 && n <= |refs| {
        cites := cites + [Citation(n, refs[n - 1].refId)];
      }
      i := i + 1;
    }
    assert numbers[..i] == numbers;
  }

  /** Every resolved citation names a shown document by its label; when every
      number labels a shown document, the citations are the numbers in order. */
  lemma {:induction false} ResolveCitationsFacts(ns: seq<nat>, refs: seq<Reference>)
    ensures var cs := ResolveCitations(ns, refs);
            && |cs| <= |ns|
            && (forall k :: 0 <= k < |cs| ==> 1 <= cs[k].idx <= Shown(refs) && cs[k].refId == refs[cs[k].idx - 1].refId)
            && ((forall k :: 0 <= k < |ns| ==> 1 <= ns[k] <= Shown(refs)) ==>
                  |cs| == |ns| && forall k :: 0 <= k < |ns| ==> cs[k].idx == ns[k])
    decreases |ns|
  {
    if |ns| > 0 {
      var init := ns[..|ns| - 1];
      ResolveCitationsFacts(init, refs);
      assert forall k :: 0 <= k < |init| ==> init[k] == ns[k];
    }
  }

  /** With `idx` numbered from 1 in list order, `FirstWithIdx` finds the
      reference at position `n - 1`. */
  lemma {:induction false} FirstWithIdxOneBased(refs: seq<Reference>, n: int, from: int)
    requires forall k :: 0 <= k < |refs| ==> refs[k].idx == from + k
    ensures FirstWithIdx(refs, n) == if from <= n < from + |refs| then Some(refs[n - from].refId) else None
    decreases |refs|
  {
    if |refs| > 0 && refs[0].idx != n {
      FirstWithIdxOneBased(refs[1..], n, from + 1);
    }
  }

  /** The lookup as written and the corrected resolution agree whenever the
      references are numbered from 1 in list order and all five or fewer are
      shown. */
  lemma {:induction false} ByIdxAgreesWhenOneBased(ns: seq<nat>, refs: seq<Reference>)
    requires |refs| <= 5
    requires forall k :: 0 <= k < |refs| ==> refs[k].idx == k + 1
    ensures CitationsByIdx(ns, refs) == ResolveCitations(ns, refs)
    decreases |ns|
  {
    if |ns| > 0 {
      ByIdxAgreesWhenOneBased(ns[..|ns| - 1], refs);
      FirstWithIdxOneBased(refs, ns[|ns| - 1], 1);
    }
  }

  /** Citation `c` names a document the prompt showed under the label `[c.idx]`:
      the line of that reference, opening with the label, is in the prompt, and
      `c` carries that reference's `ref_id`. */
  ghost predicate NamesShownDocument(pr: AnswerPrompts, query: string, refs: seq<Reference>, lang: string, c: Citation)
    requires AnswerPrompt(pr, query, refs, lang).Ok?
  {
    && 1 <= c.idx <= Shown(refs)
    && c.refId == refs[c.idx - 1].refId
    && SummaryText(refs[c.idx - 1].summary).Ok?
    && var line := DocLine(lang, c.idx - 1, refs[c.idx - 1], SummaryText(refs[c.idx - 1].summary).value);
       Contains(AnswerPrompt(pr, query, refs, lang).value, line) && IsPrefix(DocLabel(lang, c.idx), line)
  }

  /** A citation resolves to the very document the prompt showed under its label. */
  lemma CitationsNamePromptedDocuments(pr: AnswerPrompts, query: string, refs: seq<Reference>, lang: string,
                                       sentence: string, k: nat)
    requires AnswerPrompt(pr, query, refs, lang).Ok?
    requires k < |ResolveCitations(Numbers(sentence), refs)|
    ensures NamesShownDocument(pr, query, refs, lang, ResolveCitations(Numbers(sentence), refs)[k])
  {
    ResolveCitationAt(Numbers(sentence), refs, k);
    LabelNamesShownDocument(pr, query, refs, lang, ResolveCitations(Numbers(sentence), refs)[k]);
  }

  /** Citation `k` carries a shown label and the id of the reference under it. */
  lemma ResolveCitationAt(ns: seq<nat>, refs: seq<Reference>, k: nat)
    requires k < |ResolveCitations(ns, refs)|
    ensures var c := ResolveCitations(ns, refs)[k];
            1 <= c.idx <= Shown(refs) && c.refId == refs[c.idx - 1].refId
  {
    ResolveCitationsFacts(ns, refs);
  }

  /** A citation carrying a shown label and that reference's id names the
      document shown under the label. */
  lemma LabelNamesShownDocument(pr: AnswerPrompts, query: string, refs: seq<Reference>, lang: string, c: Citation)
    requires AnswerPrompt(pr, query, refs, lang).Ok?
    requires 1 <= c.idx <= Shown(refs) && c.refId == refs[c.idx - 1].refId
    ensures NamesShownDocument(pr, query, refs, lang, c)
  {
    PromptShowsDocuments(pr, query, refs, lang, c.idx - 1);
  }

  // ---------------------------------------------------------------------------
  // Sentences

  function Separator(lang: string): char {
    if lang == "Chinese" then '。' else '.'
  }

  /** The characters `strip('\n ')` removes. */
  const Blank: set<char> := {'\n', ' '}

  /** The list comprehension of `split_answer`: every piece stripped of
      leading and trailing blanks, the empty ones dropped. */
  function Cleaned(pieces: seq<string>): seq<string>
    decreases |pieces|
  {
    if |pieces| == 0 then []
    else
      var s := StripChars(pieces[|pieces| - 1], Blank);
      Cleaned(pieces[..|pieces| - 1]) + (if s == "" then [] else [s])
  }

  /** The sentence texts of an answer. */
  function SentenceTexts(answer: string, lang: string): seq<string> {
    Cleaned(Split(answer, Separator(lang)))
  }

  /** A sentence as `split_answer` leaves it: not empty, neither starting nor
      ending with a blank, and free of the separator. */
  predicate CleanSentence(s: string, sep: char) {
    s != "" && s[0] !in Blank && s[|s| - 1] !in Blank && sep !in s
  }

  lemma StripKeepsOut(s: string, c: char)
    requires c !in s
    ensures c !in StripChars(s, Blank)
  {
    var l := LStrip(s, Blank);
    assert c !in l by {
      forall i | 0 <= i < |l| ensures l[i] != c { assert l[i] == s[|s| - |l| + i]; }
    }
    var r := RStrip(l, Blank);
    forall i | 0 <= i < |r| ensures r[i] != c { assert r[i] == l[i]; }
  }

  lemma {:induction false} CleanedFacts(pieces: seq<string>, sep: char)
    requires forall k :: 0 <= k < |pieces| ==> sep !in pieces[k]
    ensures forall k :: 0 <= k < |Cleaned(pieces)| ==> CleanSentence(Cleaned(pieces)[k], sep)
    decreases |pieces|
  {
    if |pieces| > 0 {
      var init := pieces[..|pieces| - 1];
      assert forall k :: 0 <= k < |init| ==> init[k] == pieces[k];
      CleanedFacts(init, sep);
      StripKeepsOut(pieces[|pieces| - 1], sep);
    }
  }

  /** Every sentence text is clean. */
  lemma SentenceTextsClean(answer: string, lang: string)
    ensures forall k :: 0 <= k < |SentenceTexts(answer, lang)| ==>
              CleanSentence(SentenceTexts(answer, lang)[k], Separator(lang))
  {
    CleanedFacts(Split(answer, Separator(lang)), Separator(lang));
  }

  lemma {:induction false} CleanedOfClean(ss: seq<string>, sep: char)
    requires forall k :: 0 <= k < |ss| ==> CleanSentence(ss[k], sep)
    ensures Cleaned(ss) == ss
    decreases |ss|
  {
    if |ss| > 0 {
      var init, s := ss[..|ss| - 1], ss[|ss| - 1];
      assert ss == init + [s];
      assert forall k :: 0 <= k < |init| ==> init[k] == ss[k];
      CleanedOfClean(init, sep);
      CleanStripped(s, sep);
      CleanedSnoc(init, s);
    }
  }

  lemma CleanedSnoc(init: seq<string>, s: string)
    requires StripChars(s, Blank) == s && s != ""
    ensures Cleaned(init + [s]) == Cleaned(init) + [s]
  {
    assert (init + [s])[..|init|] == init;
  }

  /** Stripping blanks leaves a clean sentence as it is. */
  lemma CleanStripped(s: string, sep: char)
    requires CleanSentence(s, sep)
    ensures StripChars(s, Blank) == s && s != ""
  {
    assert LStrip(s, Blank) == s;
    assert RStrip(s, Blank) == s;
  }

  /** Splitting an answer made of clean sentences joined by the separator
      gives the sentences back, in order. */
  lemma SentencesOfJoin(ss: seq<string>, lang: string)
    requires |ss| > 0
    requires forall k :: 0 <= k < |ss| ==> CleanSentence(ss[k], Separator(lang))
    ensures SentenceTexts(Join(ss, Separator(lang)), lang) == ss
  {
    SplitJoin(ss, Separator(lang));
    CleanedOfClean(ss, Separator(lang));
  }

  /** The sentences made of the texts `texts`, numbered from 1, with the ids
      drawn in order. */
  function Numbered(texts: seq<string>, refs: seq<Reference>, ids: seq<string>): (r: seq<Sentence>)
    ensures |r| == |texts|
    decreases |texts|
  {
    if |texts| == 0 then []
    else
      var k := |texts| - 1;
      Numbered(texts[..k], refs, ids) + [Sentence(BuildRef.CodeAt(ids, k), k + 1, texts[k], CitationsByIdx(Numbers(texts[k]), refs))]
  }

  /** Sentence `k` is the `k`-th text, numbered `k + 1`, with its citations. */
  lemma {:induction false} NumberedAt(texts: seq<string>, refs: seq<Reference>, ids: seq<string>, k: nat)
    requires k < |texts|
    ensures Numbered(texts, refs, ids)[k] ==
            Sentence(BuildRef.CodeAt(ids, k), k + 1, texts[k], CitationsByIdx(Numbers(texts[k]), refs))
    decreases |texts|
  {
    if k < |texts| - 1 {
      NumberedAt(texts[..|texts| - 1], refs, ids, k);
    }
  }

  /** `split_answer` with the sentence ids drawn in order. */
  function SplitSpec(answer: string, refs: seq<Reference>, lang: string, ids: seq<string>): (r: seq<Sentence>)
    ensures |r| == |SentenceTexts(answer, lang)|
  {
    Numbered(SentenceTexts(answer, lang), refs, ids)
  }

  /** The sentences of an answer are numbered `1 .. k` in order; each is a
      clean sentence of the answer with the citations it makes. */
  lemma SplitSpecFacts(answer: string, refs: seq<Reference>, lang: string, ids: seq<string>)
    ensures var ss := SplitSpec(answer, refs, lang, ids);
            forall k :: 0 <= k < |ss| ==>
              && ss[k].idx == k + 1
              && ss[k].text == SentenceTexts(answer, lang)[k]
              && CleanSentence(ss[k].text, Separator(lang))
              && ss[k].citations == CitationsByIdx(Numbers(ss[k].text), refs)
  {
    SentenceTextsClean(answer, lang);
    var texts := SentenceTexts(answer, lang);
    forall k | 0 <= k < |texts|
      ensures Numbered(texts, refs, ids)[k] ==
              Sentence(BuildRef.CodeAt(ids, k), k + 1, texts[k], CitationsByIdx(Numbers(texts[k]), refs))
    {
      NumberedAt(texts, refs, ids, k);
    }
  }

  /** `split_answer`: the answer split into clean sentences. */
  method SplitAnswer(answer: string, refs: seq<Reference>, lang: string)
    returns (sentences: seq<Sentence>, ghost ids: seq<string>)
    ensures sentences == SplitSpec(answer, refs, lang, ids)
    ensures |ids| == |sentences| && forall k :: 0 <= k < |ids| ==> IsCode(ids[k]) && sentences[k].sentenceId == ids[k]
  {
    var cleaned := Cleaned(Split(answer, Separator(lang)));
    sentences, ids := NumberSentences(cleaned, refs);
  }

  /** The loop of `split_answer`: each text becomes a sentence with a fresh id,
      its number and the citations `extract_numbers_and_ref_ids` finds. */
  method NumberSentences(texts: seq<string>, refs: seq<Reference>)
    returns (sentences: seq<Sentence>, ghost ids: seq<string>)
    ensures sentences == Numbered(texts, refs, ids)
    ensures |ids| == |sentences| && forall k :: 0 <= k < |ids| ==> IsCode(ids[k]) && sentences[k].sentenceId == ids[k]
  {
    sentences := [];
    ids := [];
    var index := 0;
    while index < |texts|
      invariant index <= |texts| && |sentences| == |ids| == index
      invariant forall k :: 0 <= k < index ==> IsCode(ids[k]) && sentences[k].sentenceId == ids[k]
      invariant sentences == Numbered(texts[..index], refs, ids)
    {
      var id := NewCode();
      var cites := ExtractNumbersAndRefIds(texts[index], refs);
      NumberedIds(texts[..index], refs, ids, [id]);
      assert texts[..index + 1][..index] == texts[..index];
      sentences := sentences + [Sentence(id, index + 1, texts[index], cites)];
      ids := ids + [id];
      index := index + 1;
    }
    assert texts[..index] == texts;
  }

  lemma {:induction false} NumberedIds(texts: seq<string>, refs: seq<Reference>, ids: seq<string>, more: seq<string>)
    requires |texts| <= |ids|
    ensures Numbered(texts, refs, ids + more) == Numbered(texts, refs, ids)
    decreases |texts|
  {
    if |texts| > 0 {
      NumberedIds(texts[..|texts| - 1], refs, ids, more);
      assert BuildRef.CodeAt(ids + more, |texts| - 1) == BuildRef.CodeAt(ids, |texts| - 1);
    }
  }

  // ---------------------------------------------------------------------------
  // Conversations

  /** The ids drawn for one answer: its `answer_id` and its sentence ids. */
  datatype AnswerIds = AnswerIds(answerId: string, sentenceIds: seq<string>)

  function IdsAt(ids: seq<AnswerIds>, j: nat): AnswerIds {
    if j < |ids| then ids[j] else AnswerIds("", [])
  }

  function IdsOf(ids: seq<seq<AnswerIds>>, i: nat): seq<AnswerIds> {
    if i < |ids| then ids[i] else []
  }

  /** `llm_answer_history[model]`; the map starts with an empty list per model. */
  function History(h: map<string, seq<Message>>, model: string): seq<Message> {
    if model in h then h[model] else []
  }

  /** The state of the per-model loop: the histories and the answers so far. */
  datatype ModelState = ModelState(histories: map<string, seq<Message>>, answers: Result<seq<Answer>>)

  /** The per-model loop after the models `0 .. j-1`. */
  function AnswersUpTo(chat: Chat, query: string, refs: seq<Reference>, lang: string, models: seq<(string, string)>,
                       j: nat, h: map<string, seq<Message>>, ids: seq<AnswerIds>): ModelState
    requires j <= |models|
    decreases j, 0
  {
    if j == 0 then ModelState(h, Ok([])) else AnswerAt(chat, query, refs, lang, models, j - 1, h, ids)
  }

  /** The per-model loop after model `j`: it stops at the first error, and
      otherwise model `j` responds. */
  function AnswerAt(chat: Chat, query: string, refs: seq<Reference>, lang: string, models: seq<(string, string)>,
                    j: nat, h: map<string, seq<Message>>, ids: seq<AnswerIds>): ModelState
    requires j < |models|
    decreases j, 2
  {
    var s := AnswersUpTo(chat, query, refs, lang, models, j, h, ids);
    if s.answers.Err? then s else Respond(chat, query, refs, lang, models, j, h, ids)
  }

  /** Model `j` answering the turn, after the models before it: a fresh
      `answer_id`, the answer given that model's current history, and the
      answer's sentences. */
  function Respond(chat: Chat, query: string, refs: seq<Reference>, lang: string, models: seq<(string, string)>,
                   j: nat, h: map<string, seq<Message>>, ids: seq<AnswerIds>): ModelState
    requires j < |models| && AnswersUpTo(chat, query, refs, lang, models, j, h, ids).answers.Ok?
    decreases j, 1
  {
    var s := AnswersUpTo(chat, query, refs, lang, models, j, h, ids);
    var (name, baseurl) := models[j];
    var id := IdsAt(ids, j);
    match GenAnswerSpec(chat, query, refs, name, baseurl, lang, History(s.histories, name))
    case Err(e) => ModelState(s.histories, Err(e))
    case Ok((text, h')) =>
      ModelState(s.histories[name := h'],
                 Ok(s.answers.value + [Answer(id.answerId, text, name, SplitSpec(text, refs, lang, id.sentenceIds))]))
  }

  /** The state of the loop over turns: the histories and the turns so far. */
  datatype ConvState = ConvState(histories: map<string, seq<Message>>, out: Result<seq<Content>>)

  /** The loop over turns after turns `0 .. k-1`. */
  function ConvsUpTo(chat: Chat, contents: seq<Content>, k: nat, lang: string, models: seq<(string, string)>,
                     ids: seq<seq<AnswerIds>>): ConvState
    requires k <= |contents|
    decreases k, 0
  {
    if k == 0 then ConvState(map[], Ok([])) else ConvAt(chat, contents, k - 1, lang, models, ids)
  }

  /** The loop after turn `j`: it stops at the first error, and otherwise turn `j`
      is answered. */
  function ConvAt(chat: Chat, contents: seq<Content>, j: nat, lang: string, models: seq<(string, string)>,
                  ids: seq<seq<AnswerIds>>): ConvState
    requires j < |contents|
    decreases j, 2
  {
    var s := ConvsUpTo(chat, contents, j, lang, models, ids);
    if s.out.Err? then s else ConvRespond(chat, contents, j, lang, models, ids)
  }

  /** Turn `j` of `handling_conversations`, after the turns before it: a turn
      without `references` raises `KeyError`; otherwise it gains one answer per
      model, each model continuing its own history. */
  function ConvRespond(chat: Chat, contents: seq<Content>, j: nat, lang: string, models: seq<(string, string)>,
                       ids: seq<seq<AnswerIds>>): ConvState
    requires j < |contents| && ConvsUpTo(chat, contents, j, lang, models, ids).out.Ok?
    decreases j, 1
  {
    var s := ConvsUpTo(chat, contents, j, lang, models, ids);
    var c := contents[j];
    if c.references.None? then ConvState(s.histories, Err("KeyError"))
    else
      var m := AnswersUpTo(chat, c.query, c.references.value, lang, models, |models|, s.histories, IdsOf(ids, j));
      match m.answers
      case Err(e) => ConvState(m.histories, Err(e))
      case Ok(a) => ConvState(m.histories, Ok(s.out.value + [c.(answers := Some(a))]))
  }

  /** Answers in the order of `models`, each with that model's name, the `answer_id`
      drawn for it and the sentences of its own text. */
  predicate AnswersFor(answers: seq<Answer>, models: seq<(string, string)>, refs: seq<Reference>, lang: string,
                       ids: seq<AnswerIds>)
  {
    && |answers| <= |models| && |answers| <= |ids|
    && forall m :: 0 <= m < |answers| ==>
         && answers[m].model == models[m].0
         && answers[m].answerId == ids[m].answerId
         && answers[m].sentences == SplitSpec(answers[m].content, refs, lang, ids[m].sentenceIds)
  }

  /** The per-model loop of `handling_conversations` for one turn: without an
      exception, one answer per model. */
  method AnswerTurn(chat: Chat, query: string, refs: seq<Reference>, lang: string, models: seq<(string, string)>,
                    h0: map<string, seq<Message>>) returns (s: ModelState, ghost ids: seq<AnswerIds>)
    ensures s == AnswersUpTo(chat, query, refs, lang, models, |models|, h0, ids)
    ensures forall j :: 0 <= j < |ids| ==> IsCode(ids[j].answerId)
    ensures s.answers.Ok? ==> |s.answers.value| == |models| && AnswersFor(s.answers.value, models, refs, lang, ids)
  {
    s := ModelState(h0, Ok([]));
    ids := [];
    var j := 0;
    while j < |models|
      invariant j <= |models| && |ids| == j
      invariant forall l :: 0 <= l < j ==> IsCode(ids[l].answerId)
      invariant s == AnswersUpTo(chat, query, refs, lang, models, j, h0, ids) && s.answers.Ok?
    {
      ghost var id;
      s, id := AnswerOne(chat, query, refs, lang, models, j, h0, ids, s);
      ids := ids + [id];
      if s.answers.Err? {
        AnswersErrStays(chat, query, refs, lang, models, j + 1, |models|, h0, ids);
        return;
      }
      j := j + 1;
    }
    AnswersUpToFor(chat, query, refs, lang, models, j, h0, ids);
  }

  /** One pass of the per-model loop: a fresh `answer_id`, the answer, and
      its sentences. */
  method AnswerOne(chat: Chat, query: string, refs: seq<Reference>, lang: string, models: seq<(string, string)>,
                   j: nat, ghost h0: map<string, seq<Message>>, ghost ids: seq<AnswerIds>, s: ModelState)
    returns (s': ModelState, ghost id: AnswerIds)
    requires j < |models| && j == |ids|
    requires s == AnswersUpTo(chat, query, refs, lang, models, j, h0, ids) && s.answers.Ok?
    ensures s' == AnswersUpTo(chat, query, refs, lang, models, j + 1, h0, ids + [id])
    ensures IsCode(id.answerId)
  {
    var (name, baseurl) := models[j];
    var answerId := NewCode();
    var r := GenAnswer(chat, query, refs, name, baseurl, lang, History(s.histories, name));
    if r.Err? {
      id := AnswerIds(answerId, []);
      AnswersUpToIds(chat, query, refs, lang, models, j, h0, ids, [id]);
      assert IdsAt(ids + [id], j) == id;
      s' := ModelState(s.histories, Err(r.error));
      assert s' == Respond(chat, query, refs, lang, models, j, h0, ids + [id]);
      return;
    }
    var (text, h) := r.value;
    var sentences, sentenceIds := SplitAnswer(text, refs, lang);
    id := AnswerIds(answerId, sentenceIds);
    AnswersUpToIds(chat, query, refs, lang, models, j, h0, ids, [id]);
    assert IdsAt(ids + [id], j) == id;
    s' := ModelState(s.histories[name := h], Ok(s.answers.value + [Answer(answerId, text, name, sentences)]));
    assert s' == Respond(chat, query, refs, lang, models, j, h0, ids + [id]);
  }

  /** Without an error, the loop after `j` models holds one answer per model,
      in the order of `models`, each with that model's name, its `answer_id`
      and the sentences of its own text. */
  lemma {:induction false} AnswersUpToFor(chat: Chat, query: string, refs: seq<Reference>, lang: string,
                                          models: seq<(string, string)>, j: nat, h: map<string, seq<Message>>,
                                          ids: seq<AnswerIds>)
    requires j <= |models| && j <= |ids|
    ensures var s := AnswersUpTo(chat, query, refs, lang, models, j, h, ids);
            s.answers.Ok? ==> |s.answers.value| == j && AnswersFor(s.answers.value, models, refs, lang, ids)
    decreases j
  {
    if j > 0 {
      AnswersUpToFor(chat, query, refs, lang, models, j - 1, h, ids);
      var p := AnswersUpTo(chat, query, refs, lang, models, j - 1, h, ids);
      if p.answers.Ok? {
        RespondAppends(chat, query, refs, lang, models, j - 1, h, ids);
        var s := AnswersUpTo(chat, query, refs, lang, models, j, h, ids);
        if s.answers.Ok? {
          AnswersForSnoc(p.answers.value, s.answers.value[j - 1], models, refs, lang, ids);
        }
      }
    }
  }

  /** Model `j` adds one answer, with its name, its `answer_id` and the
      sentences of its text. */
  lemma RespondAppends(chat: Chat, query: string, refs: seq<Reference>, lang: string, models: seq<(string, string)>,
                       j: nat, h: map<string, seq<Message>>, ids: seq<AnswerIds>)
    requires j < |models| && j < |ids| && AnswersUpTo(chat, query, refs, lang, models, j, h, ids).answers.Ok?
    ensures var p := AnswersUpTo(chat, query, refs, lang, models, j, h, ids).answers.value;
            var s := AnswersUpTo(chat, query, refs, lang, models, j + 1, h, ids);
            s.answers.Ok? ==>
              && |s.answers.value| == |p| + 1 && s.answers.value == p + [s.answers.value[|p|]]
              && s.answers.value[|p|].model == models[j].0
              && s.answers.value[|p|].answerId == ids[j].answerId
              && s.answers.value[|p|].sentences
                 == SplitSpec(s.answers.value[|p|].content, refs, lang, ids[j].sentenceIds)
  {
    assert AnswersUpTo(chat, query, refs, lang, models, j + 1, h, ids) == Respond(chat, query, refs, lang, models, j, h, ids);
  }

  lemma AnswersForSnoc(answers: seq<Answer>, a: Answer, models: seq<(string, string)>, refs: seq<Reference>,
                       lang: string, ids: seq<AnswerIds>)
    requires AnswersFor(answers, models, refs, lang, ids) && |answers| < |ids| && |answers| < |models|
    requires a.model == models[|answers|].0 && a.answerId == ids[|answers|].answerId
    requires a.sentences == SplitSpec(a.content, refs, lang, ids[|answers|].sentenceIds)
    ensures AnswersFor(answers + [a], models, refs, lang, ids)
  {
    var as' := answers + [a];
    forall m | 0 <= m < |as'|
      ensures as'[m].model == models[m].0 && as'[m].answerId == ids[m].answerId
              && as'[m].sentences == SplitSpec(as'[m].content, refs, lang, ids[m].sentenceIds)
    {
      if m < |answers| {
        assert as'[m] == answers[m];
      }
    }
  }

  lemma {:induction false} AnswersUpToIds(chat: Chat, query: string, refs: seq<Reference>, lang: string,
                                          models: seq<(string, string)>, j: nat, h: map<string, seq<Message>>,
                                          ids: seq<AnswerIds>, more: seq<AnswerIds>)
    requires j <= |models| && j <= |ids|
    ensures AnswersUpTo(chat, query, refs, lang, models, j, h, ids + more) == AnswersUpTo(chat, query, refs, lang, models, j, h, ids)
    decreases j
  {
    if j > 0 {
      AnswersUpToIds(chat, query, refs, lang, models, j - 1, h, ids, more);
      assert IdsAt(ids + more, j - 1) == IdsAt(ids, j - 1);
      if AnswersUpTo(chat, query, refs, lang, models, j - 1, h, ids).answers.Ok? {
        assert Respond(chat, query, refs, lang, models, j - 1, h, ids + more)
            == Respond(chat, query, refs, lang, models, j - 1, h, ids);
      }
    }
  }

  lemma {:induction false} AnswersErrStays(chat: Chat, query: string, refs: seq<Reference>, lang: string,
                                           models: seq<(string, string)>, j: nat, k: nat, h: map<string, seq<Message>>,
                                           ids: seq<AnswerIds>)
    requires j <= k <= |models| && AnswersUpTo(chat, query, refs, lang, models, j, h, ids).answers.Err?
    ensures AnswersUpTo(chat, query, refs, lang, models, k, h, ids) == AnswersUpTo(chat, query, refs, lang, models, j, h, ids)
    decreases k
  {
    if k > j {
      AnswersErrStays(chat, query, refs, lang, models, j, k - 1, h, ids);
    }
  }

  /** Turn `c'` is turn `c` with one answer per model set as its `answers`. */
  predicate Answered(c: Content, c': Content, models: seq<(string, string)>, lang: string, ids: seq<AnswerIds>) {
    && c.references.Some? && c'.answers.Some?
    && c' == c.(answers := c'.answers)
    && |c'.answers.value| == |models|
    && AnswersFor(c'.answers.value, models, c.references.value, lang, ids)
  }

  /** `handling_conversations`: every turn gains its answers, one per model in
      order, or the first `KeyError` stops the whole batch. */
  method HandlingConversations(chat: Chat, contents: seq<Content>, lang: string, models: seq<(string, string)>)
    returns (r: Result<seq<Content>>, ghost ids: seq<seq<AnswerIds>>)
    ensures r == ConvsUpTo(chat, contents, |contents|, lang, models, ids).out
    ensures forall i, j :: 0 <= i < |ids| && 0 <= j < |ids[i]| ==> IsCode(ids[i][j].answerId)
    ensures r.Ok? ==>
              && |r.value| == |contents| == |ids|
              && forall i :: 0 <= i < |contents| ==> Answered(contents[i], r.value[i], models, lang, ids[i])
  {
    var histories: map<string, seq<Message>> := map[];
    var out: seq<Content> := [];
    ids := [];
    var i := 0;
    while i < |contents|
      invariant i <= |contents| && |ids| == i
      invariant forall a, j :: 0 <= a < |ids| && 0 <= j < |ids[a]| ==> IsCode(ids[a][j].answerId)
      invariant ConvsUpTo(chat, contents, i, lang, models, ids) == ConvState(histories, Ok(out))
      invariant |out| == i && forall a :: 0 <= a < i ==> Answered(contents[a], out[a], models, lang, ids[a])
    {
      var next, c', turnIds := AnswerConversation(chat, contents, lang, models, i, ids, histories, out);
      ghost var ids0 := ids;
      ids := ids + [turnIds];
      if next.out.Err? {
        ConvsErrStays(chat, contents, i + 1, |contents|, lang, models, ids);
        return next.out, ids;
      }
      AnsweredSnoc(contents, out, ids0, c', turnIds, models, lang);
      histories, out := next.histories, out + [c'];
      i := i + 1;
    }
    r := Ok(out);
  }

  /** One turn of `handling_conversations`, after the turns before it. */
  method AnswerConversation(chat: Chat, contents: seq<Content>, lang: string, models: seq<(string, string)>, i: nat,
                            ghost ids: seq<seq<AnswerIds>>, histories: map<string, seq<Message>>, out: seq<Content>)
    returns (next: ConvState, c': Content, ghost turnIds: seq<AnswerIds>)
    requires i < |contents| && |ids| == i == |out|
    requires ConvsUpTo(chat, contents, i, lang, models, ids) == ConvState(histories, Ok(out))
    ensures next == ConvsUpTo(chat, contents, i + 1, lang, models, ids + [turnIds])
    ensures forall j :: 0 <= j < |turnIds| ==> IsCode(turnIds[j].answerId)
    ensures next.out.Ok? ==> next.out == Ok(out + [c']) && Answered(contents[i], c', models, lang, turnIds)
  {
    var c := contents[i];
    if c.references.None? {
      turnIds := [];
      ConvsUpToIds(chat, contents, i, lang, models, ids, [turnIds]);
      next := ConvState(histories, Err("KeyError"));
      assert next == ConvRespond(chat, contents, i, lang, models, ids + [turnIds]);
      return next, c, turnIds;
    }
    var m;
    m, turnIds := AnswerTurn(chat, c.query, c.references.value, lang, models, histories);
    ConvsUpToIds(chat, contents, i, lang, models, ids, [turnIds]);
    assert IdsOf(ids + [turnIds], i) == turnIds;
    if m.answers.Err? {
      next := ConvState(m.histories, Err(m.answers.error));
      assert next == ConvRespond(chat, contents, i, lang, models, ids + [turnIds]);
      return next, c, turnIds;
    }
    c' := c.(answers := Some(m.answers.value));
    next := ConvState(m.histories, Ok(out + [c']));
    assert next == ConvRespond(chat, contents, i, lang, models, ids + [turnIds]);
  }

  lemma AnsweredSnoc(contents: seq<Content>, out: seq<Content>, ids: seq<seq<AnswerIds>>, c': Content,
                     turnIds: seq<AnswerIds>, models: seq<(string, string)>, lang: string)
    requires |out| == |ids| < |contents|
    requires forall a :: 0 <= a < |out| ==> Answered(contents[a], out[a], models, lang, ids[a])
    requires Answered(contents[|out|], c', models, lang, turnIds)
    ensures forall a :: 0 <= a < |out| + 1 ==> Answered(contents[a], (out + [c'])[a], models, lang, (ids + [turnIds])[a])
  {
    forall a | 0 <= a < |out| + 1
      ensures Answered(contents[a], (out + [c'])[a], models, lang, (ids + [turnIds])[a])
    {
      if a < |out| {
        assert (out + [c'])[a] == out[a] && (ids + [turnIds])[a] == ids[a];
      }
    }
  }

  lemma {:induction false} ConvsUpToIds(chat: Chat, contents: seq<Content>, k: nat, lang: string,
                                        models: seq<(string, string)>, ids: seq<seq<AnswerIds>>,
                                        more: seq<seq<AnswerIds>>)
    requires k <= |contents| && k <= |ids|
    ensures ConvsUpTo(chat, contents, k, lang, models, ids + more) == ConvsUpTo(chat, contents, k, lang, models, ids)
    decreases k
  {
    if k > 0 {
      ConvsUpToIds(chat, contents, k - 1, lang, models, ids, more);
      assert IdsOf(ids + more, k - 1) == IdsOf(ids, k - 1);
      if ConvsUpTo(chat, contents, k - 1, lang, models, ids).out.Ok? {
        assert ConvRespond(chat, contents, k - 1, lang, models, ids + more)
            == ConvRespond(chat, contents, k - 1, lang, models, ids);
      }
    }
  }

  lemma {:induction false} ConvsErrStays(chat: Chat, contents: seq<Content>, j: nat, k: nat, lang: string,
                                         models: seq<(string, string)>, ids: seq<seq<AnswerIds>>)
    requires j <= k <= |contents| && ConvsUpTo(chat, contents, j, lang, models, ids).out.Err?
    ensures ConvsUpTo(chat, contents, k, lang, models, ids) == ConvsUpTo(chat, contents, j, lang, models, ids)
    decreases k
  {
    if k > j {
      ConvsErrStays(chat, contents, j, k - 1, lang, models, ids);
    }
  }
}

/** Record enrichment: for every turn of a WildChat record, an LLM turns the
    conversation so far into search keywords, a web search finds documents,
    each document is fetched and summarized, and the turn gains the list of
    references. Files are written to `temp` and committed to `data` after each
    record. The LLM, the search engine and the fetchers are oracle functions. */
module BuildRef {
  import opened Common
  import opened Records
  import opened Staging

  /** One entry of the search engine's `organic_results`, with all four keys
      `supplement_ref` reads. */
  datatype Organic = Organic(position: int, title: string, snippet: string, link: string)

  /** The search engine's JSON answer: `search_information.total_results` and
      `organic_results`, each `None` when the key is missing. */
  datatype SearchResult = SearchResult(totalResults: Option<int>, organic: Option<seq<Organic>>)

  /** A JSON document written by `save_json_file`. */
  datatype Doc = KeywordDoc(keyword: Option<string>) | SearchDoc(result: SearchResult) | RecordDoc(record: Record)

  /** A file holds the documents saved into it, one per write. */
  type Dir = Directory<seq<Doc>>

  /** The prompt texts `build_ref` hands to the LLM: the keyword prompts in
      English and Chinese and the summarization prompts in Chinese and English. */
  datatype Prompts = Prompts(q2kEn: string, q2kCn: string, summCn: string, summEn: string)

  /** The module's own prompt texts. */
  const SourcePrompts: Prompts := Prompts(
    "As a search engine expert, please rewrite the following query content as several search keywords, and the total word count of the generated search keywords should not exceed 200 words. The returned keywords should be separated by commas.",
    "你作为搜索引擎专家，请重写下面的查询内容为若干查询关键词，生成的查询关键词总字数不查过200字，返回的关键词以逗号间隔即可。",
    "用感兴趣的问题在100个字内总结以下正文。如果文档与问题无关，请返回“不相关”。尽量保留所有重要的日期、数字和姓名。\n\n",
    "Summarize the following document within 50 words with the question of interest Return \"irrelevant\" if the document is irrelevant to the question. Try to keep all the important dates, numbers, and names.\n\n")

  /** The prompt texts and the outside world: `llm_answer` (`None` when the
      call raises), the search engine queried with keywords and language, and
      the two page fetchers (`None` when fetching fails). The PDF fetcher gives
      the text only; the file it saves in `temp` is not modelled. */
  datatype Services = Services(
    prompts: Prompts,
    llm: string -> Option<string>,
    search: (Option<string>, string) -> SearchResult,
    fetchPdf: string -> Option<string>,
    fetchPage: string -> Option<string>)

  // ---------------------------------------------------------------------------
  // Keyword prompt

  /** The language-dependent parts of the keyword prompt. */
  datatype KeywordStyle = KeywordStyle(prefix: string, queryLabel: string, answerLabel: string)

  /** Only English and Chinese records set the prompt variables; for any other
      language they stay unbound. */
  function StyleOf(pr: Prompts, lang: string): (r: Option<KeywordStyle>)
    ensures r.Some? <==> lang == "English" || lang == "Chinese"
  {
    if lang == "English" then Some(KeywordStyle(pr.q2kEn, "query:", "answer:"))
    else if lang == "Chinese" then Some(KeywordStyle(pr.q2kCn, "问：", "答："))
    else None
  }

  function QueryLine(st: KeywordStyle, c: Content): string {
    st.queryLabel + " " + c.query + "\n"
  }

  function AnswerLine(st: KeywordStyle, c: Content): string {
    st.answerLabel + " " + c.answer + "\n"
  }

  /** The lines that turns `0 .. m-1` contribute to the prompt of turn `i`:
      each turn its query, and its answer only when it comes before turn `i`. */
  function TurnLines(st: KeywordStyle, contents: seq<Content>, i: nat, m: nat): string
    requires m <= |contents|
  {
    if m == 0 then "" else TurnLines(st, contents, i, m - 1) + TurnLine(st, contents[m - 1], m - 1 < i)
  }

  /** What one turn adds: its query, and its answer when `answered`. */
  function TurnLine(st: KeywordStyle, c: Content, answered: bool): string {
    QueryLine(st, c) + (if answered then AnswerLine(st, c) else "")
  }

  /** The prompt for turn `i`: the prefix, then turns `0 .. i`. */
  function KeywordPrompt(st: KeywordStyle, contents: seq<Content>, i: nat): string
    requires i < |contents|
  {
    st.prefix + TurnLines(st, contents, i, i + 1)
  }

  /** The nested loops of `build_json` that extend `query_string`. */
  method BuildKeywordPrompt(st: KeywordStyle, contents: seq<Content>, i: nat) returns (qs: string)
    requires i < |contents|
    ensures qs == KeywordPrompt(st, contents, i)
  {
    qs := st.prefix;
    var j := 0;
    while j < i + 1
      invariant 0 <= j <= i + 1
      invariant qs == st.prefix + TurnLines(st, contents, i, j)
    {
      ghost var before := TurnLines(st, contents, i, j);
      var line := QueryLine(st, contents[j]);
      if j < i {
        line := line + AnswerLine(st, contents[j]);
      }
      assert line == TurnLine(st, contents[j], j < i);
      AppendAssoc(st.prefix, before, line);
      qs := qs + line;
      j := j + 1;
    }
  }

  lemma {:induction false} TurnLinesShift(st: KeywordStyle, contents: seq<Content>, i: nat, m: nat)
    requires m <= i < |contents|
    ensures TurnLines(st, contents, i + 1, m) == TurnLines(st, contents, i, m)
    decreases m
  {
    if m > 0 {
      TurnLinesShift(st, contents, i, m - 1);
    }
  }

  /** The first prompt holds the first query only; each later prompt is the
      previous one plus the previous answer and the next query. */
  lemma KeywordPromptStep(st: KeywordStyle, contents: seq<Content>, i: nat)
    requires i + 1 < |contents|
    ensures KeywordPrompt(st, contents, 0) == st.prefix + QueryLine(st, contents[0])
    ensures KeywordPrompt(st, contents, i + 1)
            == KeywordPrompt(st, contents, i) + AnswerLine(st, contents[i]) + QueryLine(st, contents[i + 1])
  {
    var q0, q, a, q' := QueryLine(st, contents[0]), QueryLine(st, contents[i]), AnswerLine(st, contents[i]),
                        QueryLine(st, contents[i + 1]);
    assert TurnLine(st, contents[0], false) == q0 + "" == q0;
    assert TurnLines(st, contents, 0, 1) == "" + q0 == q0;
    TurnLinesShift(st, contents, i, i);
    var t := TurnLines(st, contents, i, i);
    assert TurnLine(st, contents[i], false) == q + "" == q;
    assert TurnLines(st, contents, i, i + 1) == t + q;
    assert TurnLines(st, contents, i + 1, i + 1) == t + (q + a);
    assert TurnLine(st, contents[i + 1], false) == q' + "" == q';
    assert TurnLines(st, contents, i + 1, i + 2) == t + (q + a) + q';
  }

  /** A prompt depends only on the turns up to its own. */
  lemma {:induction false} KeywordPromptPrefix(st: KeywordStyle, a: seq<Content>, b: seq<Content>, i: nat)
    requires i < |a| && i < |b| && a[..i + 1] == b[..i + 1]
    ensures KeywordPrompt(st, a, i) == KeywordPrompt(st, b, i)
  {
    TurnLinesPrefix(st, a, b, i, i + 1);
  }

  lemma {:induction false} TurnLinesPrefix(st: KeywordStyle, a: seq<Content>, b: seq<Content>, i: nat, m: nat)
    requires m <= |a| && m <= |b| && a[..m] == b[..m]
    ensures TurnLines(st, a, i, m) == TurnLines(st, b, i, m)
    decreases m
  {
    if m > 0 {
      assert a[m - 1] == a[..m][m - 1] == b[..m][m - 1] == b[m - 1];
      assert a[..m - 1] == a[..m][..m - 1] && b[..m - 1] == b[..m][..m - 1];
      TurnLinesPrefix(st, a, b, i, m - 1);
    }
  }

  // ---------------------------------------------------------------------------
  // References of one turn

  /** `gen_summ`: the summarization prompt handed to `llm_answer`. */
  function SummaryPrompt(pr: Prompts, question: string, title: string, text: string, lang: string): string {
    if lang == "Chinese" then
      pr.summCn + "问题: " + question + "\n标题: " + title + "\n正文: " + text + "\n摘要: "
    else
      pr.summEn + "Question: " + question + "\nTitle: " + title + "\nText: " + text + "\nSummary: "
  }

  /** The document type from the lower-cased URL's suffix. */
  function TypeOf(link: string): RefType {
    var url := Lower(link);
    if EndsWith(url, "pdf") then PDF
    else if EndsWith(url, "txt") then Text
    else if EndsWith(url, "md") then Markdown
    else WebPage
  }

  /** `EndsWith` a suffix of at most three characters looks at the last
      three characters only. */
  lemma EndsWithLastThree(u: string, v: string, suf: string)
    requires |u| >= 3 && |v| >= 3 && |suf| <= 3 && u[|u| - 3..] == v[|v| - 3..]
    ensures EndsWith(u, suf) <==> EndsWith(v, suf)
  {
    EndsWithSlice(u, suf);
    EndsWithSlice(v, suf);
    assert u[|u| - |suf|..] == u[|u| - 3..][3 - |suf|..];
    assert v[|v| - |suf|..] == v[|v| - 3..][3 - |suf|..];
  }

  /** The type depends on the last three characters of the link only, and
      not on their case. */
  lemma TypeOfLastThree(a: string, b: string)
    requires |a| >= 3 && |b| >= 3 && Lower(a[|a| - 3..]) == Lower(b[|b| - 3..])
    ensures TypeOf(a) == TypeOf(b)
  {
    LowerAppend(a[..|a| - 3], a[|a| - 3..]);
    LowerAppend(b[..|b| - 3], b[|b| - 3..]);
    assert a == a[..|a| - 3] + a[|a| - 3..];
    assert b == b[..|b| - 3] + b[|b| - 3..];
    var u, v := Lower(a), Lower(b);
    assert u[|u| - 3..] == v[|v| - 3..];
    EndsWithLastThree(u, v, "pdf");
    EndsWithLastThree(u, v, "txt");
    EndsWithLastThree(u, v, "md");
  }

  /** The type ignores the case of the URL. */
  lemma TypeOfIgnoresCase(link: string)
    ensures TypeOf(Lower(link)) == TypeOf(link)
  {
    LowerIdempotent(link);
  }

  /** PDF links go to the PDF fetcher, all others to the page fetcher. */
  function Fetch(svc: Services, link: string): Option<string> {
    if TypeOf(link) == PDF then svc.fetchPdf(link) else svc.fetchPage(link)
  }

  /** A summary as stored: `null` when the summarizer raised. */
  function FieldOf(summ: Option<string>): (f: SummaryField)
    ensures f.NullSummary? <==> summ.None?
    ensures summ.Some? ==> f == Summary(summ.value)
  {
    if summ.None? then NullSummary else Summary(summ.value)
  }

  /** The loop state of `supplement_ref`: `count`, the last value of `summ`
      (unbound at first) and the references so far. */
  datatype RefState = RefState(count: int, lastSumm: Option<string>, refs: seq<Reference>)

  /** The random `ref_id` drawn for item `k`. */
  function CodeAt(codes: seq<string>, k: nat): string {
    if k < |codes| then codes[k] else ""
  }

  /** One iteration for item `items[k]`: skipped when fetching fails, otherwise
      kept with an LLM summary while fewer than 10 summaries were counted and
      with `""` afterwards. The summary test reads the current `summ`, which,
      once the budget is used, is the last LLM answer and not `None`. */
  function RefStep(s: RefState, item: Organic, k: nat, code: string, query: string, lang: string,
                   svc: Services): RefState
  {
    match Fetch(svc, item.link)
    case None => s
    case Some(body) =>
      var summ := if s.count < 10 then svc.llm(SummaryPrompt(svc.prompts, query, item.title, body, lang)) else s.lastSumm;
      var field := if s.count < 10 then FieldOf(summ) else Summary("");
      var ref := Reference(code, k, item.position, item.title, item.snippet, item.link, TypeOf(item.link),
                           body, field);
      RefState(if summ.Some? then s.count + 1 else s.count, summ, s.refs + [ref])
  }

  /** The loop state after items `0 .. k-1`. */
  function RefsUpTo(items: seq<Organic>, codes: seq<string>, k: nat, query: string, lang: string,
                    svc: Services): RefState
    requires k <= |items|
  {
    if k == 0 then RefState(0, None, [])
    else RefStep(RefsUpTo(items, codes, k - 1, query, lang, svc), items[k - 1], k - 1, CodeAt(codes, k - 1),
                 query, lang, svc)
  }

  /** A search result `supplement_ref` can work with: it reports a total, and
      lists its organic results unless the total is 0. */
  predicate Usable(sr: SearchResult) {
    sr.totalResults.Some? && (sr.totalResults.value == 0 || sr.organic.Some?)
  }

  /** `supplement_ref(serpapi_json, content, lang)`. Whether it raises depends
      on the search result alone. */
  function SupplementSpec(sr: SearchResult, content: Content, lang: string, svc: Services,
                          codes: seq<string>): (r: Result<Content>)
    ensures r.Ok? <==> Usable(sr)
    ensures sr.totalResults == Some(0) ==> r == Ok(content)
    ensures r.Ok? ==> r.value.query == content.query && r.value.answer == content.answer
                      && r.value.answers == content.answers
  {
    match sr.totalResults
    case None => Err("KeyError: search_information")
    case Some(total) =>
      if total == 0 then Ok(content)
      else
        match sr.organic
        case None => Err("KeyError: organic_results")
        case Some(items) =>
          Ok(content.(references := Some(RefsUpTo(items, codes, |items|, content.query, lang, svc).refs)))
  }

  lemma {:induction false} RefsUpToCodes(items: seq<Organic>, codes: seq<string>, more: seq<string>, k: nat,
                                         query: string, lang: string, svc: Services)
    requires k <= |items| && k <= |codes|
    ensures RefsUpTo(items, codes + more, k, query, lang, svc) == RefsUpTo(items, codes, k, query, lang, svc)
    decreases k
  {
    if k > 0 {
      RefsUpToCodes(items, codes, more, k - 1, query, lang, svc);
      assert CodeAt(codes + more, k - 1) == CodeAt(codes, k - 1);
    }
  }

  /** The type test and the fetch of one search result. */
  method FetchItem(link: string, svc: Services) returns (refType: RefType, c: Option<string>)
    ensures refType == TypeOf(link) && c == Fetch(svc, link)
  {
    var url := Lower(link);
    if EndsWith(url, "pdf") {
      refType := PDF;
      c := svc.fetchPdf(link);
    } else if EndsWith(url, "txt") {
      refType := Text;
      c := svc.fetchPage(link);
    } else if EndsWith(url, "md") {
      refType := Markdown;
      c := svc.fetchPage(link);
    } else {
      refType := WebPage;
      c := svc.fetchPage(link);
    }
  }

  /** The loop of `supplement_ref`, one random `ref_id` per search result. */
  method SupplementRef(sr: SearchResult, content: Content, lang: string, svc: Services)
    returns (r: Result<Content>, ghost codes: seq<string>)
    ensures r == SupplementSpec(sr, content, lang, svc, codes)
    ensures forall k :: 0 <= k < |codes| ==> IsCode(codes[k])
  {
    codes := [];
    if sr.totalResults.None? {
      return Err("KeyError: search_information"), codes;
    }
    if sr.totalResults.value == 0 {
      return Ok(content), codes;
    }
    if sr.organic.None? {
      return Err("KeyError: organic_results"), codes;
    }
    var items := sr.organic.value;
    var count := 0;
    var summ: Option<string> := None;
    var references: seq<Reference> := [];
    var index := 0;
    while index < |items|
      invariant 0 <= index <= |items| && |codes| == index
      invariant forall k :: 0 <= k < |codes| ==> IsCode(codes[k])
      invariant RefState(count, summ, references) == RefsUpTo(items, codes, index, content.query, lang, svc)
    {
      var item := items[index];
      var refId := NewCode();
      RefsUpToCodes(items, codes, [refId], index, content.query, lang, svc);
      codes := codes + [refId];
      RefsUpToUnfold(items, codes, index + 1, content.query, lang, svc);
      count, summ, references := KeepItem(item, index, refId, content.query, lang, svc, count, summ, references);
      index := index + 1;
    }
    r := Ok(content.(references := Some(references)));
  }

  /** One iteration of the loop of `supplement_ref`: the fetch, the summary while
      the budget lasts, and the appended reference. */
  method KeepItem(item: Organic, index: nat, refId: string, query: string, lang: string, svc: Services,
                  count: nat, summ: Option<string>, references: seq<Reference>)
    returns (count': nat, summ': Option<string>, references': seq<Reference>)
    ensures RefState(count', summ', references')
            == RefStep(RefState(count, summ, references), item, index, refId, query, lang, svc)
  {
    count', summ', references' := count, summ, references;
    var refType, c := FetchItem(item.link, svc);
    if c.Some? {
      var field: SummaryField;
      if count' < 10 {
        summ' := svc.llm(SummaryPrompt(svc.prompts, query, item.title, c.value, lang));
        field := FieldOf(summ');
      } else {
        field := Summary("");
      }
      if summ'.Some? {
        count' := count' + 1;
      }
      references' := references' + [Reference(refId, index, item.position, item.title, item.snippet,
                                               item.link, refType, c.value, field)];
    }
  }

  // ---------------------------------------------------------------------------
  // Properties of the reference list

  /** The positions `j < k` whose document could be fetched, in order. */
  function KeptIndices(items: seq<Organic>, svc: Services, k: nat): (ks: seq<nat>)
    requires k <= |items|
    ensures |ks| <= k
    decreases k
  {
    if k == 0 then []
    else KeptIndices(items, svc, k - 1) + (if Fetch(svc, items[k - 1].link).Some? then [k - 1] else [])
  }

  /** `KeptIndices` lists, in increasing order, exactly the positions below `k`
      whose document could be fetched. */
  lemma KeptIndicesFacts(items: seq<Organic>, svc: Services, k: nat)
    requires k <= |items|
    ensures var ks := KeptIndices(items, svc, k);
            && (forall a :: 0 <= a < |ks| ==> ks[a] < k)
            && (forall a, b :: 0 <= a < b < |ks| ==> ks[a] < ks[b])
            && (forall j :: 0 <= j < k ==> (j in ks <==> Fetch(svc, items[j].link).Some?))
  {
    KeptBelow(items, svc, k);
    KeptSorted(items, svc, k);
    KeptExactly(items, svc, k);
  }

  lemma {:induction false} KeptBelow(items: seq<Organic>, svc: Services, k: nat)
    requires k <= |items|
    ensures forall a :: 0 <= a < |KeptIndices(items, svc, k)| ==> KeptIndices(items, svc, k)[a] < k
    decreases k
  {
    if k > 0 {
      KeptBelow(items, svc, k - 1);
      var p := KeptIndices(items, svc, k - 1);
      var ks := KeptIndices(items, svc, k);
      assert ks == p + (if Fetch(svc, items[k - 1].link).Some? then [k - 1] else []);
      forall a | 0 <= a < |ks| ensures ks[a] < k {
        if a < |p| {
          assert ks[a] == p[a];
        }
      }
    }
  }

  lemma {:induction false} KeptSorted(items: seq<Organic>, svc: Services, k: nat)
    requires k <= |items|
    ensures forall a, b :: 0 <= a < b < |KeptIndices(items, svc, k)| ==>
              KeptIndices(items, svc, k)[a] < KeptIndices(items, svc, k)[b]
    decreases k
  {
    if k > 0 {
      KeptSorted(items, svc, k - 1);
      KeptBelow(items, svc, k - 1);
      var p := KeptIndices(items, svc, k - 1);
      var ks := KeptIndices(items, svc, k);
      if Fetch(svc, items[k - 1].link).Some? {
        assert ks == p + [k - 1];
        forall a, b | 0 <= a < b < |ks| ensures ks[a] < ks[b] {
          assert a < |p| && ks[a] == p[a];
          if b < |p| {
            assert ks[b] == p[b];
          } else {
            assert ks[b] == k - 1 && p[a] < k - 1;
          }
        }
      } else {
        assert ks == p + [] == p;
      }
    }
  }

  lemma {:induction false} KeptExactly(items: seq<Organic>, svc: Services, k: nat)
    requires k <= |items|
    ensures forall j :: 0 <= j < k ==> (j in KeptIndices(items, svc, k) <==> Fetch(svc, items[j].link).Some?)
    decreases k
  {
    if k > 0 {
      KeptExactly(items, svc, k - 1);
      KeptBelow(items, svc, k - 1);
      var p := KeptIndices(items, svc, k - 1);
      var ks := KeptIndices(items, svc, k);
      var fetched := Fetch(svc, items[k - 1].link).Some?;
      assert ks == p + (if fetched then [k - 1] else []);
      assert k - 1 !in p;
      forall j | 0 <= j < k ensures j in ks <==> Fetch(svc, items[j].link).Some? {
        assert j in ks <==> j in p || (fetched && j == k - 1);
      }
    }
  }

  /** `ref` is item `item` with id `code`: the fields copied from the search
      result, the type from its URL and the fetched text as main body. */
  predicate FromItem(ref: Reference, item: Organic, code: string, svc: Services) {
    ref.refId == code && ref.position == item.position && ref.title == item.title
    && ref.snippet == item.snippet && ref.url == item.link && ref.refType == TypeOf(item.link)
    && Fetch(svc, item.link) == Some(ref.mainBody)
  }

  /** Reference `m` is item `ks[m]`, for every `m`. */
  predicate MatchesItems(refs: seq<Reference>, ks: seq<nat>, items: seq<Organic>, codes: seq<string>,
                         svc: Services)
  {
    |refs| == |ks| &&
    forall m :: 0 <= m < |refs| ==>
      ks[m] < |items| && refs[m].idx == ks[m] && FromItem(refs[m], items[ks[m]], CodeAt(codes, ks[m]), svc)
  }

  lemma MatchesItemsAppend(refs: seq<Reference>, ks: seq<nat>, items: seq<Organic>, codes: seq<string>,
                           svc: Services, ref: Reference, j: nat)
    requires MatchesItems(refs, ks, items, codes, svc)
    requires j < |items| && ref.idx == j && FromItem(ref, items[j], CodeAt(codes, j), svc)
    ensures MatchesItems(refs + [ref], ks + [j], items, codes, svc)
  {
    var r', k' := refs + [ref], ks + [j];
    forall m | 0 <= m < |r'|
      ensures k'[m] < |items| && r'[m].idx == k'[m] && FromItem(r'[m], items[k'[m]], CodeAt(codes, k'[m]), svc)
    {
      if m < |refs| {
        assert r'[m] == refs[m] && k'[m] == ks[m];
      }
    }
  }

  /** The kept references are exactly the fetched items, in their original order,
      with `idx` their position in `organic_results`. */
  lemma {:induction false} RefsAreFetchedItems(items: seq<Organic>, codes: seq<string>, k: nat,
                                               query: string, lang: string, svc: Services)
    requires k <= |items|
    ensures MatchesItems(RefsUpTo(items, codes, k, query, lang, svc).refs, KeptIndices(items, svc, k),
                         items, codes, svc)
    decreases k
  {
    if k > 0 {
      RefsAreFetchedItems(items, codes, k - 1, query, lang, svc);
      RefsUpToUnfold(items, codes, k, query, lang, svc);
      MatchStep(RefsUpTo(items, codes, k - 1, query, lang, svc), KeptIndices(items, svc, k - 1), items, codes,
                k - 1, query, lang, svc);
    }
  }

  /** One iteration keeps the references matched with the kept positions. */
  lemma MatchStep(s: RefState, ks: seq<nat>, items: seq<Organic>, codes: seq<string>, j: nat,
                  query: string, lang: string, svc: Services)
    requires j < |items| && MatchesItems(s.refs, ks, items, codes, svc)
    ensures MatchesItems(RefStep(s, items[j], j, CodeAt(codes, j), query, lang, svc).refs,
                         ks + (if Fetch(svc, items[j].link).Some? then [j] else []), items, codes, svc)
  {
    var t := RefStep(s, items[j], j, CodeAt(codes, j), query, lang, svc);
    RefStepFacts(s, items[j], j, CodeAt(codes, j), query, lang, svc);
    if Fetch(svc, items[j].link).Some? {
      var n := |s.refs|;
      assert t.refs == s.refs + [t.refs[n]];
      MatchesItemsAppend(s.refs, ks, items, codes, svc, t.refs[n], j);
    } else {
      assert ks + [] == ks;
    }
  }

  /** One iteration keeps the references so far and appends at most the current item. */
  lemma RefStepFacts(s: RefState, item: Organic, k: nat, code: string, query: string, lang: string,
                     svc: Services)
    ensures var t := RefStep(s, item, k, code, query, lang, svc);
            if Fetch(svc, item.link).None? then t == s
            else |t.refs| == |s.refs| + 1 && t.refs[..|s.refs|] == s.refs
                 && t.refs[|s.refs|].idx == k && FromItem(t.refs[|s.refs|], item, code, svc)
  {
  }

  /** How many references carry a non-`null` summary. */
  function NonNull(refs: seq<Reference>): (n: nat)
    ensures n <= |refs|
  {
    if |refs| == 0 then 0
    else NonNull(refs[..|refs| - 1]) + (if refs[|refs| - 1].summary.NullSummary? then 0 else 1)
  }

  /** The summary reference `m` must carry: the LLM's answer while fewer than 10
      earlier references carry a non-`null` summary, `""` afterwards. */
  function BudgetRule(refs: seq<Reference>, m: nat, query: string, lang: string, svc: Services): SummaryField
    requires m < |refs|
  {
    if NonNull(refs[..m]) < 10 then FieldOf(svc.llm(SummaryPrompt(svc.prompts, query, refs[m].title, refs[m].mainBody, lang)))
    else Summary("")
  }

  ghost predicate Budgeted(s: RefState, query: string, lang: string, svc: Services) {
    && s.count == NonNull(s.refs)
    && (s.count >= 10 ==> s.lastSumm.Some?)
    && forall m :: 0 <= m < |s.refs| ==> s.refs[m].summary == BudgetRule(s.refs, m, query, lang, svc)
  }

  lemma RefsUpToUnfold(items: seq<Organic>, codes: seq<string>, k: nat, query: string, lang: string, svc: Services)
    requires 0 < k <= |items|
    ensures RefsUpTo(items, codes, k, query, lang, svc)
            == RefStep(RefsUpTo(items, codes, k - 1, query, lang, svc), items[k - 1], k - 1, CodeAt(codes, k - 1),
                       query, lang, svc)
  {
  }

  /** `count` is the number of kept references with a non-`null` summary, and
      every reference's summary follows the budget of 10. */
  lemma {:induction false} SummaryBudget(items: seq<Organic>, codes: seq<string>, k: nat, query: string,
                                         lang: string, svc: Services)
    requires k <= |items|
    ensures Budgeted(RefsUpTo(items, codes, k, query, lang, svc), query, lang, svc)
    decreases k
  {
    if k > 0 {
      SummaryBudget(items, codes, k - 1, query, lang, svc);
      RefsUpToUnfold(items, codes, k, query, lang, svc);
      BudgetStep(RefsUpTo(items, codes, k - 1, query, lang, svc), items[k - 1], k - 1, CodeAt(codes, k - 1),
                 query, lang, svc);
    }
  }

  lemma BudgetStep(s: RefState, item: Organic, k: nat, code: string, query: string, lang: string, svc: Services)
    requires Budgeted(s, query, lang, svc)
    ensures Budgeted(RefStep(s, item, k, code, query, lang, svc), query, lang, svc)
  {
    if Fetch(svc, item.link).Some? {
      BudgetKeep(s, item, k, code, query, lang, svc);
    } else {
      assert RefStep(s, item, k, code, query, lang, svc) == s;
    }
  }

  lemma BudgetKeep(s: RefState, item: Organic, k: nat, code: string, query: string, lang: string, svc: Services)
    requires Fetch(svc, item.link).Some?
    requires Budgeted(s, query, lang, svc)
    ensures Budgeted(RefStep(s, item, k, code, query, lang, svc), query, lang, svc)
  {
    RefStepFacts(s, item, k, code, query, lang, svc);
    var t := RefStep(s, item, k, code, query, lang, svc);
    var n := |s.refs|;
    assert NonNull(t.refs) == NonNull(s.refs) + (if t.refs[n].summary.NullSummary? then 0 else 1);
    var body := Fetch(svc, item.link).value;
    if s.count < 10 {
      var summ := svc.llm(SummaryPrompt(svc.prompts, query, item.title, body, lang));
      assert t.lastSumm == summ && t.refs[n].summary == FieldOf(summ);
      assert t.refs[n].summary.NullSummary? <==> t.lastSumm.None?;
    } else {
      assert t.lastSumm == s.lastSumm && t.refs[n].summary == Summary("");
    }
    forall m | 0 <= m < |t.refs|
      ensures t.refs[m].summary == BudgetRule(t.refs, m, query, lang, svc)
    {
      if m < n {
        assert t.refs[..m] == s.refs[..m];
      }
    }
  }

  /** How many references got a non-`null` summary from the LLM. */
  function LlmSummaries(refs: seq<Reference>): nat {
    if |refs| == 0 then 0
    else
      var m := |refs| - 1;
      LlmSummaries(refs[..m]) + (if NonNull(refs[..m]) < 10 && !refs[m].summary.NullSummary? then 1 else 0)
  }

  /** At most 10 references are summarized by the LLM; once 10 summaries are
      counted, every later reference has the summary `""`. */
  lemma {:induction false} AtMostTenSummaries(refs: seq<Reference>, query: string, lang: string, svc: Services)
    requires forall m :: 0 <= m < |refs| ==> refs[m].summary == BudgetRule(refs, m, query, lang, svc)
    ensures LlmSummaries(refs) == Min(NonNull(refs), 10)
    ensures forall m :: 0 <= m < |refs| && NonNull(refs[..m]) >= 10 ==> refs[m].summary == Summary("")
    decreases |refs|
  {
    if |refs| > 0 {
      var m := |refs| - 1;
      var front := refs[..m];
      forall j | 0 <= j < |front| ensures front[j].summary == BudgetRule(front, j, query, lang, svc) {
        assert front[..j] == refs[..j];
      }
      AtMostTenSummaries(front, query, lang, svc);
    }
  }

  function Min(a: int, b: int): int {
    if a < b then a else b
  }
}

/** The per-record driver of the enrichment stage (`build_json`) and its main
    loop: keyword and search results are cached as files in `temp`, the
    enriched record is appended to `temp/<hash>.json`, and all files are then
    committed to `data`. A record whose file already sits in `data` is skipped. */
module BuildJson {
  import opened Common
  import opened Records
  import opened Staging
  import opened BuildRef

  // ---------------------------------------------------------------------------
  // Files

  function KeywordFile(hash: string): string { hash + "_keyword.data" }

  function SearchFile(hash: string): string { hash + "_search.data" }

  function RecordFile(hash: string): string { hash + ".json" }

  /** The three files of one record have different names, and files of
      different records never share a name. */
  lemma FileNamesDistinct(h: string, h': string)
    ensures KeywordFile(h) != SearchFile(h') && KeywordFile(h) != RecordFile(h')
            && SearchFile(h) != RecordFile(h')
    ensures h != h' ==> KeywordFile(h) != KeywordFile(h') && SearchFile(h) != SearchFile(h')
                        && RecordFile(h) != RecordFile(h')
  {
    var k, s, r := KeywordFile(h), SearchFile(h'), RecordFile(h');
    assert k[|k| - 1] == 'a' && r[|r| - 1] == 'n' && s[|s| - 1] == 'a';
    assert k[|k| - 12] == "_keyword.data"[1] && s[|s| - 12] == "_search.data"[0];
    if KeywordFile(h) == KeywordFile(h') { SuffixCancel(h, h', "_keyword.data"); }
    if SearchFile(h) == SearchFile(h') { SuffixCancel(h, h', "_search.data"); }
    if RecordFile(h) == RecordFile(h') { SuffixCancel(h, h', ".json"); }
  }

  lemma SuffixCancel(a: string, b: string, suf: string)
    requires a + suf == b + suf
    ensures a == b
  {
    assert |a| == |b|;
    assert a == (a + suf)[..|a|] && b == (b + suf)[..|b|];
  }

  /** `save_json_file(doc, name, ..., mode)`: a missing file is created; with
      mode `'w'` the file then holds `doc` alone, with `'a'` `doc` is appended.
      A directory of that name makes the write fail, and the error is only
      logged. */
  function SaveDoc(d: Dir, name: string, doc: Doc, overwrite: bool): (r: Dir)
    ensures forall n :: n != name ==> (n in r <==> n in d) && (n in d ==> r[n] == d[n])
    ensures IsDir(d, name) <==> IsDir(r, name)
    ensures name in r
  {
    if IsDir(d, name) then d
    else if overwrite || name !in d then d[name := File([doc])]
    else d[name := File(d[name].content + [doc])]
  }

  /** `json.load` of a search result file: a directory cannot be opened, and
      anything but one saved search result does not decode to one. */
  function ReadSearch(d: Dir, name: string): (r: Result<SearchResult>)
    requires name in d
  {
    match d[name]
    case Dir => Err("IsADirectoryError")
    case File(docs) =>
      if |docs| == 1 && docs[0].SearchDoc? then Ok(docs[0].result) else Err("JSONDecodeError")
  }

  /** A search result written with mode `'w'` reads back as itself. */
  lemma ReadAfterSave(d: Dir, name: string, sr: SearchResult)
    requires !IsDir(d, name)
    ensures ReadSearch(SaveDoc(d, name, SearchDoc(sr), true), name) == Ok(sr)
  {
  }

  /** Reading succeeds exactly on a file holding one saved search result. */
  lemma ReadSearchOk(d: Dir, name: string)
    requires name in d
    ensures ReadSearch(d, name).Ok? <==> exists sr :: d[name] == File([SearchDoc(sr)])
    ensures ReadSearch(d, name).Ok? ==> d[name] == File([SearchDoc(ReadSearch(d, name).value)])
  {
    if ReadSearch(d, name).Ok? {
      var docs := d[name].content;
      assert docs == [docs[0]];
    }
  }

  /** `temp` changed at most in the keyword and search files of record `hash`,
      and keeps its directories. */
  ghost predicate TempFrame(t0: Dir, t: Dir, hash: string) {
    && (forall n :: n != KeywordFile(hash) && n != SearchFile(hash) ==>
          (n in t <==> n in t0) && (n in t0 ==> t[n] == t0[n]))
    && (forall n :: IsDir(t, n) <==> IsDir(t0, n))
  }

  // ---------------------------------------------------------------------------
  // build_json

  /** The state of the turn loop of `build_json`: the `temp` directory, how many
      times the search engine was called, and the new contents so far or the
      exception the loop stopped with. */
  datatype TurnState = TurnState(temp: Dir, searches: nat, out: Result<seq<Content>>)

  /** The `ref_id`s drawn for turn `i`. */
  function CodesAt(codes: seq<seq<string>>, i: nat): seq<string> {
    if i < |codes| then codes[i] else []
  }

  /** The search result turn `i` works with: read from the cache file when it
      exists, otherwise obtained from the search engine and written to it. */
  function TurnStep(s: TurnState, hash: string, st: KeywordStyle, contents: seq<Content>, i: nat,
                    lang: string, svc: Services, codes: seq<string>): TurnState
    requires i < |contents|
  {
    if s.out.Err? then s
    else
      var kw := svc.llm(KeywordPrompt(st, contents, i));
      var t1 := SaveDoc(s.temp, KeywordFile(hash), KeywordDoc(kw), true);
      var sf := SearchFile(hash);
      if sf in t1 then
        match ReadSearch(t1, sf)
        case Err(e) => TurnState(t1, s.searches, Err(e))
        case Ok(sr) => TurnState(t1, s.searches, Extend(s.out.value, SupplementSpec(sr, contents[i], lang, svc, codes)))
      else
        var sr := svc.search(kw, lang);
        var t2 := SaveDoc(t1, sf, SearchDoc(sr), true);
        TurnState(t2, s.searches + 1, Extend(s.out.value, SupplementSpec(sr, contents[i], lang, svc, codes)))
  }

  function Extend(out: seq<Content>, c: Result<Content>): Result<seq<Content>> {
    match c
    case Err(e) => Err(e)
    case Ok(v) => Ok(out + [v])
  }

  /** The state after turns `0 .. k-1`. */
  function TurnsUpTo(temp: Dir, hash: string, st: KeywordStyle, contents: seq<Content>, k: nat, lang: string,
                     svc: Services, codes: seq<seq<string>>): TurnState
    requires k <= |contents|
    decreases k, 0
  {
    if k == 0 then TurnState(temp, 0, Ok([]))
    else TurnAt(temp, hash, st, contents, k - 1, lang, svc, codes)
  }

  /** The state after turn `j`. */
  function TurnAt(temp: Dir, hash: string, st: KeywordStyle, contents: seq<Content>, j: nat, lang: string,
                  svc: Services, codes: seq<seq<string>>): TurnState
    requires j < |contents|
    decreases j, 2
  {
    TurnNext(temp, hash, st, contents, j, lang, svc, codes)
  }

  function TurnNext(temp: Dir, hash: string, st: KeywordStyle, contents: seq<Content>, j: nat, lang: string,
                    svc: Services, codes: seq<seq<string>>): TurnState
    requires j < |contents|
    decreases j, 1
  {
    TurnStep(TurnsUpTo(temp, hash, st, contents, j, lang, svc, codes), hash, st, contents, j, lang, svc, CodesAt(codes, j))
  }

  /** What `build_json` returns and leaves in `temp`, and how many searches it made. */
  datatype Built = Built(result: Result<Record>, temp: Dir, searches: nat)

  /** `build_json(json_data)`. A record without `conversations` raises
      `KeyError`; a record with turns in a language other than English and
      Chinese raises `UnboundLocalError` on the unset prompt variables. */
  function BuildJsonSpec(temp: Dir, rec: Record, svc: Services, codes: seq<seq<string>>): (b: Built)
    ensures rec.conversations.None? ==> b.result.Err? && b.temp == temp
    ensures b.result.Ok? ==> b.result.value.id == rec.id && b.result.value.hash == rec.hash
  {
    match rec.conversations
    case None => Built(Err("KeyError: conversations"), temp, 0)
    case Some(conv) =>
      if |conv.contents| == 0 then Built(Ok(rec), temp, 0)
      else
        match StyleOf(svc.prompts, conv.lang)
        case None => Built(Err("UnboundLocalError"), temp, 0)
        case Some(st) =>
          var s := TurnsUpTo(temp, rec.hash, st, conv.contents, |conv.contents|, conv.lang, svc, codes);
          match s.out
          case Err(e) => Built(Err(e), s.temp, s.searches)
          case Ok(cs) => Built(Ok(rec.(conversations := Some(conv.(contents := cs)))), s.temp, s.searches)
  }

  // ---------------------------------------------------------------------------
  // Properties of build_json

  /** Once a turn raised, the later turns change nothing. */
  lemma {:induction false} TurnsErrStays(temp: Dir, hash: string, st: KeywordStyle, contents: seq<Content>,
                                         k: nat, m: nat, lang: string, svc: Services, codes: seq<seq<string>>)
    requires k <= m <= |contents|
    requires TurnsUpTo(temp, hash, st, contents, k, lang, svc, codes).out.Err?
    ensures TurnsUpTo(temp, hash, st, contents, m, lang, svc, codes)
            == TurnsUpTo(temp, hash, st, contents, k, lang, svc, codes)
    decreases m
  {
    if m > k {
      TurnsErrStays(temp, hash, st, contents, k, m - 1, lang, svc, codes);
      TurnsUpToUnfold(temp, hash, st, contents, m, lang, svc, codes);
    }
  }

  /** The ids drawn for later turns do not affect the earlier ones. */
  lemma {:induction false} TurnsUpToCodes(temp: Dir, hash: string, st: KeywordStyle, contents: seq<Content>,
                                          k: nat, lang: string, svc: Services, codes: seq<seq<string>>,
                                          more: seq<seq<string>>)
    requires k <= |contents| && k <= |codes|
    ensures TurnsUpTo(temp, hash, st, contents, k, lang, svc, codes + more)
            == TurnsUpTo(temp, hash, st, contents, k, lang, svc, codes)
    decreases k
  {
    if k > 0 {
      TurnsUpToCodes(temp, hash, st, contents, k - 1, lang, svc, codes, more);
      assert CodesAt(codes + more, k - 1) == CodesAt(codes, k - 1);
      TurnsUpToUnfold(temp, hash, st, contents, k, lang, svc, codes);
      TurnsUpToUnfold(temp, hash, st, contents, k, lang, svc, codes + more);
    }
  }

  /** The search result the first turn works with. */
  function FirstSearch(temp: Dir, hash: string, st: KeywordStyle, contents: seq<Content>, lang: string,
                       svc: Services): Result<SearchResult>
    requires 0 < |contents|
  {
    if SearchFile(hash) in temp then
      ReadSearch(SaveDoc(temp, KeywordFile(hash), KeywordDoc(svc.llm(KeywordPrompt(st, contents, 0))), true),
                 SearchFile(hash))
    else Ok(svc.search(svc.llm(KeywordPrompt(st, contents, 0)), lang))
  }

  /** Every turn is enriched from the same search result, the first one: the
      search engine is called at most once per record and not at all when a
      search result was cached, and the loop succeeds exactly when that result
      is readable and usable. Files other than
      the record's keyword and search files are left alone. */
  ghost predicate SearchedOnce(temp: Dir, hash: string, st: KeywordStyle, contents: seq<Content>, k: nat,
                               lang: string, svc: Services, codes: seq<seq<string>>, s: TurnState)
    requires 0 < k <= |contents|
  {
    var first := FirstSearch(temp, hash, st, contents, lang, svc);
    && s.searches == (if SearchFile(hash) in temp then 0 else 1)
    && (forall n :: n != KeywordFile(hash) && n != SearchFile(hash) ==>
          (n in s.temp <==> n in temp) && (n in temp ==> s.temp[n] == temp[n]))
    && (s.out.Ok? <==> first.Ok? && Usable(first.value))
    && (s.out.Ok? ==>
          && SearchFile(hash) in s.temp
          && ReadSearch(s.temp, SearchFile(hash)) == first
          && |s.out.value| == k
          && forall i :: 0 <= i < k ==>
               s.out.value[i] == SupplementSpec(first.value, contents[i], lang, svc, CodesAt(codes, i)).value)
  }

  lemma {:induction false} SearchOnce(temp: Dir, hash: string, st: KeywordStyle, contents: seq<Content>, k: nat,
                                      lang: string, svc: Services, codes: seq<seq<string>>)
    requires 0 < k <= |contents|
    ensures SearchedOnce(temp, hash, st, contents, k, lang, svc, codes,
                         TurnsUpTo(temp, hash, st, contents, k, lang, svc, codes))
    decreases k
  {
    if k == 1 {
      TurnsUpToUnfold(temp, hash, st, contents, k, lang, svc, codes);
      assert TurnsUpTo(temp, hash, st, contents, 0, lang, svc, codes) == TurnState(temp, 0, Ok([]));
      FirstTurn(temp, hash, st, contents, lang, svc, codes);
    } else {
      SearchOnce(temp, hash, st, contents, k - 1, lang, svc, codes);
      NextTurn(temp, hash, st, contents, k, lang, svc, codes);
    }
  }

  lemma NextTurn(temp: Dir, hash: string, st: KeywordStyle, contents: seq<Content>, k: nat,
                 lang: string, svc: Services, codes: seq<seq<string>>)
    requires 1 < k <= |contents|
    requires SearchedOnce(temp, hash, st, contents, k - 1, lang, svc, codes,
                          TurnsUpTo(temp, hash, st, contents, k - 1, lang, svc, codes))
    ensures SearchedOnce(temp, hash, st, contents, k, lang, svc, codes,
                         TurnsUpTo(temp, hash, st, contents, k, lang, svc, codes))
  {
    TurnsUpToUnfold(temp, hash, st, contents, k, lang, svc, codes);
    LaterTurn(temp, hash, st, contents, k, lang, svc, codes, TurnsUpTo(temp, hash, st, contents, k - 1, lang, svc, codes));
  }

  lemma TurnsUpToUnfold(temp: Dir, hash: string, st: KeywordStyle, contents: seq<Content>, k: nat, lang: string,
                        svc: Services, codes: seq<seq<string>>)
    requires 0 < k <= |contents|
    ensures TurnsUpTo(temp, hash, st, contents, k, lang, svc, codes)
            == TurnStep(TurnsUpTo(temp, hash, st, contents, k - 1, lang, svc, codes), hash, st, contents, k - 1,
                        lang, svc, CodesAt(codes, k - 1))
  {
    assert TurnsUpTo(temp, hash, st, contents, k, lang, svc, codes) == TurnAt(temp, hash, st, contents, k - 1, lang, svc, codes);
  }

  lemma FirstTurn(temp: Dir, hash: string, st: KeywordStyle, contents: seq<Content>, lang: string,
                  svc: Services, codes: seq<seq<string>>)
    requires 0 < |contents|
    ensures SearchedOnce(temp, hash, st, contents, 1, lang, svc, codes,
                         TurnStep(TurnState(temp, 0, Ok([])), hash, st, contents, 0, lang, svc, CodesAt(codes, 0)))
  {
    FileNamesDistinct(hash, hash);
    var kw := svc.llm(KeywordPrompt(st, contents, 0));
    var t1 := SaveDoc(temp, KeywordFile(hash), KeywordDoc(kw), true);
    assert SearchFile(hash) in t1 <==> SearchFile(hash) in temp;
    if SearchFile(hash) !in temp {
      ReadAfterSave(t1, SearchFile(hash), svc.search(kw, lang));
    }
  }

  lemma LaterTurn(temp: Dir, hash: string, st: KeywordStyle, contents: seq<Content>, k: nat, lang: string,
                  svc: Services, codes: seq<seq<string>>, p: TurnState)
    requires 1 < k <= |contents|
    requires SearchedOnce(temp, hash, st, contents, k - 1, lang, svc, codes, p)
    ensures SearchedOnce(temp, hash, st, contents, k, lang, svc, codes,
                         TurnStep(p, hash, st, contents, k - 1, lang, svc, CodesAt(codes, k - 1)))
  {
    FileNamesDistinct(hash, hash);
    var first := FirstSearch(temp, hash, st, contents, lang, svc);
    var s := TurnStep(p, hash, st, contents, k - 1, lang, svc, CodesAt(codes, k - 1));
    if p.out.Ok? {
      var kw := svc.llm(KeywordPrompt(st, contents, k - 1));
      var t1 := SaveDoc(p.temp, KeywordFile(hash), KeywordDoc(kw), true);
      assert SearchFile(hash) in t1 && t1[SearchFile(hash)] == p.temp[SearchFile(hash)];
      assert ReadSearch(t1, SearchFile(hash)) == first;
      var c := SupplementSpec(first.value, contents[k - 1], lang, svc, CodesAt(codes, k - 1));
      assert s == TurnState(t1, p.searches, Extend(p.out.value, c));
      SearchedSnoc(temp, hash, st, contents, k, lang, svc, codes, p, t1);
    }
  }

  /** A later turn that found the saved search result again keeps the facts of
      `SearchedOnce`, with the turn enriched from that result appended. */
  lemma SearchedSnoc(temp: Dir, hash: string, st: KeywordStyle, contents: seq<Content>, k: nat, lang: string,
                     svc: Services, codes: seq<seq<string>>, p: TurnState, t1: Dir)
    requires 1 < k <= |contents|
    requires SearchedOnce(temp, hash, st, contents, k - 1, lang, svc, codes, p) && p.out.Ok?
    requires forall n :: n != KeywordFile(hash) && n != SearchFile(hash) ==>
               (n in t1 <==> n in p.temp) && (n in p.temp ==> t1[n] == p.temp[n])
    requires SearchFile(hash) in t1 && t1[SearchFile(hash)] == p.temp[SearchFile(hash)]
    ensures var first := FirstSearch(temp, hash, st, contents, lang, svc);
            SearchedOnce(temp, hash, st, contents, k, lang, svc, codes,
                         TurnState(t1, p.searches, Extend(p.out.value,
                           SupplementSpec(first.value, contents[k - 1], lang, svc, CodesAt(codes, k - 1)))))
  {
    var first := FirstSearch(temp, hash, st, contents, lang, svc);
    var c := SupplementSpec(first.value, contents[k - 1], lang, svc, CodesAt(codes, k - 1));
    var s := TurnState(t1, p.searches, Extend(p.out.value, c));
    assert ReadSearch(t1, SearchFile(hash)) == ReadSearch(p.temp, SearchFile(hash));
    if c.Ok? {
      forall i | 0 <= i < k
        ensures s.out.value[i] == SupplementSpec(first.value, contents[i], lang, svc, CodesAt(codes, i)).value
      {
        if i < k - 1 {
          assert s.out.value[i] == p.out.value[i];
        }
      }
    }
  }

  /** `build_json` enriches every turn from the first search result. */
  lemma BuildJsonSearchesOnce(temp: Dir, rec: Record, svc: Services, codes: seq<seq<string>>)
    requires rec.conversations.Some? && |rec.conversations.value.contents| > 0
    requires StyleOf(svc.prompts, rec.conversations.value.lang).Some?
    ensures var conv := rec.conversations.value;
            var b := BuildJsonSpec(temp, rec, svc, codes);
            var first := FirstSearch(temp, rec.hash, StyleOf(svc.prompts, conv.lang).value, conv.contents, conv.lang, svc);
            && b.searches == (if SearchFile(rec.hash) in temp then 0 else 1)
            && (b.result.Ok? <==> first.Ok? && Usable(first.value))
            && (b.result.Ok? ==>
                  var cs := b.result.value.conversations.value.contents;
                  && b.result.value == rec.(conversations := Some(conv.(contents := cs)))
                  && |cs| == |conv.contents|
                  && forall i :: 0 <= i < |cs| ==>
                       cs[i] == SupplementSpec(first.value, conv.contents[i], conv.lang, svc, CodesAt(codes, i)).value)
  {
    var conv := rec.conversations.value;
    SearchOnce(temp, rec.hash, StyleOf(svc.prompts, conv.lang).value, conv.contents, |conv.contents|, conv.lang, svc, codes);
  }

  /** The `temp` left by a successful loop holds the search result it used, so
      the loop run again from there with the same answers from the outside
      world makes no search and gives the same turns. */
  lemma TurnsRerun(temp: Dir, hash: string, st: KeywordStyle, contents: seq<Content>, lang: string,
                   svc: Services, codes: seq<seq<string>>)
    requires 0 < |contents|
    requires TurnsUpTo(temp, hash, st, contents, |contents|, lang, svc, codes).out.Ok?
    ensures var s := TurnsUpTo(temp, hash, st, contents, |contents|, lang, svc, codes);
            var s2 := TurnsUpTo(s.temp, hash, st, contents, |contents|, lang, svc, codes);
            s2.searches == 0 && s2.out == s.out
  {
    var n := |contents|;
    var s := TurnsUpTo(temp, hash, st, contents, n, lang, svc, codes);
    SearchOnce(temp, hash, st, contents, n, lang, svc, codes);
    SearchOnce(s.temp, hash, st, contents, n, lang, svc, codes);
    RerunFrom(temp, hash, st, contents, lang, svc, codes, s, TurnsUpTo(s.temp, hash, st, contents, n, lang, svc, codes));
  }

  lemma RerunFrom(temp: Dir, hash: string, st: KeywordStyle, contents: seq<Content>, lang: string,
                  svc: Services, codes: seq<seq<string>>, s: TurnState, s2: TurnState)
    requires 0 < |contents|
    requires SearchedOnce(temp, hash, st, contents, |contents|, lang, svc, codes, s) && s.out.Ok?
    requires SearchedOnce(s.temp, hash, st, contents, |contents|, lang, svc, codes, s2)
    ensures s2.searches == 0 && s2.out == s.out
  {
    FileNamesDistinct(hash, hash);
    var n := |contents|;
    var kw := svc.llm(KeywordPrompt(st, contents, 0));
    var sf := SearchFile(hash);
    assert SaveDoc(s.temp, KeywordFile(hash), KeywordDoc(kw), true)[sf] == s.temp[sf];
    var first := FirstSearch(temp, hash, st, contents, lang, svc);
    assert FirstSearch(s.temp, hash, st, contents, lang, svc) == first;
    assert s2.out.Ok?;
    assert |s2.out.value| == |s.out.value| == n;
    forall i | 0 <= i < n ensures s2.out.value[i] == s.out.value[i] {
      assert s.out.value[i] == SupplementSpec(first.value, contents[i], lang, svc, CodesAt(codes, i)).value;
    }
    assert s2.out.value == s.out.value;
  }

  /** Running `build_json` again on the `temp` it left behind, with the same
      answers from the outside world, needs no search and gives the same record. */
  lemma BuildJsonRerun(temp: Dir, rec: Record, svc: Services, codes: seq<seq<string>>)
    requires rec.conversations.Some? && |rec.conversations.value.contents| > 0
    requires BuildJsonSpec(temp, rec, svc, codes).result.Ok?
    ensures var b := BuildJsonSpec(temp, rec, svc, codes);
            var b2 := BuildJsonSpec(b.temp, rec, svc, codes);
            b2.searches == 0 && b2.result == b.result
  {
    var conv := rec.conversations.value;
    TurnsRerun(temp, rec.hash, StyleOf(svc.prompts, conv.lang).value, conv.contents, conv.lang, svc, codes);
  }

  /** One iteration of the turn loop of `build_json`: the keyword prompt, the
      keywords saved to the keyword file, the cached or fresh search result
      and the enriched turn. */
  method EnrichTurn(ws: Workspace<seq<Doc>>, hash: string, st: KeywordStyle, contents: seq<Content>, i: nat,
                    lang: string, svc: Services, searches: nat, out: seq<Content>)
    returns (searches': nat, out': Result<seq<Content>>, ghost ids: seq<string>)
    requires i < |contents|
    modifies ws
    ensures TurnState(ws.temp, searches', out')
            == TurnStep(TurnState(old(ws.temp), searches, Ok(out)), hash, st, contents, i, lang, svc, ids)
    ensures ws.data == old(ws.data) && TempFrame(old(ws.temp), ws.temp, hash)
    ensures forall k :: 0 <= k < |ids| ==> IsCode(ids[k])
  {
    ghost var t0 := ws.temp;
    var qs := BuildKeywordPrompt(st, contents, i);
    var keyword := svc.llm(qs);
    ws.temp := SaveDoc(ws.temp, KeywordFile(hash), KeywordDoc(keyword), true);
    SaveDocFrame(t0, KeywordFile(hash), KeywordDoc(keyword), hash);
    ghost var t1 := ws.temp;
    var searchFile := SearchFile(hash);
    var searchResult;
    searches' := searches;
    if searchFile in ws.temp {
      var read := ReadSearch(ws.temp, searchFile);
      if read.Err? {
        return searches', Err(read.error), [];
      }
      searchResult := read.value;
    } else {
      searchResult := svc.search(keyword, lang);
      ws.temp := SaveDoc(ws.temp, searchFile, SearchDoc(searchResult), true);
      SaveDocFrame(t1, searchFile, SearchDoc(searchResult), hash);
      TempFrameTrans(t0, t1, ws.temp, hash);
      searches' := searches + 1;
    }
    var c;
    c, ids := SupplementRef(searchResult, contents[i], lang, svc);
    out' := Extend(out, c);
  }

  /** Turn `i` as the next step of the loop: the state after it is the state
      after turns `0 .. i`. */
  method EnrichNext(ws: Workspace<seq<Doc>>, hash: string, st: KeywordStyle, contents: seq<Content>, i: nat,
                    lang: string, svc: Services, searches: nat, out: seq<Content>,
                    ghost t0: Dir, ghost codes: seq<seq<string>>)
    returns (searches': nat, out': Result<seq<Content>>, ghost codes': seq<seq<string>>)
    requires i < |contents| && |codes| == i
    requires TurnState(ws.temp, searches, Ok(out)) == TurnsUpTo(t0, hash, st, contents, i, lang, svc, codes)
    requires TempFrame(t0, ws.temp, hash)
    modifies ws
    ensures TurnState(ws.temp, searches', out') == TurnsUpTo(t0, hash, st, contents, i + 1, lang, svc, codes')
    ensures |codes'| == i + 1 && codes'[..i] == codes
    ensures forall k :: 0 <= k < |codes'[i]| ==> IsCode(codes'[i][k])
    ensures ws.data == old(ws.data) && TempFrame(t0, ws.temp, hash)
  {
    ghost var temp0 := ws.temp;
    ghost var ids;
    searches', out', ids := EnrichTurn(ws, hash, st, contents, i, lang, svc, searches, out);
    TurnsUpToCodes(t0, hash, st, contents, i, lang, svc, codes, [ids]);
    codes' := codes + [ids];
    assert CodesAt(codes', i) == ids;
    assert codes'[..i] == codes;
    TurnsUpToUnfold(t0, hash, st, contents, i + 1, lang, svc, codes');
    TempFrameTrans(t0, temp0, ws.temp, hash);
  }

  /** Saving the keyword or the search file of `hash` keeps the frame. */
  lemma SaveDocFrame(d: Dir, name: string, doc: Doc, hash: string)
    requires name == KeywordFile(hash) || name == SearchFile(hash)
    ensures TempFrame(d, SaveDoc(d, name, doc, true), hash)
  {
  }

  lemma TempFrameTrans(t0: Dir, t1: Dir, t2: Dir, hash: string)
    requires TempFrame(t0, t1, hash) && TempFrame(t1, t2, hash)
    ensures TempFrame(t0, t2, hash)
  {
  }

  /** The loop of `build_json` over the turns of one record. */
  method EnrichTurns(ws: Workspace<seq<Doc>>, hash: string, st: KeywordStyle, contents: seq<Content>,
                     lang: string, svc: Services)
    returns (out: Result<seq<Content>>, searches: nat, ghost codes: seq<seq<string>>)
    modifies ws
    ensures TurnState(ws.temp, searches, out) == TurnsUpTo(old(ws.temp), hash, st, contents, |contents|, lang, svc, codes)
    ensures ws.data == old(ws.data) && TempFrame(old(ws.temp), ws.temp, hash)
    ensures forall i, k :: 0 <= i < |codes| && 0 <= k < |codes[i]| ==> IsCode(codes[i][k])
  {
    ghost var t0 := ws.temp;
    codes := [];
    searches := 0;
    var done: seq<Content> := [];
    var i := 0;
    while i < |contents|
      invariant 0 <= i <= |contents| && |codes| == i
      invariant forall j, k :: 0 <= j < |codes| && 0 <= k < |codes[j]| ==> IsCode(codes[j][k])
      invariant TurnState(ws.temp, searches, Ok(done)) == TurnsUpTo(t0, hash, st, contents, i, lang, svc, codes)
      invariant ws.data == old(ws.data) && TempFrame(t0, ws.temp, hash)
    {
      var out';
      ghost var codes0 := codes;
      searches, out', codes := EnrichNext(ws, hash, st, contents, i, lang, svc, searches, done, t0, codes);
      assert forall j :: 0 <= j < i ==> codes[j] == codes0[j];
      if out'.Err? {
        TurnsErrStays(t0, hash, st, contents, i + 1, |contents|, lang, svc, codes);
        return out', searches, codes;
      }
      done := out'.value;
      i := i + 1;
    }
    out := Ok(done);
  }

  /** `build_json(json_data)`. */
  method BuildJsonRecord(ws: Workspace<seq<Doc>>, rec: Record, svc: Services)
    returns (r: Result<Record>, searches: nat, ghost codes: seq<seq<string>>)
    modifies ws
    ensures Built(r, ws.temp, searches) == BuildJsonSpec(old(ws.temp), rec, svc, codes)
    ensures ws.data == old(ws.data) && TempFrame(old(ws.temp), ws.temp, rec.hash)
    ensures forall i, k :: 0 <= i < |codes| && 0 <= k < |codes[i]| ==> IsCode(codes[i][k])
  {
    codes := [];
    searches := 0;
    if rec.conversations.None? {
      return Err("KeyError: conversations"), searches, codes;
    }
    var conv := rec.conversations.value;
    if |conv.contents| == 0 {
      return Ok(rec), searches, codes;
    }
    var style := StyleOf(svc.prompts, conv.lang);
    if style.None? {
      return Err("UnboundLocalError"), searches, codes;
    }
    var out;
    out, searches, codes := EnrichTurns(ws, rec.hash, style.value, conv.contents, conv.lang, svc);
    if out.Err? {
      return Err(out.error), searches, codes;
    }
    r := Ok(rec.(conversations := Some(conv.(contents := out.value))));
  }

  // ---------------------------------------------------------------------------
  // main

  /** The file of `rec` in `data` ends with an enriched version of `rec`. */
  predicate Committed(data: Dir, rec: Record) {
    var name := RecordFile(rec.hash);
    && IsFile(data, name)
    && |data[name].content| > 0
    && var last := data[name].content[|data[name].content| - 1];
       last.RecordDoc? && last.record.id == rec.id && last.record.hash == rec.hash
  }

  /** `build_json` of one record and the enriched record appended to
      `temp/<hash>.json`; `ok` is false when `build_json` raised. */
  method EnrichAndSave(ws: Workspace<seq<Doc>>, rec: Record, svc: Services) returns (ok: bool)
    modifies ws
    ensures ws.data == old(ws.data)
    ensures forall n :: IsDir(ws.temp, n) <==> IsDir(old(ws.temp), n)
    ensures forall n :: IsFile(ws.temp, n) ==>
              IsFile(old(ws.temp), n) || n == KeywordFile(rec.hash) || n == SearchFile(rec.hash) || n == RecordFile(rec.hash)
    ensures ok && !IsDir(old(ws.temp), RecordFile(rec.hash)) ==> Committed(ws.temp, rec)
  {
    FileNamesDistinct(rec.hash, rec.hash);
    ghost var temp0 := ws.temp;
    var r, searches, codes := BuildJsonRecord(ws, rec, svc);
    if r.Err? {
      return false;
    }
    ws.temp := SaveDoc(ws.temp, RecordFile(rec.hash), RecordDoc(r.value), false);
    ok := true;
  }

  /** One record of `main`: enriched, saved, then `move_files(temp, data)`.
      `crashed` is an exception leaving `main`. */
  method ProcessRecord(ws: Workspace<seq<Doc>>, rec: Record, svc: Services) returns (crashed: bool)
    modifies ws
    ensures forall n :: IsFile(old(ws.data), n) ==> IsFile(ws.data, n)
    ensures forall n :: IsDir(ws.data, n) <==> IsDir(old(ws.data), n)
    ensures forall n :: IsDir(ws.temp, n) <==> IsDir(old(ws.temp), n)
    // when `temp` held no files, `data` changes only in the files of this record
    ensures (forall n :: !IsFile(old(ws.temp), n)) ==>
              forall n :: (n != KeywordFile(rec.hash) && n != SearchFile(rec.hash) && n != RecordFile(rec.hash)
                           && n in old(ws.data)) ==> n in ws.data && ws.data[n] == old(ws.data)[n]
    ensures !crashed ==> forall n :: !IsFile(ws.temp, n)
    ensures !crashed && !IsDir(old(ws.temp), RecordFile(rec.hash)) ==> Committed(ws.data, rec)
  {
    var ok := EnrichAndSave(ws, rec, svc);
    if !ok {
      return true;
    }
    ghost var temp1 := ws.temp;
    var raised := ws.MoveFiles();
    if !raised {
      assert forall n :: IsFile(temp1, n) ==> n in ws.data && ws.data[n] == temp1[n];
    }
    return raised;
  }

  /** `main()`: every record without a committed file in `data` is enriched and
      committed; `processed` lists the positions of the records enriched. The
      source runs it with `svc.prompts == SourcePrompts`; nothing proved here
      depends on the prompt texts. */
  method BuildReferences(ws: Workspace<seq<Doc>>, records: seq<Record>, svc: Services)
    returns (processed: seq<nat>, crashed: bool)
    modifies ws
    ensures forall n :: IsFile(old(ws.data), n) ==> IsFile(ws.data, n)
    ensures forall n :: IsDir(ws.data, n) <==> IsDir(old(ws.data), n)
    ensures forall n :: IsDir(ws.temp, n) <==> IsDir(old(ws.temp), n)
    ensures forall a, b :: 0 <= a < b < |processed| ==> processed[a] < processed[b]
    // only records without a committed file are enriched, and their files are committed
    ensures forall a :: 0 <= a < |processed| ==>
              processed[a] < |records| && !IsFile(old(ws.data), RecordFile(records[processed[a]].hash))
    ensures forall a :: 0 <= a < |processed| && !IsDir(old(ws.temp), RecordFile(records[processed[a]].hash)) ==>
              Committed(ws.data, records[processed[a]])
    // a run that does not crash leaves every record committed and `temp` without files
    ensures !crashed ==> forall j :: 0 <= j < |records| && !IsDir(old(ws.temp), RecordFile(records[j].hash)) ==>
                           IsFile(ws.data, RecordFile(records[j].hash))
    ensures !crashed && |processed| > 0 ==> forall n :: !IsFile(ws.temp, n)
  {
    processed := [];
    crashed := false;
    var j := 0;
    while j < |records|
      invariant 0 <= j <= |records|
      invariant Framed(old(ws.data), old(ws.temp), ws.data, ws.temp)
      invariant Enriched(old(ws.data), records, j, processed)
      invariant AllCommitted(old(ws.temp), records, processed, ws.data)
      invariant Covered(old(ws.temp), records, j, ws.data)
      invariant |processed| > 0 ==> forall n :: !IsFile(ws.temp, n)
    {
      var rec := records[j];
      if IsFile(ws.data, RecordFile(rec.hash)) {
        j := j + 1;
        continue;
      }
      ghost var d1, t1 := ws.data, ws.temp;
      crashed := ProcessRecord(ws, rec, svc);
      FramedTrans(old(ws.data), old(ws.temp), d1, t1, ws.data, ws.temp);
      CommittedStay(old(ws.temp), records, j, processed, d1, t1, ws.data);
      if crashed {
        return;
      }
      EnrichedSnoc(old(ws.data), records, j, processed, d1);
      CommittedSnoc(old(ws.temp), records, j, processed, ws.data);
      processed := processed + [j];
      j := j + 1;
    }
  }

  /** Files of `data` are never lost, and neither directory gains or loses a
      sub-directory. */
  ghost predicate Framed(d0: Dir, t0: Dir, data: Dir, temp: Dir) {
    && (forall n :: IsFile(d0, n) ==> IsFile(data, n))
    && (forall n :: IsDir(data, n) <==> IsDir(d0, n))
    && (forall n :: IsDir(temp, n) <==> IsDir(t0, n))
  }

  lemma FramedTrans(d0: Dir, t0: Dir, d1: Dir, t1: Dir, d2: Dir, t2: Dir)
    requires Framed(d0, t0, d1, t1) && Framed(d1, t1, d2, t2)
    ensures Framed(d0, t0, d2, t2)
  {
  }

  /** The records enriched so far are in increasing order, before position
      `j`, and had no committed file when the run started. */
  ghost predicate Enriched(d0: Dir, records: seq<Record>, j: nat, processed: seq<nat>) {
    && (forall a, b :: 0 <= a < b < |processed| ==> processed[a] < processed[b])
    && (forall a :: 0 <= a < |processed| ==>
          processed[a] < j && processed[a] < |records| && !IsFile(d0, RecordFile(records[processed[a]].hash)))
  }

  lemma EnrichedSnoc(d0: Dir, records: seq<Record>, j: nat, processed: seq<nat>, d1: Dir)
    requires j < |records| && Enriched(d0, records, j, processed)
    requires (forall n :: IsFile(d0, n) ==> IsFile(d1, n)) && !IsFile(d1, RecordFile(records[j].hash))
    ensures Enriched(d0, records, j + 1, processed + [j])
  {
    var p := processed + [j];
    assert forall a :: 0 <= a < |processed| ==> p[a] == processed[a];
  }

  /** Every enriched record whose record file could be written is committed. */
  ghost predicate AllCommitted(t0: Dir, records: seq<Record>, processed: seq<nat>, data: Dir) {
    forall a :: 0 <= a < |processed| && processed[a] < |records| && !IsDir(t0, RecordFile(records[processed[a]].hash)) ==>
      Committed(data, records[processed[a]])
  }

  lemma CommittedSnoc(t0: Dir, records: seq<Record>, j: nat, processed: seq<nat>, data: Dir)
    requires j < |records| && AllCommitted(t0, records, processed, data)
    requires !IsDir(t0, RecordFile(records[j].hash)) ==> Committed(data, records[j])
    ensures AllCommitted(t0, records, processed + [j], data)
  {
    var p := processed + [j];
    assert forall a :: 0 <= a < |processed| ==> p[a] == processed[a];
  }

  /** Every record before position `j` has a record file in `data`. */
  ghost predicate Covered(t0: Dir, records: seq<Record>, j: nat, data: Dir) {
    forall i :: 0 <= i < j && i < |records| && !IsDir(t0, RecordFile(records[i].hash)) ==>
      IsFile(data, RecordFile(records[i].hash))
  }

  /** The records committed before record `j` was processed stay committed:
      their files are not files of record `j`. */
  lemma CommittedStay(t0: Dir, records: seq<Record>, j: nat, processed: seq<nat>, d1: Dir, t1: Dir, d2: Dir)
    requires j < |records|
    requires AllCommitted(t0, records, processed, d1)
    requires |processed| > 0 ==> forall n :: !IsFile(t1, n)
    requires (forall n :: !IsFile(t1, n)) ==>
              forall n :: (n != KeywordFile(records[j].hash) && n != SearchFile(records[j].hash)
                           && n != RecordFile(records[j].hash) && n in d1) ==> n in d2 && d2[n] == d1[n]
    requires !IsFile(d1, RecordFile(records[j].hash))
    ensures AllCommitted(t0, records, processed, d2)
  {
    var rec := records[j];
    forall a | 0 <= a < |processed| && processed[a] < |records| && !IsDir(t0, RecordFile(records[processed[a]].hash))
      ensures Committed(d2, records[processed[a]])
    {
      var r := records[processed[a]];
      FileNamesDistinct(rec.hash, r.hash);
      assert IsFile(d1, RecordFile(r.hash));
      assert RecordFile(r.hash) != RecordFile(rec.hash);
    }
  }
}

# CiteEval reference pipeline in Dafny

This project models the sequential core of the CiteEval data pipeline. The
pipeline builds a question-answering benchmark with citations from WildChat
conversations:

- `wildchat_filter.py` screens and extracts conversations, routes them by
  topic and issues keyword searches;
- `build_ref.py` enriches each turn of a record with references, that is
  search results whose documents were fetched and summarized, and commits
  each record through a temporary directory;
- `llm_gen_answer.py` asks LLMs for cited answers and splits them into
  numbered sentences whose `[n]` citations are resolved to reference ids;
- `check_json.py` removes references whose summary is empty or "irrelevant";
- `misc.py` holds the downloader (multi-part, chunked waves and single
  stream), `move_files` and the random identifiers.

Records are Dafny datatypes (`Records`). Files being downloaded are byte
buffers updated in place (`Download.LocalFile`). Directories are maps from
names to entries (`Staging.Workspace`, `CheckJson.JsonDirectory`). Every loop
of the modelled functions is a `method` with a `while` loop. Each method is proved
against a specification function, and the properties the source promises
are proved about those functions as lemmas.

The outside world is a parameter:

- HTTP replies are a `Server` function from an optional byte range to a
  response; a HEAD reply is a `HeadResponse` value.
- The LLM, the search engine and the page and PDF fetchers are function-typed
  fields of `BuildRef.Services` and `LlmGenAnswer.Chat`.
- Random identifiers are drawn nondeterministically. Only their length and
  alphabet are known, and the ids drawn are returned as ghost values.
- The prompt texts are fields of a datatype. `BuildRef.SourcePrompts` holds
  the source's own texts.

Some helpers carry no row of their own in the table below: `BuildRef.FieldOf`
(a summarizer failure stored as `null`) is covered by the `BuildRef.RefStepFacts`
and `BuildRef.SummaryBudget` rows, and `LlmGenAnswer.Route` and
`LlmGenAnswer.Exchange` (the dispatch on the model name and one chat call) by
the `LlmGenAnswer.RouteOf…`, `LlmGenAnswer.GenAnswer` and
`LlmGenAnswer.GenAnswerHistory` rows.

`move_files` exists twice in the source, in `misc.py:235-247` and
`build_ref.py:25-38`, with the same loop. `Staging.Workspace.MoveFiles`
models both.

## Behaviour of the code

- `download_file` makes at most two attempts: multi-part or chunked waves,
  then one single-stream attempt.
- `download_file` has no time budget and returns nothing; how an attempt
  ended shows only in the log and in the file.
- A missing Content-Length gives size 0, which selects the multi-part path.
- Records are processed one after the other through one shared `temp`
  directory.
- An exception from `build_json` leaves `main` and ends the batch.

## Model

| member | source | states |
|---|---|---|
| Staging.Workspace.MoveFiles | misc.py:235-247 | raises exactly when a regular file of `temp` has the name of a directory in `data`; otherwise `temp` keeps only its non-files and `data` gains every file of `temp` under its own name, replacing same-named files and keeping all others; in either case `data` loses nothing and `temp` gains nothing |
| Staging.PartialMoveFacts | build_ref.py:34-37 | after visiting any subset of the entries, in any order, the files moved are in `data` with their content, `data` keeps every other entry, and `temp` keeps its directories; once every entry is visited, the move is complete |
| Staging.GenerateRandomCode | misc.py:64-71 | the code has `length` characters (none for a negative length), each from the 62 letters and digits |
| Staging.NewCode | wildchat_filter.py:35-42 | an identifier of the default length 10 over the same alphabet |
| Download.OverwriteMeaning | misc.py:122-124 | a positioned write changes exactly the bytes `[pos, pos + len)`, zero-fills any gap before `pos`, and leaves every other byte as it was |
| Download.OverwriteConcat | misc.py:195-197 | two writes back to back, the second where the first stopped, equal one write of the concatenation |
| Download.OverwriteEmpty | misc.py:223-224 | writing a whole body at position 0 of an empty file gives the body |
| Download.LocalFile.Truncate | misc.py:174-175 | the file is cut to `n` bytes, or extended with zero bytes to exactly `n` |
| Download.LocalFile.WriteAt | misc.py:122-124 | the file becomes the positioned write of the data at `pos` |
| Download.LocalFile.WriteChunksAt | misc.py:194-197 | writing the streamed pieces one after the other from `pos` equals one positioned write of their concatenation |
| Download.DownloadChunk | misc.py:118-124 | an error status or an unreachable server raises without writing; otherwise the body is written at `start` |
| Download.DownloadChunkNoSize | misc.py:149-158 | status 416 returns `False` and leaves the file unchanged; otherwise it writes the body at `start` and returns `True`, or raises as `download_chunk` does |
| Download.DownloadChunkWithProgress | misc.py:189-199 | raises exactly when the request fails, the status is an error, or the stream breaks; the pieces streamed before a break stay written |
| Download.PartRange | misc.py:180-182 | the loop body computes `Parts(size, n)[i]` |
| Download.PartFacts | misc.py:172-182 | no part starts past the end; when `size < n` every part but the last is empty at 0; otherwise every part but the last lies inside the file |
| Download.PartsContiguous | misc.py:172-182 | part 0 starts at 0, each next part starts one byte after the previous one ends, and the last ends at `size - 1` |
| Download.PartLengths | misc.py:172-182 | every part but the last has `size / n` bytes; the last has `size / n + size % n` |
| Download.PartsCover | misc.py:172-182 | every byte of `[0, size)` lies in exactly one part |
| Download.DownloadPdfMultiThread | misc.py:171-187 | `n == 0` raises before the file is touched; otherwise the file is truncated to `size` and the parts are fetched in order, as `MultiThread` states |
| Download.SubmitParts | misc.py:177-187 | all `n` chunk tasks run in submission order; the run raises when any of them raised |
| Download.MultiThreadRaised | misc.py:177-187 | a multi-part run raises exactly when the request of some part fails, however many other parts succeeded |
| Download.DownloadPdfChunked | misc.py:126-147 | the file is emptied, then waves run from offset 0 as `Chunked` states |
| Download.SubmitWave | misc.py:133-137 | a wave submits consecutive requests of `chunkSize` bytes from `offset` in order, and advances the offset past them |
| Download.ScanWave | misc.py:139-144 | returns the first result, in submission order, that is not `True`, or nothing when all are `True` |
| Download.WavesSent | misc.py:131-137 | the requests of all waves form one chain of `chunkSize`-byte ranges from `offset`, each starting right after the previous one |
| Download.ChunkedSent | misc.py:131-137 | the `k`-th request overall asks for bytes `[k * chunkSize, (k + 1) * chunkSize - 1]` |
| Download.WavesStop | misc.py:139-147 | the loop stops right after the first wave holding a result that is not `True`; that result is `False` exactly when the download completed and an exception exactly when it failed; a run cut off by the wave bound saw only `True` results |
| Download.WavesAdvance | misc.py:132-147 | after one more wave, the run is complete when its first non-`True` result is `False`, failed when it is an exception, and otherwise still ahead |
| Download.GetFileSize | misc.py:161-167 | `None` exactly when the request, the status or the header's `int()` raised; a missing Content-Length gives 0 |
| Download.DownloadFileSingleThread | misc.py:204-231 | a failed request or an error status leaves the file as it was and raises nothing; a successful reply whose Content-Length `int()` cannot read raises `ValueError` and leaves the file as it was; otherwise the file is emptied and the body streamed into it, and a break mid-stream keeps what was written |
| Download.DownloadFile | misc.py:104-114 | the first attempt is multi-part exactly when `is_single` is false and the size is known, and chunked waves otherwise; there are at most two attempts, and the second is always the single stream; an exception leaves `download_file` only from that second attempt, and only for an unreadable Content-Length |
| Download.DownloadFileRaises | misc.py:104-114 | an exception escapes `download_file` exactly when the first attempt raised and the fallback's successful reply has an unreadable Content-Length; the file is then as the first attempt left it |
| Download.MultiThreadHonest | misc.py:171-199 | against a server that implements RFC 9110 range requests, a multi-part download of the announced size raises nothing and leaves exactly the resource on disk |
| Download.ChunkedHonest | misc.py:126-158 | against such a server, with enough waves, the waves end with `False` and leave exactly the resource on disk |
| Download.DownloadFileHonest | misc.py:104-114 | against such a server announcing the length, `download_file` makes one multi-part attempt and the file is the resource |
| Download.DownloadFileSingleHonest | misc.py:104-114 | with `is_single` set, one run of waves, and the file is the resource |
| Download.SingleThreadHonest | misc.py:204-226 | the single-stream fallback against such a server leaves exactly the resource when the Content-Length is readable or missing, and raises leaving the file as it was when it is not |
| BuildRef.StyleOf | build_ref.py:203-214 | prompt labels and prefix exist exactly for English and Chinese records |
| BuildRef.BuildKeywordPrompt | build_ref.py:217-232 | the nested loops build `KeywordPrompt`: the language prefix, then for each turn `j <= i` its query line, plus its answer line only when `j < i` |
| BuildRef.KeywordPromptStep | build_ref.py:224-232 | the first prompt holds the first query only; each later prompt is the previous one plus the previous answer and the next query |
| BuildRef.KeywordPromptPrefix | build_ref.py:224-232 | the prompt of turn `i` depends only on turns `0 .. i` |
| BuildRef.TypeOfLastThree | build_ref.py:161-173 | two links whose last three characters agree up to case get the same type: nothing before them matters |
| BuildRef.TypeOfIgnoresCase | build_ref.py:161 | the type does not depend on the URL's case |
| BuildRef.FetchItem | build_ref.py:159-173 | the type is the one the suffix tests give, and PDF links go to the PDF fetcher, all others to the page fetcher |
| BuildRef.SupplementSpec | build_ref.py:145-189 | for search results whose items carry all four keys, raises exactly when the search result has no total or, with a nonzero total, no organic results; a total of 0 returns the turn unchanged; query, answer and answers are always kept |
| BuildRef.SupplementRef | build_ref.py:145-189 | the loop computes `SupplementSpec`, drawing one fresh 10-character `ref_id` per search result |
| BuildRef.KeepItem | build_ref.py:153-188 | one iteration is one `RefStep`: fetch, summary while the budget lasts, append |
| BuildRef.RefStepFacts | build_ref.py:174-188 | a failed fetch leaves the state as it was; otherwise exactly one reference is appended, with `idx` the current position and its fields from the search result |
| BuildRef.KeptIndicesFacts | build_ref.py:152-176 | the kept positions increase strictly and are exactly the positions whose document could be fetched |
| BuildRef.RefsAreFetchedItems | build_ref.py:152-188 | the references are the fetched search results, in order, each with `idx` its position in `organic_results`, so the `idx` values increase and may have gaps |
| BuildRef.SummaryBudget | build_ref.py:179-185 | `count` is the number of references with a non-`null` summary, and each reference's summary is the LLM's answer while fewer than 10 were counted, `""` afterwards |
| BuildRef.AtMostTenSummaries | build_ref.py:179-185 | at most 10 references get an LLM summary, exactly as many as there are non-`null` summaries up to 10, and every reference after the tenth counted one has `""` |
| BuildJson.FileNamesDistinct | build_ref.py:196-197 | the keyword, search and record files of a record have different names, and files of different records never share a name |
| BuildJson.SaveDoc | misc.py:74-92 | only the named file changes; a directory of that name stays a directory and the failure is only logged |
| BuildJson.ReadAfterSave | build_ref.py:242-253 | a search result saved with mode `'w'` reads back as itself |
| BuildJson.ReadSearchOk | build_ref.py:242-245 | reading the cache succeeds exactly on a file holding one saved search result |
| BuildJson.BuildJsonSpec | build_ref.py:192-259 | a record without `conversations` raises and touches nothing; a result keeps the record's `id` and hash |
| BuildJson.TurnsErrStays | build_ref.py:217-256 | once a turn raised, the later turns change nothing |
| BuildJson.BuildJsonSearchesOnce | build_ref.py:217-258 | the search engine is called once per record, or never when the search file exists; every turn is enriched from that first result; `build_json` succeeds exactly when that result is readable and usable, with one enriched turn per input turn in order |
| BuildJson.TurnsRerun | build_ref.py:242-253 | the loop run again on the `temp` it left behind searches nothing and gives the same turns |
| BuildJson.BuildJsonRerun | build_ref.py:192-259 | `build_json` run again on the `temp` it left behind searches nothing and gives the same record |
| BuildJson.EnrichTurn | build_ref.py:218-256 | one turn computes `TurnStep`; `data` is untouched and, with PDF downloads writing no file, `temp` changes only in the record's keyword and search files |
| BuildJson.EnrichTurns | build_ref.py:217-256 | the turn loop computes `TurnsUpTo` over all turns, with the same frame |
| BuildJson.BuildJsonRecord | build_ref.py:192-259 | the method computes `BuildJsonSpec`, with the same frame |
| BuildJson.EnrichAndSave | build_ref.py:275-277 | `data` is untouched, directories stay, and on success `temp/<hash>.json` ends with the enriched record; with PDF downloads writing no file, only the record's three files may appear in `temp` |
| BuildJson.ProcessRecord | build_ref.py:270-280 | files of `data` are never lost and directories stay; without a crash `temp` holds no files and the record is committed to `data`; with an empty `temp` and PDF downloads writing no file, `data` changes only in the record's files |
| BuildJson.BuildReferences | build_ref.py:261-280 | only records without a committed `data/<hash>.json` are enriched, in input order, and each is then committed; files of `data` are never lost; a run without a crash leaves every record with a file in `data` and no files in `temp` |
| LlmGenAnswer.SummaryText | llm_gen_answer.py:140-142 | a missing `summary` raises `KeyError`; `null` renders as `None`; a string renders as itself |
| LlmGenAnswer.Shown | llm_gen_answer.py:136-138 | the prompt shows at most 5 references, and all of them when there are fewer |
| LlmGenAnswer.GenAnswerPrompt | llm_gen_answer.py:131-148 | the prompt loop computes `AnswerPrompt` |
| LlmGenAnswer.DocLinesOk | llm_gen_answer.py:136-142 | the lines of `k` references exist exactly when none of them lacks its summary |
| LlmGenAnswer.AnswerPromptOk | llm_gen_answer.py:136-142 | a prompt is produced exactly when every shown reference has a `summary` key |
| LlmGenAnswer.PromptLayout | llm_gen_answer.py:131-148 | the prompt opens with the language's instructions and ends with an empty line and the question |
| LlmGenAnswer.PromptShowsDocuments | llm_gen_answer.py:136-142 | the reference at each position `i < 5` appears, with its summary, on a line opening with the label `[i + 1]` |
| LlmGenAnswer.PromptIgnoresLaterReferences | llm_gen_answer.py:136-138 | references after the fifth do not change the prompt |
| LlmGenAnswer.RouteOfLlama | llm_gen_answer.py:37-38 | the Perplexity model the module configures goes through the OpenAI client |
| LlmGenAnswer.RouteOfGpt | llm_gen_answer.py:11-12 | the OpenAI model `gpt-4o` goes through the OpenAI client |
| LlmGenAnswer.RouteOfMoonshot | llm_gen_answer.py:30-31 | the Kimi model goes through the OpenAI client |
| LlmGenAnswer.LeadingNameRoutes | llm_gen_answer.py:152-154 | any model name starting with `gpt`, `moonshot` or `llama` goes to the OpenAI client |
| LlmGenAnswer.GenAnswer | llm_gen_answer.py:130-159 | the method computes `GenAnswerSpec`: the prompt, then dispatch by model name |
| LlmGenAnswer.GenAnswerHistory | llm_gen_answer.py:82-159 | the history comes back empty, or as the old history plus exactly the answer as an assistant message; the prompt is never kept, so a history of replies stays one; an unknown model gives `""` and an empty history |
| LlmGenAnswer.NumbersOfToken | llm_gen_answer.py:164-168 | a `[n]` token is read back as `n`, and the scan goes on after it |
| LlmGenAnswer.NumbersOfTokens | llm_gen_answer.py:164-168 | a text without `[` followed by citation tokens gives the cited numbers back in order, with repetitions |
| LlmGenAnswer.NumbersWithoutBracket | llm_gen_answer.py:164-168 | a sentence without `[` cites nothing |
| LlmGenAnswer.FirstWithIdxFirst | llm_gen_answer.py:173-176 | the matched `ref_id` is that of the first reference in list order whose `idx` is the number |
| LlmGenAnswer.ExtractNumbersAndRefIds | llm_gen_answer.py:162-178 | the nested loops compute `CitationsByIdx` of the sentence's numbers, as the source does |
| LlmGenAnswer.CitationsByIdxFacts | llm_gen_answer.py:171-177 | each citation names the first reference whose `idx` is the cited number; unmatched numbers are dropped; when all match, the citations are the numbers in order with repetitions |
| LlmGenAnswer.CitationOffByOne | llm_gen_answer.py:172-176 | with two references of `idx` 0 and 1, "See [1]" names the second one, although the prompt labelled the first one `[1]` |
| LlmGenAnswer.PromptedRef | llm_gen_answer.py:136-142 | a shown document exists exactly for the labels `1 .. Shown` |
| LlmGenAnswer.ExtractCitations | llm_gen_answer.py:162-178 | the corrected loop computes `ResolveCitations`, resolving `[n]` to the document the prompt labelled `[n]` |
| LlmGenAnswer.ResolveCitationsFacts | llm_gen_answer.py:162-178 | every resolved citation names the shown reference under its label; numbers of no shown document are dropped; when all label shown documents, the citations are the numbers in order |
| LlmGenAnswer.CitationsNamePromptedDocuments | llm_gen_answer.py:136-176 | a resolved citation carries the `ref_id` of the very document whose line, opening with that label, is in the prompt |
| LlmGenAnswer.FirstWithIdxOneBased | llm_gen_answer.py:173-176 | when the `idx` values count up by one from `from` in list order, the lookup of `n` finds the reference at position `n - from`, and nothing outside that range |
| LlmGenAnswer.ByIdxAgreesWhenOneBased | llm_gen_answer.py:172-176 | the lookup as written gives the corrected citations exactly in the situation the prompt assumes: at most five references numbered from 1 |
| LlmGenAnswer.SentenceTextsClean | llm_gen_answer.py:183-188 | every sentence text is non-empty, neither starts nor ends with a space or newline, and holds no separator (`。` in Chinese, `.` otherwise) |
| LlmGenAnswer.SentencesOfJoin | llm_gen_answer.py:183-188 | splitting clean sentences joined by the separator gives them back in order |
| LlmGenAnswer.SplitSpecFacts | llm_gen_answer.py:189-195 | sentence `k` has `idx` `k + 1`, the `k`-th clean text and the citations `extract_numbers_and_ref_ids` finds in it by `idx` |
| LlmGenAnswer.SplitAnswer | llm_gen_answer.py:181-196 | the method computes `SplitSpec`, one fresh `sentence_id` per sentence |
| LlmGenAnswer.NumberSentences | llm_gen_answer.py:189-195 | the loop computes `Numbered`, one fresh `sentence_id` per sentence, its citations looked up by `idx` as written |
| LlmGenAnswer.AnswerTurn | llm_gen_answer.py:205-213 | the model loop computes `AnswersUpTo`; without an exception, exactly one answer per model, in order, each with the model's name, a fresh `answer_id` and the sentences of its own text, citations looked up by `idx` as written |
| LlmGenAnswer.AnswerOne | llm_gen_answer.py:206-212 | one pass of the model loop is one more step of `AnswersUpTo`, with a fresh `answer_id` |
| LlmGenAnswer.AnswersUpToFor | llm_gen_answer.py:205-212 | without an error, after `j` models there are `j` answers, each for its own model |
| LlmGenAnswer.RespondAppends | llm_gen_answer.py:206-212 | model `j` appends exactly one answer, with its name, its `answer_id` and the sentences of its text |
| LlmGenAnswer.AnswersErrStays | llm_gen_answer.py:205-212 | once a model raised, the later models change nothing |
| LlmGenAnswer.HandlingConversations | llm_gen_answer.py:199-214 | without a `KeyError`, every turn keeps its fields and gains one answer per model in order, each model continuing its own history from the previous turn |
| LlmGenAnswer.AnswerConversation | llm_gen_answer.py:201-213 | one turn is one more step of `ConvsUpTo`; it appends the answered turn |
| LlmGenAnswer.ConvsErrStays | llm_gen_answer.py:201-213 | once a turn raised, the later turns change nothing |
| CheckJson.DelEmptySummaryFromReferences | check_json.py:75-95 | keeps the references whose summary is not `不相关`, `irrelevant` or empty (missing reads as empty), in order, and counts the others |
| CheckJson.KeptPlusDropped | check_json.py:79-85 | kept plus counted is the number of references |
| CheckJson.KeptAppend | check_json.py:79-85 | the filter works reference by reference on a concatenation, so order is kept |
| CheckJson.KeptMembers | check_json.py:81-83 | a reference is kept exactly when it is in the input with a meaningful summary |
| CheckJson.KeptOfRelevant | check_json.py:79-85 | a list without irrelevant references passes unchanged, with count 0 |
| CheckJson.KeptIdempotent | check_json.py:79-85 | filtering the filtered list removes nothing |
| CheckJson.CleanContentsAt | check_json.py:62-65 | turn `i` of the output is turn `i` with its filtered references set |
| CheckJson.ProcessReferencesFromContents | check_json.py:58-72 | as written: every turn gets its filtered `references`, and the count returned is the last turn's only |
| CheckJson.LastDroppedMissesEarlierTurns | check_json.py:64 | a first turn that loses a reference followed by a turn that loses none reports 0 deletions |
| CheckJson.ProcessReferencesCounted | check_json.py:58-72 | the corrected loop: every turn gets its filtered `references`, and the count is the total over all turns |
| CheckJson.TotalDroppedRemoved | check_json.py:62-65 | the total count plus the references left is the number of references before |
| CheckJson.DroppedZero | check_json.py:79-85 | a list loses nothing exactly when it holds no irrelevant reference |
| CheckJson.TotalDroppedZero | check_json.py:62-65 | the total count is 0 exactly when no turn holds an irrelevant reference |
| CheckJson.CleanContentsIdempotent | check_json.py:58-72 | cleaning cleaned turns changes nothing and drops nothing |
| CheckJson.ProcessContentsFromDict | check_json.py:44-55 | a record without `conversations` is returned as it is with count 0; otherwise its turns are cleaned and the count is the one `process_references_from_contents` returns, the last turn's |
| CheckJson.LastWithinTotal | check_json.py:62-65 | the last turn's count never exceeds the total, and a positive one means references were removed |
| CheckJson.CleanRecordKeeps | check_json.py:49-51 | only the turns' `references` change: ids, conversation fields, and every turn's query, answer and answers stay |
| CheckJson.ProcessFile | check_json.py:109-112 | a record file is rewritten cleaned, an unreadable one as `null`, and anything else as it was; the count is the last turn's |
| CheckJson.JsonDirectory.ProcessJsonFiles | check_json.py:97-117 | every non-empty `.json` file is rewritten once; the counters are the empty `.json` files, the files rewritten and those whose last turn lost references |
| CheckJson.PassOver | check_json.py:102-116 | the directory loop computes `AfterPass` and the three counters |
| CheckJson.CountersAddUp | check_json.py:102-116 | every `.json` file is counted as empty or as processed, and `process_count <= total_count` |
| CheckJson.AfterPassAt | check_json.py:102-112 | every entry keeps its name and position, and only processed files change |
| CheckJson.PassIdempotent | check_json.py:97-116 | a second pass rewrites every file to itself and finds nothing to delete, under either count |
| CheckJson.ProcessCountUndercounts | check_json.py:113-114 | `process_count` never exceeds the number of files that lost a reference in some turn |
| CheckJson.ProcessCountMissesFile | check_json.py:64 | a directory whose one file loses a reference in its first turn only ends with `process_count` 0 |
| WildchatFilter.CheckFirstWord | wildchat_filter.py:128-146 | `"no"` for `None` or a blank text; otherwise the result is `"no"` or the input itself |
| WildchatFilter.CheckFirstWordOf | wildchat_filter.py:133-146 | for white space, a word, then nothing or white space and anything, the input comes back exactly when the lower-cased word is one of what, when, why, who, where, how |
| WildchatFilter.NotBlankHasWord | wildchat_filter.py:130-137 | a text that is not blank has a first word, so `words[0]` does not raise |
| WildchatFilter.ProcessFilePath | wildchat_filter.py:44-70 | raises `ValueError` exactly when the path is not a file; otherwise the result ends in `.parquet` and the language is Chinese, English or Unknown |
| WildchatFilter.ProcessFilePathParts | wildchat_filter.py:50-68 | the result is the directory joined with the stem, with every `_cn` and then every `_en` removed, plus `.parquet`, and the language of the stem's last two characters |
| WildchatFilter.TagLang | wildchat_filter.py:54-59 | a stem ending in `_cn` is Chinese, one ending in `_en` English |
| WildchatFilter.TaggedPath | wildchat_filter.py:50-70 | `<dir>/<a><tag><ext>` gives `<dir>/<a>.parquet` and the tag's language |
| WildchatFilter.ReadTxtToDict | wildchat_filter.py:72-100 | the loop computes the map of the screening list, empty when the file is missing |
| WildchatFilter.ScreenLineShape | wildchat_filter.py:81-91 | a kept line is, once stripped, `uid,tid` with neither part holding a comma |
| WildchatFilter.FillKeys | wildchat_filter.py:86-91 | a `uid` is a key exactly when some kept line names it |
| WildchatFilter.FillLast | wildchat_filter.py:88-91 | a `uid` maps to the `tid` of the last kept line that names it |
| WildchatFilter.PairsAt | wildchat_filter.py:174-179 | turn `k` pairs message `2k` with message `2k + 1` |
| WildchatFilter.PairTurns | wildchat_filter.py:172-180 | the `while i < turn*2` loop computes `TurnsOf`: the pairs, or an `IndexError` when messages run out |
| WildchatFilter.TurnsOfShape | wildchat_filter.py:172-180 | a row with `turn = t` yields `t` turns (none when `t <= 0`), turn `k` made of messages `2k` and `2k + 1` |
| WildchatFilter.DataProcess | wildchat_filter.py:148-186 | the pass computes `Extract` over all rows with the screening map; `count` is the number of screened rows attempted, one more than the records written when an `IndexError` ends the pass; every id is a 10-character code |
| WildchatFilter.DataProcessRow | wildchat_filter.py:151-182 | one row is one more step of `Extract`, drawing an id only for a screened row |
| WildchatFilter.ExtractSkipped | wildchat_filter.py:162-184 | a row whose hash is not screened changes nothing |
| WildchatFilter.ExtractRowNext | wildchat_filter.py:162-182 | a screened row appends its record, or ends the pass with the `IndexError` of its turns |
| WildchatFilter.ExtractErrStays | wildchat_filter.py:174-176 | an `IndexError` ends the pass |
| WildchatFilter.ScreenedExactly | wildchat_filter.py:162 | `Screened` lists every screened row once, in increasing order |
| WildchatFilter.ExtractScreened | wildchat_filter.py:148-186 | record `m` comes from the `m`-th screened row, with its hash, turn count, language, screened topic and paired turns; without an error every screened row gives one record |
| WildchatFilter.ProcessJsonLines | wildchat_filter.py:259-287 | the loop computes `Route` of the lines |
| WildchatFilter.RoutableRecords | wildchat_filter.py:274-282 | every record written has a readable topic, and none has topic `"3"` |
| WildchatFilter.RemappedTopic | wildchat_filter.py:274-276 | topic `"3"` becomes `"4"`, every other topic stays, and nothing but the topic changes |
| WildchatFilter.RouteSplits | wildchat_filter.py:278-282 | topic `"2"` records go to the temporary file and all other readable ones to the dictionary file, in file order |
| WildchatFilter.KeepPartition | wildchat_filter.py:278-282 | the two filters share out the records, each record landing in exactly one, chosen by topic `"2"` |
| WildchatFilter.RouteTopics | wildchat_filter.py:274-282 | together the two files hold each readable record once; the temporary file has topic `"2"` only, the dictionary file every other topic except `"3"` |
| WildchatFilter.KeepFrom | wildchat_filter.py:278-282 | what a filter keeps comes from its input |
| WildchatFilter.MergeAndSave | wildchat_filter.py:289-308 | output is written exactly when both inputs exist, and it is the first file's text followed by the second's |
| WildchatFilter.LineCallsSnoc | wildchat_filter.py:392-413 | each turn adds one search at the end, numbered `i + 1`, to the record's `.data` file |
| WildchatFilter.ExtendPrompt | wildchat_filter.py:400-408 | the inner loop appends turn `i`'s lines to `query_string` |
| WildchatFilter.SearchTurnPrompt | wildchat_filter.py:393-408 | the prompt of turn `i` is `LinePrompt`, from the `query_string` the earlier turns left |
| WildchatFilter.SearchTurns | wildchat_filter.py:392-413 | the turn loop leaves `QsAt` and issues the searches `LineCalls` |
| WildchatFilter.SearchLine | wildchat_filter.py:367-413 | one line is one `SearchStep` |
| WildchatFilter.SerpapiSearch | wildchat_filter.py:354-413 | the line loop computes `Serpapi`: the searches and the uncaught exception, if any |
| WildchatFilter.SearchErrStays | wildchat_filter.py:367-390 | an uncaught exception ends the run |
| WildchatFilter.SearchUpToPrefix | wildchat_filter.py:362-413 | the run over `k` lines depends on those lines only |
| WildchatFilter.SearchCap | wildchat_filter.py:362-365 | lines after the twentieth change nothing |
| WildchatFilter.FreshLineCalls | wildchat_filter.py:374-413 | an English or Chinese record is searched once per turn, turn `i` with the keyword prompt `build_json` uses, under its locale, into `<output>/<hash>.data` |
| WildchatFilter.StalePromptGrows | wildchat_filter.py:392-408 | for another language, each turn's prompt extends the previous one, starting from the `query_string` the last English or Chinese line left |

## Left out

- Concurrency: both thread pools run their tasks one after the other in submission order; races on the shared `offset` and on the file are not modelled.
- Progress bars (`tqdm`), logging and `print`: left out; `data_process`'s final message is represented by the returned `count`.
- `time_it`, `time_it_s` and `setup_logging`: wall-clock timing and YAML configuration, not modelled.
- Network and external APIs: HTTP replies, the search engine, the LLM clients and the page and PDF fetchers are parameters; environment keys are not modelled.
- `query_to_keyword` and `search_and_save`: the search calls of `serpapi_search` are recorded as `SearchCall` values holding the keyword prompt, not the keywords the LLM returns.
- `get_webpage_content`, `get_pdf_content`, `get_html_content`, `llm_answer`, `fetch_url_content`, `download_pdf`, `fetch_pdf_text`, `content_filter`, `content_filter_LLM`: external fetchers and filters, represented by `BuildRef.Services`.
- BuildRef.SummaryPrompt: `gen_summ` is modelled as the prompt text handed to the summarizer oracle, with no contract of its own; what the summarizer answers is outside the model.
- `save_json_file` and `append_dict_to_json_file`: JSON serialisation is not modelled; a file holds a list of documents.
- JSON failures: decoding errors are modelled only where the source catches or raises them (`JsonLine.Malformed`, `CheckJson.Stored`); extra keys in contents and key order other than `query` then `answer` are not modelled.
- `check_json.py`: the per-reference and per-turn exception handlers that skip an item are not modelled, since no modelled input raises there; a sub-directory whose name ends in `.json` is not modelled.
- `os.listdir` order: the directory's entries are given as a sequence; `move_files` visits them in an unknown order.
- `os.path.isfile` in `process_file_path` is a parameter.
- `read_txt_to_dict`: a decoding error in the middle of the file is not modelled; the file is given as its lines, or as missing.
- `process_json_lines` writes to the module's fixed `wildchat_filter.txt` and `wildchat_filter.tmp` whatever paths it is given; the model returns the two lists of records appended.
- `read_json_files` and `main` of `llm_gen_answer.py`: the directory walk, the JSON loading and the `<file>.LLM` output are I/O; the work they do per record is `LlmGenAnswer.HandlingConversations`.
- `count_turn_and_topic_values`, `get_organic_results`, `default_serializer` and `calculate_token_count`: only print, or depend on fetched data or foreign libraries.
- `build_prompt.py` is not part of this model.
- Unicode: digits and letters are ASCII; `lower()` maps ASCII letters only.
- The in-place `conversation_history.append` of the LLM clients is modelled by value: the new history is returned; aliasing between models that share a history list is not modelled.
- Download.Chunked: the `while True` wave loop is bounded by a `fuel` number of waves; a run that exhausts it ends as `OutOfFuel`, which the source never reaches.
- Download.GetFileSize: an `int()` of a non-numeric header is one case `NotNumeric`; header parsing is not modelled further.
- Download.SingleThread: of the single stream's response headers only Content-Length is modelled, as readable, missing or unreadable; its value only sizes the progress bar.
- BuildJson.EnrichTurn: `get_pdf_content` saves every PDF answered with status 200 as `temp/<uuid4>.pdf`, even when the text cannot be read; `BuildRef.Services.fetchPdf` returns the text only and writes no file, so the frame of `temp` leaves those files out.
- BuildJson.EnrichTurns: the same PDF files are left out of its `temp` frame.
- BuildJson.BuildJsonRecord: the same PDF files are left out of its `temp` frame.
- BuildJson.EnrichAndSave: "only the record's three files may appear in `temp`" holds only because the PDF files are not modelled; in the source `temp` also gains one `<uuid4>.pdf` per PDF downloaded.
- BuildJson.ProcessRecord: "`data` changes only in the record's files" holds only because the PDF files are not modelled; in the source `move_files` also carries the downloaded `<uuid4>.pdf` files into `data`.
- BuildRef.SupplementSpec: an organic result always has `position`, `title`, `snippet` and `link`; a result missing one of them makes `supplement_ref` raise `KeyError`, which the model cannot express.
- CheckJson.ProcessContentsFromDict: a turn list is always present; for a `conversations` object without `contents` the source inserts `contents: []`, which the model cannot express.
- BuildJson.BuildReferences: does not require the module's own prompt texts; nothing proved depends on them.

## Findings

The pipelines (`split_answer` and `handling_conversations`, `process_json_files`)
model the code as written; the corrected members stand beside them.

| source | as written | input that shows it | evidently intended | confidence | as-written member | corrected member |
|---|---|---|---|---|---|---|
| llm_gen_answer.py:172-176 | a cited number `n` is matched against `ref["idx"]`, which `supplement_ref` sets to the 0-based position in the search results (build_ref.py:155), while the answer prompt labels the documents from `[1]` (llm_gen_answer.py:140-142) | two references with `idx` 0 and 1 and the sentence "See [1]": the citation names the second reference, not the document shown as `[1]` | `[n]` names the `n`-th document shown in the prompt | not executed | LlmGenAnswer.ExtractNumbersAndRefIds, LlmGenAnswer.CitationOffByOne | LlmGenAnswer.ExtractCitations, LlmGenAnswer.CitationsNamePromptedDocuments |
| check_json.py:64 | each turn's count replaces the previous one, so `process_references_from_contents` returns the last turn's count only | a first turn with one reference summarized "irrelevant" and a second turn with none: the reference is removed but the count is 0, so `process_count` misses the file | the count is the number of references removed over all turns | not executed | CheckJson.ProcessReferencesFromContents, CheckJson.LastDroppedMissesEarlierTurns | CheckJson.ProcessReferencesCounted, CheckJson.TotalDroppedRemoved |

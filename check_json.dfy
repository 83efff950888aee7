/** The clean-up pass over the enriched records: every turn's `references`
    lose the entries whose summary is missing, empty or marks the document as
    irrelevant, and every `.json` file of the data directory is rewritten with
    its cleaned record. */
module CheckJson {
  import opened Common
  import opened Records

  // ---------------------------------------------------------------------------
  // References

  /** `ref.get('summary', '') in ["不相关", "irrelevant", ""]`: a missing summary
      reads as `""`; a JSON `null` summary is kept. */
  predicate Irrelevant(f: SummaryField) {
    f.MissingSummary? || (f.Summary? && (f.text == "不相关" || f.text == "irrelevant" || f.text == ""))
  }

  /** The references the filter keeps, in their original order. */
  function Kept(refs: seq<Reference>): seq<Reference>
    decreases |refs|
  {
    if |refs| == 0 then []
    else
      var last := refs[|refs| - 1];
      Kept(refs[..|refs| - 1]) + (if Irrelevant(last.summary) then [] else [last])
  }

  /** How many references the filter drops. */
  function Dropped(refs: seq<Reference>): nat
    decreases |refs|
  {
    if |refs| == 0 then 0
    else Dropped(refs[..|refs| - 1]) + (if Irrelevant(refs[|refs| - 1].summary) then 1 else 0)
  }

  /** `del_empty_summary_from_references`: keeps the references with a
      meaningful summary, in order, and counts the others. */
  method DelEmptySummaryFromReferences(refs: seq<Reference>) returns (ret: seq<Reference>, count: nat)
    ensures ret == Kept(refs) && count == Dropped(refs)
  {
    ret := [];
    count := 0;
    var i := 0;
    while i < |refs|
      invariant i <= |refs|
      invariant ret == Kept(refs[..i]) && count == Dropped(refs[..i])
    {
      assert refs[..i + 1][..i] == refs[..i];
      if !Irrelevant(refs[i].summary) {
        ret := ret + [refs[i]];
      } else {
        count := count + 1;
      }
      i := i + 1;
    }
    assert refs[..i] == refs;
  }

  /** Every reference is kept or counted. */
  lemma {:induction false} KeptPlusDropped(refs: seq<Reference>)
    ensures |Kept(refs)| + Dropped(refs) == |refs|
    decreases |refs|
  {
    if |refs| > 0 {
      KeptPlusDropped(refs[..|refs| - 1]);
    }
  }

  /** The filter works reference by reference: filtering a concatenation
      filters each part, so the kept references stay in their order. */
  lemma {:induction false} KeptAppend(a: seq<Reference>, b: seq<Reference>)
    ensures Kept(a + b) == Kept(a) + Kept(b)
    ensures Dropped(a + b) == Dropped(a) + Dropped(b)
    decreases |b|
  {
    if |b| > 0 {
      var b' := b[..|b| - 1];
      assert (a + b)[..|a + b| - 1] == a + b';
      KeptAppend(a, b');
    } else {
      assert a + b == a;
    }
  }

  /** A reference is kept exactly when it has a meaningful summary. */
  lemma {:induction false} KeptMembers(refs: seq<Reference>)
    ensures forall r :: r in Kept(refs) <==> r in refs && !Irrelevant(r.summary)
    decreases |refs|
  {
    if |refs| > 0 {
      var init := refs[..|refs| - 1];
      KeptMembers(init);
      assert refs == init + [refs[|refs| - 1]];
    }
  }

  /** A list without irrelevant references passes the filter unchanged. */
  lemma {:induction false} KeptOfRelevant(refs: seq<Reference>)
    requires forall i :: 0 <= i < |refs| ==> !Irrelevant(refs[i].summary)
    ensures Kept(refs) == refs && Dropped(refs) == 0
    decreases |refs|
  {
    if |refs| > 0 {
      var init, last := refs[..|refs| - 1], refs[|refs| - 1];
      assert !Irrelevant(last.summary);
      assert forall i :: 0 <= i < |init| ==> init[i] == refs[i];
      KeptOfRelevant(init);
      assert Kept(refs) == init + [last] == refs;
    }
  }

  /** Filtering the filtered list removes nothing. */
  lemma KeptIdempotent(refs: seq<Reference>)
    ensures Kept(Kept(refs)) == Kept(refs) && Dropped(Kept(refs)) == 0
  {
    KeptMembers(refs);
    var k := Kept(refs);
    assert forall i :: 0 <= i < |k| ==> k[i] in k;
    KeptOfRelevant(k);
  }

  // ---------------------------------------------------------------------------
  // Turns

  /** `content.get('references', [])`. */
  function RefsOf(c: Content): seq<Reference> {
    if c.references.Some? then c.references.value else []
  }

  /** A turn after clean-up: its `references` key holds the filtered list;
      nothing else changes. */
  function CleanContent(c: Content): Content {
    c.(references := Some(Kept(RefsOf(c))))
  }

  function CleanContents(cs: seq<Content>): (r: seq<Content>)
    ensures |r| == |cs|
    decreases |cs|
  {
    if |cs| == 0 then [] else CleanContents(cs[..|cs| - 1]) + [CleanContent(cs[|cs| - 1])]
  }

  /** The count `process_references_from_contents` returns: each turn's count
      replaces the previous one, so only the last turn's is left. */
  function LastDropped(cs: seq<Content>): nat {
    if |cs| == 0 then 0 else Dropped(RefsOf(cs[|cs| - 1]))
  }

  /** The number of references dropped over all turns. */
  function TotalDropped(cs: seq<Content>): nat
    decreases |cs|
  {
    if |cs| == 0 then 0 else TotalDropped(cs[..|cs| - 1]) + Dropped(RefsOf(cs[|cs| - 1]))
  }

  /** The number of references over all turns. */
  function RefCount(cs: seq<Content>): nat
    decreases |cs|
  {
    if |cs| == 0 then 0 else RefCount(cs[..|cs| - 1]) + |RefsOf(cs[|cs| - 1])|
  }

  /** `process_references_from_contents` as written: every turn is cleaned,
      and the count returned is the last turn's. */
  method ProcessReferencesFromContents(contents: seq<Content>) returns (ret: seq<Content>, count: nat)
    ensures ret == CleanContents(contents) && count == LastDropped(contents)
  {
    ret := [];
    count := 0;
    var i := 0;
    while i < |contents|
      invariant i <= |contents|
      invariant ret == CleanContents(contents[..i]) && count == LastDropped(contents[..i])
    {
      assert contents[..i + 1][..i] == contents[..i];
      var content := contents[i];
      var refs;
      refs, count := DelEmptySummaryFromReferences(RefsOf(content));
      ret := ret + [content.(references := Some(refs))];
      i := i + 1;
    }
    assert contents[..i] == contents;
  }

  /** A file whose first turn loses a reference and whose last turn loses
      none reports no deletion. */
  lemma LastDroppedMissesEarlierTurns()
    ensures var bad := Reference("r", 0, 1, "", "", "", WebPage, "", Summary("irrelevant"));
            var cs := [Content("q1", "a1", Some([bad]), None), Content("q2", "a2", Some([]), None)];
            LastDropped(cs) == 0 && TotalDropped(cs) == 1 && RefCount(CleanContents(cs)) < RefCount(cs)
  {
    var bad := Reference("r", 0, 1, "", "", "", WebPage, "", Summary("irrelevant"));
    var cs := [Content("q1", "a1", Some([bad]), None), Content("q2", "a2", Some([]), None)];
    assert cs[..1] == [cs[0]];
    assert [bad][..0] == [];
    assert CleanContents(cs[..1]) == [CleanContent(cs[0])];
  }

  /** The loop of `process_references_from_contents` with the counts added up:
      the number of references the turns lose together. */
  method ProcessReferencesCounted(contents: seq<Content>) returns (ret: seq<Content>, count: nat)
    ensures ret == CleanContents(contents) && count == TotalDropped(contents)
  {
    ret := [];
    count := 0;
    var i := 0;
    while i < |contents|
      invariant i <= |contents|
      invariant ret == CleanContents(contents[..i]) && count == TotalDropped(contents[..i])
    {
      assert contents[..i + 1][..i] == contents[..i];
      var content := contents[i];
      var refs, n := DelEmptySummaryFromReferences(RefsOf(content));
      ret := ret + [content.(references := Some(refs))];
      count := count + n;
      i := i + 1;
    }
    assert contents[..i] == contents;
  }

  /** Turn `i` of the output is turn `i` cleaned. */
  lemma {:induction false} CleanContentsAt(cs: seq<Content>, i: nat)
    requires i < |cs|
    ensures CleanContents(cs)[i] == CleanContent(cs[i])
    decreases |cs|
  {
    if i < |cs| - 1 {
      CleanContentsAt(cs[..|cs| - 1], i);
    }
  }

  /** The added-up count is exactly the number of references removed from
      the turns. */
  lemma {:induction false} TotalDroppedRemoved(cs: seq<Content>)
    ensures TotalDropped(cs) + RefCount(CleanContents(cs)) == RefCount(cs)
    decreases |cs|
  {
    if |cs| > 0 {
      var init := cs[..|cs| - 1];
      TotalDroppedRemoved(init);
      KeptPlusDropped(RefsOf(cs[|cs| - 1]));
      var out := CleanContents(cs);
      assert out[..|out| - 1] == CleanContents(init);
    }
  }

  /** A list loses no reference exactly when it holds no irrelevant one. */
  lemma {:induction false} DroppedZero(refs: seq<Reference>)
    ensures Dropped(refs) == 0 <==> forall k :: 0 <= k < |refs| ==> !Irrelevant(refs[k].summary)
    decreases |refs|
  {
    if |refs| > 0 {
      var init := refs[..|refs| - 1];
      DroppedZero(init);
      assert forall k :: 0 <= k < |init| ==> init[k] == refs[k];
    }
  }

  /** The added-up count is zero exactly when no turn has a reference to drop. */
  lemma {:induction false} TotalDroppedZero(cs: seq<Content>)
    ensures TotalDropped(cs) == 0 <==>
            forall i, k :: 0 <= i < |cs| && 0 <= k < |RefsOf(cs[i])| ==> !Irrelevant(RefsOf(cs[i])[k].summary)
    decreases |cs|
  {
    if |cs| > 0 {
      var init := cs[..|cs| - 1];
      TotalDroppedZero(init);
      DroppedZero(RefsOf(cs[|cs| - 1]));
      assert forall i :: 0 <= i < |init| ==> init[i] == cs[i];
    }
  }

  /** Cleaning cleaned turns changes nothing and drops nothing. */
  lemma {:induction false} CleanContentsIdempotent(cs: seq<Content>)
    ensures CleanContents(CleanContents(cs)) == CleanContents(cs)
    ensures TotalDropped(CleanContents(cs)) == 0
    decreases |cs|
  {
    if |cs| > 0 {
      var init := cs[..|cs| - 1];
      CleanContentsIdempotent(init);
      var out := CleanContents(cs);
      assert out[..|out| - 1] == CleanContents(init);
      KeptIdempotent(RefsOf(cs[|cs| - 1]));
    }
  }

  // ---------------------------------------------------------------------------
  // Records

  /** A record after clean-up: without `conversations` it is left as it is;
      otherwise its turns are cleaned. */
  function CleanRecord(d: Record): Record {
    match d.conversations
    case None => d
    case Some(conv) => d.(conversations := Some(conv.(contents := CleanContents(conv.contents))))
  }

  /** The count `process_contents_from_dict` returns: the last turn's count,
      as `process_references_from_contents` leaves it. */
  function RecordDropped(d: Record): nat {
    if d.conversations.None? then 0 else LastDropped(d.conversations.value.contents)
  }

  /** The references a record's clean-up removes over all its turns. */
  function RecordRemoved(d: Record): nat {
    if d.conversations.None? then 0 else TotalDropped(d.conversations.value.contents)
  }

  /** `process_contents_from_dict`: the turns are cleaned and the count is the
      one `process_references_from_contents` returns. A record without
      `conversations` reads as having no turns. */
  method ProcessContentsFromDict(d: Record) returns (d': Record, count: nat)
    ensures d' == CleanRecord(d) && count == RecordDropped(d)
  {
    if d.conversations.None? {
      var _, n := ProcessReferencesFromContents([]);
      return d, n;
    }
    var conv := d.conversations.value;
    var contents, n := ProcessReferencesFromContents(conv.contents);
    d' := d.(conversations := Some(conv.(contents := contents)));
    count := n;
  }

  /** The last turn's count never exceeds the references the turns lose
      together, and it is positive only if some reference was removed. */
  lemma {:induction false} LastWithinTotal(cs: seq<Content>)
    ensures LastDropped(cs) <= TotalDropped(cs)
    ensures LastDropped(cs) > 0 ==> RefCount(CleanContents(cs)) < RefCount(cs)
  {
    if |cs| > 0 {
      TotalDroppedRemoved(cs);
    }
  }

  /** Only `conversations.contents[*].references` change: the record's ids,
      its other fields and every turn's query, answer and answers stay. */
  lemma CleanRecordKeeps(d: Record)
    ensures CleanRecord(d).id == d.id && CleanRecord(d).hash == d.hash
    ensures CleanRecord(d).conversations.Some? <==> d.conversations.Some?
    ensures d.conversations.Some? ==>
              var c := d.conversations.value;
              var c' := CleanRecord(d).conversations.value;
              && c'.turn == c.turn && c'.lang == c.lang && c'.topic == c.topic
              && |c'.contents| == |c.contents|
              && forall i :: 0 <= i < |c.contents| ==>
                   && c'.contents[i].query == c.contents[i].query
                   && c'.contents[i].answer == c.contents[i].answer
                   && c'.contents[i].answers == c.contents[i].answers
                   && c'.contents[i].references == Some(Kept(RefsOf(c.contents[i])))
  {
    if d.conversations.Some? {
      var cs := d.conversations.value.contents;
      forall i | 0 <= i < |cs| ensures CleanContents(cs)[i] == CleanContent(cs[i]) {
        CleanContentsAt(cs, i);
      }
    }
  }

  // ---------------------------------------------------------------------------
  // The data directory

  /** What a file of the directory holds, as `read_json_file` sees it. */
  datatype Stored =
    | ZeroByte            // an empty file
    | Unparsable          // not JSON: `read_json_file` returns `None`
    | NullJson            // the JSON value `null`
    | OtherJson           // JSON that is not an object: `.get` raises, the value is written back
    | Parsed(doc: Record) // a record

  /** The file after `process_json_files` wrote it back: a file that did not
      parse is overwritten with `null`. */
  function Rewritten(s: Stored): Stored {
    match s
    case Parsed(d) => Parsed(CleanRecord(d))
    case Unparsable => NullJson
    case _ => s
  }

  /** The count `process_contents_from_dict` returns for a file's content. */
  function FileDropped(s: Stored): nat {
    if s.Parsed? then RecordDropped(s.doc) else 0
  }

  /** The references the clean-up removes from a file's content. */
  function FileRemoved(s: Stored): nat {
    if s.Parsed? then RecordRemoved(s.doc) else 0
  }

  predicate IsJsonName(n: string) {
    EndsWith(n, ".json")
  }

  /** One entry of `os.listdir(directory)`: a file name and what it holds. */
  datatype FileEntry = FileEntry(name: string, stored: Stored)

  /** A `.json` file `is_zero_byte_json` reports empty. */
  predicate IsEmptyJson(e: FileEntry) {
    IsJsonName(e.name) && e.stored.ZeroByte?
  }

  /** A `.json` file that is read, cleaned and written back. */
  predicate Processes(e: FileEntry) {
    IsJsonName(e.name) && !e.stored.ZeroByte?
  }

  /** An entry after the pass: rewritten if it is processed. */
  function Visit(e: FileEntry): FileEntry {
    if Processes(e) then e.(stored := Rewritten(e.stored)) else e
  }

  /** The listing after the pass over all its entries. */
  function AfterPass(es: seq<FileEntry>): (r: seq<FileEntry>)
    ensures |r| == |es|
    decreases |es|
  {
    if |es| == 0 then [] else AfterPass(es[..|es| - 1]) + [Visit(es[|es| - 1])]
  }

  /** `empty_count`: the empty `.json` files. */
  function EmptyCount(es: seq<FileEntry>): nat
    decreases |es|
  {
    if |es| == 0 then 0 else EmptyCount(es[..|es| - 1]) + (if IsEmptyJson(es[|es| - 1]) then 1 else 0)
  }

  /** `total_count`: the `.json` files processed. */
  function TotalCount(es: seq<FileEntry>): nat
    decreases |es|
  {
    if |es| == 0 then 0 else TotalCount(es[..|es| - 1]) + (if Processes(es[|es| - 1]) then 1 else 0)
  }

  /** `process_count`: the processed files whose last turn lost references. */
  function ChangedCount(es: seq<FileEntry>): nat
    decreases |es|
  {
    if |es| == 0 then 0
    else
      var e := es[|es| - 1];
      ChangedCount(es[..|es| - 1]) + (if Processes(e) && FileDropped(e.stored) > 0 then 1 else 0)
  }

  /** The processed files that lost a reference in any turn: what
      `process_count` is meant to count. */
  function LosingCount(es: seq<FileEntry>): nat
    decreases |es|
  {
    if |es| == 0 then 0
    else
      var e := es[|es| - 1];
      LosingCount(es[..|es| - 1]) + (if Processes(e) && FileRemoved(e.stored) > 0 then 1 else 0)
  }

  /** The number of `.json` names in a listing. */
  function JsonCount(es: seq<FileEntry>): nat
    decreases |es|
  {
    if |es| == 0 then 0 else JsonCount(es[..|es| - 1]) + (if IsJsonName(es[|es| - 1].name) then 1 else 0)
  }

  /** The body of `process_json_files` for one non-empty `.json` file: read,
      clean, write back. */
  method ProcessFile(stored: Stored) returns (written: Stored, count: nat)
    ensures written == Rewritten(stored) && count == FileDropped(stored)
  {
    written, count := stored, 0;
    if stored.Parsed? {
      var d';
      d', count := ProcessContentsFromDict(stored.doc);
      written := Parsed(d');
    } else if stored.Unparsable? {
      written := NullJson;
    }
  }

  class JsonDirectory {
    /** The directory's entries in the order `os.listdir` gives them. */
    var entries: seq<FileEntry>

    constructor(entries0: seq<FileEntry>)
      ensures entries == entries0
    {
      entries := entries0;
    }

    /** `process_json_files`: every non-empty `.json` file is rewritten with
        its cleaned record; the counters give the empty files, the files
        rewritten and those whose last turn lost references. */
    method ProcessJsonFiles() returns (total: nat, empty: nat, processed: nat)
      modifies this
      ensures entries == AfterPass(old(entries))
      ensures empty == EmptyCount(old(entries)) && total == TotalCount(old(entries))
      ensures processed == ChangedCount(old(entries))
    {
      var out;
      out, total, empty, processed := PassOver(entries);
      entries := out;
    }
  }

  /** The loop of `process_json_files` over the listing `es`: the entries it
      leaves and the three counters. */
  method PassOver(es: seq<FileEntry>) returns (out: seq<FileEntry>, total: nat, empty: nat, processed: nat)
    ensures out == AfterPass(es)
    ensures empty == EmptyCount(es) && total == TotalCount(es) && processed == ChangedCount(es)
  {
    out := [];
    total, empty, processed := 0, 0, 0;
    var i := 0;
    while i < |es|
      invariant i <= |es|
      invariant out == AfterPass(es[..i])
      invariant empty == EmptyCount(es[..i]) && total == TotalCount(es[..i]) && processed == ChangedCount(es[..i])
    {
      assert es[..i + 1][..i] == es[..i];
      var e := es[i];
      var written := e;
      if IsEmptyJson(e) {
        empty := empty + 1;
      } else if Processes(e) {
        var stored, count := ProcessFile(e.stored);
        written := FileEntry(e.name, stored);
        if count > 0 {
          processed := processed + 1;
        }
        total := total + 1;
      }
      out := out + [written];
      i := i + 1;
    }
    assert es[..i] == es;
  }

  /** Every `.json` file is counted as empty or as processed, and the files
      `process_count` counts are among those processed. */
  lemma {:induction false} CountersAddUp(es: seq<FileEntry>)
    ensures EmptyCount(es) + TotalCount(es) == JsonCount(es)
    ensures ChangedCount(es) <= TotalCount(es)
    decreases |es|
  {
    if |es| > 0 {
      CountersAddUp(es[..|es| - 1]);
    }
  }

  /** The pass keeps every entry's name and position and touches only the
      processed files. */
  lemma {:induction false} AfterPassAt(es: seq<FileEntry>, i: nat)
    requires i < |es|
    ensures AfterPass(es)[i].name == es[i].name
    ensures AfterPass(es)[i] == if Processes(es[i]) then FileEntry(es[i].name, Rewritten(es[i].stored)) else es[i]
    decreases |es|
  {
    if i < |es| - 1 {
      AfterPassAt(es[..|es| - 1], i);
    }
  }

  /** A second pass over the directory rewrites every file to itself and
      finds nothing to delete. */
  lemma {:induction false} PassIdempotent(es: seq<FileEntry>)
    ensures AfterPass(AfterPass(es)) == AfterPass(es)
    ensures ChangedCount(AfterPass(es)) == 0 && LosingCount(AfterPass(es)) == 0
    decreases |es|
  {
    if |es| > 0 {
      var init := es[..|es| - 1];
      PassIdempotent(init);
      var once := AfterPass(es);
      assert once[..|once| - 1] == AfterPass(init);
      var e := es[|es| - 1];
      match e.stored
      case Parsed(d) =>
        if d.conversations.Some? {
          CleanContentsIdempotent(d.conversations.value.contents);
          LastWithinTotal(CleanContents(d.conversations.value.contents));
        }
      case _ =>
    }
  }

  /** `process_count` counts only files that lost references, so it never
      exceeds the number of such files; it misses a file whose last turn
      lost none. */
  lemma {:induction false} ProcessCountUndercounts(es: seq<FileEntry>)
    ensures ChangedCount(es) <= LosingCount(es)
    decreases |es|
  {
    if |es| > 0 {
      ProcessCountUndercounts(es[..|es| - 1]);
      var e := es[|es| - 1];
      if e.stored.Parsed? && e.stored.doc.conversations.Some? {
        LastWithinTotal(e.stored.doc.conversations.value.contents);
      }
    }
  }

  /** A directory holding one file whose first turn loses a reference and
      whose last turn loses none: the file is rewritten, but `process_count`
      stays 0. */
  lemma ProcessCountMissesFile()
    ensures var bad := Reference("r", 0, 1, "", "", "", WebPage, "", Summary("irrelevant"));
            var cs := [Content("q1", "a1", Some([bad]), None), Content("q2", "a2", Some([]), None)];
            var es := [FileEntry("a.json", Parsed(Record("1", "h", Some(Conversations(2, "English", None, cs)))))];
            ChangedCount(es) == 0 && LosingCount(es) == 1
  {
    LastDroppedMissesEarlierTurns();
    var bad := Reference("r", 0, 1, "", "", "", WebPage, "", Summary("irrelevant"));
    var cs := [Content("q1", "a1", Some([bad]), None), Content("q2", "a2", Some([]), None)];
    var es := [FileEntry("a.json", Parsed(Record("1", "h", Some(Conversations(2, "English", None, cs)))))];
    assert es[..0] == [];
    EndsWithSlice("a.json", ".json");
    assert IsJsonName(es[0].name);
  }
}

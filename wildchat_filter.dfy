/** The WildChat extraction stage: screening conversations by a first question
    word, deriving the parquet file and language of a screening list, reading the
    list into a `conversation_hash -> topic` map, pairing the conversation
    messages of the screened rows into turns, re-routing the extracted records by
    topic, concatenating the two routed files, and assembling the keyword prompts
    of the SerpApi search for the first twenty records. */
module WildchatFilter {
  import opened Common
  import opened Records
  import Staging
  import BuildRef

  // ---------------------------------------------------------------------------
  // check_first_word

  /** The question words `check_first_word` accepts. */
  predicate IsQuestionWord(w: string) {
    w == "what" || w == "when" || w == "why" || w == "who" || w == "where" || w == "how"
  }

  /** The longest whitespace-free prefix of `s`. */
  function TakeWord(s: string): (w: string)
    ensures IsPrefix(w, s)
    ensures forall i :: 0 <= i < |w| ==> w[i] !in PyWhitespace
    ensures |w| == |s| || s[|w|] in PyWhitespace
    decreases |s|
  {
    if |s| == 0 || s[0] in PyWhitespace then "" else [s[0]] + TakeWord(s[1..])
  }

  /** `s.split()[0]`: the first word of `s` once its leading white space is gone. */
  function FirstWord(s: string): string {
    TakeWord(LStrip(s, PyWhitespace))
  }

  /** `s.strip() == ""`. */
  predicate IsBlank(s: string) {
    StripChars(s, PyWhitespace) == ""
  }

  /** `check_first_word(input)`: `"no"` for `None` or a blank text; otherwise the
      input itself when its first lower-cased word is a question word, else `"no"`. */
  function CheckFirstWord(input: Option<string>): (r: string)
    ensures input.None? ==> r == "no"
    ensures input.Some? && IsBlank(input.value) ==> r == "no"
    ensures r == "no" || (input.Some? && r == input.value)
  {
    if input.None? || IsBlank(input.value) then "no"
    else if IsQuestionWord(FirstWord(Lower(input.value))) then input.value
    else "no"
  }

  /** Lower-casing neither creates nor removes white space. */
  lemma LowerSpaces(s: string)
    ensures forall i :: 0 <= i < |s| ==> (Lower(s)[i] in PyWhitespace <==> s[i] in PyWhitespace)
  {
    forall i | 0 <= i < |s| ensures Lower(s)[i] in PyWhitespace <==> s[i] in PyWhitespace {
      LowerAt(s, i);
    }
  }

  /** Stripping a lead of characters of `cs` in front of a text that starts with
      another character gives that text. */
  lemma {:induction false} LStripLead(lead: string, y: string, cs: set<char>)
    requires forall i :: 0 <= i < |lead| ==> lead[i] in cs
    requires |y| > 0 && y[0] !in cs
    ensures LStrip(lead + y, cs) == y
    decreases |lead|
  {
    if |lead| == 0 {
      assert lead + y == y;
    } else {
      assert (lead + y)[0] == lead[0];
      assert (lead + y)[1..] == lead[1..] + y;
      LStripLead(lead[1..], y, cs);
    }
  }

  /** Stripping the end of a text that starts with a kept character keeps that character. */
  lemma {:induction false} RStripKeepsLead(x: string, cs: set<char>)
    requires |x| > 0 && x[0] !in cs
    ensures |RStrip(x, cs)| > 0
    decreases |x|
  {
    if x[|x| - 1] in cs {
      assert |x| > 1;
      assert x[..|x| - 1][0] == x[0];
      RStripKeepsLead(x[..|x| - 1], cs);
    }
  }

  /** The first word of a word followed by nothing or by white space is that word. */
  lemma {:induction false} TakeWordOf(w: string, rest: string)
    requires forall i :: 0 <= i < |w| ==> w[i] !in PyWhitespace
    requires rest == "" || rest[0] in PyWhitespace
    ensures TakeWord(w + rest) == w
    decreases |w|
  {
    if |w| == 0 {
      assert w + rest == rest;
    } else {
      assert (w + rest)[0] == w[0];
      assert (w + rest)[1..] == w[1..] + rest;
      TakeWordOf(w[1..], rest);
      assert w == [w[0]] + w[1..];
    }
  }

  /** A text made of white space, a word, and nothing or white space followed by
      anything is not blank. */
  lemma WordTextNotBlank(lead: string, w: string, rest: string)
    requires forall i :: 0 <= i < |lead| ==> lead[i] in PyWhitespace
    requires |w| > 0 && forall i :: 0 <= i < |w| ==> w[i] !in PyWhitespace
    requires rest == "" || rest[0] in PyWhitespace
    ensures !IsBlank(lead + w + rest)
  {
    var s := lead + w + rest;
    assert s == lead + (w + rest);
    LStripLead(lead, w + rest, PyWhitespace);
    assert (w + rest)[0] == w[0];
    RStripKeepsLead(w + rest, PyWhitespace);
  }

  /** Lower-casing white space gives white space. */
  lemma LowerAllSpace(s: string)
    requires forall i :: 0 <= i < |s| ==> s[i] in PyWhitespace
    ensures forall i :: 0 <= i < |Lower(s)| ==> Lower(s)[i] in PyWhitespace
  {
    LowerSpaces(s);
  }

  /** Lower-casing a word gives a word. */
  lemma LowerNoSpace(s: string)
    requires forall i :: 0 <= i < |s| ==> s[i] !in PyWhitespace
    ensures forall i :: 0 <= i < |Lower(s)| ==> Lower(s)[i] !in PyWhitespace
  {
    LowerSpaces(s);
  }

  /** Lower-casing keeps a leading white-space character. */
  lemma LowerSpaceHead(s: string)
    requires s == "" || s[0] in PyWhitespace
    ensures Lower(s) == "" || Lower(s)[0] in PyWhitespace
  {
    if s != "" {
      LowerAt(s, 0);
    }
  }

  /** The first word of white space, a word, and nothing or white space
      followed by anything is that word. */
  lemma FirstWordOf(lead: string, w: string, rest: string)
    requires forall i :: 0 <= i < |lead| ==> lead[i] in PyWhitespace
    requires |w| > 0 && forall i :: 0 <= i < |w| ==> w[i] !in PyWhitespace
    requires rest == "" || rest[0] in PyWhitespace
    ensures FirstWord(lead + (w + rest)) == w
  {
    assert (w + rest)[0] == w[0];
    LStripLead(lead, w + rest, PyWhitespace);
    TakeWordOf(w, rest);
  }

  lemma LowerThree(a: string, b: string, c: string)
    ensures Lower(a + b + c) == Lower(a) + (Lower(b) + Lower(c))
  {
    assert a + b + c == a + (b + c);
    LowerAppend(a, b + c);
    LowerAppend(b, c);
  }

  /** The first lower-cased word of such a text is the lower-cased word. */
  lemma LowerWordText(lead: string, w: string, rest: string)
    requires forall i :: 0 <= i < |lead| ==> lead[i] in PyWhitespace
    requires |w| > 0 && forall i :: 0 <= i < |w| ==> w[i] !in PyWhitespace
    requires rest == "" || rest[0] in PyWhitespace
    ensures FirstWord(Lower(lead + w + rest)) == Lower(w)
  {
    LowerThree(lead, w, rest);
    LowerAllSpace(lead);
    LowerNoSpace(w);
    LowerSpaceHead(rest);
    FirstWordOf(Lower(lead), Lower(w), Lower(rest));
  }

  /** What `check_first_word` does with a text made of white space, a word, and
      nothing or white space followed by anything: the text comes back exactly when
      the lower-cased word is a question word. */
  lemma CheckFirstWordOf(lead: string, w: string, rest: string)
    requires forall i :: 0 <= i < |lead| ==> lead[i] in PyWhitespace
    requires |w| > 0 && forall i :: 0 <= i < |w| ==> w[i] !in PyWhitespace
    requires rest == "" || rest[0] in PyWhitespace
    ensures CheckFirstWord(Some(lead + w + rest)) == if IsQuestionWord(Lower(w)) then lead + w + rest else "no"
  {
    WordTextNotBlank(lead, w, rest);
    LowerWordText(lead, w, rest);
  }

  /** A text that is not blank has a first word: `words[0]` exists. */
  lemma NotBlankHasWord(s: string)
    requires !IsBlank(s)
    ensures FirstWord(Lower(s)) != ""
  {
    var y := LStrip(s, PyWhitespace);
    assert |y| > 0;
    LStripLower(s);
    LowerAt(y, 0);
    assert Lower(y)[0] !in PyWhitespace;
  }

  /** Stripping leading white space commutes with lower-casing. */
  lemma {:induction false} LStripLower(s: string)
    ensures LStrip(Lower(s), PyWhitespace) == Lower(LStrip(s, PyWhitespace))
    decreases |s|
  {
    if |s| > 0 {
      var l := Lower(s);
      assert l == [LowerChar(s[0])] + Lower(s[1..]);
      assert l[0] == LowerChar(s[0]) && l[1..] == Lower(s[1..]);
      if s[0] in PyWhitespace {
        assert l[0] in PyWhitespace;
        assert LStrip(l, PyWhitespace) == LStrip(Lower(s[1..]), PyWhitespace);
        LStripLower(s[1..]);
      } else {
        assert l[0] !in PyWhitespace;
        assert LStrip(l, PyWhitespace) == l;
      }
    }
  }

  // ---------------------------------------------------------------------------
  // process_file_path

  /** `s.rfind(c)`: the index of the last `c`, or -1. */
  function RFind(s: string, c: char): (k: int)
    ensures -1 <= k < |s|
    ensures k >= 0 ==> s[k] == c
    ensures forall i :: k < i < |s| ==> s[i] != c
    decreases |s|
  {
    if |s| == 0 then -1 else if s[|s| - 1] == c then |s| - 1 else RFind(s[..|s| - 1], c)
  }

  predicate AllOf(s: string, c: char) {
    forall i :: 0 <= i < |s| ==> s[i] == c
  }

  /** `os.path.split(p)`: the text up to and after the last `/`; the head loses its
      trailing slashes unless it is made of slashes only. */
  function PathSplit(p: string): (string, string) {
    var i := RFind(p, '/') + 1;
    var head := p[..i];
    (if AllOf(head, '/') then head else RStrip(head, {'/'}), p[i..])
  }

  /** `os.path.splitext(f)` for a name without `/`: split before the last dot,
      unless only dots come before it. */
  function SplitExt(f: string): (string, string) {
    var d := RFind(f, '.');
    if d >= 0 && !AllOf(f[..d], '.') then (f[..d], f[d..]) else (f, "")
  }

  /** `os.path.join(a, b)` for two parts. */
  function PathJoin(a: string, b: string): string {
    if IsPrefix("/", b) then b else if a == "" || EndsWith(a, "/") then a + b else a + "/" + b
  }

  /** The language tag of a file stem, from its last two characters. */
  function LangOf(name: string): string {
    if EndsWith(name, "cn") then "Chinese" else if EndsWith(name, "en") then "English" else "Unknown"
  }

  /** `process_file_path(p)`, given whether `p` is a regular file: a `ValueError`
      when it is not; otherwise the parquet file beside it, named after its stem
      with every `_cn` and then every `_en` removed, and the stem's language. */
  function ProcessFilePath(isFile: bool, p: string): (r: Result<(string, string)>)
    ensures r.Err? <==> !isFile
    ensures r.Ok? ==> EndsWith(r.value.0, ".parquet")
    ensures r.Ok? ==> r.value.1 in {"Chinese", "English", "Unknown"}
  {
    if !isFile then Err("ValueError")
    else
      var (base, filename) := PathSplit(p);
      var (name, _) := SplitExt(filename);
      var stem := RemoveAll(RemoveAll(name, "_cn"), "_en");
      var b := stem + ".parquet";
      EndsWithSlice(PathJoin(base, b), ".parquet");
      Ok((PathJoin(base, b), LangOf(name)))
  }

  /** The last `c` of `x + [c] + y` is the one after `x` when `y` has none. */
  lemma {:induction false} RFindAfter(x: string, c: char, y: string)
    requires c !in y
    ensures RFind(x + [c] + y, c) == |x|
    decreases |y|
  {
    var s := x + [c] + y;
    if |y| == 0 {
      assert s == x + [c];
    } else {
      var y' := y[..|y| - 1];
      assert s[|s| - 1] == y[|y| - 1];
      assert s[..|s| - 1] == x + [c] + y';
      assert c !in y' by {
        forall i | 0 <= i < |y'| ensures y'[i] != c { assert y'[i] == y[i]; }
      }
      RFindAfter(x, c, y');
    }
  }

  /** A text whose characters all differ from the first one of `sub` does not contain it. */
  lemma {:induction false} MissingLead(s: string, sub: string)
    requires |sub| > 0 && sub[0] !in s
    ensures !Contains(s, sub)
    decreases |s|
  {
    if |s| > 0 {
      assert |sub| <= |s| ==> s[..|sub|][0] == s[0];
      assert sub[0] !in s[1..] by {
        forall i | 0 <= i < |s| - 1 ensures s[1..][i] != sub[0] { assert s[1..][i] == s[i + 1]; }
      }
      MissingLead(s[1..], sub);
    }
  }

  /** A text with no underscore followed by one tag does not contain the other tag. */
  lemma {:induction false} OtherTagAbsent(a: string, tag: string, other: string)
    requires '_' !in a
    requires tag in {"_cn", "_en"} && other in {"_cn", "_en"} && tag != other
    ensures !Contains(a + tag, other)
    decreases |a|
  {
    if |a| == 0 {
      assert a + tag == tag;
      assert tag[..|other|] == tag;
      MissingLead(tag[1..], other);
      assert tag[1..] == (a + tag)[1..];
    } else {
      assert (a + tag)[..|other|][0] == a[0];
      assert '_' !in a[1..] by {
        forall i | 0 <= i < |a| - 1 ensures a[1..][i] != '_' { assert a[1..][i] == a[i + 1]; }
      }
      OtherTagAbsent(a[1..], tag, other);
      assert (a + tag)[1..] == a[1..] + tag;
    }
  }

  /** `os.path.split` of `<dir>/<f>` with `f` free of `/` and `dir` not ending in one. */
  lemma PathSplitOf(dir: string, f: string)
    requires |dir| > 0 && dir[|dir| - 1] != '/'
    requires '/' !in f
    ensures PathSplit(dir + "/" + f) == (dir, f)
  {
    var p := dir + "/" + f;
    assert p == dir + ['/'] + f;
    RFindAfter(dir, '/', f);
    var head := p[..|dir| + 1];
    assert head == dir + "/";
    assert !AllOf(head, '/') by { assert head[|dir| - 1] == dir[|dir| - 1]; }
    assert RStrip(head, {'/'}) == dir by {
      assert head[..|head| - 1] == dir;
    }
    assert p[|dir| + 1..] == f;
  }

  /** `os.path.splitext` of a name that does not start with a dot followed by an
      extension with one leading dot. */
  lemma SplitExtOf(name: string, ext: string)
    requires |name| > 0 && name[0] != '.'
    requires |ext| > 0 && ext[0] == '.' && '.' !in ext[1..]
    ensures SplitExt(name + ext) == (name, ext)
  {
    var f := name + ext;
    assert f == name + ['.'] + ext[1..];
    RFindAfter(name, '.', ext[1..]);
    assert f[..|name|] == name;
    assert f[|name|..] == ext;
    assert !AllOf(name, '.') by { assert name[0] != '.'; }
  }

  /** The stem and the language of `<a><tag>` for `<a>` free of `_`. */
  lemma TaggedStem(a: string, tag: string)
    requires '_' !in a
    requires tag in {"_cn", "_en"}
    ensures RemoveAll(RemoveAll(a + tag, "_cn"), "_en") == a
    ensures LangOf(a + tag) == if tag == "_cn" then "Chinese" else "English"
  {
    TagLang(a, tag);
    var name := a + tag;
    forall k | 0 <= k < |a| ensures !IsPrefix(tag, (a + tag)[k..]) {
      assert (a + tag)[k..][..|tag|][0] == a[k];
    }
    MissingLead(a, "_cn");
    MissingLead(a, "_en");
    if tag == "_cn" {
      RemoveAllTrailing(a, "_cn");
      RemoveAllAbsent(a, "_en");
    } else {
      OtherTagAbsent(a, "_en", "_cn");
      RemoveAllAbsent(name, "_cn");
      RemoveAllTrailing(a, "_en");
    }
  }

  lemma TagLang(a: string, tag: string)
    requires tag in {"_cn", "_en"}
    ensures LangOf(a + tag) == if tag == "_cn" then "Chinese" else "English"
  {
    var name := a + tag;
    EndsWithSlice(name, "cn");
    EndsWithSlice(name, "en");
    assert name[|name| - 2..] == tag[1..];
  }

  /** A screening list named `<dir>/<a><tag><ext>`, with `<a>` free of `_`, `/` and
      `.` and `<tag>` one of `_cn` and `_en`, gives `<dir>/<a>.parquet` and the
      language of the tag. */
  lemma TaggedPath(dir: string, a: string, tag: string, ext: string)
    requires |dir| > 0 && dir[|dir| - 1] != '/'
    requires |a| > 0 && '_' !in a && '/' !in a && '.' !in a
    requires tag in {"_cn", "_en"}
    requires |ext| > 0 && ext[0] == '.' && '/' !in ext && '.' !in ext[1..]
    ensures ProcessFilePath(true, dir + "/" + a + tag + ext)
            == Ok((dir + "/" + a + ".parquet", if tag == "_cn" then "Chinese" else "English"))
  {
    TaggedSplit(dir, a, tag, ext);
    TaggedStem(a, tag);
    ParquetBeside(dir, a);
    ProcessFilePathParts(dir + "/" + a + tag + ext, dir, a + tag + ext, a + tag, a);
  }

  lemma TaggedSplit(dir: string, a: string, tag: string, ext: string)
    requires |dir| > 0 && dir[|dir| - 1] != '/'
    requires |a| > 0 && '/' !in a && '.' !in a
    requires tag in {"_cn", "_en"}
    requires |ext| > 0 && ext[0] == '.' && '/' !in ext && '.' !in ext[1..]
    ensures PathSplit(dir + "/" + a + tag + ext) == (dir, a + tag + ext)
    ensures SplitExt(a + tag + ext).0 == a + tag
  {
    var f := a + tag + ext;
    NoSlash(a, tag, ext);
    assert dir + "/" + a + tag + ext == dir + "/" + f;
    PathSplitOf(dir, f);
    assert (a + tag)[0] == a[0];
    SplitExtOf(a + tag, ext);
  }

  lemma ParquetBeside(dir: string, a: string)
    requires |dir| > 0 && dir[|dir| - 1] != '/'
    requires |a| > 0 && a[0] != '/'
    ensures PathJoin(dir, a + ".parquet") == dir + "/" + a + ".parquet"
  {
    PathJoinOf(dir, a + ".parquet");
  }

  /** `process_file_path` put together from its steps. */
  lemma ProcessFilePathParts(p: string, base: string, f: string, name: string, stem: string)
    requires PathSplit(p) == (base, f) && SplitExt(f).0 == name
    requires RemoveAll(RemoveAll(name, "_cn"), "_en") == stem
    ensures ProcessFilePath(true, p) == Ok((PathJoin(base, stem + ".parquet"), LangOf(name)))
  {
  }

  lemma NoSlash(a: string, tag: string, ext: string)
    requires '/' !in a && tag in {"_cn", "_en"} && '/' !in ext
    ensures '/' !in a + tag + ext
  {
    var f := a + tag + ext;
    forall i | 0 <= i < |f| ensures f[i] != '/' {
      if i >= |a + tag| { assert f[i] == ext[i - |a + tag|]; }
      else if i >= |a| { assert f[i] == tag[i - |a|]; }
    }
  }

  /** `os.path.join` of a directory not ending in `/` and a relative name. */
  lemma PathJoinOf(dir: string, b: string)
    requires |dir| > 0 && dir[|dir| - 1] != '/'
    requires |b| > 0 && b[0] != '/'
    ensures PathJoin(dir, b) == dir + "/" + b
  {
    assert !IsPrefix("/", b) by { assert b[..1][0] == b[0]; }
    EndsWithSlice(dir, "/");
    assert dir[|dir| - 1..] == [dir[|dir| - 1]];
  }

  // ---------------------------------------------------------------------------
  // read_txt_to_dict

  /** One line of a screening list: stripped, non-empty and with exactly one comma,
      it maps its `uid` to its `tid`; any other line is skipped. */
  function ScreenLine(line: string): Option<(string, string)> {
    var l := StripChars(line, PyWhitespace);
    var parts := Split(l, ',');
    if l != "" && |parts| == 2 then Some((parts[0], parts[1])) else None
  }

  /** The parsed lines of a screening list, one entry per line. */
  function ScreenLines(lines: seq<string>): (r: seq<Option<(string, string)>>)
    ensures |r| == |lines|
  {
    seq(|lines|, i requires 0 <= i < |lines| => ScreenLine(lines[i]))
  }

  /** The map that parsed lines fill, later lines overwriting earlier ones. */
  function Fill(entries: seq<Option<(string, string)>>): map<string, string>
    decreases |entries|
  {
    if |entries| == 0 then map[]
    else
      var d := Fill(entries[..|entries| - 1]);
      match entries[|entries| - 1]
      case None => d
      case Some((uid, tid)) => d[uid := tid]
  }

  /** The map of a screening list, empty when the file is missing. */
  function ScreenOf(file: Option<seq<string>>): map<string, string> {
    if file.None? then map[] else Fill(ScreenLines(file.value))
  }

  /** `read_txt_to_dict(path)`, given the lines of the file or `None` when it is
      not found. */
  method ReadTxtToDict(file: Option<seq<string>>) returns (d: map<string, string>)
    ensures d == ScreenOf(file)
  {
    d := map[];
    if file.None? {
      return;
    }
    var lines := file.value;
    ghost var entries := ScreenLines(lines);
    var k := 0;
    while k < |lines|
      invariant 0 <= k <= |lines|
      invariant d == Fill(entries[..k])
    {
      assert entries[..k + 1][..k] == entries[..k];
      assert entries[k] == ScreenLine(lines[k]);
      var line := StripChars(lines[k], PyWhitespace);
      if line != "" {
        var parts := Split(line, ',');
        if |parts| == 2 {
          d := d[parts[0] := parts[1]];
        }
      }
      k := k + 1;
    }
    assert entries[..k] == entries;
  }

  /** A line the list keeps is the stripped line itself: two comma-free parts
      around its one comma. */
  lemma ScreenLineShape(line: string)
    requires ScreenLine(line).Some?
    ensures var (uid, tid) := ScreenLine(line).value;
            StripChars(line, PyWhitespace) == uid + "," + tid && ',' !in uid && ',' !in tid
  {
    var l := StripChars(line, PyWhitespace);
    var parts := Split(l, ',');
    JoinSplit(l, ',');
    assert parts[1..] == [parts[1]];
  }

  /** A `uid` is a key of the map exactly when some kept line names it. */
  lemma {:induction false} FillKeys(entries: seq<Option<(string, string)>>, uid: string)
    ensures uid in Fill(entries) <==>
            exists i :: 0 <= i < |entries| && entries[i].Some? && entries[i].value.0 == uid
    decreases |entries|
  {
    if |entries| > 0 {
      var init := entries[..|entries| - 1];
      FillKeys(init, uid);
      if uid in Fill(init) {
        var i :| 0 <= i < |init| && init[i].Some? && init[i].value.0 == uid;
        assert entries[i] == init[i];
      }
      if exists i :: 0 <= i < |entries| && entries[i].Some? && entries[i].value.0 == uid {
        var i :| 0 <= i < |entries| && entries[i].Some? && entries[i].value.0 == uid;
        if i < |init| { assert init[i] == entries[i]; }
      }
    }
  }

  /** The `tid` of a `uid` is the one of the last kept line that names it. */
  lemma {:induction false} FillLast(entries: seq<Option<(string, string)>>, i: nat, uid: string, tid: string)
    requires i < |entries| && entries[i] == Some((uid, tid))
    requires forall j :: i < j < |entries| ==> entries[j].None? || entries[j].value.0 != uid
    ensures uid in Fill(entries) && Fill(entries)[uid] == tid
    decreases |entries|
  {
    var init := entries[..|entries| - 1];
    if i < |entries| - 1 {
      forall j | i < j < |init| ensures init[j].None? || init[j].value.0 != uid {
        assert init[j] == entries[j];
      }
      assert init[i] == entries[i];
      FillLast(init, i, uid, tid);
    }
  }

  // ---------------------------------------------------------------------------
  // data_process

  /** One parquet row: its `language`, `turn`, `conversation_hash` and the
      `content` of each message of its `conversation`. */
  datatype Row = Row(language: string, turn: int, hash: string, conversation: seq<string>)

  /** The first `t` query/answer pairs of a message list. */
  function Pairs(conv: seq<string>, t: nat): (r: seq<Content>)
    requires 2 * t <= |conv|
    ensures |r| == t
    decreases t
  {
    if t == 0 then [] else Pairs(conv, t - 1) + [Turn(conv[2 * (t - 1)], conv[2 * (t - 1) + 1])]
  }

  /** The turns of a row with `turn` set to `t`: an `IndexError` when the messages
      run out before `2 * t` of them are read. */
  function TurnsOf(conv: seq<string>, t: int): Result<seq<Content>> {
    if t <= 0 then Ok([]) else if 2 * t > |conv| then Err("IndexError") else Ok(Pairs(conv, t))
  }

  /** Turn `k` pairs message `2k` with message `2k + 1`. */
  lemma {:induction false} PairsAt(conv: seq<string>, t: nat, k: nat)
    requires 2 * t <= |conv| && k < t
    ensures Pairs(conv, t)[k] == Turn(conv[2 * k], conv[2 * k + 1])
    decreases t
  {
    if k < t - 1 {
      PairsAt(conv, t - 1, k);
    }
  }

  /** The `while i < turn*2` loop of `data_process`, stepping `i` by two. */
  method PairTurns(conv: seq<string>, turn: int) returns (r: Result<seq<Content>>)
    ensures r == TurnsOf(conv, turn)
  {
    var i := 0;
    var contents: seq<Content> := [];
    while i < turn * 2
      invariant 0 <= i && i % 2 == 0 && i <= |conv| + 1
      invariant turn > 0 ==> i <= 2 * turn
      invariant turn <= 0 ==> i == 0
      invariant i <= |conv| && contents == Pairs(conv, i / 2)
    {
      if i + 1 >= |conv| {
        return Err("IndexError");
      }
      var query := conv[i];
      var answer := conv[i + 1];
      contents := contents + [Turn(query, answer)];
      i := i + 2;
    }
    if turn <= 0 {
      assert i == 0;
    } else {
      assert i == 2 * turn;
    }
    return Ok(contents);
  }

  /** The record `data_process` writes for a screened row with topic `topic`. */
  function Extracted(row: Row, topic: string, id: string, contents: seq<Content>): Record {
    Record(id, row.hash, Some(Conversations(row.turn, row.language, Some(topic), contents)))
  }

  /** The records written so far and the exception that ended the pass, if any. */
  datatype Extraction = Extraction(records: seq<Record>, error: Option<string>)

  /** What `data_process` has written after rows `0 .. k-1`: a row whose hash the
      screening map has gets a fresh id and its turns; an `IndexError` ends the pass,
      keeping what was written. */
  function Extract(rows: seq<Row>, screen: map<string, string>, ids: seq<string>, k: nat): (e: Extraction)
    requires k <= |rows|
    decreases k, 0
  {
    if k == 0 then Extraction([], None) else ExtractAt(rows, screen, ids, k - 1)
  }

  /** The pass after row `j`. */
  function ExtractAt(rows: seq<Row>, screen: map<string, string>, ids: seq<string>, j: nat): Extraction
    requires j < |rows|
    decreases j, 2
  {
    var e := Extract(rows, screen, ids, j);
    if e.error.Some? || rows[j].hash !in screen then e else ExtractRow(rows, screen, ids, j)
  }

  /** Row `j`, screened, when nothing ended the pass before it. */
  function ExtractRow(rows: seq<Row>, screen: map<string, string>, ids: seq<string>, j: nat): Extraction
    requires j < |rows| && rows[j].hash in screen
    decreases j, 1
  {
    var e := Extract(rows, screen, ids, j);
    var row := rows[j];
    match TurnsOf(row.conversation, row.turn)
    case Err(msg) => Extraction(e.records, Some(msg))
    case Ok(cs) => Extraction(e.records + [Extracted(row, screen[row.hash], BuildRef.CodeAt(ids, |e.records|), cs)], None)
  }

  /** `data_process(data)` over the rows of the parquet table. The screening list
      is read again for every row, as in the source; `count` counts the screened
      rows whose turns were attempted, so it exceeds the records written by one when
      an `IndexError` ends the pass. The ids drawn are recorded in `ids`. */
  method DataProcess(rows: seq<Row>, screenFile: Option<seq<string>>)
    returns (out: seq<Record>, count: nat, err: Option<string>, ghost ids: seq<string>)
    ensures Extraction(out, err) == Extract(rows, ScreenOf(screenFile), ids, |rows|)
    ensures count == |ids| == |out| + (if err.Some? then 1 else 0)
    ensures AllCodes(ids)
  {
    out, count, err, ids := [], 0, None, [];
    ghost var screen0 := ScreenOf(screenFile);
    var k := 0;
    while k < |rows|
      invariant 0 <= k <= |rows|
      invariant count == |ids| == |out| && AllCodes(ids)
      invariant Extract(rows, screen0, ids, k) == Extraction(out, None) && err.None?
    {
      var screen := ReadTxtToDict(screenFile);
      var drawn;
      out, err, drawn, ids := DataProcessRow(rows, screen, k, out, ids);
      if drawn {
        count := count + 1;
      }
      if err.Some? {
        ExtractErrStays(rows, screen, ids, k + 1, |rows|);
        return;
      }
      k := k + 1;
    }
  }

  /** One row of `data_process`'s loop, with the screening map `screen` read for it:
      a screened row draws a fresh id and gets its turns paired, which may raise. */
  method DataProcessRow(rows: seq<Row>, screen: map<string, string>, k: nat, out: seq<Record>, ghost ids: seq<string>)
    returns (out': seq<Record>, err: Option<string>, drawn: bool, ghost ids': seq<string>)
    requires k < |rows| && |ids| == |out| && AllCodes(ids)
    requires Extract(rows, screen, ids, k) == Extraction(out, None)
    ensures Extract(rows, screen, ids', k + 1) == Extraction(out', err)
    ensures |ids'| == |ids| + (if drawn then 1 else 0) && |ids'| == |out'| + (if err.Some? then 1 else 0)
    ensures AllCodes(ids')
  {
    var row := rows[k];
    out', err, drawn, ids' := out, None, false, ids;
    if row.hash in screen {
      var topic := screen[row.hash];
      var code := Staging.NewCode();
      drawn := true;
      var contents := PairTurns(row.conversation, row.turn);
      ExtractRowNext(rows, screen, ids, code, k, contents);
      AllCodesSnoc(ids, code);
      ids' := ids + [code];
      if contents.Err? {
        err := Some(contents.error);
        return;
      }
      out' := out + [Extracted(row, topic, code, contents.value)];
    } else {
      ExtractSkipped(rows, screen, ids, k);
    }
  }

  /** Every id drawn is a default-length code. */
  ghost predicate AllCodes(ids: seq<string>) {
    forall m :: 0 <= m < |ids| ==> Staging.IsCode(ids[m])
  }

  lemma AllCodesSnoc(ids: seq<string>, code: string)
    requires AllCodes(ids) && Staging.IsCode(code)
    ensures AllCodes(ids + [code])
  {
  }

  /** A row whose hash is not screened leaves the pass as it was. */
  lemma ExtractSkipped(rows: seq<Row>, screen: map<string, string>, ids: seq<string>, k: nat)
    requires k < |rows| && rows[k].hash !in screen
    ensures Extract(rows, screen, ids, k + 1) == Extract(rows, screen, ids, k)
  {
    assert Extract(rows, screen, ids, k + 1) == ExtractAt(rows, screen, ids, k);
  }

  /** A screened row, with `code` drawn for it and `contents` its turns, when
      nothing ended the pass before. */
  lemma ExtractRowNext(rows: seq<Row>, screen: map<string, string>, ids: seq<string>, code: string, k: nat,
                       contents: Result<seq<Content>>)
    requires k < |rows| && rows[k].hash in screen
    requires Extract(rows, screen, ids, k).error.None? && |Extract(rows, screen, ids, k).records| == |ids|
    requires contents == TurnsOf(rows[k].conversation, rows[k].turn)
    ensures contents.Err? ==>
              Extract(rows, screen, ids + [code], k + 1) == Extraction(Extract(rows, screen, ids, k).records, Some(contents.error))
    ensures contents.Ok? ==>
              Extract(rows, screen, ids + [code], k + 1)
              == Extraction(Extract(rows, screen, ids, k).records + [Extracted(rows[k], screen[rows[k].hash], code, contents.value)], None)
  {
    ExtractIds(rows, screen, ids, ids + [code], k);
    assert (ids + [code])[..|ids|] == ids;
    assert Extract(rows, screen, ids + [code], k + 1) == ExtractAt(rows, screen, ids + [code], k);
    assert ExtractAt(rows, screen, ids + [code], k) == ExtractRow(rows, screen, ids + [code], k);
  }

  /** Only the ids of the records already written matter. */
  lemma {:induction false} ExtractIds(rows: seq<Row>, screen: map<string, string>, ids: seq<string>, more: seq<string>, k: nat)
    requires k <= |rows|
    requires |Extract(rows, screen, ids, k).records| <= |ids| <= |more| && ids == more[..|ids|]
    ensures Extract(rows, screen, more, k) == Extract(rows, screen, ids, k)
    decreases k
  {
    if k > 0 {
      var e := Extract(rows, screen, ids, k - 1);
      assert Extract(rows, screen, ids, k) == ExtractAt(rows, screen, ids, k - 1);
      assert Extract(rows, screen, more, k) == ExtractAt(rows, screen, more, k - 1);
      if e.error.None? && rows[k - 1].hash in screen {
        assert ExtractAt(rows, screen, ids, k - 1) == ExtractRow(rows, screen, ids, k - 1);
        ExtractIds(rows, screen, ids, more, k - 1);
        assert ExtractAt(rows, screen, more, k - 1) == ExtractRow(rows, screen, more, k - 1);
        var row := rows[k - 1];
        if TurnsOf(row.conversation, row.turn).Ok? {
          assert |e.records| < |ids|;
          assert more[|e.records|] == ids[|e.records|];
        }
      } else {
        ExtractIds(rows, screen, ids, more, k - 1);
      }
    }
  }

  /** An `IndexError` ends the pass. */
  lemma {:induction false} ExtractErrStays(rows: seq<Row>, screen: map<string, string>, ids: seq<string>, k: nat, n: nat)
    requires k <= n <= |rows| && Extract(rows, screen, ids, k).error.Some?
    ensures Extract(rows, screen, ids, n) == Extract(rows, screen, ids, k)
    decreases n
  {
    if n > k {
      ExtractErrStays(rows, screen, ids, k, n - 1);
      assert Extract(rows, screen, ids, n) == ExtractAt(rows, screen, ids, n - 1);
    }
  }

  /** The indices of the rows among `0 .. k-1` whose hash the screening map has. */
  function Screened(rows: seq<Row>, screen: map<string, string>, k: nat): (r: seq<nat>)
    requires k <= |rows|
    ensures forall m :: 0 <= m < |r| ==> r[m] < k && rows[r[m]].hash in screen
    decreases k
  {
    if k == 0 then []
    else if rows[k - 1].hash in screen then Screened(rows, screen, k - 1) + [k - 1]
    else Screened(rows, screen, k - 1)
  }

  /** `Screened` lists every screened row once, in order. */
  lemma {:induction false} ScreenedExactly(rows: seq<Row>, screen: map<string, string>, k: nat)
    requires k <= |rows|
    ensures forall j :: 0 <= j < k && rows[j].hash in screen <==> j in Screened(rows, screen, k)
    ensures forall m, n :: 0 <= m < n < |Screened(rows, screen, k)| ==>
              Screened(rows, screen, k)[m] < Screened(rows, screen, k)[n]
    decreases k
  {
    if k > 0 {
      ScreenedExactly(rows, screen, k - 1);
    }
  }

  /** Row `row` accounts for record `rec`: same hash, turn count and language, the
      screened topic, and the turns its messages pair into. */
  predicate ExtractedFrom(rec: Record, row: Row, topic: string) {
    && rec.hash == row.hash
    && rec.conversations.Some?
    && TurnsOf(row.conversation, row.turn) == Ok(rec.conversations.value.contents)
    && rec.conversations.value == Conversations(row.turn, row.language, Some(topic), rec.conversations.value.contents)
  }

  /** Record `m` comes from the `m`-th screened row, with the `m`-th id, and only
      screened rows give records; without an `IndexError` every screened row gives
      one, and otherwise the first screened row whose messages run out ended the pass. */
  lemma {:induction false} ExtractScreened(rows: seq<Row>, screen: map<string, string>, ids: seq<string>, k: nat)
    requires k <= |rows|
    ensures var e, sel := Extract(rows, screen, ids, k), Screened(rows, screen, k);
            && |e.records| <= |sel|
            && (e.error.None? ==> |e.records| == |sel|)
            && (e.error.Some? ==>
                  |e.records| < |sel| && TurnsOf(rows[sel[|e.records|]].conversation, rows[sel[|e.records|]].turn).Err?)
            && forall m :: 0 <= m < |e.records| ==>
                 e.records[m].id == BuildRef.CodeAt(ids, m)
                 && ExtractedFrom(e.records[m], rows[sel[m]], screen[rows[sel[m]].hash])
    decreases k
  {
    if k > 0 {
      ExtractScreened(rows, screen, ids, k - 1);
      var e0, sel0 := Extract(rows, screen, ids, k - 1), Screened(rows, screen, k - 1);
      var e, sel := Extract(rows, screen, ids, k), Screened(rows, screen, k);
      assert e == ExtractAt(rows, screen, ids, k - 1);
      if rows[k - 1].hash in screen {
        assert sel == sel0 + [k - 1];
        assert forall m :: 0 <= m < |sel0| ==> sel[m] == sel0[m];
        if e0.error.None? {
          assert e == ExtractRow(rows, screen, ids, k - 1);
          match TurnsOf(rows[k - 1].conversation, rows[k - 1].turn)
          case Err(_) =>
          case Ok(cs) =>
            assert e.records == e0.records + [Extracted(rows[k - 1], screen[rows[k - 1].hash], BuildRef.CodeAt(ids, |e0.records|), cs)];
        }
      }
    }
  }

  /** The turns of a written record: `turn` of them when `turn` is positive, turn
      `k` pairing messages `2k` and `2k + 1`. */
  lemma TurnsOfShape(conv: seq<string>, t: int, cs: seq<Content>)
    requires TurnsOf(conv, t) == Ok(cs)
    ensures |cs| == (if t <= 0 then 0 else t)
    ensures forall k :: 0 <= k < |cs| ==> 2 * k + 1 < |conv| && cs[k] == Turn(conv[2 * k], conv[2 * k + 1])
  {
    if t > 0 {
      forall k | 0 <= k < |cs| ensures 2 * k + 1 < |conv| && cs[k] == Turn(conv[2 * k], conv[2 * k + 1]) {
        PairsAt(conv, t, k);
      }
    }
  }

  // ---------------------------------------------------------------------------
  // process_json_lines

  /** A line of the extracted-records file: text that is not JSON, or a record. */
  datatype JsonLine = Malformed | Decoded(record: Record)

  /** Topic `"3"` is folded into topic `"4"`; nothing else changes. */
  function Remapped(d: Record): Record {
    if d.conversations.Some? && d.conversations.value.topic == Some("3")
    then d.(conversations := Some(d.conversations.value.(topic := Some("4"))))
    else d
  }

  /** A record whose `conversations.topic` can be read; reading it from any other
      raises a `KeyError`, which the loop catches and skips. */
  predicate Routable(d: Record) {
    d.conversations.Some? && d.conversations.value.topic.Some?
  }

  predicate TopicIs(d: Record, t: string) {
    Routable(d) && d.conversations.value.topic.value == t
  }

  /** What the loop appends to `wildchat_filter.txt` and to `wildchat_filter.tmp`. */
  datatype Routing = Routing(toDict: seq<Record>, toTemp: seq<Record>)

  function Route(lines: seq<JsonLine>): Routing
    decreases |lines|
  {
    if |lines| == 0 then Routing([], [])
    else
      var r := Route(lines[..|lines| - 1]);
      match lines[|lines| - 1]
      case Malformed => r
      case Decoded(d) =>
        var d' := Remapped(d);
        if !Routable(d') then r
        else if TopicIs(d', "2") then Routing(r.toDict, r.toTemp + [d'])
        else Routing(r.toDict + [d'], r.toTemp)
  }

  /** `process_json_lines(src, dict, tmp)` over the lines of `src`. The appends go
      to the module's own `wildchat_filter.txt` and `wildchat_filter.tmp`, written
      here as `toDict` and `toTemp`, whatever `dict` and `tmp` name. */
  method ProcessJsonLines(lines: seq<JsonLine>) returns (toDict: seq<Record>, toTemp: seq<Record>)
    ensures Routing(toDict, toTemp) == Route(lines)
  {
    toDict, toTemp := [], [];
    var k := 0;
    while k < |lines|
      invariant 0 <= k <= |lines|
      invariant Routing(toDict, toTemp) == Route(lines[..k])
    {
      assert lines[..k + 1][..k] == lines[..k];
      match lines[k] {
        case Malformed =>
        case Decoded(d) =>
          var row := d;
          if row.conversations.Some? && row.conversations.value.topic.Some? {
            if row.conversations.value.topic.value == "3" {
              row := row.(conversations := Some(row.conversations.value.(topic := Some("4"))));
            }
          }
          if row.conversations.Some? && row.conversations.value.topic.Some? {
            if row.conversations.value.topic.value == "2" {
              toTemp := toTemp + [row];
            } else {
              toDict := toDict + [row];
            }
          }
      }
      k := k + 1;
    }
    assert lines[..k] == lines;
  }

  /** The decoded records whose topic can be read, remapped, in file order. */
  function RoutableRecords(lines: seq<JsonLine>): (rs: seq<Record>)
    ensures forall m :: 0 <= m < |rs| ==> Routable(rs[m]) && !TopicIs(rs[m], "3")
    decreases |lines|
  {
    if |lines| == 0 then []
    else
      var rs := RoutableRecords(lines[..|lines| - 1]);
      match lines[|lines| - 1]
      case Malformed => rs
      case Decoded(d) => if Routable(Remapped(d)) then rs + [Remapped(d)] else rs
  }

  /** The records of `rs` with topic `"2"` when `two` holds, the others otherwise. */
  function Keep(rs: seq<Record>, two: bool): seq<Record>
    decreases |rs|
  {
    if |rs| == 0 then []
    else
      var k := Keep(rs[..|rs| - 1], two);
      if TopicIs(rs[|rs| - 1], "2") == two then k + [rs[|rs| - 1]] else k
  }

  /** The remap moves topic `"3"` to `"4"`, keeps every other topic, and touches
      nothing but the topic. */
  lemma RemappedTopic(d: Record)
    ensures Routable(Remapped(d)) <==> Routable(d)
    ensures Routable(d) ==> Remapped(d).conversations.value.topic.value
                            == if TopicIs(d, "3") then "4" else d.conversations.value.topic.value
    ensures Remapped(d).id == d.id && Remapped(d).hash == d.hash
    ensures d.conversations.Some? ==>
              Remapped(d).conversations.value.(topic := d.conversations.value.topic) == d.conversations.value
  {
  }

  /** Topic `"2"` records go to the temporary file and all other readable ones to
      the dictionary file, each once and in file order. */
  lemma {:induction false} RouteSplits(lines: seq<JsonLine>)
    ensures Route(lines).toTemp == Keep(RoutableRecords(lines), true)
    ensures Route(lines).toDict == Keep(RoutableRecords(lines), false)
    decreases |lines|
  {
    if |lines| > 0 {
      var init := lines[..|lines| - 1];
      RouteSplits(init);
      var rs := RoutableRecords(init);
      match lines[|lines| - 1]
      case Malformed =>
      case Decoded(d) =>
        if Routable(Remapped(d)) {
          assert RoutableRecords(lines) == rs + [Remapped(d)];
          assert (rs + [Remapped(d)])[..|rs|] == rs;
        }
    }
  }

  /** The two filters share out the records: each record lands in exactly one. */
  lemma KeepPartition(rs: seq<Record>)
    ensures multiset(Keep(rs, true)) + multiset(Keep(rs, false)) == multiset(rs)
    ensures forall m :: 0 <= m < |Keep(rs, true)| ==> TopicIs(Keep(rs, true)[m], "2")
    ensures forall m :: 0 <= m < |Keep(rs, false)| ==> !TopicIs(Keep(rs, false)[m], "2")
  {
    KeepShares(rs);
    KeepTopic(rs, true);
    KeepTopic(rs, false);
  }

  lemma {:induction false} KeepShares(rs: seq<Record>)
    ensures multiset(Keep(rs, true)) + multiset(Keep(rs, false)) == multiset(rs)
    decreases |rs|
  {
    if |rs| > 0 {
      var init := rs[..|rs| - 1];
      KeepShares(init);
      assert rs == init + [rs[|rs| - 1]];
    }
  }

  lemma {:induction false} KeepTopic(rs: seq<Record>, two: bool)
    ensures forall m :: 0 <= m < |Keep(rs, two)| ==> TopicIs(Keep(rs, two)[m], "2") == two
    decreases |rs|
  {
    if |rs| > 0 {
      KeepTopic(rs[..|rs| - 1], two);
    }
  }

  /** Nothing written has topic `"3"`; the temporary file gets topic `"2"` only,
      the dictionary file every other readable topic, and together they hold each
      readable record once. */
  lemma RouteTopics(lines: seq<JsonLine>)
    ensures var r := Route(lines);
            && multiset(r.toDict) + multiset(r.toTemp) == multiset(RoutableRecords(lines))
            && (forall m :: 0 <= m < |r.toTemp| ==> TopicIs(r.toTemp[m], "2"))
            && (forall m :: 0 <= m < |r.toDict| ==>
                  Routable(r.toDict[m]) && !TopicIs(r.toDict[m], "2") && !TopicIs(r.toDict[m], "3"))
  {
    RouteSplits(lines);
    var rs := RoutableRecords(lines);
    KeepPartition(rs);
    KeepFrom(rs, false);
  }

  /** What a filter keeps comes from its input. */
  lemma {:induction false} KeepFrom(rs: seq<Record>, two: bool)
    ensures forall m :: 0 <= m < |Keep(rs, two)| ==> Keep(rs, two)[m] in rs
    decreases |rs|
  {
    if |rs| > 0 {
      var init := rs[..|rs| - 1];
      KeepFrom(init, two);
      forall m | 0 <= m < |Keep(init, two)| ensures Keep(init, two)[m] in rs {
        assert Keep(init, two)[m] in init;
      }
    }
  }

  // ---------------------------------------------------------------------------
  // merge_and_save_files

  /** `merge_and_save_files(data, f1, f2)` given the contents of `f1` and `f2`
      (`None` when missing): the text written to `data`, or `None` when a
      `FileNotFoundError` leaves `data` as it was. */
  function MergeAndSave(f1: Option<string>, f2: Option<string>): (r: Option<string>)
    ensures r.Some? <==> f1.Some? && f2.Some?
    ensures r.Some? ==> |r.value| == |f1.value| + |f2.value|
                        && r.value[..|f1.value|] == f1.value && r.value[|f1.value|..] == f2.value
  {
    if f1.Some? && f2.Some? then Some(f1.value + f2.value) else None
  }

  // ---------------------------------------------------------------------------
  // serpapi_search

  /** The `hl`/`gl` parameters of the search: set for English and Chinese records only. */
  function LocaleOf(lang: string): Option<(string, string)> {
    if lang == "English" then Some(("en", "us"))
    else if lang == "Chinese" then Some(("zh-cn", "cn"))
    else None
  }

  /** One `search_and_save(params, num, filename)`: the file appended to, the turn
      number, the prompt handed to `query_to_keyword`, and the locale parameters. */
  datatype SearchCall = SearchCall(file: string, num: nat, prompt: string, locale: Option<(string, string)>)

  /** The labels and `query_string` one line leaves bound for the next. */
  datatype Carried = Carried(st: BuildRef.KeywordStyle, qs: string)

  /** The state between lines: what is bound (nothing before the first English or
      Chinese line), the searches so far, and the exception that ended the run. */
  datatype SearchState = SearchState(carry: Option<Carried>, calls: seq<SearchCall>, error: Option<string>)

  /** The prompt of turn `i` of a line. An English or Chinese line (`ownStyle`) starts
      each turn from its prefix; any other line keeps extending the `query_string`
      it inherited, `qs0`, turn after turn. */
  function LinePrompt(st: BuildRef.KeywordStyle, ownStyle: bool, qs0: string, contents: seq<Content>, i: nat): string
    requires i < |contents|
    decreases i, 1
  {
    (if ownStyle then st.prefix else QsAt(st, ownStyle, qs0, contents, i)) + BuildRef.TurnLines(st, contents, i, i + 1)
  }

  /** `query_string` once turns `0 .. m-1` of a line are done. */
  function QsAt(st: BuildRef.KeywordStyle, ownStyle: bool, qs0: string, contents: seq<Content>, m: nat): string
    requires m <= |contents|
    decreases m, 0
  {
    if m == 0 then (if ownStyle then st.prefix else qs0) else LinePrompt(st, ownStyle, qs0, contents, m - 1)
  }

  /** The searches for turns `0 .. m-1` of a line. */
  function LineCalls(st: BuildRef.KeywordStyle, ownStyle: bool, qs0: string, contents: seq<Content>,
                     file: string, locale: Option<(string, string)>, m: nat): (r: seq<SearchCall>)
    requires m <= |contents|
    ensures |r| == m
  {
    seq(m, k requires 0 <= k < m => SearchCall(file, k + 1, LinePrompt(st, ownStyle, qs0, contents, k), locale))
  }

  /** One more turn adds its search at the end. */
  lemma LineCallsSnoc(st: BuildRef.KeywordStyle, ownStyle: bool, qs0: string, contents: seq<Content>,
                      file: string, locale: Option<(string, string)>, m: nat)
    requires m < |contents|
    ensures LineCalls(st, ownStyle, qs0, contents, file, locale, m + 1)
            == LineCalls(st, ownStyle, qs0, contents, file, locale, m)
               + [SearchCall(file, m + 1, LinePrompt(st, ownStyle, qs0, contents, m), locale)]
  {
  }

  /** One line of the input. A line that is not JSON raises `JSONDecodeError` and a
      record without `conversations` raises `KeyError`; neither is caught. A record
      in another language than English and Chinese reuses the labels and the
      `query_string` of the last English or Chinese line, and raises
      `UnboundLocalError` when there was none and it has turns. */
  function SearchStep(pr: BuildRef.Prompts, out: string, s: SearchState, line: JsonLine): SearchState
    requires s.error.None?
  {
    match line
      case Malformed => SearchState(s.carry, s.calls, Some("JSONDecodeError"))
      case Decoded(d) =>
        if d.conversations.None? then SearchState(s.carry, s.calls, Some("KeyError"))
        else
          var conv := d.conversations.value;
          var cs := conv.contents;
          var file := out + "/" + d.hash + ".data";
          match BuildRef.StyleOf(pr, conv.lang)
          case Some(st) =>
            SearchState(Some(Carried(st, QsAt(st, true, st.prefix, cs, |cs|))),
                        s.calls + LineCalls(st, true, st.prefix, cs, file, LocaleOf(conv.lang), |cs|), None)
          case None =>
            if |cs| == 0 then s
            else match s.carry
              case None => SearchState(s.carry, s.calls, Some("UnboundLocalError"))
              case Some(c) =>
                SearchState(Some(Carried(c.st, QsAt(c.st, false, c.qs, cs, |cs|))),
                            s.calls + LineCalls(c.st, false, c.qs, cs, file, None, |cs|), None)
  }

  /** The run after lines `0 .. k-1`. */
  function SearchUpTo(pr: BuildRef.Prompts, out: string, lines: seq<JsonLine>, k: nat): SearchState
    requires k <= |lines|
    decreases k, 0
  {
    if k == 0 then SearchState(None, [], None) else SearchAt(pr, out, lines, k - 1)
  }

  /** The run after line `j`: an uncaught exception ends it. */
  function SearchAt(pr: BuildRef.Prompts, out: string, lines: seq<JsonLine>, j: nat): SearchState
    requires j < |lines|
    decreases j, 2
  {
    var s := SearchUpTo(pr, out, lines, j);
    if s.error.Some? then s else SearchNext(pr, out, lines, j)
  }

  /** Line `j` read after a run that is still going. */
  function SearchNext(pr: BuildRef.Prompts, out: string, lines: seq<JsonLine>, j: nat): SearchState
    requires j < |lines| && SearchUpTo(pr, out, lines, j).error.None?
    decreases j, 1
  {
    SearchStep(pr, out, SearchUpTo(pr, out, lines, j), lines[j])
  }

  /** What `serpapi_search` does: the first twenty lines, at most, are read. */
  function Serpapi(pr: BuildRef.Prompts, out: string, lines: seq<JsonLine>): SearchState {
    SearchUpTo(pr, out, lines, if |lines| < 20 then |lines| else 20)
  }

  /** The `for j in range(i + 1)` loop for turn `i`, from `qs`. */
  method ExtendPrompt(st: BuildRef.KeywordStyle, contents: seq<Content>, i: nat, qs0: string) returns (qs: string)
    requires i < |contents|
    ensures qs == qs0 + BuildRef.TurnLines(st, contents, i, i + 1)
  {
    qs := qs0;
    var j := 0;
    while j < i + 1
      invariant 0 <= j <= i + 1
      invariant qs == qs0 + BuildRef.TurnLines(st, contents, i, j)
    {
      ghost var before := BuildRef.TurnLines(st, contents, i, j);
      var line := BuildRef.QueryLine(st, contents[j]);
      if j < i {
        line := line + BuildRef.AnswerLine(st, contents[j]);
      }
      assert line == BuildRef.TurnLine(st, contents[j], j < i);
      AppendAssoc(qs0, before, line);
      qs := qs + line;
      j := j + 1;
    }
  }

  /** The prompt of turn `i`, from the `query_string` the earlier turns left. */
  method SearchTurnPrompt(st: BuildRef.KeywordStyle, ownStyle: bool, qs0: string, contents: seq<Content>, i: nat,
                          qs: string) returns (qs': string)
    requires i < |contents| && qs == QsAt(st, ownStyle, qs0, contents, i)
    ensures qs' == LinePrompt(st, ownStyle, qs0, contents, i)
  {
    qs' := qs;
    if ownStyle {
      qs' := st.prefix;
    }
    assert qs' == if ownStyle then st.prefix else if i == 0 then qs0 else LinePrompt(st, ownStyle, qs0, contents, i - 1);
    qs' := ExtendPrompt(st, contents, i, qs');
  }

  /** The `for i in range(len(contents))` loop of one line. */
  method SearchTurns(st: BuildRef.KeywordStyle, ownStyle: bool, qs0: string, contents: seq<Content>,
                     file: string, locale: Option<(string, string)>) returns (qs: string, calls: seq<SearchCall>)
    ensures qs == QsAt(st, ownStyle, qs0, contents, |contents|)
    ensures calls == LineCalls(st, ownStyle, qs0, contents, file, locale, |contents|)
  {
    qs := if ownStyle then st.prefix else qs0;
    calls := [];
    var i := 0;
    while i < |contents|
      invariant 0 <= i <= |contents|
      invariant qs == QsAt(st, ownStyle, qs0, contents, i)
      invariant calls == LineCalls(st, ownStyle, qs0, contents, file, locale, i)
    {
      qs := SearchTurnPrompt(st, ownStyle, qs0, contents, i, qs);
      LineCallsSnoc(st, ownStyle, qs0, contents, file, locale, i);
      calls := calls + [SearchCall(file, i + 1, qs, locale)];
      i := i + 1;
    }
  }

  /** One line, when nothing has ended the run. */
  method SearchLine(pr: BuildRef.Prompts, out: string, s: SearchState, line: JsonLine) returns (s': SearchState)
    requires s.error.None?
    ensures s' == SearchStep(pr, out, s, line)
  {
    match line {
      case Malformed =>
        return SearchState(s.carry, s.calls, Some("JSONDecodeError"));
      case Decoded(d) =>
        if d.conversations.None? {
          return SearchState(s.carry, s.calls, Some("KeyError"));
        }
        var conv := d.conversations.value;
        var lang := conv.lang;
        var carry := s.carry;
        var locale: Option<(string, string)> := None;
        if lang == "English" || lang == "Chinese" {
          var st := BuildRef.StyleOf(pr, lang).value;
          carry := Some(Carried(st, st.prefix));
          locale := LocaleOf(lang);
        }
        var file := out + "/" + d.hash + ".data";
        var cs := conv.contents;
        if |cs| == 0 {
          return SearchState(carry, s.calls, None);
        }
        if carry.None? {
          return SearchState(s.carry, s.calls, Some("UnboundLocalError"));
        }
        var ownStyle := lang == "English" || lang == "Chinese";
        var qs, calls := SearchTurns(carry.value.st, ownStyle, carry.value.qs, cs, file, locale);
        return SearchState(Some(Carried(carry.value.st, qs)), s.calls + calls, None);
    }
  }

  /** `serpapi_search(data, output)` over the lines of `data`: the line counter
      stops the loop on the twenty-first line. */
  method SerpapiSearch(pr: BuildRef.Prompts, out: string, lines: seq<JsonLine>) returns (calls: seq<SearchCall>, err: Option<string>)
    ensures calls == Serpapi(pr, out, lines).calls && err == Serpapi(pr, out, lines).error
  {
    ghost var n := if |lines| < 20 then |lines| else 20;
    assert Serpapi(pr, out, lines) == SearchUpTo(pr, out, lines, n);
    var count := 0;
    var s := SearchState(None, [], None);
    var k := 0;
    while k < |lines|
      invariant 0 <= k <= n && count == k
      invariant s == SearchUpTo(pr, out, lines, k) && s.error.None?
    {
      count := count + 1;
      if count > 20 {
        break;
      }
      s := SearchLine(pr, out, s, lines[k]);
      assert s == SearchNext(pr, out, lines, k);
      k := k + 1;
      if s.error.Some? {
        SearchErrStays(pr, out, lines, k, n);
        return s.calls, s.error;
      }
    }
    assert k == n;
    return s.calls, s.error;
  }

  /** An uncaught exception ends the run. */
  lemma {:induction false} SearchErrStays(pr: BuildRef.Prompts, out: string, lines: seq<JsonLine>, k: nat, n: nat)
    requires k <= n <= |lines| && SearchUpTo(pr, out, lines, k).error.Some?
    ensures SearchUpTo(pr, out, lines, n) == SearchUpTo(pr, out, lines, k)
    decreases n
  {
    if n > k {
      SearchErrStays(pr, out, lines, k, n - 1);
    }
  }

  /** The run depends on its first `k` lines only. */
  lemma {:induction false} SearchUpToPrefix(pr: BuildRef.Prompts, out: string, a: seq<JsonLine>, b: seq<JsonLine>, k: nat)
    requires k <= |a| && k <= |b| && a[..k] == b[..k]
    ensures SearchUpTo(pr, out, a, k) == SearchUpTo(pr, out, b, k)
    decreases k
  {
    if k > 0 {
      assert a[..k - 1] == a[..k][..k - 1] && b[..k - 1] == b[..k][..k - 1];
      assert a[k - 1] == a[..k][k - 1] && b[k - 1] == b[..k][k - 1];
      SearchUpToPrefix(pr, out, a, b, k - 1);
      if SearchUpTo(pr, out, a, k - 1).error.None? {
        assert SearchNext(pr, out, a, k - 1) == SearchNext(pr, out, b, k - 1);
      }
    }
  }

  /** Lines after the twentieth change nothing. */
  lemma SearchCap(pr: BuildRef.Prompts, out: string, lines: seq<JsonLine>, more: seq<JsonLine>)
    requires |lines| >= 20
    ensures Serpapi(pr, out, lines + more) == Serpapi(pr, out, lines[..20])
  {
    assert (lines + more)[..20] == lines[..20] == lines[..20][..20];
    SearchUpToPrefix(pr, out, lines + more, lines[..20], 20);
  }

  /** An English or Chinese record is searched once per turn, turn `i` with the
      keyword prompt `build_json` uses for it, under the record's locale, appended
      to `<output>/<conversation_hash>.data`. */
  lemma FreshLineCalls(pr: BuildRef.Prompts, out: string, s: SearchState, d: Record)
    requires s.error.None? && d.conversations.Some?
    requires d.conversations.value.lang in {"English", "Chinese"}
    ensures var conv := d.conversations.value;
            var st := BuildRef.StyleOf(pr, conv.lang).value;
            var s' := SearchStep(pr, out, s, Decoded(d));
            && s'.error.None?
            && |s'.calls| == |s.calls| + |conv.contents|
            && s'.calls[..|s.calls|] == s.calls
            && forall i :: 0 <= i < |conv.contents| ==>
                 s'.calls[|s.calls| + i]
                 == SearchCall(out + "/" + d.hash + ".data", i + 1, BuildRef.KeywordPrompt(st, conv.contents, i), LocaleOf(conv.lang))
  {
    var conv := d.conversations.value;
    var st := BuildRef.StyleOf(pr, conv.lang).value;
    var file := out + "/" + d.hash + ".data";
    var lc := LineCalls(st, true, st.prefix, conv.contents, file, LocaleOf(conv.lang), |conv.contents|);
    var s' := SearchStep(pr, out, s, Decoded(d));
    assert s'.calls == s.calls + lc;
    forall i | 0 <= i < |conv.contents|
      ensures s'.calls[|s.calls| + i] == SearchCall(file, i + 1, BuildRef.KeywordPrompt(st, conv.contents, i), LocaleOf(conv.lang))
    {
      assert s'.calls[|s.calls| + i] == lc[i];
    }
  }

  /** For a record in another language, each turn's prompt extends the previous
      one, starting from the `query_string` the last English or Chinese line left. */
  lemma {:induction false} StalePromptGrows(st: BuildRef.KeywordStyle, qs0: string, contents: seq<Content>, i: nat)
    requires i < |contents|
    ensures IsPrefix(qs0, LinePrompt(st, false, qs0, contents, i))
    ensures i > 0 ==> IsPrefix(LinePrompt(st, false, qs0, contents, i - 1), LinePrompt(st, false, qs0, contents, i))
    decreases i
  {
    var p := LinePrompt(st, false, qs0, contents, i);
    var t := BuildRef.TurnLines(st, contents, i, i + 1);
    if i == 0 {
      assert p == qs0 + t;
      assert p[..|qs0|] == qs0;
    } else {
      StalePromptGrows(st, qs0, contents, i - 1);
      var q := LinePrompt(st, false, qs0, contents, i - 1);
      assert QsAt(st, false, qs0, contents, i) == q;
      assert p == q + t;
      assert p[..|q|] == q;
      PrefixTrans(qs0, q, p);
    }
  }
}

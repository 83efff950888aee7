/** The downloader of misc.py: HTTP byte-range requests (section 14.1.2 of RFC 9110,
    `bytes=start-end` with both ends inclusive) written into a local file with
    positioned writes, the multi-part and the wave-by-wave ("chunked") strategies,
    the single-stream fallback and the strategy selection of `download_file`.

    The network is an oracle: a `Server` says what a GET carrying a given Range
    header returns. The thread pools run their tasks one after another in
    submission order; every submitted task runs to its end, because leaving the
    pool's `with` block waits for all of them. */
module Download {
  import opened Common

  /** The header `Range: bytes=start-end`. The end may lie before the start: the
      multi-part split produces `end == start - 1` for an empty part. */
  datatype ByteRange = ByteRange(start: nat, end: int)

  /** The answer to one GET. `Unreachable`: `requests.get` itself raised.
      Otherwise the status, the body as the pieces `iter_content` yields, and
      whether the connection broke after those pieces. */
  datatype Response = Unreachable | Response(status: int, chunks: seq<seq<byte>>, cutOff: bool)

  /** What the remote side answers to a GET with the given Range header
      (`None`: no Range header). */
  type Server = Option<ByteRange> -> Response

  datatype ContentLength = Absent | Numeric(value: int) | NotNumeric
  datatype HeadResponse = HeadUnreachable | Head(status: int, contentLength: ContentLength)

  /** `raise_for_status()` raises exactly for 4xx and 5xx statuses. */
  predicate IsErrorStatus(status: int) {
    400 <= status < 600
  }

  function Max(a: int, b: int): int {
    if a < b then b else a
  }

  function Min(a: int, b: int): int {
    if a < b then a else b
  }

  function Flatten(chunks: seq<seq<byte>>): seq<byte>
    decreases |chunks|
  {
    if |chunks| == 0 then [] else chunks[0] + Flatten(chunks[1..])
  }

  lemma {:induction false} FlattenSnoc(chunks: seq<seq<byte>>, c: seq<byte>)
    ensures Flatten(chunks + [c]) == Flatten(chunks) + c
    decreases |chunks|
  {
    if |chunks| == 0 {
      assert chunks + [c] == [c];
    } else {
      assert (chunks + [c])[1..] == chunks[1..] + [c];
      FlattenSnoc(chunks[1..], c);
    }
  }

  function Zeros(n: nat): (r: seq<byte>)
    ensures |r| == n && forall i :: 0 <= i < n ==> r[i] == 0
  {
    seq(n, _ => 0)
  }

  /** The file after `f.seek(pos); f.write(data)` on a file opened with `'r+b'`:
      `data` replaces the bytes from `pos` on, the file grows when the write
      reaches past its end, and a gap between the old end and `pos` reads as zeros.
      Writing nothing changes nothing. */
  function Overwrite(s: seq<byte>, pos: nat, data: seq<byte>): seq<byte> {
    if |data| == 0 then s
    else if pos <= |s| then
      s[..pos] + data + (if pos + |data| <= |s| then s[pos + |data|..] else [])
    else s + Zeros(pos - |s|) + data
  }

  /** Byte by byte: what a positioned write leaves at each position. */
  ghost predicate IsOverwrite(s: seq<byte>, pos: nat, data: seq<byte>, r: seq<byte>) {
    && |r| == (if |data| == 0 then |s| else Max(|s|, pos + |data|))
    && forall i :: 0 <= i < |r| ==>
         r[i] == (if pos <= i < pos + |data| then data[i - pos] else if i < |s| then s[i] else 0)
  }

  /** A chunk write at `pos` changes exactly the bytes `[pos, pos + |data|)` (and
      fills a gap before them with zeros); every other byte keeps its value. */
  lemma OverwriteMeaning(s: seq<byte>, pos: nat, data: seq<byte>)
    ensures IsOverwrite(s, pos, data, Overwrite(s, pos, data))
  {
  }

  lemma IsOverwriteUnique(s: seq<byte>, pos: nat, data: seq<byte>, r1: seq<byte>, r2: seq<byte>)
    requires IsOverwrite(s, pos, data, r1) && IsOverwrite(s, pos, data, r2)
    ensures r1 == r2
  {
  }

  /** Two writes back to back, the second where the first stopped, are one write. */
  lemma OverwriteConcat(s: seq<byte>, pos: nat, a: seq<byte>, b: seq<byte>)
    ensures Overwrite(Overwrite(s, pos, a), pos + |a|, b) == Overwrite(s, pos, a + b)
  {
    var m := Overwrite(s, pos, a);
    var r := Overwrite(m, pos + |a|, b);
    OverwriteMeaning(s, pos, a);
    OverwriteMeaning(m, pos + |a|, b);
    OverwriteMeaning(s, pos, a + b);
    if |a| == 0 {
      assert a + b == b;
    } else if |b| == 0 {
      assert a + b == a;
    } else {
      assert IsOverwrite(s, pos, a + b, r) by {
        forall i | 0 <= i < |r|
          ensures r[i] == (if pos <= i < pos + |a + b| then (a + b)[i - pos] else if i < |s| then s[i] else 0)
        {
          if pos + |a| <= i < pos + |a| + |b| {
            assert r[i] == b[i - pos - |a|];
          } else if pos <= i < pos + |a| {
            assert i < |m|;
          }
        }
      }
      IsOverwriteUnique(s, pos, a + b, r, Overwrite(s, pos, a + b));
    }
  }

  /** Writing a whole body at position 0 of an empty file gives the body. */
  lemma OverwriteEmpty(data: seq<byte>)
    ensures Overwrite([], 0, data) == data
  {
  }

  /** A file on the local disk, updated in place by the download functions. */
  class LocalFile {
    var bytes: seq<byte>

    constructor (initial: seq<byte>)
      ensures bytes == initial
    {
      bytes := initial;
    }

    /** `open(filename, 'wb')`: the file exists and is empty. */
    method Create()
      modifies this
      ensures bytes == []
    {
      bytes := [];
    }

    /** `f.truncate(n)`: cut to `n` bytes, or extend with zero bytes up to `n`. */
    method Truncate(n: nat)
      modifies this
      ensures bytes == if n <= |old(bytes)| then old(bytes)[..n] else old(bytes) + Zeros(n - |old(bytes)|)
    {
      if n <= |bytes| {
        bytes := bytes[..n];
      } else {
        bytes := bytes + Zeros(n - |bytes|);
      }
    }

    /** `f.seek(pos); f.write(data)`. */
    method WriteAt(pos: nat, data: seq<byte>)
      modifies this
      ensures bytes == Overwrite(old(bytes), pos, data)
    {
      bytes := Overwrite(bytes, pos, data);
    }

    /** `f.seek(pos)` and then `f.write(chunk)` for every non-empty piece of a
        streamed body; the file cursor advances past each piece. */
    method WriteChunksAt(pos: nat, chunks: seq<seq<byte>>)
      modifies this
      ensures bytes == Overwrite(old(bytes), pos, Flatten(chunks))
    {
      var cursor := pos;
      var k := 0;
      while k < |chunks|
        invariant 0 <= k <= |chunks|
        invariant cursor == pos + |Flatten(chunks[..k])|
        invariant bytes == Overwrite(old(bytes), pos, Flatten(chunks[..k]))
      {
        var piece := chunks[k];
        WriteStep(old(bytes), pos, chunks, k);
        if |piece| > 0 {
          WriteAt(cursor, piece);
        }
        cursor := cursor + |piece|;
        k := k + 1;
      }
      assert chunks[..k] == chunks;
    }
  }

  /** One more piece of a stream, written where the previous pieces stopped. */
  lemma WriteStep(s: seq<byte>, pos: nat, chunks: seq<seq<byte>>, k: nat)
    requires k < |chunks|
    ensures |Flatten(chunks[..k + 1])| == |Flatten(chunks[..k])| + |chunks[k]|
    ensures Overwrite(Overwrite(s, pos, Flatten(chunks[..k])), pos + |Flatten(chunks[..k])|, chunks[k])
            == Overwrite(s, pos, Flatten(chunks[..k + 1]))
  {
    assert chunks[..k + 1] == chunks[..k] + [chunks[k]];
    FlattenSnoc(chunks[..k], chunks[k]);
    OverwriteConcat(s, pos, Flatten(chunks[..k]), chunks[k]);
  }

  // ---------------------------------------------------------------------------
  // One ranged request

  /** What one chunk task returned: `True` after writing, `False` on status 416,
      or an exception raised out of it. */
  datatype ChunkResult = Wrote | NotSatisfiable | Raised

  datatype Step = Step(file: seq<byte>, result: ChunkResult)

  /** `download_chunk`: `raise_for_status()`, then one write of `r.content` at
      `start`. Reading the whole body of a broken stream raises before the write. */
  function PlainChunk(file: seq<byte>, resp: Response, start: nat): Step {
    match resp
    case Unreachable => Step(file, Raised)
    case Response(status, chunks, cutOff) =>
      if IsErrorStatus(status) || cutOff then Step(file, Raised)
      else Step(Overwrite(file, start, Flatten(chunks)), Wrote)
  }

  /** `download_chunk_no_size`: status 416 (section 15.5.17 of RFC 9110) returns
      `False` without writing; otherwise as `download_chunk`, returning `True`. */
  function NoSizeChunk(file: seq<byte>, resp: Response, start: nat): Step {
    if resp.Response? && resp.status == 416 then Step(file, NotSatisfiable)
    else PlainChunk(file, resp, start)
  }

  /** `download_chunk_with_progress`: streams the body piece by piece into the
      file from `start`; a connection that breaks mid-stream leaves the pieces
      already written and raises. */
  function ProgressChunk(file: seq<byte>, resp: Response, start: nat): Step {
    match resp
    case Unreachable => Step(file, Raised)
    case Response(status, chunks, cutOff) =>
      if IsErrorStatus(status) then Step(file, Raised)
      else Step(Overwrite(file, start, Flatten(chunks)), if cutOff then Raised else Wrote)
  }

  /** Whether a chunk task of the progress kind raises on this response; it does
      not depend on the file. */
  predicate ProgressFails(resp: Response) {
    resp.Unreachable? || IsErrorStatus(resp.status) || resp.cutOff
  }

  method DownloadChunk(f: LocalFile, server: Server, r: ByteRange) returns (result: ChunkResult)
    modifies f
    ensures Step(f.bytes, result) == PlainChunk(old(f.bytes), server(Some(r)), r.start)
  {
    var resp := server(Some(r));
    if resp.Unreachable? || IsErrorStatus(resp.status) || resp.cutOff {
      return Raised;
    }
    f.WriteAt(r.start, Flatten(resp.chunks));
    result := Wrote;
  }

  method DownloadChunkNoSize(f: LocalFile, server: Server, r: ByteRange) returns (result: ChunkResult)
    modifies f
    ensures Step(f.bytes, result) == NoSizeChunk(old(f.bytes), server(Some(r)), r.start)
    ensures result == NotSatisfiable ==> f.bytes == old(f.bytes)
  {
    var resp := server(Some(r));
    if resp.Response? && resp.status == 416 {
      return NotSatisfiable;
    }
    result := DownloadChunk(f, server, r);
  }

  method DownloadChunkWithProgress(f: LocalFile, server: Server, r: ByteRange) returns (result: ChunkResult)
    modifies f
    ensures Step(f.bytes, result) == ProgressChunk(old(f.bytes), server(Some(r)), r.start)
    ensures result == Raised <==> ProgressFails(server(Some(r)))
  {
    var resp := server(Some(r));
    if resp.Unreachable? || IsErrorStatus(resp.status) {
      return Raised;
    }
    f.WriteChunksAt(r.start, resp.chunks);
    result := if resp.cutOff then Raised else Wrote;
  }

  // ---------------------------------------------------------------------------
  // Multi-part download of a file of known size

  /** `i * p`, spelled out as repeated addition so that the proofs about
      positions stay in linear arithmetic. */
  function Times(i: nat, p: nat): nat
    decreases i
  {
    if i == 0 then 0 else Times(i - 1, p) + p
  }

  lemma {:induction false} TimesIsMul(i: nat, p: nat)
    ensures Times(i, p) == i * p
    decreases i
  {
    if i > 0 {
      TimesIsMul(i - 1, p);
      assert (i - 1) * p + p == i * p;
    }
  }

  lemma {:induction false} TimesMono(i: nat, j: nat, p: nat)
    requires i <= j
    ensures Times(i, p) <= Times(j, p)
    decreases j - i
  {
    if i < j {
      TimesMono(i, j - 1, p);
    }
  }

  /** Part `i` of `n`: it starts at `i * (size / n)`; every part but the last ends
      one byte before the next part starts, the last ends at `size - 1`. */
  function Part(size: nat, n: nat, i: nat): ByteRange
    requires 1 <= n && i < n
  {
    var p := size / n;
    ByteRange(Times(i, p), if i < n - 1 then Times(i + 1, p) - 1 else size - 1)
  }

  function Parts(size: nat, n: nat): (r: seq<ByteRange>)
    requires n >= 1
    ensures |r| == n
  {
    seq(n, i requires 0 <= i < n => Part(size, n, i))
  }

  /** The number of bytes a range asks for. */
  function Length(r: ByteRange): int {
    r.end - r.start + 1
  }

  lemma MulNonneg(a: nat, b: nat)
    ensures a * b >= 0
  {
  }

  /** `n` parts of `size / n` bytes fit in the file, with `size % n` to spare. */
  lemma TimesParts(size: nat, n: nat)
    requires n >= 1
    ensures Times(n, size / n) + size % n == size
  {
    TimesIsMul(n, size / n);
  }

  /** Where a part lies within the file: no part starts past the end; a part
      other than the last is empty when `size < n` (starting at 0) and otherwise
      a non-empty range inside the file; the last part of a non-empty file starts
      inside it. */
  lemma PartFacts(size: nat, n: nat, i: nat)
    requires 1 <= n && i < n
    ensures Parts(size, n)[i].start <= size
    ensures i < n - 1 && size / n == 0 ==> Parts(size, n)[i].start == 0 && Parts(size, n)[i].end < 0
    ensures i < n - 1 && size / n > 0 ==> Parts(size, n)[i].start <= Parts(size, n)[i].end < size
    ensures i == n - 1 && size > 0 ==> Parts(size, n)[i].start < size
    ensures i == n - 1 && size == 0 ==> Parts(size, n)[i].start == 0
  {
    var p := size / n;
    TimesParts(size, n);
    TimesMono(i + 1, n, p);
    if p == 0 {
      TimesIsMul(i, p);
    }
  }

  /** The parts start at 0, each next part starts one byte after the previous
      part ends, and the last part ends at `size - 1`. */
  lemma PartsContiguous(size: nat, n: nat)
    requires n >= 1
    ensures Parts(size, n)[0].start == 0
    ensures forall i :: 0 <= i < n - 1 ==> Parts(size, n)[i + 1].start == Parts(size, n)[i].end + 1
    ensures Parts(size, n)[n - 1].end == size - 1
  {
  }

  /** Every part but the last asks for `size / n` bytes (none at all when
      `size < n`); the last asks for `size / n + size % n` bytes. */
  lemma PartLengths(size: nat, n: nat)
    requires n >= 1
    ensures forall i :: 0 <= i < n - 1 ==> Length(Parts(size, n)[i]) == size / n
    ensures Length(Parts(size, n)[n - 1]) == size / n + size % n
  {
    TimesParts(size, n);
  }

  /** Ranges that tile `[lo, hi)`: the first starts at `lo`, each next one starts
      right after the previous one ends, the last ends at `hi - 1`, and none has
      a negative length. */
  ghost predicate Tiles(rs: seq<ByteRange>, lo: int, hi: int) {
    && |rs| >= 1 && rs[0].start == lo && rs[|rs| - 1].end == hi - 1
    && (forall i :: 0 <= i < |rs| - 1 ==> rs[i + 1].start == rs[i].end + 1)
    && (forall i :: 0 <= i < |rs| ==> Length(rs[i]) >= 0)
  }

  lemma {:induction false} TilesOrdered(rs: seq<ByteRange>, lo: int, hi: int, i: nat, j: nat)
    requires Tiles(rs, lo, hi) && i < j < |rs|
    ensures rs[i].end < rs[j].start
    decreases j - i
  {
    if i + 1 < j {
      TilesOrdered(rs, lo, hi, i + 1, j);
    }
  }

  lemma {:induction false} TilesCover(rs: seq<ByteRange>, lo: int, hi: int, b: int) returns (i: nat)
    requires Tiles(rs, lo, hi) && lo <= b < hi
    ensures i < |rs| && rs[i].start <= b <= rs[i].end
    decreases |rs|
  {
    if b <= rs[0].end || |rs| == 1 {
      i := 0;
    } else {
      var tail := rs[1..];
      assert Tiles(tail, rs[1].start, hi) by {
        forall k | 0 <= k < |tail| - 1 ensures tail[k + 1].start == tail[k].end + 1 {
          assert tail[k] == rs[k + 1] && tail[k + 1] == rs[k + 2];
        }
      }
      var j := TilesCover(tail, rs[1].start, hi, b);
      i := j + 1;
    }
  }

  lemma PartsTile(size: nat, n: nat)
    requires n >= 1
    ensures Tiles(Parts(size, n), 0, size)
  {
    PartsContiguous(size, n);
    PartLengths(size, n);
  }

  /** Every byte position of the file belongs to exactly one part. */
  lemma PartsCover(size: nat, n: nat, b: nat)
    requires n >= 1 && b < size
    ensures exists i :: 0 <= i < n && Parts(size, n)[i].start <= b <= Parts(size, n)[i].end
    ensures forall i, j ::
              (0 <= i < n && 0 <= j < n
               && Parts(size, n)[i].start <= b <= Parts(size, n)[i].end
               && Parts(size, n)[j].start <= b <= Parts(size, n)[j].end) ==> i == j
  {
    var ps := Parts(size, n);
    PartsTile(size, n);
    var k := TilesCover(ps, 0, size, b);
    forall i, j | 0 <= i < n && 0 <= j < n
      && ps[i].start <= b <= ps[i].end && ps[j].start <= b <= ps[j].end
      ensures i == j
    {
      if i < j { TilesOrdered(ps, 0, size, i, j); }
      if j < i { TilesOrdered(ps, 0, size, j, i); }
    }
  }

  datatype Attempt = Attempt(file: seq<byte>, raised: bool)

  /** The first `k` chunk tasks of a multi-part run, in submission order. Every
      task runs; the run raises when any of them raised. */
  function RunParts(file: seq<byte>, server: Server, parts: seq<ByteRange>, k: nat): Attempt
    requires k <= |parts|
    decreases k
  {
    if k == 0 then Attempt(file, false)
    else
      var a := RunParts(file, server, parts, k - 1);
      var st := ProgressChunk(a.file, server(Some(parts[k - 1])), parts[k - 1].start);
      Attempt(st.file, a.raised || st.result == Raised)
  }

  /** `download_pdf_multi_thread`: `size // n` raises for `n == 0` before the file
      is touched; the file is then emptied and truncated to `size` (a negative
      size raises); a pool of `n <= 0` workers raises; otherwise the `n` parts are
      fetched into the pre-sized file. */
  function MultiThread(file: seq<byte>, server: Server, n: int, size: int): Attempt {
    if n == 0 then Attempt(file, true)
    else if size < 0 then Attempt([], true)
    else if n < 0 then Attempt(Zeros(size), true)
    else RunParts(Zeros(size), server, Parts(size, n), n)
  }

  lemma {:induction false} RunPartsRaised(file: seq<byte>, server: Server, parts: seq<ByteRange>, k: nat)
    requires k <= |parts|
    ensures RunParts(file, server, parts, k).raised <==> exists i :: 0 <= i < k && ProgressFails(server(Some(parts[i])))
    decreases k
  {
    if k > 0 {
      RunPartsRaised(file, server, parts, k - 1);
    }
  }

  /** A multi-part run raises exactly when some part's request fails, however
      many other parts succeeded. */
  lemma MultiThreadRaised(file: seq<byte>, server: Server, n: nat, size: nat)
    requires n >= 1
    ensures MultiThread(file, server, n, size).raised <==>
              exists i :: 0 <= i < n && ProgressFails(server(Some(Parts(size, n)[i])))
  {
    RunPartsRaised(Zeros(size), server, Parts(size, n), n);
  }

  lemma RunPartsStep(file: seq<byte>, server: Server, parts: seq<ByteRange>, i: nat, a: Attempt, st: Step)
    requires i < |parts| && a == RunParts(file, server, parts, i)
    requires st == ProgressChunk(a.file, server(Some(parts[i])), parts[i].start)
    ensures RunParts(file, server, parts, i + 1) == Attempt(st.file, a.raised || st.result == Raised)
  {
  }

  /** `start = i * part_size` and `end` as the loop body of
      `download_pdf_multi_thread` computes them. */
  method PartRange(size: nat, n: nat, partSize: nat, i: nat) returns (r: ByteRange)
    requires 1 <= n && i < n && partSize == size / n
    ensures r == Parts(size, n)[i]
  {
    MulNonneg(i, partSize);
    var start := i * partSize;
    var end := if i < n - 1 then (i + 1) * partSize - 1 else size - 1;
    TimesIsMul(i, partSize);
    TimesIsMul(i + 1, partSize);
    r := ByteRange(start, end);
  }

  method DownloadPdfMultiThread(f: LocalFile, server: Server, n: int, size: int) returns (raised: bool)
    modifies f
    ensures Attempt(f.bytes, raised) == MultiThread(old(f.bytes), server, n, size)
  {
    if n == 0 {
      return true;
    }
    f.Create();
    if size < 0 {
      return true;
    }
    f.Truncate(size);
    assert f.bytes == Zeros(size);
    if n < 0 {
      return true;
    }
    raised := SubmitParts(f, server, n, size);
  }

  /** The pool of `download_pdf_multi_thread`: one chunk task per part, in order. */
  method SubmitParts(f: LocalFile, server: Server, n: nat, size: nat) returns (raised: bool)
    requires n >= 1
    modifies f
    ensures Attempt(f.bytes, raised) == RunParts(old(f.bytes), server, Parts(size, n), n)
  {
    var partSize: nat := size / n;
    ghost var parts := Parts(size, n);
    ghost var initial := f.bytes;
    raised := false;
    var i := 0;
    while i < n
      invariant 0 <= i <= n
      invariant Attempt(f.bytes, raised) == RunParts(initial, server, parts, i)
    {
      var range := PartRange(size, n, partSize, i);
      ghost var before := Attempt(f.bytes, raised);
      var r := DownloadChunkWithProgress(f, server, range);
      RunPartsStep(initial, server, parts, i, before, Step(f.bytes, r));
      raised := raised || r == Raised;
      i := i + 1;
    }
  }

  // ---------------------------------------------------------------------------
  // Waves of fixed-size ranges for a file of unknown size

  function ChunkRange(offset: nat, chunkSize: nat): ByteRange {
    ByteRange(offset, offset + chunkSize - 1)
  }

  /** A wave: the file after it, the ranges it sent and the results it got, in
      submission order, and the offset the next wave starts at. */
  datatype WaveRun = WaveRun(file: seq<byte>, sent: seq<ByteRange>, results: seq<ChunkResult>, next: nat)

  /** `k` requests of one wave, the first at `offset`, each next one `chunkSize`
      bytes further on. */
  function WaveFrom(file: seq<byte>, server: Server, offset: nat, chunkSize: nat, k: nat): (w: WaveRun)
    ensures |w.sent| == k && |w.results| == k
    decreases k
  {
    if k == 0 then WaveRun(file, [], [], offset)
    else
      var r := ChunkRange(offset, chunkSize);
      var st := NoSizeChunk(file, server(Some(r)), offset);
      var w := WaveFrom(st.file, server, offset + chunkSize, chunkSize, k - 1);
      WaveRun(w.file, [r] + w.sent, [st.result] + w.results, w.next)
  }

  /** The position of the first result that is not `True`, or the length. */
  function FirstStop(rs: seq<ChunkResult>): (k: nat)
    ensures k <= |rs|
    ensures forall j :: 0 <= j < k ==> rs[j] == Wrote
    ensures k < |rs| ==> rs[k] != Wrote
    decreases |rs|
  {
    if |rs| == 0 || rs[0] != Wrote then 0 else 1 + FirstStop(rs[1..])
  }

  datatype WaveOutcome = Completed | Failed | OutOfFuel

  datatype ChunkedRun = ChunkedRun(file: seq<byte>, outcome: WaveOutcome, sent: seq<ByteRange>, results: seq<ChunkResult>)

  /** The `while True` loop of `download_pdf_chunked` from `offset`, for at most
      `fuel` more waves. The results of a wave are examined in submission order:
      the first `False` ends the download, an exception met first propagates, and
      a wave of `True` results is followed by the next wave. */
  function Waves(file: seq<byte>, server: Server, n: nat, chunkSize: nat, offset: nat, fuel: nat): ChunkedRun
    decreases fuel, 0
  {
    if fuel == 0 then ChunkedRun(file, OutOfFuel, [], [])
    else AfterWave(WaveFrom(file, server, offset, chunkSize, n), server, n, chunkSize, fuel - 1)
  }

  /** The run from the end of wave `w` on, with `fuel` more waves allowed. */
  function AfterWave(w: WaveRun, server: Server, n: nat, chunkSize: nat, fuel: nat): ChunkedRun
    decreases fuel, 1
  {
    var k := FirstStop(w.results);
    if k < |w.results| && w.results[k] == NotSatisfiable then ChunkedRun(w.file, Completed, w.sent, w.results)
    else if k < |w.results| then ChunkedRun(w.file, Failed, w.sent, w.results)
    else
      var rest := Waves(w.file, server, n, chunkSize, w.next, fuel);
      ChunkedRun(rest.file, rest.outcome, w.sent + rest.sent, w.results + rest.results)
  }

  /** `download_pdf_chunked`: the file is emptied; a pool of `n <= 0` workers
      raises; otherwise waves run from offset 0. */
  function Chunked(file: seq<byte>, server: Server, n: int, chunkSize: nat, fuel: nat): ChunkedRun {
    if n <= 0 then ChunkedRun([], Failed, [], [])
    else Waves([], server, n, chunkSize, 0, fuel)
  }

  /** Requests of `chunkSize` bytes each, the first at `from`, each next one
      starting right after the previous one ends. */
  ghost predicate Chain(rs: seq<ByteRange>, from: int, chunkSize: nat) {
    && (|rs| > 0 ==> rs[0].start == from)
    && (forall i :: 0 <= i < |rs| - 1 ==> rs[i + 1].start == rs[i].end + 1)
    && (forall i :: 0 <= i < |rs| ==> rs[i] == ChunkRange(rs[i].start, chunkSize))
  }

  lemma ChainAppend(a: seq<ByteRange>, b: seq<ByteRange>, from: int, mid: int, chunkSize: nat)
    requires Chain(a, from, chunkSize) && Chain(b, mid, chunkSize)
    requires |a| == 0 ==> mid == from
    requires |a| > 0 ==> a[|a| - 1].end + 1 == mid
    ensures Chain(a + b, from, chunkSize)
  {
    var ab := a + b;
    forall i | 0 <= i < |ab| - 1 ensures ab[i + 1].start == ab[i].end + 1 {
      if i + 1 < |a| {
      } else if i + 1 == |a| {
      } else {
        assert ab[i] == b[i - |a|] && ab[i + 1] == b[i + 1 - |a|];
      }
    }
  }

  lemma {:induction false} WaveFromSent(file: seq<byte>, server: Server, offset: nat, chunkSize: nat, k: nat)
    ensures var w := WaveFrom(file, server, offset, chunkSize, k);
            && Chain(w.sent, offset, chunkSize)
            && (k == 0 ==> w.next == offset)
            && (k > 0 ==> w.sent[k - 1].end + 1 == w.next)
    decreases k
  {
    if k > 0 {
      var r := ChunkRange(offset, chunkSize);
      var st := NoSizeChunk(file, server(Some(r)), offset);
      WaveFromSent(st.file, server, offset + chunkSize, chunkSize, k - 1);
      var w := WaveFrom(st.file, server, offset + chunkSize, chunkSize, k - 1);
      assert Chain([r], offset, chunkSize);
      ChainAppend([r], w.sent, offset, offset + chunkSize, chunkSize);
    }
  }

  /** The requests of the waves are contiguous and disjoint, `chunkSize` bytes
      each, the first at `offset`. */
  lemma {:induction false} WavesSent(file: seq<byte>, server: Server, n: nat, chunkSize: nat, offset: nat, fuel: nat)
    ensures Chain(Waves(file, server, n, chunkSize, offset, fuel).sent, offset, chunkSize)
    decreases fuel
  {
    if fuel > 0 {
      var w := WaveFrom(file, server, offset, chunkSize, n);
      WaveFromSent(file, server, offset, chunkSize, n);
      var k := FirstStop(w.results);
      if k >= n {
        var rest := Waves(w.file, server, n, chunkSize, w.next, fuel - 1);
        WavesSent(w.file, server, n, chunkSize, w.next, fuel - 1);
        ChainAppend(w.sent, rest.sent, offset, w.next, chunkSize);
      }
    }
  }

  lemma {:induction false} ChainPositions(rs: seq<ByteRange>, chunkSize: nat, k: nat)
    requires Chain(rs, 0, chunkSize) && k < |rs|
    ensures rs[k] == ByteRange(k * chunkSize, (k + 1) * chunkSize - 1)
    decreases k
  {
    if k > 0 {
      ChainPositions(rs, chunkSize, k - 1);
      assert (k + 1) * chunkSize == k * chunkSize + chunkSize;
    }
  }

  /** From offset 0, the `k`-th request overall asks for bytes
      `[k * chunkSize, (k + 1) * chunkSize - 1]`. */
  lemma ChunkedSent(file: seq<byte>, server: Server, n: int, chunkSize: nat, fuel: nat)
    ensures var run := Chunked(file, server, n, chunkSize, fuel);
            forall k :: 0 <= k < |run.sent| ==> run.sent[k] == ByteRange(k * chunkSize, (k + 1) * chunkSize - 1)
  {
    var run := Chunked(file, server, n, chunkSize, fuel);
    if n > 0 {
      WavesSent([], server, n, chunkSize, 0, fuel);
    }
    forall k | 0 <= k < |run.sent| ensures run.sent[k] == ByteRange(k * chunkSize, (k + 1) * chunkSize - 1) {
      ChainPositions(run.sent, chunkSize, k);
    }
  }

  lemma {:induction false} FirstStopAppend(a: seq<ChunkResult>, b: seq<ChunkResult>)
    requires FirstStop(a) == |a|
    ensures FirstStop(a + b) == |a| + FirstStop(b)
    decreases |a|
  {
    if |a| == 0 {
      assert a + b == b;
    } else {
      assert (a + b)[1..] == a[1..] + b;
      FirstStopAppend(a[1..], b);
    }
  }

  /** How a run of `outcome` ended, given its results in submission order, for
      waves of `n` tasks: the first result that is not `True` lies in the last
      wave issued, and it is `False` exactly when the download completed and an
      exception exactly when it failed; when the waves ran out, every result was
      `True`. */
  ghost predicate StoppedAt(outcome: WaveOutcome, results: seq<ChunkResult>, n: nat) {
    var k := FirstStop(results);
    && (outcome == OutOfFuel <==> k == |results|)
    && (outcome == Completed <==> k < |results| && results[k] == NotSatisfiable)
    && (outcome == Failed <==> k < |results| && results[k] == Raised)
    && (k < |results| ==> |results| - n <= k)
  }

  /** A wave of `n` results that are all `True`, put before later results. */
  lemma StoppedAfter(a: seq<ChunkResult>, b: seq<ChunkResult>, outcome: WaveOutcome, n: nat)
    requires |a| == n && FirstStop(a) == n
    requires StoppedAt(outcome, b, n)
    ensures StoppedAt(outcome, a + b, n)
  {
    FirstStopAppend(a, b);
    var j := FirstStop(b);
    if j < |b| {
      assert (a + b)[n + j] == b[j];
    }
  }

  /** The loop stops right after the first wave in which a result, examined in
      submission order, is not `True`. */
  lemma {:induction false} WavesStop(file: seq<byte>, server: Server, n: nat, chunkSize: nat, offset: nat, fuel: nat)
    requires n >= 1
    ensures var run := Waves(file, server, n, chunkSize, offset, fuel);
            StoppedAt(run.outcome, run.results, n)
    decreases fuel
  {
    if fuel > 0 {
      var w := WaveFrom(file, server, offset, chunkSize, n);
      WavesStep(file, server, n, chunkSize, offset, fuel);
      var k := FirstStop(w.results);
      if k >= n {
        var rest := Waves(w.file, server, n, chunkSize, w.next, fuel - 1);
        assert Waves(file, server, n, chunkSize, offset, fuel).results == w.results + rest.results;
        WavesStop(w.file, server, n, chunkSize, w.next, fuel - 1);
        StoppedAfter(w.results, rest.results, rest.outcome, n);
      }
    }
  }

  lemma WaveFromStep(file: seq<byte>, server: Server, offset: nat, chunkSize: nat, k: nat, st: Step)
    requires k >= 1
    requires st == NoSizeChunk(file, server(Some(ChunkRange(offset, chunkSize))), offset)
    ensures var tail := WaveFrom(st.file, server, offset + chunkSize, chunkSize, k - 1);
            WaveFrom(file, server, offset, chunkSize, k)
            == WaveRun(tail.file, [ChunkRange(offset, chunkSize)] + tail.sent, [st.result] + tail.results, tail.next)
  {
  }

  lemma WavesStep(file: seq<byte>, server: Server, n: nat, chunkSize: nat, offset: nat, fuel: nat)
    requires fuel >= 1
    ensures Waves(file, server, n, chunkSize, offset, fuel)
            == AfterWave(WaveFrom(file, server, offset, chunkSize, n), server, n, chunkSize, fuel - 1)
  {
  }

  /** One wave: `k` chunk tasks submitted at consecutive offsets from `offset`. */
  method SubmitWave(f: LocalFile, server: Server, offset: nat, chunkSize: nat, k: nat)
    returns (wave: seq<ChunkResult>, waveSent: seq<ByteRange>, next: nat)
    modifies f
    ensures WaveRun(f.bytes, waveSent, wave, next) == WaveFrom(old(f.bytes), server, offset, chunkSize, k)
  {
    ghost var whole := WaveFrom(f.bytes, server, offset, chunkSize, k);
    wave, waveSent, next := [], [], offset;
    var i := 0;
    while i < k
      invariant 0 <= i <= k
      invariant var tail := WaveFrom(f.bytes, server, next, chunkSize, k - i);
                whole == WaveRun(tail.file, waveSent + tail.sent, wave + tail.results, tail.next)
    {
      ghost var fileBefore := f.bytes;
      var r := DownloadChunkNoSize(f, server, ChunkRange(next, chunkSize));
      WaveFromStep(fileBefore, server, next, chunkSize, k - i, Step(f.bytes, r));
      ghost var tail := WaveFrom(f.bytes, server, next + chunkSize, chunkSize, k - i - 1);
      SeqAssoc(waveSent, [ChunkRange(next, chunkSize)], tail.sent);
      SeqAssoc(wave, [r], tail.results);
      wave := wave + [r];
      waveSent := waveSent + [ChunkRange(next, chunkSize)];
      next := next + chunkSize;
      i := i + 1;
    }
    assert wave + [] == wave && waveSent + [] == waveSent;
  }

  /** `for future in futures: if not future.result(): ...`: the results in
      submission order, up to the first that is not `True`. */
  method ScanWave(wave: seq<ChunkResult>) returns (stop: Option<ChunkResult>)
    ensures stop.None? <==> FirstStop(wave) == |wave|
    ensures stop.Some? ==> FirstStop(wave) < |wave| && stop.value == wave[FirstStop(wave)]
  {
    var j := 0;
    while j < |wave|
      invariant 0 <= j <= |wave| && j <= FirstStop(wave)
    {
      if wave[j] != Wrote {
        return Some(wave[j]);
      }
      j := j + 1;
    }
    return None;
  }

  /** The waves still to run from `offset` complete the run `total`, of which
      `sent` and `results` have already happened. */
  ghost predicate WavesAhead(total: ChunkedRun, file: seq<byte>, server: Server, n: nat, chunkSize: nat,
                             offset: nat, left: nat, sent: seq<ByteRange>, results: seq<ChunkResult>)
  {
    var rest := Waves(file, server, n, chunkSize, offset, left);
    total == ChunkedRun(rest.file, rest.outcome, sent + rest.sent, results + rest.results)
  }

  /** What one more wave does to a run in progress: it ends the run when its
      first result that is not `True` is `False` or an exception, and otherwise
      leaves the remaining waves to complete it. */
  lemma WavesAdvance(total: ChunkedRun, file: seq<byte>, server: Server, n: nat, chunkSize: nat,
                     offset: nat, left: nat, sent: seq<ByteRange>, results: seq<ChunkResult>,
                     w: WaveRun, stop: Option<ChunkResult>)
    requires left >= 1 && WavesAhead(total, file, server, n, chunkSize, offset, left, sent, results)
    requires Waves(file, server, n, chunkSize, offset, left) == AfterWave(w, server, n, chunkSize, left - 1)
    requires stop.None? <==> FirstStop(w.results) == |w.results|
    requires stop.Some? ==> FirstStop(w.results) < |w.results| && stop.value == w.results[FirstStop(w.results)]
    ensures stop == Some(NotSatisfiable) ==> total == ChunkedRun(w.file, Completed, sent + w.sent, results + w.results)
    ensures stop.Some? && stop != Some(NotSatisfiable) ==> total == ChunkedRun(w.file, Failed, sent + w.sent, results + w.results)
    ensures stop.None? ==> WavesAhead(total, w.file, server, n, chunkSize, w.next, left - 1, sent + w.sent, results + w.results)
  {
    if stop.None? {
      WavesGo(total, file, server, n, chunkSize, offset, left, sent, results, w);
    } else {
      WavesEnd(total, file, server, n, chunkSize, offset, left, sent, results, w);
    }
  }

  lemma SeqAssoc<T>(a: seq<T>, b: seq<T>, c: seq<T>)
    ensures a + (b + c) == a + b + c
  {
  }

  lemma WavesGo(total: ChunkedRun, file: seq<byte>, server: Server, n: nat, chunkSize: nat,
                offset: nat, left: nat, sent: seq<ByteRange>, results: seq<ChunkResult>, w: WaveRun)
    requires left >= 1 && WavesAhead(total, file, server, n, chunkSize, offset, left, sent, results)
    requires Waves(file, server, n, chunkSize, offset, left) == AfterWave(w, server, n, chunkSize, left - 1)
    requires FirstStop(w.results) == |w.results|
    ensures WavesAhead(total, w.file, server, n, chunkSize, w.next, left - 1, sent + w.sent, results + w.results)
  {
    var later := Waves(w.file, server, n, chunkSize, w.next, left - 1);
    SeqAssoc(sent, w.sent, later.sent);
    SeqAssoc(results, w.results, later.results);
  }

  lemma WavesEnd(total: ChunkedRun, file: seq<byte>, server: Server, n: nat, chunkSize: nat,
                 offset: nat, left: nat, sent: seq<ByteRange>, results: seq<ChunkResult>, w: WaveRun)
    requires left >= 1 && WavesAhead(total, file, server, n, chunkSize, offset, left, sent, results)
    requires Waves(file, server, n, chunkSize, offset, left) == AfterWave(w, server, n, chunkSize, left - 1)
    requires FirstStop(w.results) < |w.results|
    ensures var outcome := if w.results[FirstStop(w.results)] == NotSatisfiable then Completed else Failed;
            total == ChunkedRun(w.file, outcome, sent + w.sent, results + w.results)
  {
  }

  lemma WavesAheadStart(server: Server, n: nat, chunkSize: nat, fuel: nat)
    ensures WavesAhead(Waves([], server, n, chunkSize, 0, fuel), [], server, n, chunkSize, 0, fuel, [], [])
  {
    var rest := Waves([], server, n, chunkSize, 0, fuel);
    assert [] + rest.sent == rest.sent && [] + rest.results == rest.results;
  }

  lemma WavesAheadEnd(total: ChunkedRun, file: seq<byte>, server: Server, n: nat, chunkSize: nat,
                      offset: nat, sent: seq<ByteRange>, results: seq<ChunkResult>)
    requires WavesAhead(total, file, server, n, chunkSize, offset, 0, sent, results)
    ensures total == ChunkedRun(file, OutOfFuel, sent, results)
  {
    assert sent + [] == sent && results + [] == results;
  }

  method DownloadPdfChunked(f: LocalFile, server: Server, n: int, chunkSize: nat, fuel: nat)
    returns (outcome: WaveOutcome, sent: seq<ByteRange>, results: seq<ChunkResult>)
    modifies f
    ensures ChunkedRun(f.bytes, outcome, sent, results) == Chunked(old(f.bytes), server, n, chunkSize, fuel)
  {
    f.Create();
    sent, results := [], [];
    if n <= 0 {
      return Failed, sent, results;
    }
    ghost var total := Waves([], server, n, chunkSize, 0, fuel);
    WavesAheadStart(server, n, chunkSize, fuel);
    var offset: nat := 0;
    var left := fuel;
    while left > 0
      invariant WavesAhead(total, f.bytes, server, n, chunkSize, offset, left, sent, results)
    {
      WavesStep(f.bytes, server, n, chunkSize, offset, left);
      ghost var fileBefore := f.bytes;
      var wave, waveSent, next := SubmitWave(f, server, offset, chunkSize, n);
      var stop := ScanWave(wave);
      WavesAdvance(total, fileBefore, server, n, chunkSize, offset, left, sent, results,
                   WaveRun(f.bytes, waveSent, wave, next), stop);
      sent := sent + waveSent;
      results := results + wave;
      if stop == Some(NotSatisfiable) {
        return Completed, sent, results;
      } else if stop.Some? {
        return Failed, sent, results;
      }
      offset := next;
      left := left - 1;
    }
    WavesAheadEnd(total, f.bytes, server, n, chunkSize, offset, sent, results);
    outcome := OutOfFuel;
  }
  // ---------------------------------------------------------------------------
  // Single stream, file size, strategy selection

  /** `download_file_single_thread`: one GET without a Range header, whose
      reply carries the Content-Length header `length`. A failed request or an
      error status is logged and the file is left as it was. A header `int()`
      cannot read raises a `ValueError`, which neither handler catches, before
      the file is opened. Otherwise the file is emptied and the body streamed
      into it, and a break mid-stream is logged, leaving what was written. */
  function SingleThread(file: seq<byte>, resp: Response, length: ContentLength): Attempt {
    match resp
    case Unreachable => Attempt(file, false)
    case Response(status, chunks, cutOff) =>
      if IsErrorStatus(status) then Attempt(file, false)
      else if length.NotNumeric? then Attempt(file, true)
      else Attempt(Flatten(chunks), false)
  }

  method DownloadFileSingleThread(f: LocalFile, server: Server, length: ContentLength) returns (raised: bool)
    modifies f
    ensures Attempt(f.bytes, raised) == SingleThread(old(f.bytes), server(None), length)
  {
    var resp := server(None);
    if resp.Unreachable? || IsErrorStatus(resp.status) {
      return false;
    }
    if length.NotNumeric? {
      return true;
    }
    f.Create();
    f.WriteChunksAt(0, resp.chunks);
    OverwriteEmpty(Flatten(resp.chunks));
    raised := false;
  }

  /** `get_file_size`: the Content-Length of a HEAD request, 0 when the header is
      missing, and `None` exactly when something raised: the request itself, an
      error status, or a header `int()` cannot read. */
  function GetFileSize(head: HeadResponse): (r: Option<int>)
    ensures r.None? <==> head.HeadUnreachable? || IsErrorStatus(head.status) || head.contentLength.NotNumeric?
    ensures head.Head? && !IsErrorStatus(head.status) && head.contentLength.Absent? ==> r == Some(0)
  {
    match head
    case HeadUnreachable => None
    case Head(status, len) =>
      if IsErrorStatus(status) then None
      else match len
        case Absent => Some(0)
        case Numeric(v) => Some(v)
        case NotNumeric => None
  }

  datatype Strategy = MultiPart | ChunkedWaves | SingleStream

  /** The strategies `download_file` ran, in order, whether it was still in
      the wave loop when the model's fuel ran out, and whether an exception of
      the single-stream fallback left `download_file`. */
  datatype Report = Report(attempts: seq<Strategy>, hung: bool, raised: bool)

  datatype Download = Download(file: seq<byte>, report: Report)

  /** The single-stream fallback after the first attempt left `file`. */
  function Fallback(file: seq<byte>, server: Server, streamLength: ContentLength, first: Strategy): Download {
    var s := SingleThread(file, server(None), streamLength);
    Download(s.file, Report([first, SingleStream], false, s.raised))
  }

  /** `download_file`: multi-part when `is_single` is false and the size is
      known, waves otherwise; an exception out of either leads to one
      single-stream attempt, whose reply carries the Content-Length
      `streamLength`. */
  function DownloadFileSpec(file: seq<byte>, head: HeadResponse, server: Server, streamLength: ContentLength,
                            n: int, isSingle: bool, chunkSize: nat, fuel: nat): Download
  {
    var size := GetFileSize(head);
    if !isSingle && size.Some? then
      var a := MultiThread(file, server, n, size.value);
      if a.raised then Fallback(a.file, server, streamLength, MultiPart)
      else Download(a.file, Report([MultiPart], false, false))
    else
      var c := Chunked(file, server, n, chunkSize, fuel);
      match c.outcome
      case Failed => Fallback(c.file, server, streamLength, ChunkedWaves)
      case Completed => Download(c.file, Report([ChunkedWaves], false, false))
      case OutOfFuel => Download(c.file, Report([ChunkedWaves], true, false))
  }

  method DownloadFile(f: LocalFile, head: HeadResponse, server: Server, streamLength: ContentLength,
                      n: int, isSingle: bool, chunkSize: nat, fuel: nat) returns (report: Report)
    modifies f
    ensures Download(f.bytes, report) ==
            DownloadFileSpec(old(f.bytes), head, server, streamLength, n, isSingle, chunkSize, fuel)
    ensures 1 <= |report.attempts| <= 2
    ensures report.attempts[0] == if !isSingle && GetFileSize(head).Some? then MultiPart else ChunkedWaves
    ensures |report.attempts| == 2 ==> report.attempts[1] == SingleStream && !report.hung
    ensures report.raised ==> |report.attempts| == 2 && streamLength.NotNumeric?
  {
    var size := GetFileSize(head);
    var raised: bool;
    if !isSingle && size.Some? {
      raised := DownloadPdfMultiThread(f, server, n, size.value);
      report := Report([MultiPart], false, false);
    } else {
      var outcome, _, _ := DownloadPdfChunked(f, server, n, chunkSize, fuel);
      raised := outcome == Failed;
      report := Report([ChunkedWaves], outcome == OutOfFuel, false);
    }
    if raised {
      var escaped := DownloadFileSingleThread(f, server, streamLength);
      report := Report(report.attempts + [SingleStream], false, escaped);
    }
  }

  /** An exception escapes `download_file` exactly when the first attempt
      raised and the fallback's reply, a success, carries a Content-Length
      `int()` cannot read; the file is then as the first attempt left it. */
  lemma DownloadFileRaises(file: seq<byte>, head: HeadResponse, server: Server, streamLength: ContentLength,
                           n: int, isSingle: bool, chunkSize: nat, fuel: nat)
    ensures var d := DownloadFileSpec(file, head, server, streamLength, n, isSingle, chunkSize, fuel);
            var size := GetFileSize(head);
            var multi := !isSingle && size.Some?;
            var firstRaised := if multi then MultiThread(file, server, n, size.value).raised
                               else Chunked(file, server, n, chunkSize, fuel).outcome == Failed;
            var firstFile := if multi then MultiThread(file, server, n, size.value).file
                             else Chunked(file, server, n, chunkSize, fuel).file;
            && (d.report.raised <==>
                  firstRaised && server(None).Response? && !IsErrorStatus(server(None).status) && streamLength.NotNumeric?)
            && (d.report.raised ==> d.file == firstFile)
  {
  }

  // ---------------------------------------------------------------------------
  // A server that follows RFC 9110

  /** The reply of a server holding `resource` that implements range requests as
      RFC 9110 describes: without a Range header, or with one whose last position
      lies before its first (an invalid range, which the server ignores), the whole
      resource with status 200 (section 14.2); a first position at or beyond the
      end, 416 (section 15.5.17); otherwise 206 with the requested bytes, the end
      clipped to the resource (section 14.1.2). */
  function HonestReply(resource: seq<byte>, r: Option<ByteRange>): Response {
    match r
    case None => Response(200, [resource], false)
    case Some(br) =>
      if br.end < br.start then Response(200, [resource], false)
      else if br.start >= |resource| then Response(416, [], false)
      else Response(206, [resource[br.start..Min(br.end + 1, |resource|)]], false)
  }

  function HonestServer(resource: seq<byte>): Server {
    r => HonestReply(resource, r)
  }

  /** The position up to which the first `k` parts have filled the file. */
  function Frontier(size: nat, n: nat, k: nat): nat
    requires 1 <= n && k <= n
  {
    if k < n then Parts(size, n)[k].start else size
  }

  /** A part that ends before it starts at position 0 gets the whole resource,
      which then fills the pre-sized file. */
  lemma HonestEmptyPart(resource: seq<byte>, file: seq<byte>, r: ByteRange)
    requires r.start == 0 && r.end < r.start && |file| == |resource|
    ensures ProgressChunk(file, HonestReply(resource, Some(r)), r.start) == Step(resource, Wrote)
  {
    assert HonestReply(resource, Some(r)) == Response(200, [resource], false);
    assert Flatten([resource]) == resource;
    OverwriteMeaning(file, 0, resource);
  }

  /** A part inside the resource gets exactly its bytes, written in place. */
  lemma HonestInnerPart(resource: seq<byte>, file: seq<byte>, r: ByteRange)
    requires r.start <= r.end < |resource| && |file| == |resource|
    requires file[..r.start] == resource[..r.start]
    ensures var st := ProgressChunk(file, HonestReply(resource, Some(r)), r.start);
            && st.result == Wrote && |st.file| == |resource|
            && st.file[..r.end + 1] == resource[..r.end + 1]
  {
    var data := resource[r.start..r.end + 1];
    assert HonestReply(resource, Some(r)) == Response(206, [data], false);
    assert Flatten([data]) == data;
    OverwriteMeaning(file, r.start, data);
  }

  lemma {:induction false} RunPartsHonest(resource: seq<byte>, n: nat, k: nat)
    requires 1 <= n && k <= n
    ensures var a := RunParts(Zeros(|resource|), HonestServer(resource), Parts(|resource|, n), k);
            var fr := Frontier(|resource|, n, k);
            && !a.raised && |a.file| == |resource| && fr <= |resource|
            && a.file[..fr] == resource[..fr]
    decreases k
  {
    var size := |resource|;
    var parts := Parts(size, n);
    if k < n {
      PartFacts(size, n, k);
    }
    if k == 0 {
      PartsContiguous(size, n);
    } else {
      RunPartsHonest(resource, n, k - 1);
      var a := RunParts(Zeros(size), HonestServer(resource), parts, k - 1);
      var part := parts[k - 1];
      assert HonestServer(resource)(Some(part)) == HonestReply(resource, Some(part));
      var st := ProgressChunk(a.file, HonestReply(resource, Some(part)), part.start);
      RunPartsStep(Zeros(size), HonestServer(resource), parts, k - 1, a, st);
      HonestPartStep(resource, n, k - 1, a, st);
    }
  }

  /** Part `i` against such a server, once the parts before it have filled the
      file up to their frontier: it raises nothing and moves the frontier on. */
  lemma HonestPartStep(resource: seq<byte>, n: nat, i: nat, a: Attempt, st: Step)
    requires 1 <= n && i < n
    requires |a.file| == |resource| && Frontier(|resource|, n, i) <= |resource|
    requires a.file[..Frontier(|resource|, n, i)] == resource[..Frontier(|resource|, n, i)]
    requires st == ProgressChunk(a.file, HonestReply(resource, Some(Parts(|resource|, n)[i])), Parts(|resource|, n)[i].start)
    ensures st.result != Raised && |st.file| == |resource|
    ensures Frontier(|resource|, n, i + 1) <= |resource|
    ensures st.file[..Frontier(|resource|, n, i + 1)] == resource[..Frontier(|resource|, n, i + 1)]
  {
    var size := |resource|;
    var part := Parts(size, n)[i];
    PartFacts(size, n, i);
    if i + 1 < n {
      PartFacts(size, n, i + 1);
    }
    PartsContiguous(size, n);
    if part.end < part.start {
      HonestEmptyPart(resource, a.file, part);
    } else {
      HonestInnerPart(resource, a.file, part);
      if i == n - 1 {
        assert st.file == st.file[..size];
      }
    }
  }

  /** Against a server that follows RFC 9110, a multi-part download of the
      announced size leaves exactly the resource on disk and raises nothing. */
  lemma MultiThreadHonest(file: seq<byte>, resource: seq<byte>, n: nat)
    requires n >= 1
    ensures MultiThread(file, HonestServer(resource), n, |resource|) == Attempt(resource, false)
  {
    RunPartsHonest(resource, n, n);
  }

  /** One request of a wave against such a server: the next bytes while the
      offset lies inside the resource, 416 from its end on. */
  lemma HonestChunk(resource: seq<byte>, offset: nat, chunkSize: nat)
    requires chunkSize >= 1
    ensures NoSizeChunk(resource[..Min(offset, |resource|)], HonestServer(resource)(Some(ChunkRange(offset, chunkSize))), offset)
            == if offset < |resource| then Step(resource[..Min(offset + chunkSize, |resource|)], Wrote)
               else Step(resource, NotSatisfiable)
  {
    var file := resource[..Min(offset, |resource|)];
    var reply := HonestReply(resource, Some(ChunkRange(offset, chunkSize)));
    assert HonestServer(resource)(Some(ChunkRange(offset, chunkSize))) == reply;
    if offset < |resource| {
      var m := Min(offset + chunkSize, |resource|);
      assert reply == Response(206, [resource[offset..m]], false);
      assert Flatten([resource[offset..m]]) == resource[offset..m];
      OverwriteMeaning(file, offset, resource[offset..m]);
    } else {
      assert file == resource;
    }
  }

  lemma {:induction false} WaveFromHonest(resource: seq<byte>, offset: nat, chunkSize: nat, k: nat)
    requires chunkSize >= 1
    ensures var w := WaveFrom(resource[..Min(offset, |resource|)], HonestServer(resource), offset, chunkSize, k);
            && w.file == resource[..Min(w.next, |resource|)]
            && w.next >= offset + k
            && (forall j :: 0 <= j < k ==> w.results[j] != Raised)
            && (forall j :: 0 <= j < k && w.results[j] == NotSatisfiable ==> w.next >= |resource|)
            && (k > 0 && offset >= |resource| ==> w.results[0] == NotSatisfiable)
    decreases k
  {
    if k > 0 {
      var file := resource[..Min(offset, |resource|)];
      var st := NoSizeChunk(file, HonestServer(resource)(Some(ChunkRange(offset, chunkSize))), offset);
      HonestChunk(resource, offset, chunkSize);
      var o := offset + chunkSize;
      assert st.file == resource[..Min(o, |resource|)];
      WaveFromHonest(resource, o, chunkSize, k - 1);
      WaveFromStep(file, HonestServer(resource), offset, chunkSize, k, st);
      HonestWaveCons(resource, offset, chunkSize, k, st, WaveFrom(st.file, HonestServer(resource), o, chunkSize, k - 1),
                     WaveFrom(file, HonestServer(resource), offset, chunkSize, k));
    }
  }

  /** A wave against such a server is its first request followed by the rest
      of the wave: what holds of the rest holds of the whole. */
  lemma HonestWaveCons(resource: seq<byte>, offset: nat, chunkSize: nat, k: nat, st: Step, w: WaveRun, whole: WaveRun)
    requires k > 0 && chunkSize >= 1
    requires st == if offset < |resource| then Step(resource[..Min(offset + chunkSize, |resource|)], Wrote)
                   else Step(resource, NotSatisfiable)
    requires |w.results| == k - 1
    requires w.file == resource[..Min(w.next, |resource|)] && w.next >= offset + chunkSize + k - 1
    requires forall j :: 0 <= j < k - 1 ==> w.results[j] != Raised
    requires forall j :: 0 <= j < k - 1 && w.results[j] == NotSatisfiable ==> w.next >= |resource|
    requires whole.results == [st.result] + w.results && whole.next == w.next && whole.file == w.file
    ensures whole.file == resource[..Min(whole.next, |resource|)] && whole.next >= offset + k
    ensures forall j :: 0 <= j < k ==> whole.results[j] != Raised
    ensures forall j :: 0 <= j < k && whole.results[j] == NotSatisfiable ==> whole.next >= |resource|
    ensures offset >= |resource| ==> whole.results[0] == NotSatisfiable
  {
    forall j | 0 <= j < k
      ensures whole.results[j] != Raised
      ensures whole.results[j] == NotSatisfiable ==> whole.next >= |resource|
    {
      if j > 0 {
        assert whole.results[j] == w.results[j - 1];
      }
    }
  }

  lemma {:induction false} WavesHonest(resource: seq<byte>, n: nat, chunkSize: nat, offset: nat, fuel: nat)
    requires n >= 1 && chunkSize >= 1 && fuel >= 1
    requires offset + fuel > |resource|
    ensures var run := Waves(resource[..Min(offset, |resource|)], HonestServer(resource), n, chunkSize, offset, fuel);
            run.file == resource && run.outcome == Completed
    decreases fuel
  {
    var file := resource[..Min(offset, |resource|)];
    var w := WaveFrom(file, HonestServer(resource), offset, chunkSize, n);
    WaveFromHonest(resource, offset, chunkSize, n);
    var k := FirstStop(w.results);
    if k < n {
      assert w.results[k] == NotSatisfiable;
      assert w.file == resource;
    } else {
      assert w.results[0] == Wrote;
      assert offset < |resource|;
      WavesHonest(resource, n, chunkSize, w.next, fuel - 1);
    }
  }

  /** Against a server that follows RFC 9110, waves of `n >= 1` requests of
      `chunkSize >= 1` bytes each leave exactly the resource on disk and end with
      `False`, given more waves than the resource has bytes. */
  lemma ChunkedHonest(file: seq<byte>, resource: seq<byte>, n: nat, chunkSize: nat, fuel: nat)
    requires n >= 1 && chunkSize >= 1 && fuel > |resource|
    ensures Chunked(file, HonestServer(resource), n, chunkSize, fuel).file == resource
    ensures Chunked(file, HonestServer(resource), n, chunkSize, fuel).outcome == Completed
  {
    assert resource[..Min(0, |resource|)] == [];
    WavesHonest(resource, n, chunkSize, 0, fuel);
  }

  /** `download_file` against a server that follows RFC 9110 and announces the
      resource's length: one multi-part attempt, and the file is the resource. */
  lemma DownloadFileHonest(file: seq<byte>, resource: seq<byte>, n: nat, chunkSize: nat, fuel: nat)
    requires n >= 1
    ensures DownloadFileSpec(file, Head(200, Numeric(|resource|)), HonestServer(resource), Numeric(|resource|),
                             n, false, chunkSize, fuel)
            == Download(resource, Report([MultiPart], false, false))
  {
    MultiThreadHonest(file, resource, n);
  }

  /** With `is_single` set, against the same server: one run of waves, and the
      file is the resource. */
  lemma DownloadFileSingleHonest(file: seq<byte>, resource: seq<byte>, n: nat, chunkSize: nat, fuel: nat)
    requires n >= 1 && chunkSize >= 1 && fuel > |resource|
    ensures DownloadFileSpec(file, Head(200, Numeric(|resource|)), HonestServer(resource), Numeric(|resource|),
                             n, true, chunkSize, fuel)
            == Download(resource, Report([ChunkedWaves], false, false))
  {
    ChunkedHonest(file, resource, n, chunkSize, fuel);
  }

  /** The single-stream fallback against such a server also leaves the
      resource when its Content-Length is readable or missing; an unreadable
      one raises and leaves the file as it was. */
  lemma SingleThreadHonest(file: seq<byte>, resource: seq<byte>, length: ContentLength)
    ensures SingleThread(file, HonestServer(resource)(None), length) ==
            if length.NotNumeric? then Attempt(file, true) else Attempt(resource, false)
  {
    assert Flatten([resource]) == resource;
  }
}

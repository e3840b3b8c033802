/** The NDJSON streaming endpoint, server/api/timeseries/stream.get.ts.

    The handler reads one consolidated month file from storage chunk by
    chunk, accumulates the bytes, and hands a buffer to `processBuffer`
    whenever more than 10 MiB have piled up, and once more for the remainder.
    `processBuffer` decodes the buffer, filters the rows and pushes each kept
    row as one JSON line. Decoding (streamParquet on one buffer) and
    `JSON.stringify` are inputs of the model. */
module TimeseriesStream {
  import opened Wrappers
  import opened Strings
  import opened Seqs
  import opened Types
  import opened Gcs
  import opened Parquet

  newtype byte = x: int | 0 <= x < 256

  type Bytes = seq<byte>

  /** `10 * 1024 * 1024`. */
  const MaxBuffer: nat := 10 * 1024 * 1024

  /** The query string; every parameter may be absent. */
  datatype StreamQuery = StreamQuery(
    yearMonth: Option<string>,
    platform: Option<string>,
    genre: Option<string>,
    minPlayCount: Option<string>,
    limit: Option<string>)

  /** `query.yearMonth || '2025_03'`. */
  function YearMonth(q: StreamQuery): (r: string)
    ensures IsSet(q.yearMonth) ==> r == q.yearMonth.value
    ensures !IsSet(q.yearMonth) ==> r == "2025_03"
  {
    if IsSet(q.yearMonth) then q.yearMonth.value else "2025_03"
  }

  /** The filters built from the query: platform and genre as given, the
      play-count threshold parsed when present, and the limit parsed when
      present and 1000 otherwise. A text that `parseInt` cannot read gives
      `NaN`, which this model writes as `None`. */
  function StreamFilters(q: StreamQuery): (f: SearchFilters)
    ensures f.platform == q.platform && f.genre == q.genre
    ensures f.dateRange.None? && f.advertiser.None? && f.minCost.None?
    ensures f.minPlayCount == if IsSet(q.minPlayCount) then ParseInt(q.minPlayCount.value) else None
    ensures !IsSet(q.limit) ==> f.limit == Some(1000)
    ensures IsSet(q.limit) ==> f.limit == ParseInt(q.limit.value)
  {
    SearchFilters(
      None, q.platform, q.genre, None,
      if IsSet(q.minPlayCount) then ParseInt(q.minPlayCount.value) else None,
      None,
      if IsSet(q.limit) then ParseInt(q.limit.value) else Some(1000))
  }

  /** The object read: `consolidated_{yearMonth}.parquet` in the
      `raw_consolidated` partition. */
  function FilePath(q: StreamQuery): (r: string)
    ensures r == "timeseries_data/raw_consolidated/consolidated_" + YearMonth(q) + ".parquet"
  {
    var ym := YearMonth(q);
    var name := "consolidated_" + ym + ".parquet";
    var dir := "timeseries_data/raw_consolidated/";
    assert Root + "raw_consolidated" + "/" == dir;
    assert dir + "consolidated_" == "timeseries_data/raw_consolidated/consolidated_";
    assert dir + name == dir + "consolidated_" + ym + ".parquet";
    BuildTimeseriesPath("raw_consolidated", name)
  }

  /** A query naming no month reads March 2025, and one naming no limit
      streams at most 1000 records per buffer. */
  lemma Defaults()
    ensures FilePath(StreamQuery(None, None, None, None, None)) == "timeseries_data/raw_consolidated/consolidated_2025_03.parquet"
    ensures StreamFilters(StreamQuery(None, None, None, None, None)).limit == Some(1000)
  {
  }

  /** `filterFn`, written as its chain of early returns. */
  function StreamFilterFn(f: SearchFilters, r: RawAdData): bool {
    if IsSet(f.platform) && r.appName != f.platform.value then false
    else if IsSet(f.genre) && r.genreName != f.genre.value then false
    else if IsSetNum(f.minPlayCount) && r.playCount < f.minPlayCount.value then false
    else true
  }

  function StreamAccept(f: SearchFilters): RawAdData -> bool {
    (r: RawAdData) => StreamFilterFn(f, r)
  }

  /** A row passes iff each set filter among platform, genre and play count
      holds of it. */
  lemma StreamFilterIff(f: SearchFilters, r: RawAdData)
    ensures StreamFilterFn(f, r) <==>
      && (!IsSet(f.platform) || r.appName == f.platform.value)
      && (!IsSet(f.genre) || r.genreName == f.genre.value)
      && (!IsSetNum(f.minPlayCount) || r.playCount >= f.minPlayCount.value)
  {
  }

  /** Advertiser, cost, date range and limit never affect which rows pass. */
  lemma StreamFilterIgnores(f: SearchFilters, r: RawAdData, g: SearchFilters)
    requires g.platform == f.platform && g.genre == f.genre && g.minPlayCount == f.minPlayCount
    ensures StreamFilterFn(g, r) == StreamFilterFn(f, r)
  {
  }

  /** How many records one `processBuffer` call pushes, from the number
      `kept` of rows passing the filter: with a truthy limit `L` and a start
      count `c`, the generator's cap `L - c` and the `recordCount >= L` break
      together stop after `max(1, L - c)` records. */
  function EmittedCount(kept: nat, limit: Option<int>, recordCount: int): (n: nat)
    ensures n <= kept
    ensures !IsSetNum(limit) ==> n == kept
    ensures IsSetNum(limit) && kept > 0 ==> 1 <= n <= Max(1, limit.value - recordCount)
  {
    if IsSetNum(limit) then Min(kept, Max(1, limit.value - recordCount)) else kept
  }

  /** The lines one `processBuffer` call pushes: the first kept rows, each
      serialised and terminated by a newline. */
  function Emitted(rows: seq<RawAdData>, f: SearchFilters, recordCount: int, serialize: RawAdData -> string): (r: seq<string>)
    ensures var kept := Filter(rows, StreamAccept(f));
      && |r| == EmittedCount(|kept|, f.limit, recordCount)
      && forall i :: 0 <= i < |r| ==> r[i] == serialize(kept[i]) + "\n"
  {
    var kept := Filter(rows, StreamAccept(f));
    var n := EmittedCount(|kept|, f.limit, recordCount);
    seq(n, i requires 0 <= i < n => serialize(kept[i]) + "\n")
  }

  /** `processBuffer(buffer, filters, recordCount)` on the rows decoded from
      the buffer: the pushed lines, and the count it returns. */
  method ProcessBuffer(rows: seq<RawAdData>, f: SearchFilters, recordCount: int, serialize: RawAdData -> string)
    returns (lines: seq<string>, count: int)
    ensures lines == Emitted(rows, f, recordCount, serialize)
    ensures count == recordCount + |lines|
  {
    var maxResults := if IsSetNum(f.limit) then Some(f.limit.value - recordCount) else None;
    var records := FilterWithCap(rows, StreamAccept(f), maxResults);
    lines, count := PushLines(records, f.limit, recordCount, serialize);
    ghost var kept := Filter(rows, StreamAccept(f));
    assert forall j :: 0 <= j < |records| ==> records[j] == kept[j];
    assert EmittedCount(|records|, f.limit, recordCount) == EmittedCount(|kept|, f.limit, recordCount);
    EmittedFrom(rows, f, recordCount, serialize, lines);
  }

  /** The `for await` loop of `processBuffer` over the filtered records:
      each is pushed as one line until `recordCount >= limit`. */
  method PushLines(records: seq<RawAdData>, limit: Option<int>, recordCount: int, serialize: RawAdData -> string)
    returns (lines: seq<string>, count: int)
    ensures |lines| == EmittedCount(|records|, limit, recordCount)
    ensures forall j :: 0 <= j < |lines| ==> lines[j] == serialize(records[j]) + "\n"
    ensures count == recordCount + |lines|
  {
    lines := [];
    count := recordCount;
    var i := 0;
    while i < |records|
      invariant 0 <= i <= |records|
      invariant |lines| == i && count == recordCount + i
      invariant forall j :: 0 <= j < i ==> lines[j] == serialize(records[j]) + "\n"
      invariant IsSetNum(limit) && i > 0 ==> count < limit.value
    {
      lines := lines + [serialize(records[i]) + "\n"];
      count := count + 1;
      i := i + 1;
      if IsSetNum(limit) && count >= limit.value {
        break;
      }
    }
  }

  /** Lines of the right number, each a serialised kept row in order, are
      what `processBuffer` pushes. */
  lemma EmittedFrom(rows: seq<RawAdData>, f: SearchFilters, recordCount: int, serialize: RawAdData -> string, lines: seq<string>)
    requires var kept := Filter(rows, StreamAccept(f));
      && |lines| == EmittedCount(|kept|, f.limit, recordCount)
      && forall j :: 0 <= j < |lines| ==> lines[j] == serialize(kept[j]) + "\n"
    ensures lines == Emitted(rows, f, recordCount, serialize)
  {
  }

  /** What `processBuffer(buffer, filters, 0)` pushes for one buffer. */
  function BufferLines(f: SearchFilters, decode: Bytes -> seq<RawAdData>, serialize: RawAdData -> string): Bytes -> seq<string> {
    (b: Bytes) => Emitted(decode(b), f, 0, serialize)
  }

  /** Every buffer flushed inside the loop is past the threshold and at
      most 10 MiB longer than `chunks[trigger[j]]`, the chunk whose arrival
      flushed it: the triggers increase, and the buffers up to `j` hold
      exactly the bytes of the chunks up to `trigger[j]`. */
  ghost predicate Flushed(buffers: seq<Bytes>, trigger: seq<nat>, chunks: seq<Bytes>) {
    && |trigger| == |buffers|
    && Bounded(buffers, trigger, chunks)
    && Increasing(trigger)
    && Completes(buffers, trigger, chunks)
  }

  ghost predicate Bounded(buffers: seq<Bytes>, trigger: seq<nat>, chunks: seq<Bytes>)
    requires |trigger| == |buffers|
  {
    forall j :: 0 <= j < |buffers| ==>
      trigger[j] < |chunks| && MaxBuffer < |buffers[j]| <= MaxBuffer + |chunks[trigger[j]]|
  }

  ghost predicate Increasing(trigger: seq<nat>) {
    forall j, k :: 0 <= j < k < |trigger| ==> trigger[j] < trigger[k]
  }

  ghost predicate Completes(buffers: seq<Bytes>, trigger: seq<nat>, chunks: seq<Bytes>)
    requires |trigger| == |buffers|
  {
    forall j :: 0 <= j < |buffers| ==>
      trigger[j] < |chunks| && Flatten(buffers[..j + 1]) == Flatten(chunks[..trigger[j] + 1])
  }

  /** Flushing `buffer` on the arrival of chunk `i`, after every earlier
      trigger, keeps `Flushed` when the bytes so far are those of the chunks
      up to `i`. */
  lemma FlushedStep(buffers: seq<Bytes>, trigger: seq<nat>, chunks: seq<Bytes>, buffer: Bytes, i: nat)
    requires Flushed(buffers, trigger, chunks)
    requires forall j :: 0 <= j < |trigger| ==> trigger[j] < i
    requires i < |chunks| && MaxBuffer < |buffer| <= MaxBuffer + |chunks[i]|
    requires Flatten(buffers) + buffer == Flatten(chunks[..i + 1])
    ensures Flushed(buffers + [buffer], trigger + [i], chunks)
  {
    BoundedStep(buffers, trigger, chunks, buffer, i);
    IncreasingStep(trigger, i);
    CompletesStep(buffers, trigger, chunks, buffer, i);
  }

  lemma BoundedStep(buffers: seq<Bytes>, trigger: seq<nat>, chunks: seq<Bytes>, buffer: Bytes, i: nat)
    requires |trigger| == |buffers| && Bounded(buffers, trigger, chunks)
    requires i < |chunks| && MaxBuffer < |buffer| <= MaxBuffer + |chunks[i]|
    ensures Bounded(buffers + [buffer], trigger + [i], chunks)
  {
    var bs, ts := buffers + [buffer], trigger + [i];
    forall j | 0 <= j < |bs|
      ensures ts[j] < |chunks| && MaxBuffer < |bs[j]| <= MaxBuffer + |chunks[ts[j]]|
    {
      if j < |buffers| {
        assert bs[j] == buffers[j] && ts[j] == trigger[j];
      }
    }
  }

  lemma IncreasingStep(trigger: seq<nat>, i: nat)
    requires Increasing(trigger)
    requires forall j :: 0 <= j < |trigger| ==> trigger[j] < i
    ensures Increasing(trigger + [i])
  {
    var ts := trigger + [i];
    forall j, k | 0 <= j < k < |ts|
      ensures ts[j] < ts[k]
    {
      assert ts[j] == trigger[j];
      if k < |trigger| {
        assert ts[k] == trigger[k];
      }
    }
  }

  lemma CompletesStep(buffers: seq<Bytes>, trigger: seq<nat>, chunks: seq<Bytes>, buffer: Bytes, i: nat)
    requires |trigger| == |buffers| && Completes(buffers, trigger, chunks)
    requires i < |chunks| && Flatten(buffers) + buffer == Flatten(chunks[..i + 1])
    ensures Completes(buffers + [buffer], trigger + [i], chunks)
  {
    var bs, ts := buffers + [buffer], trigger + [i];
    forall j | 0 <= j < |bs|
      ensures ts[j] < |chunks| && Flatten(bs[..j + 1]) == Flatten(chunks[..ts[j] + 1])
    {
      if j < |buffers| {
        assert ts[j] == trigger[j];
        assert bs[..j + 1] == buffers[..j + 1];
      } else {
        assert bs[..j + 1] == bs;
        FlattenStep(buffers, buffer);
      }
    }
  }

  /** The body of `read()`: the buffers handed to `processBuffer`, in call
      order, the lines each call pushed, and the bytes still pending when
      the loop ended. `failed` says that the storage stream raised an error
      after delivering `chunks` (at once when the file cannot be opened):
      then the pending bytes are never processed. `recordCount` stays 0 for
      every call, so the limit holds per buffer, not per response.

      `trigger[j]` is the index of the chunk whose arrival flushed buffer
      `j` inside the loop, and `restFlushed` says that the remainder was
      processed as one more buffer after it. */
  method Read(chunks: seq<Bytes>, failed: bool, f: SearchFilters, decode: Bytes -> seq<RawAdData>, serialize: RawAdData -> string)
    returns (buffers: seq<Bytes>, output: seq<seq<string>>, pending: Bytes, ghost trigger: seq<nat>, ghost restFlushed: bool)
    // every delivered byte is processed once, in order, or is still pending
    ensures Flatten(buffers) + pending == Flatten(chunks)
    ensures !failed ==> pending == []
    ensures failed ==> |pending| <= MaxBuffer && !restFlushed
    // a buffer flushed in the loop is past 10 MiB by at most its triggering
    // chunk, the one whose arrival completes it
    ensures |buffers| == |trigger| + (if restFlushed then 1 else 0)
    ensures forall j :: 0 <= j < |trigger| ==>
      trigger[j] < |chunks| && MaxBuffer < |buffers[j]| <= MaxBuffer + |chunks[trigger[j]]|
    ensures forall j, k :: 0 <= j < k < |trigger| ==> trigger[j] < trigger[k]
    ensures forall j :: 0 <= j < |trigger| ==> Flatten(buffers[..j + 1]) == Flatten(chunks[..trigger[j] + 1])
    // the remainder is non-empty and at most 10 MiB
    ensures restFlushed ==> 0 < |Last(buffers)| <= MaxBuffer
    ensures !failed ==> (|buffers| == 0 <==> |Flatten(chunks)| == 0)
    ensures output == Map(buffers, BufferLines(f, decode, serialize))
  {
    var buffer;
    buffers, output, buffer, trigger := Accumulate(chunks, f, decode, serialize);
    if failed {
      pending, restFlushed := buffer, false;
      return;
    }
    pending, restFlushed := [], |buffer| > 0;
    ghost var flushed := buffers;
    buffers, output := FlushRest(buffers, output, buffer, f, decode, serialize);
    RestShape(flushed, trigger, chunks, buffer);
  }

  /** The `for await` loop of `read()` over the delivered chunks: the
      flushed buffers with their outputs, and the pending buffer. */
  method Accumulate(chunks: seq<Bytes>, f: SearchFilters, decode: Bytes -> seq<RawAdData>, serialize: RawAdData -> string)
    returns (buffers: seq<Bytes>, output: seq<seq<string>>, buffer: Bytes, ghost trigger: seq<nat>)
    ensures Flatten(buffers) + buffer == Flatten(chunks)
    ensures |buffer| <= MaxBuffer
    ensures Flushed(buffers, trigger, chunks)
    ensures output == Map(buffers, BufferLines(f, decode, serialize))
  {
    buffers, output, trigger, buffer := [], [], [], [];
    var i: nat := 0;
    while i < |chunks|
      invariant Absorbed(chunks, i, buffers, output, buffer, trigger, f, decode, serialize)
    {
      buffers, output, buffer, trigger := Arrive(chunks, i, buffers, output, buffer, trigger, f, decode, serialize);
      i := i + 1;
    }
    FullPrefix(chunks);
  }

  /** The loop's state after the first `i` chunks have arrived. */
  ghost predicate Absorbed(chunks: seq<Bytes>, i: nat, buffers: seq<Bytes>, output: seq<seq<string>>, buffer: Bytes,
                           trigger: seq<nat>, f: SearchFilters, decode: Bytes -> seq<RawAdData>, serialize: RawAdData -> string) {
    && i <= |chunks|
    && Flatten(buffers) + buffer == Flatten(chunks[..i])
    && |buffer| <= MaxBuffer
    && Flushed(buffers, trigger, chunks)
    && (forall j :: 0 <= j < |trigger| ==> trigger[j] < i)
    && output == Map(buffers, BufferLines(f, decode, serialize))
  }

  /** The arrival of chunk `i`: `Absorb`, with chunk `i` recorded as the
      trigger when it flushed the buffer. */
  method Arrive(chunks: seq<Bytes>, i: nat, buffers: seq<Bytes>, output: seq<seq<string>>, buffer: Bytes, ghost trigger: seq<nat>,
                f: SearchFilters, decode: Bytes -> seq<RawAdData>, serialize: RawAdData -> string)
    returns (buffers': seq<Bytes>, output': seq<seq<string>>, buffer': Bytes, ghost trigger': seq<nat>)
    requires i < |chunks|
    requires Absorbed(chunks, i, buffers, output, buffer, trigger, f, decode, serialize)
    ensures Absorbed(chunks, i + 1, buffers', output', buffer', trigger', f, decode, serialize)
  {
    FlattenPrefixStep(chunks, i);
    AppendAssoc(Flatten(buffers), buffer, chunks[i]);
    buffers', output', buffer' := Absorb(buffers, output, buffer, chunks[i], f, decode, serialize);
    trigger' := trigger;
    if |buffer + chunks[i]| > MaxBuffer {
      FlushedStep(buffers, trigger, chunks, buffer + chunks[i], i);
      trigger' := trigger + [i];
    }
  }

  /** The buffers after the remainder is processed keep the loop's bounds,
      and none is empty. */
  lemma RestShape(buffers: seq<Bytes>, trigger: seq<nat>, chunks: seq<Bytes>, buffer: Bytes)
    requires Flushed(buffers, trigger, chunks) && |buffer| <= MaxBuffer
    ensures var all := if |buffer| > 0 then buffers + [buffer] else buffers;
      && (forall j :: 0 <= j < |trigger| ==>
        trigger[j] < |chunks| && MaxBuffer < |all[j]| <= MaxBuffer + |chunks[trigger[j]]|)
      && (forall j :: 0 <= j < |trigger| ==> Flatten(all[..j + 1]) == Flatten(chunks[..trigger[j] + 1]))
      && (|all| == 0 <==> |Flatten(all)| == 0)
  {
    var all := if |buffer| > 0 then buffers + [buffer] else buffers;
    forall j | 0 <= j < |all|
      ensures |all[j]| > 0
      ensures j < |trigger| ==> all[j] == buffers[j] && all[..j + 1] == buffers[..j + 1]
    {
      if j < |buffers| {
        assert all[j] == buffers[j];
        assert all[..j + 1] == buffers[..j + 1];
      }
    }
    FlattenNonEmpty(all);
  }

  /** One turn of the `for await (const chunk of stream)` loop: the chunk is
      appended, and a buffer past 10 MiB is processed and emptied. */
  method Absorb(buffers: seq<Bytes>, output: seq<seq<string>>, buffer: Bytes, chunk: Bytes,
                f: SearchFilters, decode: Bytes -> seq<RawAdData>, serialize: RawAdData -> string)
    returns (buffers': seq<Bytes>, output': seq<seq<string>>, buffer': Bytes)
    requires output == Map(buffers, BufferLines(f, decode, serialize))
    ensures Flatten(buffers') + buffer' == Flatten(buffers) + (buffer + chunk)
    ensures |buffer + chunk| <= MaxBuffer ==> buffers' == buffers && buffer' == buffer + chunk
    ensures |buffer + chunk| > MaxBuffer ==> buffers' == buffers + [buffer + chunk] && buffer' == []
    ensures output' == Map(buffers', BufferLines(f, decode, serialize))
  {
    buffer' := buffer + chunk;
    buffers', output' := buffers, output;
    if |buffer'| > MaxBuffer {
      buffers', output' := Flush(buffers, output, buffer', f, decode, serialize);
      assert Flatten(buffers') + [] == Flatten(buffers');
      buffer' := [];
    }
  }

  /** The end of `read()` after the loop: a non-empty remainder is
      processed as the last buffer. */
  method FlushRest(buffers: seq<Bytes>, output: seq<seq<string>>, buffer: Bytes,
                   f: SearchFilters, decode: Bytes -> seq<RawAdData>, serialize: RawAdData -> string)
    returns (buffers': seq<Bytes>, output': seq<seq<string>>)
    requires output == Map(buffers, BufferLines(f, decode, serialize))
    ensures buffers' == if |buffer| > 0 then buffers + [buffer] else buffers
    ensures Flatten(buffers') == Flatten(buffers) + buffer
    ensures output' == Map(buffers', BufferLines(f, decode, serialize))
  {
    buffers', output' := buffers, output;
    if |buffer| > 0 {
      buffers', output' := Flush(buffers, output, buffer, f, decode, serialize);
    } else {
      assert Flatten(buffers) + buffer == Flatten(buffers);
    }
  }

  /** One `processBuffer(buffer, filters, recordCount)` call of `read()`.
      The caller's `recordCount` is never updated, so it is always 0. */
  method Flush(buffers: seq<Bytes>, output: seq<seq<string>>, buffer: Bytes,
               f: SearchFilters, decode: Bytes -> seq<RawAdData>, serialize: RawAdData -> string)
    returns (buffers': seq<Bytes>, output': seq<seq<string>>)
    requires output == Map(buffers, BufferLines(f, decode, serialize))
    ensures buffers' == buffers + [buffer]
    ensures Flatten(buffers') == Flatten(buffers) + buffer
    ensures output' == Map(buffers', BufferLines(f, decode, serialize))
  {
    var lines, _ := ProcessBuffer(decode(buffer), f, 0, serialize);
    FlattenStep(buffers, buffer);
    MapStep(buffers, buffer, BufferLines(f, decode, serialize));
    buffers', output' := buffers + [buffer], output + [lines];
  }

  /** With the limit set to `L`, every buffer pushes at most `max(1, L)`
      lines; the response as a whole may carry more. */
  lemma LimitPerBuffer(rows: seq<RawAdData>, f: SearchFilters, serialize: RawAdData -> string)
    requires IsSetNum(f.limit)
    ensures |Emitted(rows, f, 0, serialize)| <= Max(1, f.limit.value)
  {
  }

  datatype StreamResponse =
    | MissingBucket
    | Streaming(path: string, buffers: seq<Bytes>, output: seq<seq<string>>, completed: bool)

  /** The handler: a missing bucket name is a 500 error before anything is
      read; otherwise the file for the month is streamed. `chunks` is what
      the storage read stream delivers for that file and `failed` whether
      it then raised an error. A completed response ends the stream with
      `push(null)`; a failed one destroys it, after at most the 10 MiB that
      were pending went unprocessed. */
  method Handle(bucketName: string, q: StreamQuery, chunks: seq<Bytes>, failed: bool,
                decode: Bytes -> seq<RawAdData>, serialize: RawAdData -> string)
    returns (resp: StreamResponse)
    ensures resp.MissingBucket? <==> bucketName == []
    ensures resp.Streaming? ==>
      && resp.path == "timeseries_data/raw_consolidated/consolidated_" + YearMonth(q) + ".parquet"
      && resp.completed == !failed
      && Flatten(resp.buffers) <= Flatten(chunks)
      && (!failed ==> Flatten(resp.buffers) == Flatten(chunks))
      && |Flatten(chunks)| - |Flatten(resp.buffers)| <= MaxBuffer
      && resp.output == Map(resp.buffers, BufferLines(StreamFilters(q), decode, serialize))
  {
    if bucketName == [] {
      return MissingBucket;
    }
    var path := FilePath(q);
    var buffers, output, pending, _, _ := Read(chunks, failed, StreamFilters(q), decode, serialize);
    resp := Streaming(path, buffers, output, !failed);
  }
}

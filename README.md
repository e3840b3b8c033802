# Ad-data chat server: a verified model of its retrieval core

The server behind an advertising-analytics chat app answers two kinds of
requests. Timeseries endpoints read Parquet partitions from a Cloud Storage
bucket, then filter, sort and total their rows. A chat service turns a
question into search filters, fetches matching rows or summary documents,
and builds the text context handed to a language model, or, when no model
is configured, a data-only reply.

This project models that core in Dafny and proves what each part promises.
The modules are:

- `Parquet`: the lazily chosen decoder back-end (`parquet-wasm`, with
  `parquetjs-lite` as fallback) and the streaming, filtering, batching and
  folding combinators on top of it.
- `TimeseriesStream`: the chunk accumulator and per-buffer filter of the
  NDJSON stream endpoint.
- `Gcs`: the storage path helpers, the month key, the known data gaps and
  bucket-name cleaning.
- `EnhancedRag` and `YearMonths`: the month index, query intent,
  year-month extraction, file selection, the row predicate with its caps,
  document conversion and per-platform aggregation.
- `ChatService`: the session store, filter extraction, the choice of
  retrieval path and the shaping of sources.
- `DataService`: the store of JSON summaries and its first-match, top-N,
  sort and search queries.
- `PlatformEndpoint` and `DailyEndpoint`: the two aggregation endpoints.
- `Rag`: the context formatters and the fallbacks of the basic retrieval
  system.

`Wrappers`, `Strings`, `Seqs`, `Orders`, `OrderedMaps`, `Grouping` and
`Types` hold the shared vocabulary. This covers JavaScript truthiness
(`x || 0`, `if (filter.x)`), insertion-ordered maps with `Map.set` and
`Map.delete`, `filter`, `map`, `reduce` and a stable sort, code-unit string
order, and the row and filter records.

Storage, decoding, the clock, random ids, the language model and the
vector store are parameters of the operations that use them. Downloads and
listings are `Option` or `Download` values, where the empty case is the
thrown error. A decode yields rows that an error may cut short. A model
call yields `Option<string>`. `now` and `freshId` stand for `new Date()`
and `uuidv4()`.

Where the code and its own comments or documentation disagree, the model
follows the code:

- `selectDataFiles` compares an indexed month's end `YYYY-MM-31` against a
  range end `YYYY-MM` as strings. The end month of a range extracted from a
  question is therefore never selected (`EnhancedRag.EndMonthNeverCovered`).
- The stream endpoint passes its `recordCount` by value and drops the
  returned count, so its record limit holds per buffer, not per response
  (`TimeseriesStream.LimitPerBuffer`).
- `searchData` does not load the summaries first.
- `searchData` throws when a matching entry was parsed to `null`; this is
  `None` in `DataService.SearchDataOf`.

## Model

| member | source | states |
|---|---|---|
| Parquet.Ensure | server/utils/parquet-parser.ts:35-103 | one call keeps the reachable-state invariant: never both handles, and the failure flag only with the fallback loaded; a set handle or flag is never reset; once a library is loaded the call returns it and changes nothing; a `null` result records nothing; when disabled the primary is never touched; the failure flag is raised only together with a loaded fallback, which is returned |
| Parquet.FailedBranchDead | server/utils/parquet-parser.ts:53-64 | in every reachable state the "primary failed, no fallback yet" branch cannot be entered |
| Parquet.RetryWithoutLibrary | server/utils/parquet-parser.ts:66-101 | with no library loaded, a call retries from scratch: only the fallback when disabled, otherwise the primary first |
| Parquet.Reachable | server/utils/parquet-parser.ts:24-103 | every state reached from the initial variables by any sequence of calls satisfies the invariant |
| Parquet.LoadedIsFinal | server/utils/parquet-parser.ts:35-51 | once a library is loaded, every later call returns that library and the state never changes again |
| Parquet.PresentMembership | server/utils/parquet-parser.ts:145-150 | a row is returned exactly when `getRow` reported it present |
| Parquet.CutShortIsPrefix | server/utils/parquet-parser.ts:184-213 | rows cut short by a mid-stream error are a prefix of the error-free rows |
| Parquet.Capped | server/utils/parquet-parser.ts:305-316 | the records of the filter-and-count loop: a prefix of the passing rows, all of them when uncapped, else `min(passing, cap)` of them |
| Parquet.CappedPrefix | server/utils/parquet-parser.ts:305-316 | fewer rows in gives a prefix of the records out |
| Parquet.CappedCutShortIsPrefix | server/utils/parquet-parser.ts:299-322 | a table whose stream fails mid-way yields, after filtering and capping, a prefix of what the whole table yields |
| Parquet.Parsed | server/utils/parquet-parser.ts:105-158 | parseParquet yields `[]` without a library or after any error, and otherwise all rows in order, skipping absent ones |
| Parquet.FromJsField | server/utils/parquet-parser.ts:253-259 | a parquetjs field keeps its name and type and is nullable exactly when marked optional |
| Parquet.SchemaFields | server/utils/parquet-parser.ts:234-296 | getParquetSchema yields no fields without a library or after an error, and otherwise the library's fields |
| Parquet.FilterWithCap | server/utils/parquet-parser.ts:299-322 | the yielded rows are `Capped`: a prefix of the passing rows; all of them when `maxResults` is 0 or absent, otherwise `min(passing, max(1, maxResults))` of them |
| Parquet.Batch | server/utils/parquet-parser.ts:325-358 | the batches concatenate to the rows; each is non-empty and holds at most `batchSize` rows, and all but the last hold exactly that many; the total is the row count |
| Parquet.FoldRows | server/utils/parquet-parser.ts:361-381 | the result is the left fold of the aggregator over the rows in order |
| Parquet.ParquetParser.constructor | server/utils/parquet-parser.ts:24-32 | all three variables start empty |
| Parquet.ParquetParser.EnsureParquetWasm | server/utils/parquet-parser.ts:35-103 | the new variables and the returned handle are those of `Ensure` |
| Parquet.ParquetParser.StreamParquet | server/utils/parquet-parser.ts:161-214 | nothing without a library, the present rows with the primary, and the decoded rows with the fallback |
| Parquet.ParquetParser.ParseParquet | server/utils/parquet-parser.ts:105-158 | the state moves as one `ensureParquetWasm` call and the rows are `Parsed` |
| Parquet.ParquetParser.GetParquetSchema | server/utils/parquet-parser.ts:234-296 | the state moves as one `ensureParquetWasm` call and the fields are `SchemaFields`, which is empty on every failure path |
| Parquet.ParquetParser.StreamParquetWithFilter | server/utils/parquet-parser.ts:299-322 | the records are `Capped` of the streamed rows: a prefix of the rows passing the filter; all of them when uncapped, else capped in number |
| Parquet.ParquetParser.ProcessParquetInBatches | server/utils/parquet-parser.ts:325-358 | without a library no batch is processed and the result is 0; otherwise the batches concatenate to the stream, are full except the last, and the result is the row count |
| Parquet.ParquetParser.AggregateParquet | server/utils/parquet-parser.ts:361-381 | the initial value without a library, otherwise the left fold over the streamed rows |
| TimeseriesStream.YearMonth | server/api/timeseries/stream.get.ts:8 | the requested month, or `2025_03` when absent or empty |
| TimeseriesStream.StreamFilters | server/api/timeseries/stream.get.ts:9-14 | platform and genre are passed through; a given play count and limit are read by `parseInt` without a radix; the limit defaults to 1000; no other filter is set |
| Strings.ParseIntDigits | server/api/timeseries/stream.get.ts:12-13 | `parseInt` of a plain run of decimal digits is its decimal value |
| Strings.ParseInt | server/api/timeseries/stream.get.ts:12-13 | no contract; specified by `ParseIntDigits`, `ParseIntHex`, `ParseIntSign`, `ParseIntSkipsSpace` and `ParseIntNaN` |
| Strings.ParseIntHex | server/api/timeseries/stream.get.ts:12-13 | `parseInt` of `0x` or `0X` followed by hex digits is their base-16 value, not 0 |
| Strings.ParseIntSign | server/api/timeseries/stream.get.ts:12-13 | a leading `+` changes nothing and a leading `-` negates |
| Strings.ParseIntSkipsSpace | server/api/timeseries/stream.get.ts:12-13 | leading ECMAScript white space (tabs, form feeds, no-break and other Unicode spaces, line terminators) never changes the result |
| Strings.ParseIntNaN | server/api/timeseries/stream.get.ts:12-13 | the result is `NaN` exactly when no digit of the chosen base follows the white space, the sign and any `0x` |
| TimeseriesStream.FilePath | server/api/timeseries/stream.get.ts:35-38 | `timeseries_data/raw_consolidated/consolidated_{yearMonth}.parquet` |
| TimeseriesStream.Defaults | server/api/timeseries/stream.get.ts:8-14 | an empty query reads the 2025_03 file with a limit of 1000 |
| TimeseriesStream.StreamFilterIff | server/api/timeseries/stream.get.ts:83-88 | a row passes iff each set filter among platform, genre and minimum play count holds of it |
| TimeseriesStream.StreamFilterFn | server/api/timeseries/stream.get.ts:83-88 | no contract; specified by `StreamFilterIff` and `StreamFilterIgnores` |
| TimeseriesStream.StreamFilterIgnores | server/api/timeseries/stream.get.ts:83-88 | advertiser, cost, date and limit filters have no effect on the predicate |
| TimeseriesStream.EmittedCount | server/api/timeseries/stream.get.ts:91-109 | never more than the kept rows; all of them without a limit; with one, between 1 and `max(1, limit - recordCount)` when any row is kept |
| TimeseriesStream.Emitted | server/api/timeseries/stream.get.ts:91-109 | the pushed lines are the first kept rows in order, each serialised and ending in a newline |
| TimeseriesStream.ProcessBuffer | server/api/timeseries/stream.get.ts:75-115 | the pushed lines are `Emitted`, and the returned count grows by their number |
| TimeseriesStream.PushLines | server/api/timeseries/stream.get.ts:91-109 | the first `EmittedCount` records are pushed, each serialised with a newline, in order, and the count grows by their number |
| TimeseriesStream.Read | server/api/timeseries/stream.get.ts:43-66 | the delivered bytes are the processed buffers in order followed by what is still pending; pending bytes remain only after a stream error, and then at most 10 MiB of them; a buffer flushed in the loop is past 10 MiB and exceeds it by at most the chunk that triggered it, where the triggers increase and the buffers up to `j` hold exactly the bytes of the chunks up to `trigger[j]`; the remainder, when processed, is non-empty and at most 10 MiB; without an error there is no buffer iff no byte arrived; each buffer's output is filtered with a count starting at 0 |
| TimeseriesStream.Accumulate | server/api/timeseries/stream.get.ts:43-55 | the loop over the delivered chunks: the flushed buffers and the pending one hold every byte in order, the pending one is at most 10 MiB, and each flushed buffer is past 10 MiB by at most its triggering chunk, the chunk whose arrival completes it (`Flushed`) |
| TimeseriesStream.FlushedStep | server/api/timeseries/stream.get.ts:47-53 | a buffer flushed on the arrival of chunk `i`, when the bytes so far are exactly those of the chunks up to `i` and every earlier trigger is before `i`, keeps `Flushed`: the bounds, increasing triggers and the tie of each buffer to its triggering chunk |
| TimeseriesStream.Arrive | server/api/timeseries/stream.get.ts:46-54 | one chunk's arrival keeps the loop state `Absorbed`: the bytes so far, the pending bound, and `Flushed` with chunk `i` recorded iff it flushed the buffer |
| TimeseriesStream.Absorb | server/api/timeseries/stream.get.ts:47-54 | one chunk: the bytes seen so far are kept in order; a buffer of at most 10 MiB stays pending, and one past 10 MiB is processed whole and emptied |
| TimeseriesStream.FlushRest | server/api/timeseries/stream.get.ts:57-59 | a non-empty remainder becomes exactly one more buffer, and an empty one adds nothing |
| TimeseriesStream.RestShape | server/api/timeseries/stream.get.ts:51-59 | after the remainder the loop's buffers keep their bounds and no buffer is empty |
| TimeseriesStream.Flush | server/api/timeseries/stream.get.ts:51-52 | one `processBuffer` call: the buffer is appended to the processed ones and its lines, counted from 0, to the output |
| TimeseriesStream.LimitPerBuffer | server/api/timeseries/stream.get.ts:44-59 | one buffer pushes at most `max(1, limit)` lines, whatever was pushed before |
| TimeseriesStream.Handle | server/api/timeseries/stream.get.ts:21-66 | a missing bucket name is an error; otherwise the month file is streamed with the query's filters; without a stream error every byte is processed once, in order, and the stream is ended; after an error it is destroyed, the processed bytes are a prefix of those delivered, and at most 10 MiB went unprocessed |
| Gcs.BuildTimeseriesPath | server/utils/gcs-client.ts:115-122 | every path starts at the `timeseries_data/` root and ends with the file name |
| Gcs.PathShape | server/utils/gcs-client.ts:115-122 | an empty type gives `timeseries_data/{file}`, a non-empty one `timeseries_data/{type}/{file}` |
| Gcs.PathInjective | server/utils/gcs-client.ts:115-122 | for names without `/`, distinct type and file pairs give distinct paths |
| Gcs.MonthKeyOf | server/utils/gcs-client.ts:109-112 | `YYYY-MM` becomes `YYYY_MM`, and a day part is dropped |
| Gcs.DateToMonthKey | server/utils/gcs-client.ts:109-112 | no contract; specified by `MonthKeyOf` and `MonthKeyRoundTrip` |
| Gcs.MonthKeyRoundTrip | server/utils/gcs-client.ts:109-112 | replacing the first `_` of the month key with `-` gives back `YYYY-MM` |
| Gcs.SomeGap | server/utils/gcs-client.ts:105 | true iff the date lies within one of the gaps, both ends included |
| Gcs.InGap | server/utils/gcs-client.ts:105 | no contract; specified by `SomeGap` and `GapEndsInside`: ends included |
| Gcs.IsInDataGap | server/utils/gcs-client.ts:99-106 | true iff the date lies within 2023-12-18 to 2024-01-11 or 2024-04-24 to 2024-07-09, ends included |
| Gcs.GapEndsInside | server/utils/gcs-client.ts:99-106 | for any gap list whose starts are not after their ends, both ends of every gap are inside some gap |
| Gcs.DataGapEnds | server/utils/gcs-client.ts:99-106 | both ends of each of the two listed data gaps count as inside a gap |
| Gcs.CleanUnchanged | server/utils/gcs-client.ts:29 | a bucket name with neither suffix is used unchanged |
| Gcs.CleanBucketName | server/utils/gcs-client.ts:29 | no contract; specified by `CleanUnchanged` and `CleanStripsSuffix` |
| Gcs.CleanStripsSuffix | server/utils/gcs-client.ts:29 | `{project}.firebasestorage.app` and `{project}.appspot.com` both clean to `{project}` |
| EnhancedRag.IndexEntryOfMonth | server/utils/rag-enhanced.ts:94-104 | the entry of month key `YYYY_MM` spans `YYYY-MM-01` to `YYYY-MM-31` and takes its row count from the manifest |
| EnhancedRag.IndexEntryOf | server/utils/rag-enhanced.ts:95-103 | no contract; specified by `IndexEntryOfMonth`: the month span `-01` to `-31` and the manifest row count |
| EnhancedRag.KeyedPrefix | server/utils/rag-enhanced.ts:94-107 | the loop gets through the manifest up to its first entry without a month key |
| EnhancedRag.IndexedLastWins | server/utils/rag-enhanced.ts:94-104 | a repeated month key holds the entry of its last occurrence |
| EnhancedRag.IndexedOthers | server/utils/rag-enhanced.ts:94-104 | a key the manifest does not mention keeps its earlier entry or stays absent |
| EnhancedRag.EnhancedRagSystem.constructor | server/utils/rag-enhanced.ts:15-16 | an empty index, not initialised |
| EnhancedRag.EnhancedRagSystem.BuildDataIndex | server/utils/rag-enhanced.ts:84-117 | an unreadable manifest leaves the index as it was; otherwise every entry before the first one without a key is set in order |
| EnhancedRag.IndexAll | server/utils/rag-enhanced.ts:94-104 | the index after setting, in manifest order, every entry before the first one without a month key |
| EnhancedRag.EnhancedRagSystem.Initialize | server/utils/rag-enhanced.ts:52-82 | an initialised system returns true and changes nothing; otherwise the index is built, and the result and flag are whether the rest of the `try` block ran without throwing (skipping the store when there are no embeddings or no documents is success; false means it threw) |
| EnhancedRag.ExtractTimeRange | server/utils/rag-enhanced.ts:293-314 | the first and last year-month mentioned when there is one, otherwise the clock-based default |
| YearMonths.MatchAt | server/utils/rag-enhanced.ts:295 | a match at a position is exactly the pattern `(\d{4})[年-](\d{1,2})[月-]`, and the month is as long as the pattern allows |
| YearMonths.ScanShape | server/utils/rag-enhanced.ts:295-300 | every rendered match is `YYYY-MM` with the month padded to two digits |
| YearMonths.PadMonth | server/utils/rag-enhanced.ts:299 | a month of at most two characters is padded to two |
| YearMonths.PadMonthShape | server/utils/rag-enhanced.ts:299 | the padded month ends with the month, and everything in front of it is `0` |
| YearMonths.ScanFrom | server/utils/rag-enhanced.ts:296 | no contract; specified by `ScanShape`, `ScanSkips` and `FirstMatchIsStart` |
| YearMonths.RangeOf | server/utils/rag-enhanced.ts:295-304 | a range exists iff the pattern matches; its start is the first match and its end the last, not the minimum and maximum |
| YearMonths.NoDigitsNoMatch | server/utils/rag-enhanced.ts:295-304 | a text without ASCII digits mentions no year-month |
| YearMonths.ScanSkips | server/utils/rag-enhanced.ts:294-296 | the scan passes over positions where no match starts |
| YearMonths.FirstMatchIsStart | server/utils/rag-enhanced.ts:295-304 | the range starts with the earliest match in the text whatever its value, since nothing is sorted |
| EnhancedRag.IntentIgnoresCase | server/utils/rag-enhanced.ts:280-291 | the intent flags of a question and of its lowercase form agree |
| EnhancedRag.AnalyzeQueryIntent | server/utils/rag-enhanced.ts:280-291 | no contract; specified by `IntentIgnoresCase` and `InstagramNeedsPlatform` |
| EnhancedRag.InstagramNeedsPlatform | server/utils/rag-enhanced.ts:280-291 | a question naming Instagram, in any letter case, needs platform data |
| EnhancedRag.TimeRangeFor | server/utils/rag-enhanced.ts:321 | an explicit date filter overrides the range detected in the question |
| EnhancedRag.IntentFiles | server/utils/rag-enhanced.ts:332-340 | the platform, genre and advertiser files are present exactly when their intent flags are set, at most three files |
| EnhancedRag.AppendIntentFiles | server/utils/rag-enhanced.ts:332-340 | the fixed files are appended after the selected ones in that order |
| EnhancedRag.EndMonthNeverCovered | server/utils/rag-enhanced.ts:322-328 | with a range ending at month `YYYY-MM`, that month's file is never selected |
| EnhancedRag.MonthInsideDayRange | server/utils/rag-enhanced.ts:322-328 | a range given in whole days from the 1st to the 31st selects that month's file |
| EnhancedRag.Covers | server/utils/rag-enhanced.ts:322-325 | no contract; specified by `MonthInsideDayRange` and `EndMonthNeverCovered` |
| EnhancedRag.EnhancedRagSystem.SelectDataFiles | server/utils/rag-enhanced.ts:317-343 | the index files, in index order, whose ranges lie inside the requested range, followed by the intent files |
| EnhancedRag.CoveredPaths | server/utils/rag-enhanced.ts:323-329 | the file path of every index entry whose range lies inside the requested range, in index order |
| EnhancedRag.Terms | server/utils/rag-enhanced.ts:371 | the question yields at least one term, possibly empty |
| EnhancedRag.RagFilterIff | server/utils/rag-enhanced.ts:362-372 | a row is kept iff every truthy filter holds of it and some query term occurs in its lowercased product, sentence and genre text |
| EnhancedRag.RagFilterFn | server/utils/rag-enhanced.ts:362-372 | no contract; specified by `RagFilterIff`, which states it as one conjunction |
| EnhancedRag.EmptyQueryMatchesAll | server/utils/rag-enhanced.ts:370-371 | an empty question matches the text of every row |
| EnhancedRag.FileDocuments | server/utils/rag-enhanced.ts:354-400 | one file contributes at most 100 documents |
| EnhancedRag.StoragePath | server/utils/rag-enhanced.ts:358 | no contract; the first `dpro/timeseries_data/` is rewritten to `timeseries_data/` before a file is read, as used by `FileDocuments` |
| EnhancedRag.SearchFile | server/utils/rag-enhanced.ts:354-400 | an unreadable file contributes nothing; otherwise its first 100 kept rows, converted in row order |
| EnhancedRag.ConvertAll | server/utils/rag-enhanced.ts:378-386 | one document per yielded record, in record order |
| EnhancedRag.EnhancedRagSystem.SearchInParquetFiles | server/utils/rag-enhanced.ts:345-404 | the documents of the first three files, by file and then by row, at most 300 |
| EnhancedRag.ContentLines | server/utils/rag-enhanced.ts:407-420 | the ten labelled lines always stay, in order, and each optional sentence line stays exactly when its field is non-empty |
| EnhancedRag.ConvertToDocument | server/utils/rag-enhanced.ts:406-441 | the metadata carry the row's platform, genre, advertiser, play count and cost, and the source names the row's date |
| EnhancedRag.SummaryOf | server/utils/rag-enhanced.ts:207-233 | a platform's count is its number of rows and its average is defined by the play total over that count |
| EnhancedRag.FoldSummary | server/utils/rag-enhanced.ts:210-225 | folding the loop step gives the field sums, with missing cells as 0, and the row count |
| EnhancedRag.AddRecord | server/utils/rag-enhanced.ts:221-224 | no contract; specified by `FoldSummary`: folding it gives the field sums and the row count |
| EnhancedRag.GroupCounts | server/utils/rag-enhanced.ts:210-225 | each platform's count is the number of rows with that name |
| EnhancedRag.CountsSumToRecords | server/utils/rag-enhanced.ts:207-226 | the counts of all platforms add up to the number of records |
| EnhancedRag.AggregatePlatformData | server/utils/rag-enhanced.ts:207-233 | one entry per distinct platform, in order of first appearance, each the summary of exactly that platform's rows |
| EnhancedRag.SetAverages | server/utils/rag-enhanced.ts:228-230 | the same keys, each entry with its average set and a zero guard for no rows |
| EnhancedRag.Averaged | server/utils/rag-enhanced.ts:228-230 | no contract; specified by `SetAverages`: the zero-guarded average |
| ChatService.ShouldUseEnhancedRag | server/services/chatService.ts:175-202 | never true when the enhanced system is not ready |
| ChatService.ShouldUseIgnoresCase | server/services/chatService.ts:185-201 | the choice of path ignores letter case |
| ChatService.PlatformMessageIsEnhanced | server/services/chatService.ts:188-199 | a question about Instagram or Facebook takes the enhanced path whenever it is available |
| ChatService.PlatformOf | server/services/chatService.ts:209-213 | the platform is one of the five known names, and Instagram wins whenever it is mentioned |
| ChatService.AnyXIsX | server/services/chatService.ts:212 | any message containing `x` but none of the earlier names yields `X` |
| ChatService.MarkerHit | server/services/chatService.ts:216-224 | the leftmost occurrence of the marker followed on its line by a digit |
| ChatService.NumberAfter | server/services/chatService.ts:216-224 | a number is found iff some occurrence of the marker has a digit later on its line, and it is never negative |
| ChatService.NumberOnLine | server/services/chatService.ts:216-224 | a number is found iff a digit follows on the line, and it is never negative |
| ChatService.FirstMarkerDecides | server/services/chatService.ts:216-224 | when the first marker has a digit on its line, the number is the digit run there |
| ChatService.ExtractFilters | server/services/chatService.ts:204-238 | only platform, play count, cost and date range are ever set; the platform is a known name; the numbers are non-negative; a date range is set iff a year-month is mentioned |
| ChatService.NoDigitsNoNumbers | server/services/chatService.ts:216-235 | a message without digits sets no number and no date range |
| ChatService.Preview | server/services/chatService.ts:95 | a source preview is the first `min(200, length)` characters of the content followed by `...` |
| ChatService.EnhancedSources | server/services/chatService.ts:93-99 | the first five results, each shaped into a source with its preview |
| ChatService.EnhancedSource | server/services/chatService.ts:93-99 | no contract; its content is `Preview` of the result, the other fields carried over |
| ChatService.LegacyContext | server/services/chatService.ts:108-116 | the context is every document followed by an empty line, with one source per document |
| ChatService.LegacySource | server/services/chatService.ts:112-115 | no contract; its content is `Preview` of the document |
| ChatService.ContextOf | server/services/chatService.ts:108-111 | no contract; specified by `LegacyContext` and `ContextHoldsEveryDoc` |
| ChatService.ContextHoldsEveryDoc | server/services/chatService.ts:110-111 | every retrieved document appears in the context |
| ChatService.Respond | server/services/chatService.ts:72-147 | a failure can only happen on the enhanced path; the enhanced path gives at most five sources; every preview is at most 203 characters; each enhanced source is `EnhancedSource` of the search result at its index, and the basic path gives one `LegacySource` per retrieved document, in order |
| ChatService.Answer | server/services/chatService.ts:72-120 | answers as `Respond` specifies |
| ChatService.StaleKeys | server/services/chatService.ts:245-252 | the sessions to remove, in map order, are exactly those whose last entry is older than the age limit |
| ChatService.StaleScan | server/services/chatService.ts:245-252 | the keys, in map order, whose history is non-empty and whose last entry is older than the age limit |
| ChatService.StaleExactly | server/services/chatService.ts:245-252 | an id is in that list exactly when its session exists and is stale |
| ChatService.SessionKey | server/services/chatService.ts:65 | a non-empty supplied session id is used as given |
| ChatService.ChatService.constructor | server/services/chatService.ts:10-12 | no sessions, not initialised |
| ChatService.ChatService.Initialize | server/services/chatService.ts:23-57 | an initialised service returns true at once; otherwise the flag and result become "data loaded and basic system initialised"; the sessions stay |
| ChatService.ChatService.Chat | server/services/chatService.ts:59-148 | the session id returned is the one supplied when non-empty, and that session exists afterwards; success appends exactly one entry to that session only; the error path appends nothing and returns no sources; no other session changes |
| ChatService.ChatService.OpenSession | server/services/chatService.ts:68-70 | a new session starts with an empty history; an existing one is left as it is |
| ChatService.ChatService.AppendEntry | server/services/chatService.ts:123-129 | the session's history gains exactly the new entry at its end |
| ChatService.ChatService.ClearOldSessions | server/services/chatService.ts:240-259 | the limit defaults to 24 hours when not given; exactly the sessions whose last entry is strictly older than the limit are removed, never an empty one; the rest keep their histories and order |
| ChatService.ChatService.RemoveSessions | server/services/chatService.ts:254-256 | the listed sessions are deleted and every other one stays as it was |
| ChatService.Prune | server/services/chatService.ts:254-256 | deleting the listed ids one by one leaves the other sessions in their order with their histories |
| DataService.Stored | server/services/dataService.ts:38-49 | the loading loop keeps the map well formed |
| DataService.StoredContents | server/services/dataService.ts:38-49 | a key is present iff it was present before or is a listed `.json` file that downloaded and parsed; such a key holds the parsed value, and every other key keeps its old value |
| DataService.DataService.constructor | server/services/dataService.ts:9-10 | no summaries, not loaded |
| DataService.DataService.LoadDataSummaries | server/services/dataService.ts:27-58 | once loaded it returns true and changes nothing; a failed listing returns false and leaves it unloaded; otherwise it returns true, is loaded, and holds the stored files |
| DataService.FirstEntry | server/services/dataService.ts:70-77 | the key found satisfies the test, and none is found only when no key does |
| DataService.FirstAt | server/services/dataService.ts:70-77 | the first key in insertion order that satisfies the test is the one found |
| DataService.DataSummaryOf | server/services/dataService.ts:60-85 | the totals and date range of the first daily aggregation entry, or 0, 0 and `不明` when there is none |
| DataService.DailyOf | server/services/dataService.ts:72-74 | no contract; specified by `DataSummaryOf` and `EmptyDailyIsDefault` |
| DataService.EmptyDailyIsDefault | server/services/dataService.ts:72-74 | an entry with no fields gives 0, 0 and `不明` |
| DataService.DailySummary | server/services/dataService.ts:65-84 | the loop with its early `break` computes `DataSummaryOf` |
| DataService.DataService.GetDataSummary | server/services/dataService.ts:60-85 | when not loaded, the state becomes exactly that of `loadDataSummaries` (loaded iff the listing succeeded, the files stored by `Stored`), otherwise nothing changes; the answer is `DataSummaryOf` of the resulting dictionary |
| DataService.PlatformStatsSpec | server/services/dataService.ts:95-113 | one stat per platform of the first platform table, as a permutation, non-increasing by cost, with costs summing to the table's total |
| DataService.StatOf | server/services/dataService.ts:100-108 | no contract; specified by `ZeroTotalZeroPercent` and `PlatformStatsSpec` |
| DataService.PlatformStatsOf | server/services/dataService.ts:93-113 | no contract; specified by `PlatformStatsSpec`: a permutation of the first table's stats, costliest first, costs summing to the total |
| DataService.ZeroTotalZeroPercent | server/services/dataService.ts:98-101 | when the summed cost is not positive every percentage is 0 |
| DataService.PlatformStats | server/services/dataService.ts:92-113 | the loops and the sort compute `PlatformStatsOf` |
| DataService.DataService.GetPlatformStats | server/services/dataService.ts:87-114 | when not loaded, the state becomes exactly that of `loadDataSummaries` (loaded iff the listing succeeded, the files stored by `Stored`), otherwise nothing changes; the answer is `PlatformStatsOf` of the resulting dictionary |
| DataService.GenreStatOf | server/services/dataService.ts:128-135 | the name carries over, and the average cost is 0 unless the ad count is present and positive |
| DataService.GenreStatsOf | server/services/dataService.ts:124-141 | no stats without a genre table; otherwise `min(n, 10)` stats for the `n` genres of the first table |
| DataService.GenreStatsInFileOrder | server/services/dataService.ts:124-141 | the stats follow the first genre table in file order: the `i`-th stat is `GenreStatOf` of the `i`-th genre |
| DataService.GenreStats | server/services/dataService.ts:121-141 | the loops compute `GenreStatsOf` |
| DataService.DataService.GetGenreStats | server/services/dataService.ts:116-142 | when not loaded, the state becomes exactly that of `loadDataSummaries` (loaded iff the listing succeeded, the files stored by `Stored`), otherwise nothing changes; the answer is `GenreStatsOf` of the resulting dictionary |
| DataService.SearchDataOf | server/services/dataService.ts:144-161 | a result lists the matching entries in insertion order |
| DataService.SearchFindsMatches | server/services/dataService.ts:144-161 | the call fails iff a matching entry holds `null`; otherwise a key is among the hits iff its lowercased description or key contains the lowercased query |
| DataService.Matches | server/services/dataService.ts:150-151 | no contract; specified by `SearchFindsMatches` |
| DataService.EmptyQueryFindsAll | server/services/dataService.ts:144-161 | an empty query returns every entry |
| DataService.SearchData | server/services/dataService.ts:144-161 | the loop computes `SearchDataOf` |
| DataService.ReadParquetData | server/services/dataService.ts:183-192 | always returns no rows |
| PlatformEndpoint.SelectedKeeps | server/api/timeseries/platform.get.ts:27-39 | a row is kept iff it is of the requested platform, when one is given, and its date lies in the range, ends included, when both ends are given |
| PlatformEndpoint.Selected | server/api/timeseries/platform.get.ts:27-39 | no contract; specified by `SelectedKeeps`, both directions |
| PlatformEndpoint.ByDateSpec | server/api/timeseries/platform.get.ts:42 | the date sort is a permutation into non-decreasing date order |
| PlatformEndpoint.ByDate | server/api/timeseries/platform.get.ts:42 | no contract; specified by `ByDateSpec`: a permutation in non-decreasing date order |
| PlatformEndpoint.SortByDateInPlace | server/api/timeseries/platform.get.ts:42 | the array is sorted in place by date |
| PlatformEndpoint.FilterToArray | server/api/timeseries/platform.get.ts:30-39 | a filter returns a fresh array holding the kept rows in order |
| PlatformEndpoint.FoldTotals | server/api/timeseries/platform.get.ts:45-66 | folding the loop step over one platform's rows gives their field sums, with missing cells as 0, and their number |
| PlatformEndpoint.Averages | server/api/timeseries/platform.get.ts:69-74 | the per-ad averages are 0 whenever the ad total is 0, and the totals carry over |
| PlatformEndpoint.GroupIsPerPlatform | server/api/timeseries/platform.get.ts:45-74 | before the sort, there is one row per distinct platform, in order of first appearance, holding the totals of exactly that platform's rows |
| PlatformEndpoint.SummarySpec | server/api/timeseries/platform.get.ts:45-75 | the summary is a permutation of the per-platform rows, non-increasing by cost; the costs sum to the total cost and the record counts to the number of rows |
| PlatformEndpoint.Summary | server/api/timeseries/platform.get.ts:69-75 | no contract; specified by `GroupIsPerPlatform` and `SummarySpec` |
| PlatformEndpoint.PlatformListComplete | server/api/timeseries/platform.get.ts:42-81 | the platform list names exactly the platforms of the whole file, whether or not the sort aliased it |
| PlatformEndpoint.Handle | server/api/timeseries/platform.get.ts:15-91 | a missing bucket and a failed read are the two errors; the parsed array is sorted in place only when no filter applies; a response carries the selected rows in date order, their summary, the distinct platforms and the row count |
| DailyEndpoint.InWindowKeeps | server/api/timeseries/daily.get.ts:26-31 | with both ends given a row is kept iff its date lies in the range, ends included; otherwise every row is kept |
| DailyEndpoint.InWindow | server/api/timeseries/daily.get.ts:26-31 | no contract; specified by `InWindowKeeps` |
| DailyEndpoint.ByDaySpec | server/api/timeseries/daily.get.ts:34 | the date sort is a permutation into non-decreasing date order |
| DailyEndpoint.ByDay | server/api/timeseries/daily.get.ts:34 | no contract; specified by `ByDaySpec`: a permutation in non-decreasing date order |
| DailyEndpoint.StatsOf | server/api/timeseries/daily.get.ts:37-47 | the record count is the number of rows, and no rows give a zero average and `該当なし` |
| DailyEndpoint.Handle | server/api/timeseries/daily.get.ts:14-62 | a missing bucket and a failed read are the two errors; a response has the daily file's path and a count equal to its rows and to its record total |
| DailyEndpoint.ServedRows | server/api/timeseries/daily.get.ts:26-53 | a response carries exactly the rows in the window, and its ad total, cost total and count are theirs |
| DailyEndpoint.ServedRange | server/api/timeseries/daily.get.ts:44-46 | the range text runs from the earliest to the latest date of the rows |
| Rag.FormatSummaryStats | server/utils/rag.ts:115-127 | absent stats give nothing; otherwise the header and one line per entry, in entry order |
| Rag.WriteLines | server/utils/rag.ts:118-126 | the header followed by one newline-terminated line per item, in item order |
| Rag.StatsLines | server/utils/rag.ts:115-127 | the text splits into the header, exactly one line per entry, and a final empty piece |
| Rag.MissingCountIsZero | server/utils/rag.ts:134 | a missing count renders as 0 |
| Rag.FormatPlatforms | server/utils/rag.ts:129-137 | an absent or empty list gives nothing; otherwise the header and one line for each of the first five platforms |
| Rag.PlatformLines | server/utils/rag.ts:129-137 | the text splits into the blank line, the title and between one and five platform lines |
| Rag.FormatGenres | server/utils/rag.ts:139-147 | an absent or empty list gives nothing; otherwise the header and one line for each of the first ten genres |
| Rag.DataOnlySuffix | server/utils/rag.ts:196-203 | at most one suffix is added, and a question about ads or totals always gets the ads suffix |
| Rag.PlatformHintNeedsNoAdKeyword | server/utils/rag.ts:197-200 | the platform suffix is added only when the question mentions platforms and neither ads nor totals |
| Rag.DataOnlyResponse | server/utils/rag.ts:189-206 | the reply starts with the fixed prefix followed by the unchanged context, ends with the hint, and holds nothing else |
| Rag.Search | server/utils/rag.ts:149-161 | no vector store or a failing store gives no documents; otherwise the store's results |
| Rag.PromptCarriesInputs | server/utils/rag.ts:170-179 | the prompt contains both the context and the question |
| Rag.Prompt | server/utils/rag.ts:170-180 | no contract; specified by `PromptCarriesInputs` |
| Rag.GenerateResponse | server/utils/rag.ts:163-187 | the data-only response without a model; the model's answer when it replies; the error text when it throws |
| Rag.NoModelKeepsContext | server/utils/rag.ts:164-167 | without a model the reply contains the whole context |

## Left out

- Storage, Firebase and file-system calls (`readGCSFile`, `listFiles`, `downloadFile`, `getFileMetadata`, `createReadStream`, `downloadRagData`, the temp directory). Their results are inputs.
- Parquet decoding inside parquet-wasm and parquetjs-lite, and the global polyfills. A decode is an input: rows, possibly cut short.
- The language model, embeddings, the text splitter and the vector store. This covers the enhanced system's `search`, `generateResponse`, `generateDataOnlyResponse` and `createInitialDocuments`, and the basic system's `initialize` with its document templates. Their results are inputs.
- The `EnhancedRagSystem` constructor's model configuration, and the current-date default of `extractTimeRange`, which is the `recent` parameter.
- The Node stream machinery: `Readable`, `sendStream`, re-entry of `read()`, the sleep-based back-pressure, and `setTimeout` cleanup. These are concurrency and scheduling.
- TimeseriesStream.ProcessBuffer: decoding and `JSON.stringify` are total functions here. A decode error, or a `JSON.stringify` that throws (a `BigInt` cell, say), ends that buffer's lines early inside the swallowing `catch`; the model does not capture that cut. Later buffers are processed either way.
- TimeseriesStream.Handle: a storage-stream error is modelled only as ending the chunk list (`failed`). The error text passed to `destroy(error)` and what the HTTP client then sees are not modelled.
- TimeseriesStream.StreamFilters: `parseInt` yields a double. Limits and play counts beyond 2^53 are exact integers here, and `-0` is read as `0` (both are falsy).
- Parquet.ParquetParser.StreamParquetWithFilter: the row filter is a total predicate. A filter that throws ends the source's generator early and silently; the model does not capture that.
- Parquet.ParquetParser.ProcessParquetInBatches and Parquet.ParquetParser.AggregateParquet: the processor and the aggregator are total functions. A rejecting processor or a throwing aggregator propagates out of the call; the model has no such error result.
- Interleaving at `await`: each call is atomic here. Concurrent first calls of `ensureParquetWasm`, and of `loadDataSummaries`, can interleave and both load. So can `chat` with `clearOldSessions`, whose deletion of a session between the two is what the `|| []` in `chat` (chatService.ts:123) absorbs. None of these orders is modelled.
- ChatService.ChatService.ClearOldSessions: `maxAgeHours` is an integer; a fractional number of hours cannot be expressed.
- Floating-point arithmetic. Averages and percentages with `Math.round(x * 100) / 100` are kept as an uncomputed quotient: only the zero guard and the operands are modelled. The manifest's `file_size_mb` is an integer number of MB, so the index's `fileSize` (rag-enhanced.ts:100) is a whole multiple of 1024 * 1024 and fractional MB are not represented. `EnhancedRag.ConvertToDocument` leaves out `metadata.performance.engagement_rate` (rag-enhanced.ts:422-424, 437), not even as a quotient. The relevance score is not modelled: search results carry no `relevanceScore`, and sources have no `relevance` field (chatService.ts:98).
- Opaque conversions: `toLocaleString` (numbers render through a plain decimal function), `JSON.parse` and `JSON.stringify` (a serialiser parameter), `uuidv4` (`freshId`), `new Date()` (`now`), and the `timestamp` and `last_updated` fields.
- `toLowerCase` is ASCII lowering, and `localeCompare` and `<=` on strings are code-unit order. `substring(0, 200)` counts characters, not UTF-16 code units.
- PlatformEndpoint.AddTotals: a missing numeric cell adds 0, where JavaScript's `+=` would make the total `NaN`.
- JavaScript's ordering of integer-like keys in plain objects. Object entries are a sequence in the given order.
- The `success` flag and the HTTP error objects. The two error paths are `MissingBucket` and `ReadFailed`.
- Credentials decoding, route wrappers, configuration and the client stores, which are outside this core.

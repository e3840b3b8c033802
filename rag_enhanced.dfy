/** Retrieval planning of the enhanced RAG system
    (server/utils/rag-enhanced.ts): the month index built from the
    consolidation manifest, the keyword intent of a query, the choice of
    files, the row predicate with its caps, the conversion of a row to a
    document, and the per-platform aggregation. Storage reads, Parquet
    decoding, embeddings and the language model are inputs. */
module EnhancedRag {
  import opened Wrappers
  import opened Strings
  import opened Seqs
  import opened OrderedMaps
  import opened Types
  import opened Grouping
  import opened Parquet
  import opened Gcs
  import opened YearMonths

  // ---------------------------------------------------------------------
  // the month index

  /** One element of `processing_results`; `month_key` may be missing. */
  datatype ManifestEntry = ManifestEntry(monthKey: Option<string>, fileSizeMb: int, totalRows: int)

  /** A value of `dataIndex`. */
  datatype IndexEntry = IndexEntry(dateRange: DateRange, fileSize: int, rowCount: int, filePath: string)

  /** The entry stored under month key `k`. */
  function IndexEntryOf(k: string, e: ManifestEntry): IndexEntry {
    var ym := ReplaceFirst(k, "_", "-");
    IndexEntry(DateRange(ym + "-01", ym + "-31"), e.fileSizeMb * 1024 * 1024, e.totalRows,
      "raw_consolidated/consolidated_" + k + ".parquet")
  }

  /** For the key `dateToMonthKey` gives a month `YYYY-MM`, the entry spans
      `YYYY-MM-01` to `YYYY-MM-31`. */
  lemma IndexEntryOfMonth(year: string, month: string, e: ManifestEntry)
    requires '-' !in year && '-' !in month && '_' !in year
    ensures var k := DateToMonthKey(year + "-" + month);
      && IndexEntryOf(k, e).dateRange == DateRange(year + "-" + month + "-01", year + "-" + month + "-31")
      && IndexEntryOf(k, e).rowCount == e.totalRows
  {
    MonthKeyRoundTrip(year, month);
  }

  /** How many manifest entries the loop gets through: it throws at the
      first entry without a month key, and the error is swallowed. */
  function KeyedPrefix(es: seq<ManifestEntry>): (n: nat)
    ensures n <= |es|
    ensures forall i :: 0 <= i < n ==> es[i].monthKey.Some?
    ensures n < |es| ==> es[n].monthKey.None?
  {
    if |es| == 0 || es[0].monthKey.None? then 0 else 1 + KeyedPrefix(es[1..])
  }

  /** `dataIndex` after setting every entry of `es` in order. */
  function Indexed(m: OMap<IndexEntry>, es: seq<ManifestEntry>): (r: OMap<IndexEntry>)
    requires forall i :: 0 <= i < |es| ==> es[i].monthKey.Some?
    ensures m.Valid() ==> r.Valid()
    decreases |es|
  {
    if |es| == 0 then m
    else
      var k := Last(es).monthKey.value;
      Indexed(m, DropLast(es)).Put(k, IndexEntryOf(k, Last(es)))
  }

  /** Setting one more keyed entry extends the index by one `Put`. */
  lemma IndexedStep(m: OMap<IndexEntry>, es: seq<ManifestEntry>, i: nat)
    requires i < KeyedPrefix(es)
    ensures Indexed(m, es[..i + 1]) ==
      Indexed(m, es[..i]).Put(es[i].monthKey.value, IndexEntryOf(es[i].monthKey.value, es[i]))
  {
    assert DropLast(es[..i + 1]) == es[..i];
  }

  /** The entry loop of `buildDataIndex`: each keyed entry is set in turn,
      and the first entry without a key ends the loop. */
  method IndexAll(start: OMap<IndexEntry>, es: seq<ManifestEntry>) returns (m: OMap<IndexEntry>)
    requires start.Valid()
    ensures m.Valid()
    ensures m == Indexed(start, es[..KeyedPrefix(es)])
  {
    ghost var n := KeyedPrefix(es);
    m := start;
    var i := 0;
    while i < |es|
      invariant 0 <= i <= n
      invariant m.Valid()
      invariant m == Indexed(start, es[..i])
    {
      if es[i].monthKey.None? {
        break;
      }
      assert i < n;
      var k := es[i].monthKey.value;
      IndexedStep(start, es, i);
      m := m.Put(k, IndexEntryOf(k, es[i]));
      i := i + 1;
    }
    assert i == n;
  }

  /** A repeated key holds the entry of its last occurrence. */
  lemma {:induction false} IndexedLastWins(m: OMap<IndexEntry>, es: seq<ManifestEntry>, i: nat)
    requires forall j :: 0 <= j < |es| ==> es[j].monthKey.Some?
    requires i < |es|
    requires forall j :: i < j < |es| ==> es[j].monthKey != es[i].monthKey
    ensures var k := es[i].monthKey.value;
      k in Indexed(m, es).vals && Indexed(m, es).vals[k] == IndexEntryOf(k, es[i])
    decreases |es|
  {
    if i < |es| - 1 {
      IndexedLastWins(m, DropLast(es), i);
    }
  }

  /** A key the manifest does not mention keeps its earlier entry, or stays
      absent. */
  lemma {:induction false} IndexedOthers(m: OMap<IndexEntry>, es: seq<ManifestEntry>, k: string)
    requires forall j :: 0 <= j < |es| ==> es[j].monthKey.Some?
    requires forall j :: 0 <= j < |es| ==> es[j].monthKey != Some(k)
    ensures (k in Indexed(m, es).vals) == (k in m.vals)
    ensures k in m.vals ==> Indexed(m, es).vals[k] == m.vals[k]
    decreases |es|
  {
    if |es| > 0 {
      IndexedOthers(m, DropLast(es), k);
    }
  }

  // ---------------------------------------------------------------------
  // intent and time range

  datatype Intent = Intent(
    needsTimeSeriesData: bool,
    needsPlatformData: bool,
    needsGenreData: bool,
    needsAdvertiserData: bool,
    timeRange: DateRange)

  /** `extractTimeRange(query)`: the first and last year-month mentioned;
      `recent` stands for the clock-based default of the last three months. */
  function ExtractTimeRange(query: string, recent: DateRange): (r: DateRange)
    ensures RangeOf(query).Some? ==> r == RangeOf(query).value
    ensures RangeOf(query).None? ==> r == recent
  {
    match RangeOf(query)
    case Some(range) => range
    case None => recent
  }

  /** `analyzeQueryIntent(query)`: keyword tests on the lowercased query. */
  function AnalyzeQueryIntent(query: string, recent: DateRange): Intent {
    var q := AsciiLower(query);
    Intent(
      Contains(q, "推移") || Contains(q, "トレンド"),
      Contains(q, "instagram") || Contains(q, "facebook") || Contains(q, "プラットフォーム"),
      Contains(q, "ジャンル") || Contains(q, "カテゴリ"),
      Contains(q, "広告主") || Contains(q, "企業"),
      ExtractTimeRange(query, recent))
  }

  /** The intent flags ignore letter case: the query and its lowercase
      form ask for the same data. */
  lemma IntentIgnoresCase(query: string, recent: DateRange)
    ensures AnalyzeQueryIntent(AsciiLower(query), recent).(timeRange := recent)
         == AnalyzeQueryIntent(query, recent).(timeRange := recent)
  {
    AsciiLowerIdempotent(query);
  }

  /** A mention of "Instagram" in any letter case asks for platform data. */
  lemma InstagramNeedsPlatform(pre: string, post: string, recent: DateRange)
    ensures AnalyzeQueryIntent(pre + "Instagram" + post, recent).needsPlatformData
  {
    assert AsciiLower("Instagram") == "instagram";
    AsciiLowerAppend(pre, "Instagram");
    AsciiLowerAppend(pre + "Instagram", post);
    ContainsPrefix(AsciiLower(pre) + "instagram", AsciiLower(post));
    ContainsSuffix(AsciiLower(pre), "instagram");
    assert AsciiLower(pre + "Instagram" + post) == AsciiLower(pre) + "instagram" + AsciiLower(post);
    ContainsAt(AsciiLower(pre + "Instagram" + post), "instagram", |AsciiLower(pre)|);
  }

  // ---------------------------------------------------------------------
  // file selection

  const PlatformFile := "timeseries_data/by_platform/platform_timeseries.parquet"
  const GenreFile := "timeseries_data/by_genre/genre_timeseries.parquet"
  const AdvertiserFile := "timeseries_data/by_advertiser/advertiser_timeseries.parquet"

  /** `filters?.dateRange || intent.timeRange`. */
  function TimeRangeFor(intent: Intent, filters: SearchFilters): (r: DateRange)
    ensures filters.dateRange.Some? ==> r == filters.dateRange.value
    ensures filters.dateRange.None? ==> r == intent.timeRange
  {
    if filters.dateRange.Some? then filters.dateRange.value else intent.timeRange
  }

  /** An index entry is taken when both ends of the range are given and,
      comparing strings, it starts no earlier and ends no later. */
  predicate Covers(range: DateRange, e: IndexEntry) {
    range.start != [] && range.end != []
    && LexLe(range.start, e.dateRange.start) && LexLe(e.dateRange.end, range.end)
  }

  function CoveredBy(range: DateRange): IndexEntry -> bool {
    (e: IndexEntry) => Covers(range, e)
  }

  function PathOf(e: IndexEntry): string {
    e.filePath
  }

  /** The fixed files the intent flags ask for, in this order. */
  function IntentFiles(intent: Intent): (r: seq<string>)
    ensures PlatformFile in r <==> intent.needsPlatformData
    ensures GenreFile in r <==> intent.needsGenreData
    ensures AdvertiserFile in r <==> intent.needsAdvertiserData
    ensures |r| <= 3
  {
    (if intent.needsPlatformData then [PlatformFile] else [])
    + (if intent.needsGenreData then [GenreFile] else [])
    + (if intent.needsAdvertiserData then [AdvertiserFile] else [])
  }

  /** The three pushes that follow the index scan. */
  method AppendIntentFiles(files: seq<string>, intent: Intent) returns (out: seq<string>)
    ensures out == files + IntentFiles(intent)
  {
    out := files;
    if intent.needsPlatformData {
      out := out + [PlatformFile];
    }
    if intent.needsGenreData {
      out := out + [GenreFile];
    }
    if intent.needsAdvertiserData {
      out := out + [AdvertiserFile];
    }
  }

  /** A month compared against a range ending in the same month as `YYYY-MM`
      is never taken: its end `YYYY-MM-31` sorts after `YYYY-MM`. */
  lemma EndMonthNeverCovered(range: DateRange, ym: string, e: IndexEntry)
    requires e.dateRange.end == ym + "-31" && range.end == ym
    ensures !Covers(range, e)
  {
    LexLeNotBelowPrefix(ym, "-31");
  }

  /** A whole month lies inside a range given by days around it. */
  lemma MonthInsideDayRange(ym: string, e: IndexEntry, range: DateRange)
    requires e.dateRange == DateRange(ym + "-01", ym + "-31")
    requires range == DateRange(ym + "-01", ym + "-31")
    ensures Covers(range, e)
  {
    LexLeReflexive(ym + "-01");
    LexLeReflexive(ym + "-31");
  }

  // ---------------------------------------------------------------------
  // the row predicate of searchInParquetFiles

  /** The lowercased text a query term is looked up in. */
  function SearchText(r: RawAdData): string {
    AsciiLower(r.productName + " " + r.adSentence + " " + r.genreName)
  }

  /** The query terms: the lowercased query split on single spaces, empty
      pieces included. */
  function Terms(query: string): (ts: seq<string>)
    ensures |ts| >= 1
  {
    Split(AsciiLower(query), ' ')
  }

  /** `filterFn`, as its chain of early returns. */
  function RagFilterFn(f: SearchFilters, query: string, r: RawAdData): bool {
    if IsSet(f.platform) && r.appName != f.platform.value then false
    else if IsSet(f.genre) && r.genreName != f.genre.value then false
    else if IsSet(f.advertiser) && r.advertiserName != f.advertiser.value then false
    else if IsSetNum(f.minPlayCount) && r.playCount < f.minPlayCount.value then false
    else if IsSetNum(f.minCost) && r.cost < f.minCost.value then false
    else ContainsAny(SearchText(r), Terms(query))
  }

  function RagAccept(f: SearchFilters, query: string): RawAdData -> bool {
    (r: RawAdData) => RagFilterFn(f, query, r)
  }

  /** A row is kept iff every truthy filter holds of it and some query term
      occurs in its text. */
  lemma RagFilterIff(f: SearchFilters, query: string, r: RawAdData)
    ensures RagFilterFn(f, query, r) <==>
      && (!IsSet(f.platform) || r.appName == f.platform.value)
      && (!IsSet(f.genre) || r.genreName == f.genre.value)
      && (!IsSet(f.advertiser) || r.advertiserName == f.advertiser.value)
      && (!IsSetNum(f.minPlayCount) || r.playCount >= f.minPlayCount.value)
      && (!IsSetNum(f.minCost) || r.cost >= f.minCost.value)
      && exists i :: 0 <= i < |Terms(query)| && Contains(SearchText(r), Terms(query)[i])
  {
  }

  /** An empty query has the single term `""`, which every text contains:
      only the filters then decide. */
  lemma EmptyQueryMatchesAll(r: RawAdData)
    ensures ContainsAny(SearchText(r), Terms(""))
  {
    SplitNoSep("", ' ');
    assert Terms("") == [""];
    ContainsAt(SearchText(r), "", 0);
    assert Contains(SearchText(r), Terms("")[0]);
  }

  // ---------------------------------------------------------------------
  // documents

  datatype AdDocument = AdDocument(
    content: string,
    source: string,
    date: string,
    advertiser: string,
    genre: string,
    platform: string,
    playCount: int,
    cost: int)

  /** The five labelled lines before the optional ones. */
  function HeadLines(ad: RawAdData): (r: seq<string>)
    ensures |r| == 5 && forall i :: 0 <= i < 5 ==> r[i] != []
  {
    [ "商品: " + ad.productName,
      "広告主: " + ad.advertiserName,
      "ジャンル: " + ad.genreName,
      "プラットフォーム: " + ad.appName,
      "広告文: " + ad.adSentence ]
  }

  /** The five labelled lines after the optional ones; `toLocaleString` is
      written as plain decimal. */
  function TailLines(ad: RawAdData): (r: seq<string>)
    ensures |r| == 5 && forall i :: 0 <= i < 5 ==> r[i] != []
  {
    [ "再生数: " + IntToString(ad.playCount),
      "いいね数: " + IntToString(ad.diggCount),
      "コスト: ¥" + IntToString(ad.cost),
      "配信日: " + ad.date,
      "配信期間: " + ad.streamingPeriod ]
  }

  function StartLine(ad: RawAdData): string {
    if ad.adStartSentence != [] then "開始文: " + ad.adStartSentence else ""
  }

  function AllLine(ad: RawAdData): string {
    if ad.adAllSentence != [] then "全文: " + ad.adAllSentence else ""
  }

  /** The twelve candidate lines, in the order of the array literal. */
  function RawLines(ad: RawAdData): seq<string> {
    HeadLines(ad) + [StartLine(ad), AllLine(ad)] + TailLines(ad)
  }

  function NonEmpty(s: string): bool {
    s != []
  }

  /** `[...].filter(Boolean)`: the ten labelled lines always stay, in
      order, and each optional line stays exactly when its field is
      non-empty. */
  function ContentLines(ad: RawAdData): (r: seq<string>)
    ensures r == HeadLines(ad)
              + (if ad.adStartSentence != [] then [StartLine(ad)] else [])
              + (if ad.adAllSentence != [] then [AllLine(ad)] else [])
              + TailLines(ad)
    ensures |r| == 10 + (if ad.adStartSentence != [] then 1 else 0) + (if ad.adAllSentence != [] then 1 else 0)
  {
    FilterAround(HeadLines(ad), StartLine(ad), AllLine(ad), TailLines(ad), NonEmpty);
    Filter(RawLines(ad), NonEmpty)
  }

  /** `convertToDocument(ad)`; the engagement rate is not modelled. */
  function ConvertToDocument(ad: RawAdData): (d: AdDocument)
    ensures d.source == "timeseries_data/" + ad.date
    ensures d.platform == ad.appName && d.genre == ad.genreName && d.advertiser == ad.advertiserName
    ensures d.playCount == ad.playCount && d.cost == ad.cost
  {
    AdDocument(Join(ContentLines(ad), "\n"), "timeseries_data/" + ad.date, ad.date,
      ad.advertiserName, ad.genreName, ad.appName, ad.playCount, ad.cost)
  }

  // ---------------------------------------------------------------------
  // searchInParquetFiles

  /** The rewrite applied to a file name before it is read. */
  function StoragePath(file: string): string {
    ReplaceFirst(file, "dpro/timeseries_data/", "timeseries_data/")
  }

  const MaxFiles: nat := 3
  const MaxPerFile: nat := 100

  /** The documents one file contributes: none when it cannot be read,
      otherwise the first 100 kept rows as documents. */
  function FileDocuments(f: SearchFilters, query: string, read: string -> Option<seq<RawAdData>>, file: string): (docs: seq<AdDocument>)
    ensures |docs| <= MaxPerFile
  {
    match read(StoragePath(file))
    case None => []
    case Some(rows) =>
      var kept := Filter(rows, RagAccept(f, query));
      Map(kept[..Min(|kept|, MaxPerFile)], ConvertToDocument)
  }

  function FileDocs(f: SearchFilters, query: string, read: string -> Option<seq<RawAdData>>): string -> seq<AdDocument> {
    (file: string) => FileDocuments(f, query, read, file)
  }

  /** The body of the file loop of `searchInParquetFiles` for one file: a
      read failure is caught and the file contributes nothing. */
  method SearchFile(file: string, query: string, f: SearchFilters, read: string -> Option<seq<RawAdData>>)
    returns (fileDocs: seq<AdDocument>)
    ensures fileDocs == FileDocuments(f, query, read, file)
  {
    var fetched := read(StoragePath(file));
    if fetched.Some? {
      var records := FilterWithCap(fetched.value, RagAccept(f, query), Some(MaxPerFile));
      ghost var kept := Filter(fetched.value, RagAccept(f, query));
      assert records == kept[..Min(|kept|, MaxPerFile)];
      fileDocs := ConvertAll(records);
    } else {
      fileDocs := [];
    }
  }

  /** The inner loop: `documents.push(this.convertToDocument(record))` for
      every record streamed from one file. */
  method ConvertAll(records: seq<RawAdData>) returns (docs: seq<AdDocument>)
    ensures docs == Map(records, ConvertToDocument)
  {
    docs := [];
    var j := 0;
    while j < |records|
      invariant 0 <= j <= |records|
      invariant docs == Map(records[..j], ConvertToDocument)
    {
      MapStep(records[..j], records[j], ConvertToDocument);
      PrefixStep(records, j);
      docs := docs + [ConvertToDocument(records[j])];
      j := j + 1;
    }
    FullPrefix(records);
  }

  // ---------------------------------------------------------------------
  // per-platform aggregation

  /** The per-platform object of `aggregatePlatformData`; the average is
      absent until the second loop sets it. */
  datatype PlatformSummary = PlatformSummary(
    totalAds: int,
    totalCost: int,
    totalPlayCount: int,
    count: int,
    avgPlayCount: Option<Quotient>)

  const ZeroSummary := PlatformSummary(0, 0, 0, 0, None)

  function AppName(r: PlatformTimeseries): string {
    r.appName
  }

  /** One step of the first loop; a missing cell adds 0. */
  function AddRecord(s: PlatformSummary, r: PlatformTimeseries): PlatformSummary {
    s.(totalAds := s.totalAds + OrZero(r.adCount),
       totalCost := s.totalCost + OrZero(r.totalCost),
       totalPlayCount := s.totalPlayCount + OrZero(r.totalPlayCount),
       count := s.count + 1)
  }

  function Ads(r: PlatformTimeseries): int { OrZero(r.adCount) }
  function Cost(r: PlatformTimeseries): int { OrZero(r.totalCost) }
  function Plays(r: PlatformTimeseries): int { OrZero(r.totalPlayCount) }

  /** The second loop's average: `count > 0 ? totalPlayCount / count : 0`. */
  function Averaged(s: PlatformSummary): PlatformSummary {
    s.(avgPlayCount := Some(if s.count > 0 then Ratio(Some(s.totalPlayCount), s.count) else ZeroQuotient))
  }

  /** The summary of the rows of one platform: field sums, the row count,
      and their quotient. */
  function SummaryOf(rows: seq<PlatformTimeseries>): (s: PlatformSummary)
    ensures s.count == |rows|
    ensures |rows| > 0 ==> s.avgPlayCount == Some(Ratio(Some(SumOf(rows, Plays)), |rows|))
  {
    PlatformSummary(SumOf(rows, Ads), SumOf(rows, Cost), SumOf(rows, Plays), |rows|,
      Some(if |rows| > 0 then Ratio(Some(SumOf(rows, Plays)), |rows|) else ZeroQuotient))
  }

  /** The first loop is a left fold computing the field sums. */
  lemma {:induction false} FoldSummary(rows: seq<PlatformTimeseries>)
    ensures FoldLeft(AddRecord, ZeroSummary, rows)
         == PlatformSummary(SumOf(rows, Ads), SumOf(rows, Cost), SumOf(rows, Plays), |rows|, None)
    decreases |rows|
  {
    if |rows| > 0 {
      FoldSummary(DropLast(rows));
    }
  }

  function Count(s: PlatformSummary): int { s.count }
  function One(r: PlatformTimeseries): int { 1 }

  /** Over all platforms, the counts add up to the number of records. */
  lemma CountsSumToRecords(records: seq<PlatformTimeseries>, summary: OMap<PlatformSummary>)
    requires summary.Valid()
    requires summary.keys == Distinct(Map(records, AppName))
    requires forall k :: k in summary.vals ==> summary.vals[k] == SummaryOf(Filter(records, KeyIs(AppName, k)))
    ensures SumOf(summary.Values(), Count) == |records|
  {
    var g := Group(records, AppName, ZeroSummary, AddRecord);
    GroupKeys(records, AppName, ZeroSummary, AddRecord);
    GroupCounts(records);
    SumOfPointwise(g.Values(), Count, summary.Values(), Count);
    GroupSum(records, AppName, ZeroSummary, AddRecord, Count, One);
    SumOfOnes(records);
  }

  lemma GroupCounts(records: seq<PlatformTimeseries>)
    ensures var g := Group(records, AppName, ZeroSummary, AddRecord);
      forall k :: k in g.vals ==> Count(g.vals[k]) == |Filter(records, KeyIs(AppName, k))|
  {
    var g := Group(records, AppName, ZeroSummary, AddRecord);
    forall k | k in g.vals
      ensures Count(g.vals[k]) == |Filter(records, KeyIs(AppName, k))|
    {
      GroupValue(records, AppName, ZeroSummary, AddRecord, k);
      FoldSummary(Filter(records, KeyIs(AppName, k)));
    }
  }

  lemma {:induction false} SumOfOnes(s: seq<PlatformTimeseries>)
    ensures SumOf(s, One) == |s|
    decreases |s|
  {
    if |s| > 0 {
      SumOfOnes(DropLast(s));
    }
  }

  /** `aggregatePlatformData(records)`: one summary per distinct app name,
      in order of first appearance. */
  method AggregatePlatformData(records: seq<PlatformTimeseries>) returns (summary: OMap<PlatformSummary>)
    ensures summary.Valid()
    ensures summary.keys == Distinct(Map(records, AppName))
    ensures forall k :: k in summary.vals ==> summary.vals[k] == SummaryOf(Filter(records, KeyIs(AppName, k)))
  {
    var m := GroupFold(records, AppName, ZeroSummary, AddRecord);
    summary := SetAverages(m);
    forall k | k in summary.vals
      ensures summary.vals[k] == SummaryOf(Filter(records, KeyIs(AppName, k)))
    {
      FoldSummary(Filter(records, KeyIs(AppName, k)));
    }
  }

  /** The second loop of `aggregatePlatformData`, over `Object.values`. */
  method SetAverages(m: OMap<PlatformSummary>) returns (summary: OMap<PlatformSummary>)
    requires m.Valid()
    ensures summary.Valid() && summary.keys == m.keys
    ensures forall k :: k in summary.vals ==> summary.vals[k] == Averaged(m.vals[k])
  {
    summary := m;
    var i := 0;
    while i < |m.keys|
      invariant 0 <= i <= |m.keys|
      invariant summary.Valid() && summary.keys == m.keys
      invariant forall k :: k in summary.vals ==>
        summary.vals[k] == if k in m.keys[..i] then Averaged(m.vals[k]) else m.vals[k]
    {
      var k := m.keys[i];
      assert k !in m.keys[..i];
      PrefixStep(m.keys, i);
      summary := summary.Put(k, Averaged(summary.vals[k]));
      i := i + 1;
    }
    FullPrefix(m.keys);
  }

  // ---------------------------------------------------------------------
  // the system object

  /** The index loop of `selectDataFiles`: the path of every covered
      entry, in insertion order. */
  method CoveredPaths(index: OMap<IndexEntry>, range: DateRange) returns (files: seq<string>)
    requires index.Valid()
    ensures files == Map(Filter(index.Values(), CoveredBy(range)), PathOf)
  {
    var values := index.Values();
    files := [];
    var i := 0;
    while i < |values|
      invariant 0 <= i <= |values|
      invariant files == Map(Filter(values[..i], CoveredBy(range)), PathOf)
    {
      var info := values[i];
      FilterPrefixStep(values, i, CoveredBy(range));
      if Covers(range, info) {
        MapStep(Filter(values[..i], CoveredBy(range)), info, PathOf);
        files := files + [info.filePath];
      }
      i := i + 1;
    }
    FullPrefix(values);
  }

  class EnhancedRagSystem {
    var dataIndex: OMap<IndexEntry>
    var initialized: bool

    ghost predicate Valid()
      reads this
    {
      dataIndex.Valid()
    }

    constructor()
      ensures Valid() && dataIndex == Empty() && !initialized
    {
      dataIndex := Empty();
      initialized := false;
    }

    /** `buildDataIndex`: `manifest` is `processing_results`, `None` when
        the file cannot be read or parsed. Entries are set in order until
        one lacks a month key. */
    method BuildDataIndex(manifest: Option<seq<ManifestEntry>>)
      requires Valid()
      modifies this
      ensures Valid() && initialized == old(initialized)
      ensures manifest.None? ==> dataIndex == old(dataIndex)
      ensures manifest.Some? ==>
        dataIndex == Indexed(old(dataIndex), manifest.value[..KeyedPrefix(manifest.value)])
    {
      if manifest.None? {
        return;
      }
      dataIndex := IndexAll(dataIndex, manifest.value);
    }

    /** `initialize()`: returns at once when already initialized; otherwise
        builds the index. `storeOk` says whether the rest of the `try`
        block ran without throwing: creating the initial documents and,
        only when embeddings are configured and some document exists,
        the vector store. No store at all still counts as success. */
    method Initialize(manifest: Option<seq<ManifestEntry>>, storeOk: bool) returns (ok: bool)
      requires Valid()
      modifies this
      ensures Valid()
      ensures old(initialized) ==> ok && dataIndex == old(dataIndex) && initialized
      ensures !old(initialized) && manifest.None? ==> dataIndex == old(dataIndex)
      ensures !old(initialized) && manifest.Some? ==>
        dataIndex == Indexed(old(dataIndex), manifest.value[..KeyedPrefix(manifest.value)])
      ensures !old(initialized) ==> ok == storeOk && initialized == storeOk
    {
      if initialized {
        return true;
      }
      BuildDataIndex(manifest);
      if storeOk {
        initialized := true;
      }
      ok := storeOk;
    }

    /** `selectDataFiles(intent, filters)`: the covered index entries in
        insertion order, then the fixed files the intent asks for. */
    method SelectDataFiles(intent: Intent, filters: SearchFilters) returns (files: seq<string>)
      requires Valid()
      ensures files == Map(Filter(dataIndex.Values(), CoveredBy(TimeRangeFor(intent, filters))), PathOf)
                       + IntentFiles(intent)
    {
      var range := TimeRangeFor(intent, filters);
      if range.start != [] && range.end != [] {
        files := CoveredPaths(dataIndex, range);
      } else {
        files := [];
        FilterNone(dataIndex.Values(), CoveredBy(range));
      }
      files := AppendIntentFiles(files, intent);
    }

    /** `searchInParquetFiles(files, query, filters)`: `read(path)` is the
        decoded row stream of the stored object, `None` when reading fails.
        At most three files are read and at most 100 documents kept from
        each, in file order and then row order. */
    method SearchInParquetFiles(files: seq<string>, query: string, f: SearchFilters, read: string -> Option<seq<RawAdData>>)
      returns (documents: seq<AdDocument>)
      ensures documents == Flatten(Map(files[..Min(|files|, MaxFiles)], FileDocs(f, query, read)))
      ensures |documents| <= MaxFiles * MaxPerFile
    {
      var todo := files[..Min(|files|, MaxFiles)];
      documents := [];
      var i := 0;
      while i < |todo|
        invariant 0 <= i <= |todo|
        invariant documents == Flatten(Map(todo[..i], FileDocs(f, query, read)))
        invariant |documents| <= i * MaxPerFile
      {
        var file := todo[i];
        var fileDocs := SearchFile(file, query, f, read);
        FlattenMapPrefix(todo, i, FileDocs(f, query, read));
        documents := documents + fileDocs;
        i := i + 1;
      }
      FullPrefix(todo);
    }
  }
}

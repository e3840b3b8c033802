/** The records the server passes around (server/types/timeseries.ts and
    server/types/index.ts). JavaScript numbers become `int`; a field that may
    be missing becomes an `Option`. */
module Types {
  import opened Wrappers

  /** One advertisement row of a consolidated monthly file. */
  datatype RawAdData = RawAdData(
    productId: string,
    productName: string,
    advertiserId: string,
    advertiserName: string,
    genreId: string,
    genreName: string,
    transitionUrl: string,
    creationTime: string,
    appName: string,
    adSentence: string,
    adStartSentence: string,
    adAllSentence: string,
    playCount: int,
    diggCount: int,
    cost: int,
    date: string,
    streamingPeriod: string)

  /** One row of the per-platform time series. Its numeric cells may be
      missing (Parquet nulls). */
  datatype PlatformTimeseries = PlatformTimeseries(
    appName: string,
    adCount: Option<int>,
    totalCost: Option<int>,
    totalPlayCount: Option<int>,
    totalDiggCount: Option<int>,
    date: string)

  /** One row of the daily aggregation file. */
  datatype DailyAggregation = DailyAggregation(
    date: string,
    totalAds: int,
    totalCost: int,
    totalPlayCount: int,
    totalDiggCount: int,
    avgPlayCount: int,
    avgDiggCount: int,
    avgCost: int,
    uniqueAdvertisers: int,
    uniqueProducts: int,
    uniqueGenres: int)

  datatype DateRange = DateRange(start: string, end: string)

  /** The optional search filters; each is consulted only when truthy. */
  datatype SearchFilters = SearchFilters(
    dateRange: Option<DateRange>,
    platform: Option<string>,
    genre: Option<string>,
    advertiser: Option<string>,
    minPlayCount: Option<int>,
    minCost: Option<int>,
    limit: Option<int>)

  const NoFilters := SearchFilters(None, None, None, None, None, None, None)

  /** A string is truthy when present and non-empty. */
  predicate IsSet(s: Option<string>) {
    s.Some? && s.value != []
  }

  /** A number is truthy when present (not `undefined`/`NaN`) and non-zero. */
  predicate IsSetNum(n: Option<int>) {
    n.Some? && n.value != 0
  }

  /** A value of `summary_stats`: a number, or anything else as its text. */
  datatype StatValue = Num(n: int) | Text(t: string)

  /** An element of `platforms` in a summary file. */
  datatype PlatformEntry = PlatformEntry(appName: string, totalAds: Option<int>, totalCost: Option<int>)

  /** An element of `top_genres` in a summary file. */
  datatype GenreEntry = GenreEntry(genreName: string, totalAds: Option<int>, totalCost: Option<int>)

  /** A parsed JSON summary file (`DataSummaryFile`); `summary_stats` keeps
      its keys in `Object.entries` order. */
  datatype SummaryFile = SummaryFile(
    description: Option<string>,
    summaryStats: Option<seq<(string, StatValue)>>,
    totalAds: Option<int>,
    totalCost: Option<int>,
    dateRange: Option<string>,
    platforms: Option<seq<PlatformEntry>>,
    topGenres: Option<seq<GenreEntry>>)

  /** The result of `Math.round(part / whole * 100) / 100` style divisions,
      kept symbolic: only whether the zero guard took over is modelled.
      A missing numerator is JavaScript's `NaN`. */
  datatype Quotient = ZeroQuotient | Ratio(num: Option<int>, den: int)

  /** A LangChain `Document` as the basic RAG system stores it: the text and
      `metadata.source`. */
  datatype TextDocument = TextDocument(pageContent: string, source: string)
}

/** The daily endpoint, server/api/timeseries/daily.get.ts: the daily
    aggregation rows, optionally restricted to a date range, in date order,
    with their totals. Reading the file and decoding it are inputs: the
    parsed rows, or `None` when the read threw. `parseParquet` never
    throws: a decode that fails yields no rows (`Parquet.Parsed`), which is
    served as an empty result. */
module DailyEndpoint {
  import opened Wrappers
  import opened Strings
  import opened Seqs
  import opened Types
  import opened Orders
  import Gcs

  datatype DailyQuery = DailyQuery(start: Option<string>, end: Option<string>)

  const FilePath := Gcs.BuildTimeseriesPath("daily", "daily_aggregation.parquet")

  /** The text of an empty range. */
  const NoMatch := "該当なし"

  /** The separator between the first and the last date. */
  const RangeSep := " 〜 "

  function DayOf(d: DailyAggregation): string {
    d.date
  }

  function Between(start: string, end: string): DailyAggregation -> bool {
    (d: DailyAggregation) => LexLe(start, d.date) && LexLe(d.date, end)
  }

  /** The date filter applies only when both ends are given. */
  function InWindow(rows: seq<DailyAggregation>, q: DailyQuery): seq<DailyAggregation> {
    if IsSet(q.start) && IsSet(q.end) then Filter(rows, Between(q.start.value, q.end.value)) else rows
  }

  /** A row is kept exactly when no complete range is given or its date lies
      in the range, both ends included. */
  lemma InWindowKeeps(rows: seq<DailyAggregation>, q: DailyQuery, x: DailyAggregation)
    ensures x in InWindow(rows, q) <==>
      x in rows && (IsSet(q.start) && IsSet(q.end) ==> LexLe(q.start.value, x.date) && LexLe(x.date, q.end.value))
  {
    if IsSet(q.start) && IsSet(q.end) {
      FilterMembership(rows, Between(q.start.value, q.end.value), x);
    }
  }

  /** `filtered.sort((a, b) => a.date.localeCompare(b.date))`. */
  function ByDay(rows: seq<DailyAggregation>): seq<DailyAggregation> {
    SortBy(rows, DayOf, Before())
  }

  /** The sort is a permutation into non-decreasing date order. */
  lemma ByDaySpec(rows: seq<DailyAggregation>)
    ensures multiset(ByDay(rows)) == multiset(rows)
    ensures forall i, j :: 0 <= i < j < |ByDay(rows)| ==> LexLe(ByDay(rows)[i].date, ByDay(rows)[j].date)
  {
    SortedByDate(rows, DayOf);
  }

  datatype DailyStats = DailyStats(totalRecords: nat, totalAds: int, totalCost: int, avgDailyAds: Quotient, dateRange: string)

  function AdsOf(d: DailyAggregation): int {
    d.totalAds
  }

  function CostOf(d: DailyAggregation): int {
    d.totalCost
  }

  /** The `stats` object over the sorted rows: the count, the two sums, the
      mean daily ads guarded against no rows, and the first and last date. */
  function StatsOf(rows: seq<DailyAggregation>): (s: DailyStats)
    ensures s.totalRecords == |rows|
    ensures |rows| == 0 ==> s.avgDailyAds == ZeroQuotient && s.dateRange == NoMatch
  {
    DailyStats(|rows|, SumOf(rows, AdsOf), SumOf(rows, CostOf),
      if |rows| > 0 then Ratio(Some(SumOf(rows, AdsOf)), |rows|) else ZeroQuotient,
      if |rows| > 0 then rows[0].date + RangeSep + Last(rows).date else NoMatch)
  }

  datatype DailyResponse =
    | MissingBucket
    | ReadFailed
    | Served(path: string, data: seq<DailyAggregation>, stats: DailyStats, count: nat)

  /** The handler: a missing bucket name fails before anything is read, a
      failed read or decode fails next; otherwise the kept rows in date
      order with their statistics. */
  function Handle(bucketName: string, q: DailyQuery, parsed: Option<seq<DailyAggregation>>): (r: DailyResponse)
    ensures r.MissingBucket? <==> bucketName == []
    ensures r.ReadFailed? <==> bucketName != [] && parsed.None?
    ensures r.Served? ==> r.path == FilePath && r.count == |r.data| && r.stats.totalRecords == r.count
  {
    if bucketName == [] then MissingBucket
    else if parsed.None? then ReadFailed
    else
      var data := ByDay(InWindow(parsed.value, q));
      Served(FilePath, data, StatsOf(data), |data|)
  }

  /** A served response carries exactly the parsed rows in the window (as
      a multiset), and its totals are those of all kept rows. */
  lemma ServedRows(bucketName: string, q: DailyQuery, rows: seq<DailyAggregation>)
    requires bucketName != []
    ensures var r := Handle(bucketName, q, Some(rows));
      var kept := InWindow(rows, q);
      && r.Served?
      && multiset(r.data) == multiset(kept)
      && r.stats.totalAds == SumOf(kept, AdsOf)
      && r.stats.totalCost == SumOf(kept, CostOf)
      && r.count == |kept|
  {
    var kept := InWindow(rows, q);
    SortBySum(kept, DayOf, Before(), AdsOf);
    SortBySum(kept, DayOf, Before(), CostOf);
    SortByLength(kept, DayOf, Before());
  }

  /** Unless no row is kept, the range runs from the earliest to the latest
      kept date: the first row's date is at or before every date and the
      last row's at or after. */
  lemma ServedRange(bucketName: string, q: DailyQuery, rows: seq<DailyAggregation>)
    requires bucketName != []
    requires |Handle(bucketName, q, Some(rows)).data| > 0
    ensures var r := Handle(bucketName, q, Some(rows));
      var hi := |r.data| - 1;
      && r.stats.dateRange == r.data[0].date + RangeSep + r.data[hi].date
      && forall i :: 0 <= i < |r.data| ==> LexLe(r.data[0].date, r.data[i].date) && LexLe(r.data[i].date, r.data[hi].date)
  {
    var data := ByDay(InWindow(rows, q));
    ByDaySpec(InWindow(rows, q));
    var hi := |data| - 1;
    forall i | 0 <= i < |data|
      ensures LexLe(data[0].date, data[i].date) && LexLe(data[i].date, data[hi].date)
    {
      if i == 0 {
        LexLeReflexive(data[0].date);
      }
      if i == hi {
        LexLeReflexive(data[hi].date);
      }
    }
  }
}

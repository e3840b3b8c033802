/** The per-platform endpoint, server/api/timeseries/platform.get.ts.

    The handler filters the parsed rows by platform and by date range,
    sorts them by date in place, folds them into one totals object per
    platform, and returns the rows, the per-platform summary (costliest
    first), the distinct platforms of the whole file and the row count.
    When no filter applies, `filtered` is the parsed array itself, so the
    in-place sort reorders it too, and the platform list is then read in
    date order. Reading the file and decoding it are inputs; the parsed rows
    arrive as an array, or `None` when the read threw. `parseParquet`
    never throws: a decode that fails yields no rows (`Parquet.Parsed`),
    which is served as an empty result. */
module PlatformEndpoint {
  import opened Wrappers
  import opened Strings
  import opened Seqs
  import opened OrderedMaps
  import opened Types
  import opened Grouping
  import opened Orders
  import Gcs
  import EnhancedRag

  /** The query string; each parameter may be absent. */
  datatype PlatformQuery = PlatformQuery(platform: Option<string>, start: Option<string>, end: Option<string>)

  const FilePath := Gcs.BuildTimeseriesPath("by_platform", "platform_timeseries.parquet")

  // ---------------------------------------------------------------------
  // filters and the date order

  function Date(r: PlatformTimeseries): string {
    r.date
  }

  function OfPlatform(p: string): PlatformTimeseries -> bool {
    (r: PlatformTimeseries) => r.appName == p
  }

  /** `row.date >= start && row.date <= end`, a code-unit comparison. */
  function InRange(start: string, end: string): PlatformTimeseries -> bool {
    (r: PlatformTimeseries) => LexLe(start, r.date) && LexLe(r.date, end)
  }

  predicate ByPlatform(q: PlatformQuery) {
    IsSet(q.platform)
  }

  predicate ByDates(q: PlatformQuery) {
    IsSet(q.start) && IsSet(q.end)
  }

  /** Neither filter applies: `filtered` stays the parsed array. */
  predicate Unfiltered(q: PlatformQuery) {
    !ByPlatform(q) && !ByDates(q)
  }

  /** The rows kept by the two filters, in their original order. */
  function Selected(rows: seq<PlatformTimeseries>, q: PlatformQuery): seq<PlatformTimeseries> {
    var a := if ByPlatform(q) then Filter(rows, OfPlatform(q.platform.value)) else rows;
    if ByDates(q) then Filter(a, InRange(q.start.value, q.end.value)) else a
  }

  /** A row is kept exactly when it is of the requested platform (if one
      is given) and its date lies in the requested range (if both ends are
      given). */
  lemma SelectedKeeps(rows: seq<PlatformTimeseries>, q: PlatformQuery, x: PlatformTimeseries)
    ensures x in Selected(rows, q) <==>
      && x in rows
      && (ByPlatform(q) ==> x.appName == q.platform.value)
      && (ByDates(q) ==> LexLe(q.start.value, x.date) && LexLe(x.date, q.end.value))
  {
    var a := if ByPlatform(q) then Filter(rows, OfPlatform(q.platform.value)) else rows;
    if ByPlatform(q) {
      FilterMembership(rows, OfPlatform(q.platform.value), x);
    }
    if ByDates(q) {
      FilterMembership(a, InRange(q.start.value, q.end.value), x);
    }
  }

  /** `rows.sort((a, b) => a.date.localeCompare(b.date))`. */
  function ByDate(rows: seq<PlatformTimeseries>): seq<PlatformTimeseries> {
    SortBy(rows, Date, Before())
  }

  /** The date sort is a permutation into non-decreasing date order. */
  lemma ByDateSpec(rows: seq<PlatformTimeseries>)
    ensures multiset(ByDate(rows)) == multiset(rows)
    ensures forall i, j :: 0 <= i < j < |ByDate(rows)| ==> LexLe(ByDate(rows)[i].date, ByDate(rows)[j].date)
  {
    SortedByDate(rows, Date);
  }

  /** `filtered.sort(...)`: the array is reordered in place. */
  method SortByDateInPlace(a: array<PlatformTimeseries>)
    modifies a
    ensures a[..] == ByDate(old(a[..]))
  {
    var sorted := ByDate(a[..]);
    SortByLength(a[..], Date, Before());
    forall i | 0 <= i < a.Length {
      a[i] := sorted[i];
    }
  }

  /** `array.filter(keep)`: a new array. */
  method FilterToArray(a: array<PlatformTimeseries>, keep: PlatformTimeseries -> bool) returns (b: array<PlatformTimeseries>)
    ensures fresh(b)
    ensures b[..] == Filter(a[..], keep)
  {
    var kept := Filter(a[..], keep);
    b := new PlatformTimeseries[|kept|](i requires 0 <= i < |kept| => kept[i]);
  }

  // ---------------------------------------------------------------------
  // the per-platform fold

  /** The object `platformStats` holds for one platform. */
  datatype Totals = Totals(platform: string, totalAds: int, totalCost: int, totalPlayCount: int, totalDiggCount: int, recordCount: int)

  const NoTotals := Totals("", 0, 0, 0, 0, 0)

  function Diggs(r: PlatformTimeseries): int {
    OrZero(r.totalDiggCount)
  }

  /** One step of the loop: the record's platform, its counts added, one
      more record. */
  function AddTotals(s: Totals, r: PlatformTimeseries): Totals {
    Totals(r.appName, s.totalAds + EnhancedRag.Ads(r), s.totalCost + EnhancedRag.Cost(r),
      s.totalPlayCount + EnhancedRag.Plays(r), s.totalDiggCount + Diggs(r), s.recordCount + 1)
  }

  /** The totals of `rows`, all of platform `p`, computed directly. */
  function TotalsOf(p: string, rows: seq<PlatformTimeseries>): Totals {
    Totals(p, SumOf(rows, EnhancedRag.Ads), SumOf(rows, EnhancedRag.Cost), SumOf(rows, EnhancedRag.Plays),
      SumOf(rows, Diggs), |rows|)
  }

  /** Folding the loop step over the rows of one platform gives their
      totals. */
  lemma {:induction false} FoldTotals(p: string, rows: seq<PlatformTimeseries>)
    requires |rows| > 0
    requires forall i :: 0 <= i < |rows| ==> rows[i].appName == p
    ensures FoldLeft(AddTotals, NoTotals, rows) == TotalsOf(p, rows)
    decreases |rows|
  {
    var init := DropLast(rows);
    if |init| > 0 {
      FoldTotals(p, init);
    } else {
      assert FoldLeft(AddTotals, NoTotals, init) == NoTotals;
      assert SumOf(init, Diggs) == 0 && SumOf(init, EnhancedRag.Ads) == 0;
      assert SumOf(init, EnhancedRag.Cost) == 0 && SumOf(init, EnhancedRag.Plays) == 0;
    }
  }

  /** One summary row: the totals and two averages guarded by `totalAds > 0`. */
  datatype SummaryRow = SummaryRow(
    platform: string,
    totalAds: int,
    totalCost: int,
    totalPlayCount: int,
    totalDiggCount: int,
    recordCount: int,
    avgPlayPerAd: Quotient,
    avgCostPerAd: Quotient)

  function Averages(t: Totals): (s: SummaryRow)
    ensures t.totalAds <= 0 ==> s.avgPlayPerAd == ZeroQuotient && s.avgCostPerAd == ZeroQuotient
    ensures s.totalCost == t.totalCost && s.recordCount == t.recordCount && s.platform == t.platform
  {
    SummaryRow(t.platform, t.totalAds, t.totalCost, t.totalPlayCount, t.totalDiggCount, t.recordCount,
      if t.totalAds > 0 then Ratio(Some(t.totalPlayCount), t.totalAds) else ZeroQuotient,
      if t.totalAds > 0 then Ratio(Some(t.totalCost), t.totalAds) else ZeroQuotient)
  }

  function RowCost(s: SummaryRow): int {
    s.totalCost
  }

  function RowRecords(s: SummaryRow): int {
    s.recordCount
  }

  /** `Array.from(platformStats.values()).map(...).sort(...)` over the
      fold's dictionary. */
  function Summary(rows: seq<PlatformTimeseries>): seq<SummaryRow> {
    SortBy(Map(Group(rows, EnhancedRag.AppName, NoTotals, AddTotals).Values(), Averages), RowCost, Greater())
  }

  /** The reference summary: one row per distinct platform in order of
      first appearance, holding the totals of exactly that platform's
      rows. */
  function PerPlatform(rows: seq<PlatformTimeseries>): seq<SummaryRow> {
    Map(Distinct(Map(rows, EnhancedRag.AppName)),
      (p: string) => Averages(TotalsOf(p, Filter(rows, KeyIs(EnhancedRag.AppName, p)))))
  }

  /** Before the sort, the fold's rows are the reference rows. */
  lemma GroupIsPerPlatform(rows: seq<PlatformTimeseries>)
    ensures Map(Group(rows, EnhancedRag.AppName, NoTotals, AddTotals).Values(), Averages) == PerPlatform(rows)
  {
    var g := Group(rows, EnhancedRag.AppName, NoTotals, AddTotals);
    var ks := Distinct(Map(rows, EnhancedRag.AppName));
    GroupKeys(rows, EnhancedRag.AppName, NoTotals, AddTotals);
    forall i | 0 <= i < |ks|
      ensures Averages(g.Values()[i]) == PerPlatform(rows)[i]
    {
      assert ks[i] in g.vals && g.Values()[i] == g.vals[ks[i]];
      EntryIsTotals(rows, ks[i]);
    }
  }

  /** The fold's entry for a platform holds that platform's totals. */
  lemma EntryIsTotals(rows: seq<PlatformTimeseries>, k: string)
    requires k in Group(rows, EnhancedRag.AppName, NoTotals, AddTotals).vals
    ensures Group(rows, EnhancedRag.AppName, NoTotals, AddTotals).vals[k] == TotalsOf(k, Filter(rows, KeyIs(EnhancedRag.AppName, k)))
  {
    var own := Filter(rows, KeyIs(EnhancedRag.AppName, k));
    GroupValue(rows, EnhancedRag.AppName, NoTotals, AddTotals, k);
    GroupMembership(rows, EnhancedRag.AppName, NoTotals, AddTotals, k);
    var i :| 0 <= i < |rows| && Map(rows, EnhancedRag.AppName)[i] == k;
    FilterMembership(rows, KeyIs(EnhancedRag.AppName, k), rows[i]);
    forall j | 0 <= j < |own|
      ensures own[j].appName == k
    {
      assert KeyIs(EnhancedRag.AppName, k)(own[j]);
      assert EnhancedRag.AppName(own[j]) == k;
    }
    FoldTotals(k, own);
  }

  /** The summary is the reference summary sorted by cost, non-increasing;
      its costs add up to the total cost of all rows and its record counts
      to the number of rows. */
  lemma SummarySpec(rows: seq<PlatformTimeseries>)
    ensures multiset(Summary(rows)) == multiset(PerPlatform(rows))
    ensures forall i, j :: 0 <= i < j < |Summary(rows)| ==> Summary(rows)[i].totalCost >= Summary(rows)[j].totalCost
    ensures SumOf(Summary(rows), RowCost) == SumOf(rows, EnhancedRag.Cost)
    ensures SumOf(Summary(rows), RowRecords) == |rows|
  {
    var g := Group(rows, EnhancedRag.AppName, NoTotals, AddTotals);
    var unsorted := Map(g.Values(), Averages);
    GroupIsPerPlatform(rows);
    GreaterIsStrictTotal();
    SortBySorted(unsorted, RowCost, Greater());
    SortBySum(unsorted, RowCost, Greater(), RowCost);
    SortBySum(unsorted, RowCost, Greater(), RowRecords);
    SumOfPointwise(unsorted, RowCost, g.Values(), TotalsCost);
    SumOfPointwise(unsorted, RowRecords, g.Values(), TotalsRecords);
    GroupSum(rows, EnhancedRag.AppName, NoTotals, AddTotals, TotalsCost, EnhancedRag.Cost);
    GroupSum(rows, EnhancedRag.AppName, NoTotals, AddTotals, TotalsRecords, EnhancedRag.One);
    EnhancedRag.SumOfOnes(rows);
  }

  function TotalsCost(t: Totals): int {
    t.totalCost
  }

  function TotalsRecords(t: Totals): int {
    t.recordCount
  }

  // ---------------------------------------------------------------------
  // the handler

  datatype PlatformResponse =
    | MissingBucket
    | ReadFailed
    | Served(path: string, data: seq<PlatformTimeseries>, summary: seq<SummaryRow>, platforms: seq<string>, count: nat)

  /** The rows the response carries: the selected rows in date order. */
  function ServedRows(rows: seq<PlatformTimeseries>, q: PlatformQuery): seq<PlatformTimeseries> {
    ByDate(Selected(rows, q))
  }

  /** With no filter the parsed array ends up sorted, so the platform list
      is read from the sorted rows; with a filter it is read from the rows
      as parsed. Either way it names each platform of the file once. */
  lemma PlatformListComplete(rows: seq<PlatformTimeseries>, q: PlatformQuery, p: string)
    ensures var after := if Unfiltered(q) then ByDate(rows) else rows;
      p in Distinct(Map(after, EnhancedRag.AppName)) <==> exists i :: 0 <= i < |rows| && rows[i].appName == p
  {
    var after := if Unfiltered(q) then ByDate(rows) else rows;
    ByDateSpec(rows);
    assert multiset(after) == multiset(rows);
    if p in Map(after, EnhancedRag.AppName) {
      var i :| 0 <= i < |after| && Map(after, EnhancedRag.AppName)[i] == p;
      assert after[i] in multiset(rows);
      var j :| 0 <= j < |rows| && rows[j] == after[i];
    }
    if exists i :: 0 <= i < |rows| && rows[i].appName == p {
      var i :| 0 <= i < |rows| && rows[i].appName == p;
      assert rows[i] in multiset(after);
      var j :| 0 <= j < |after| && after[j] == rows[i];
      assert Map(after, EnhancedRag.AppName)[j] == p;
    }
  }

  /** The handler. A missing bucket name fails before anything is read; a
      failed read or decode fails next. Otherwise the response carries the
      selected rows in date order, their per-platform summary, the
      distinct platforms of the (possibly reordered) parsed array and the
      number of selected rows. Only an unfiltered request reorders the
      parsed array. */
  method Handle(bucketName: string, q: PlatformQuery, parsed: Option<array<PlatformTimeseries>>) returns (resp: PlatformResponse)
    modifies if parsed.Some? then {parsed.value} else {}
    ensures resp.MissingBucket? <==> bucketName == []
    ensures resp.ReadFailed? <==> bucketName != [] && parsed.None?
    ensures parsed.Some? ==>
      parsed.value[..] == if resp.Served? && Unfiltered(q) then ByDate(old(parsed.value[..])) else old(parsed.value[..])
    ensures resp.Served? ==>
      && resp.path == FilePath
      && resp.data == ServedRows(old(parsed.value[..]), q)
      && resp.summary == Summary(resp.data)
      && resp.platforms == Distinct(Map(parsed.value[..], EnhancedRag.AppName))
      && resp.count == |resp.data|
  {
    if bucketName == [] {
      return MissingBucket;
    }
    if parsed.None? {
      return ReadFailed;
    }
    var data := parsed.value;
    var filtered := data;
    if IsSet(q.platform) {
      filtered := FilterToArray(filtered, OfPlatform(q.platform.value));
    }
    if IsSet(q.start) && IsSet(q.end) {
      filtered := FilterToArray(filtered, InRange(q.start.value, q.end.value));
    }
    assert filtered[..] == Selected(old(data[..]), q);
    assert Unfiltered(q) <==> filtered == data;
    SortByDateInPlace(filtered);
    var platformStats := GroupFold(filtered[..], EnhancedRag.AppName, NoTotals, AddTotals);
    var summary := SortBy(Map(platformStats.Values(), Averages), RowCost, Greater());
    resp := Served(FilePath, filtered[..], summary, Distinct(Map(data[..], EnhancedRag.AppName)), filtered.Length);
  }
}

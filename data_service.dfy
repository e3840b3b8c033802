/** The data service (server/services/dataService.ts): the JSON summary files
    kept in a dictionary keyed by storage path, and the getters that read
    the daily totals, the platform and genre tables, and the entries
    matching a search text.

    The storage listing and each download are inputs. A value is `None`
    when the file held JSON `null`. */
module DataService {
  import opened Wrappers
  import opened Strings
  import opened Seqs
  import opened OrderedMaps
  import opened Types
  import opened Orders

  /** The outcome of downloading and parsing one file. */
  datatype Download = Failed | Loaded(value: Option<SummaryFile>)

  type Summaries = OMap<Option<SummaryFile>>

  /** The file is kept: a `.json` path whose download and parse succeeded. */
  predicate Kept(download: string -> Download, path: string) {
    EndsWith(path, ".json") && download(path).Loaded?
  }

  /** The dictionary after the loading loop over `paths`. */
  function Stored(m: Summaries, paths: seq<string>, download: string -> Download): (r: Summaries)
    ensures m.Valid() ==> r.Valid()
    decreases |paths|
  {
    if |paths| == 0 then m
    else
      var prev := Stored(m, DropLast(paths), download);
      var p := Last(paths);
      if Kept(download, p) then prev.Put(p, download(p).value) else prev
  }

  /** Exactly the listed `.json` files that loaded are added, each with its
      parsed content; every other entry is left as it was. */
  lemma {:induction false} StoredContents(m: Summaries, paths: seq<string>, download: string -> Download, k: string)
    ensures k in Stored(m, paths, download).vals <==> k in m.vals || (k in paths && Kept(download, k))
    ensures k in paths && Kept(download, k) ==> Stored(m, paths, download).vals[k] == download(k).value
    ensures !(k in paths && Kept(download, k)) && k in m.vals ==> Stored(m, paths, download).vals[k] == m.vals[k]
    decreases |paths|
  {
    if |paths| > 0 {
      StoredContents(m, DropLast(paths), download, k);
      assert paths == DropLast(paths) + [Last(paths)];
    }
  }

  /** The loaded value stored under `k`, if it is not `null`. */
  function ValueAt(m: Summaries, k: string): Option<SummaryFile> {
    if k in m.vals then m.vals[k] else None
  }

  /** The first key, in insertion order, whose entry satisfies `p`. */
  function FirstEntry(m: Summaries, p: (string, Option<SummaryFile>) -> bool): (r: Option<string>)
    ensures r.Some? ==> r.value in m.keys && p(r.value, ValueAt(m, r.value))
    ensures r.None? ==> forall i :: 0 <= i < |m.keys| ==> !p(m.keys[i], ValueAt(m, m.keys[i]))
  {
    var i := FirstIndexWhere(m.keys, (k: string) => p(k, ValueAt(m, k)));
    if i.Some? then Some(m.keys[i.value]) else None
  }

  // ---------------------------------------------------------------------
  // getDataSummary

  datatype DataSummary = DataSummary(totalAds: int, totalCost: int, dateRange: string)

  const Unknown := "不明"

  function IsDaily(k: string, v: Option<SummaryFile>): bool {
    Contains(k, "daily/daily_aggregation") && v.Some?
  }

  /** `x || 0` for a number, `s || '不明'` for a text. */
  function DailyOf(v: SummaryFile): DataSummary {
    DataSummary(OrZero(v.totalAds), OrZero(v.totalCost), if IsSet(v.dateRange) then v.dateRange.value else Unknown)
  }

  /** The totals of the first daily aggregation entry, or 0, 0 and
      `'不明'` when there is none. */
  function DataSummaryOf(m: Summaries): (r: DataSummary)
    ensures FirstEntry(m, IsDaily).None? ==> r == DataSummary(0, 0, Unknown)
    ensures FirstEntry(m, IsDaily).Some? ==> r == DailyOf(ValueAt(m, FirstEntry(m, IsDaily).value).value)
  {
    match FirstEntry(m, IsDaily)
    case None => DataSummary(0, 0, Unknown)
    case Some(k) => DailyOf(ValueAt(m, k).value)
  }

  /** An entry whose fields are all missing reads as the defaults too. */
  lemma EmptyDailyIsDefault(v: SummaryFile)
    requires v.totalAds.None? && v.totalCost.None? && v.dateRange.None?
    ensures DailyOf(v) == DataSummary(0, 0, Unknown)
  {
  }

  /** The loop of `getDataSummary`, stopping at the first daily entry. */
  method DailySummary(m: Summaries) returns (s: DataSummary)
    requires m.Valid()
    ensures s == DataSummaryOf(m)
  {
    s := DataSummary(0, 0, Unknown);
    var i := 0;
    while i < |m.keys|
      invariant 0 <= i <= |m.keys|
      invariant forall j :: 0 <= j < i ==> !IsDaily(m.keys[j], ValueAt(m, m.keys[j]))
      invariant s == DataSummary(0, 0, Unknown)
    {
      var key := m.keys[i];
      var value := m.vals[key];
      if Contains(key, "daily/daily_aggregation") && value.Some? {
        s := DailyOf(value.value);
        FirstAt(m, IsDaily, i);
        return;
      }
      i := i + 1;
    }
    assert FirstEntry(m, IsDaily).None?;
  }

  /** An entry with no earlier match is the first match. */
  lemma FirstAt(m: Summaries, p: (string, Option<SummaryFile>) -> bool, i: nat)
    requires i < |m.keys| && p(m.keys[i], ValueAt(m, m.keys[i]))
    requires forall j :: 0 <= j < i ==> !p(m.keys[j], ValueAt(m, m.keys[j]))
    requires m.Valid()
    ensures FirstEntry(m, p) == Some(m.keys[i])
  {
    var f := (k: string) => p(k, ValueAt(m, k));
    var r := FirstIndexWhere(m.keys, f);
    assert f(m.keys[i]);
  }

  // ---------------------------------------------------------------------
  // getPlatformStats

  datatype PlatformStat = PlatformStat(platformName: string, totalAds: int, totalCost: int, percentage: Quotient)

  function IsPlatformFile(k: string, v: Option<SummaryFile>): bool {
    Contains(k, "by_platform/platform_timeseries") && v.Some? && v.value.platforms.Some?
  }

  function EntryCost(p: PlatformEntry): int {
    OrZero(p.totalCost)
  }

  /** One stat: missing counts read as 0; the share of the summed cost is
      guarded against a total that is not positive. */
  function StatOf(totalCostAll: int): PlatformEntry -> PlatformStat {
    (p: PlatformEntry) => PlatformStat(p.appName, OrZero(p.totalAds), OrZero(p.totalCost),
      if totalCostAll > 0 then Ratio(p.totalCost, totalCostAll) else ZeroQuotient)
  }

  function StatCost(s: PlatformStat): int {
    s.totalCost
  }

  /** The stats of the first platform table, costliest first; ties keep the
      file's order. */
  function PlatformStatsOf(m: Summaries): seq<PlatformStat> {
    match FirstEntry(m, IsPlatformFile)
    case None => []
    case Some(k) =>
      var platforms := ValueAt(m, k).value.platforms.value;
      SortBy(Map(platforms, StatOf(SumOf(platforms, EntryCost))), StatCost, Greater())
  }

  /** The platform stats are a permutation of one stat per platform of the
      first table, sorted non-increasing by cost; their costs sum to the
      table's total cost. */
  lemma PlatformStatsSpec(m: Summaries)
    requires FirstEntry(m, IsPlatformFile).Some?
    ensures var platforms := ValueAt(m, FirstEntry(m, IsPlatformFile).value).value.platforms.value;
      var r := PlatformStatsOf(m);
      && multiset(r) == multiset(Map(platforms, StatOf(SumOf(platforms, EntryCost))))
      && (forall i, j :: 0 <= i < j < |r| ==> r[i].totalCost >= r[j].totalCost)
      && SumOf(r, StatCost) == SumOf(platforms, EntryCost)
  {
    var platforms := ValueAt(m, FirstEntry(m, IsPlatformFile).value).value.platforms.value;
    var stats := Map(platforms, StatOf(SumOf(platforms, EntryCost)));
    GreaterIsStrictTotal();
    SortBySorted(stats, StatCost, Greater());
    SortBySum(stats, StatCost, Greater(), StatCost);
    SumOfPointwise(stats, StatCost, platforms, EntryCost);
  }

  /** With no positive total cost every percentage is the zero guard. */
  lemma ZeroTotalZeroPercent(platforms: seq<PlatformEntry>)
    requires SumOf(platforms, EntryCost) <= 0
    ensures forall i :: 0 <= i < |platforms| ==>
      StatOf(SumOf(platforms, EntryCost))(platforms[i]).percentage == ZeroQuotient
  {
  }

  /** The loops of `getPlatformStats`: the first platform table's stats,
      then the sort. */
  method PlatformStats(m: Summaries) returns (stats: seq<PlatformStat>)
    requires m.Valid()
    ensures stats == PlatformStatsOf(m)
  {
    stats := [];
    var i := 0;
    while i < |m.keys|
      invariant 0 <= i <= |m.keys|
      invariant forall j :: 0 <= j < i ==> !IsPlatformFile(m.keys[j], ValueAt(m, m.keys[j]))
      invariant stats == []
    {
      var key := m.keys[i];
      var value := m.vals[key];
      if Contains(key, "by_platform/platform_timeseries") && value.Some? && value.value.platforms.Some? {
        var platforms := value.value.platforms.value;
        var totalCostAll := SumOf(platforms, EntryCost);
        var j := 0;
        while j < |platforms|
          invariant 0 <= j <= |platforms|
          invariant stats == Map(platforms[..j], StatOf(totalCostAll))
        {
          MapPrefixStep(platforms, j, StatOf(totalCostAll));
          stats := stats + [StatOf(totalCostAll)(platforms[j])];
          j := j + 1;
        }
        FullPrefix(platforms);
        FirstAt(m, IsPlatformFile, i);
        stats := SortBy(stats, StatCost, Greater());
        return;
      }
      i := i + 1;
    }
    assert FirstEntry(m, IsPlatformFile).None?;
  }

  // ---------------------------------------------------------------------
  // getGenreStats

  datatype GenreStat = GenreStat(genreName: string, totalAds: int, totalCost: int, avgCostPerAd: Quotient)

  const MaxGenres: nat := 10

  function IsGenreFile(k: string, v: Option<SummaryFile>): bool {
    Contains(k, "by_genre/genre_timeseries") && v.Some? && v.value.topGenres.Some?
  }

  /** One stat; the average cost is the zero guard unless the ad count is
      present and positive. */
  function GenreStatOf(g: GenreEntry): (s: GenreStat)
    ensures s.genreName == g.genreName
    ensures !(g.totalAds.Some? && g.totalAds.value > 0) ==> s.avgCostPerAd == ZeroQuotient
  {
    GenreStat(g.genreName, OrZero(g.totalAds), OrZero(g.totalCost),
      if g.totalAds.Some? && g.totalAds.value > 0 then Ratio(g.totalCost, g.totalAds.value) else ZeroQuotient)
  }

  /** The first ten genres of the first genre table, in file order. */
  function GenreStatsOf(m: Summaries): (r: seq<GenreStat>)
    ensures |r| <= MaxGenres
    ensures FirstEntry(m, IsGenreFile).None? ==> r == []
    ensures FirstEntry(m, IsGenreFile).Some? ==>
      |r| == Min(|ValueAt(m, FirstEntry(m, IsGenreFile).value).value.topGenres.value|, MaxGenres)
  {
    match FirstEntry(m, IsGenreFile)
    case None => []
    case Some(k) =>
      var genres := ValueAt(m, k).value.topGenres.value;
      Map(genres[..Min(|genres|, MaxGenres)], GenreStatOf)
  }

  /** The genre stats follow the table: the `i`-th stat is the `i`-th genre. */
  lemma GenreStatsInFileOrder(m: Summaries, i: nat)
    requires FirstEntry(m, IsGenreFile).Some?
    requires i < |GenreStatsOf(m)|
    ensures GenreStatsOf(m)[i].genreName == ValueAt(m, FirstEntry(m, IsGenreFile).value).value.topGenres.value[i].genreName
    ensures GenreStatsOf(m)[i] == GenreStatOf(ValueAt(m, FirstEntry(m, IsGenreFile).value).value.topGenres.value[i])
  {
  }

  /** The loops of `getGenreStats`. */
  method GenreStats(m: Summaries) returns (stats: seq<GenreStat>)
    requires m.Valid()
    ensures stats == GenreStatsOf(m)
  {
    stats := [];
    var i := 0;
    while i < |m.keys|
      invariant 0 <= i <= |m.keys|
      invariant forall j :: 0 <= j < i ==> !IsGenreFile(m.keys[j], ValueAt(m, m.keys[j]))
      invariant stats == []
    {
      var key := m.keys[i];
      var value := m.vals[key];
      if Contains(key, "by_genre/genre_timeseries") && value.Some? && value.value.topGenres.Some? {
        var all := value.value.topGenres.value;
        var genres := all[..Min(|all|, MaxGenres)];
        var j := 0;
        while j < |genres|
          invariant 0 <= j <= |genres|
          invariant stats == Map(genres[..j], GenreStatOf)
        {
          MapPrefixStep(genres, j, GenreStatOf);
          stats := stats + [GenreStatOf(genres[j])];
          j := j + 1;
        }
        FullPrefix(genres);
        FirstAt(m, IsGenreFile, i);
        return;
      }
      i := i + 1;
    }
    assert FirstEntry(m, IsGenreFile).None?;
  }

  // ---------------------------------------------------------------------
  // searchData

  datatype SearchHit = SearchHit(file: string, description: Option<string>, summaryStats: Option<seq<(string, StatValue)>>)

  /** The lowercased description or key includes the lowercased query. */
  predicate Matches(k: string, v: Option<SummaryFile>, lowerQuery: string) {
    || (v.Some? && v.value.description.Some? && Contains(AsciiLower(v.value.description.value), lowerQuery))
    || Contains(AsciiLower(k), lowerQuery)
  }

  function MatchesIn(m: Summaries, lowerQuery: string): string -> bool {
    (k: string) => Matches(k, ValueAt(m, k), lowerQuery)
  }

  function HitOf(m: Summaries): string -> SearchHit {
    (k: string) => match ValueAt(m, k)
      case Some(v) => SearchHit(k, v.description, v.summaryStats)
      case None => SearchHit(k, None, None)
  }

  /** A matching entry holding `null`: reading its description throws. */
  predicate NullHit(m: Summaries, lowerQuery: string) {
    exists i :: 0 <= i < |m.keys| && MatchesIn(m, lowerQuery)(m.keys[i]) && ValueAt(m, m.keys[i]).None?
  }

  /** `searchData(query)`: the matching entries in insertion order, or
      `None` when the call throws. */
  function SearchDataOf(m: Summaries, query: string): (r: Option<seq<SearchHit>>)
    ensures r.Some? ==> r.value == Map(Filter(m.keys, MatchesIn(m, AsciiLower(query))), HitOf(m))
  {
    var lq := AsciiLower(query);
    if NullHit(m, lq) then None else Some(Found(m, lq, m.keys))
  }

  /** The search throws exactly when a matching entry holds `null`; when
      it does not, it finds exactly the matching keys, once each. */
  lemma SearchFindsMatches(m: Summaries, query: string, k: string)
    requires m.Valid()
    ensures SearchDataOf(m, query).None? <==> NullHit(m, AsciiLower(query))
    ensures SearchDataOf(m, query).Some? ==>
      ((exists i :: 0 <= i < |SearchDataOf(m, query).value| && SearchDataOf(m, query).value[i].file == k)
        <==> k in m.keys && Matches(k, ValueAt(m, k), AsciiLower(query)))
  {
    var lq := AsciiLower(query);
    var kept := Filter(m.keys, MatchesIn(m, lq));
    FilterMembership(m.keys, MatchesIn(m, lq), k);
    if SearchDataOf(m, query).Some? {
      var r := SearchDataOf(m, query).value;
      if k in kept {
        var i :| 0 <= i < |kept| && kept[i] == k;
        assert r[i].file == k;
      }
      forall i | 0 <= i < |r| && r[i].file == k
        ensures k in kept
      {
        assert kept[i] == k;
      }
    }
  }

  /** The empty query is included in every text, so every entry is found. */
  lemma EmptyQueryFindsAll(m: Summaries)
    requires !NullHit(m, AsciiLower(""))
    ensures SearchDataOf(m, "") == Some(Map(m.keys, HitOf(m)))
  {
    forall i | 0 <= i < |m.keys|
      ensures MatchesIn(m, "")(m.keys[i])
    {
      OccursEmpty(AsciiLower(m.keys[i]));
    }
    FilterAll(m.keys, MatchesIn(m, ""));
  }

  lemma OccursEmpty(s: string)
    ensures Contains(s, "")
  {
    assert s[0..0] == "";
    ContainsAt(s, "", 0);
  }

  /** The loop of `searchData`. */
  method SearchData(m: Summaries, query: string) returns (r: Option<seq<SearchHit>>)
    ensures r == SearchDataOf(m, query)
  {
    var lowerQuery := AsciiLower(query);
    var results := [];
    var i := 0;
    while i < |m.keys|
      invariant 0 <= i <= |m.keys|
      invariant results == Found(m, lowerQuery, m.keys[..i])
      invariant NoNullBefore(m, lowerQuery, i)
    {
      var key := m.keys[i];
      var value := ValueAt(m, key);
      FoundStep(m, lowerQuery, m.keys, i);
      if Matches(key, value, lowerQuery) {
        if value.None? {
          NullHitAt(m, lowerQuery, i);
          return None;
        }
        results := results + [SearchHit(key, value.value.description, value.value.summaryStats)];
      }
      NoNullStep(m, lowerQuery, i);
      i := i + 1;
    }
    FullPrefix(m.keys);
    NoNullHit(m, lowerQuery);
    r := Some(results);
  }

  function Found(m: Summaries, lowerQuery: string, keys: seq<string>): seq<SearchHit> {
    Map(Filter(keys, MatchesIn(m, lowerQuery)), HitOf(m))
  }

  lemma FoundStep(m: Summaries, lowerQuery: string, keys: seq<string>, i: nat)
    requires i < |keys|
    ensures Found(m, lowerQuery, keys[..i + 1]) ==
      if Matches(keys[i], ValueAt(m, keys[i]), lowerQuery) then Found(m, lowerQuery, keys[..i]) + [HitOf(m)(keys[i])]
      else Found(m, lowerQuery, keys[..i])
  {
    FilterPrefixStep(keys, i, MatchesIn(m, lowerQuery));
    MapStep(Filter(keys[..i], MatchesIn(m, lowerQuery)), keys[i], HitOf(m));
  }

  lemma NullHitAt(m: Summaries, lowerQuery: string, i: nat)
    requires i < |m.keys| && MatchesIn(m, lowerQuery)(m.keys[i]) && ValueAt(m, m.keys[i]).None?
    ensures NullHit(m, lowerQuery)
  {
  }

  /** No matching key before position `i` holds `null`. */
  ghost predicate NoNullBefore(m: Summaries, lowerQuery: string, i: nat) {
    forall j :: 0 <= j < i && j < |m.keys| && MatchesIn(m, lowerQuery)(m.keys[j]) ==> ValueAt(m, m.keys[j]).Some?
  }

  lemma NoNullStep(m: Summaries, lowerQuery: string, i: nat)
    requires i < |m.keys| && NoNullBefore(m, lowerQuery, i)
    requires MatchesIn(m, lowerQuery)(m.keys[i]) ==> ValueAt(m, m.keys[i]).Some?
    ensures NoNullBefore(m, lowerQuery, i + 1)
  {
  }

  lemma NoNullHit(m: Summaries, lowerQuery: string)
    requires NoNullBefore(m, lowerQuery, |m.keys|)
    ensures !NullHit(m, lowerQuery)
  {
  }

  /** `readParquetData(filePath)`: not implemented by the service, it
      returns no rows for any path. */
  function ReadParquetData(filePath: string): (rows: seq<RawAdData>)
    ensures rows == []
  {
    []
  }

  // ---------------------------------------------------------------------
  // the service object

  class DataService {
    var dataSummaries: Summaries
    var dataLoaded: bool

    ghost predicate Valid()
      reads this
    {
      dataSummaries.Valid()
    }

    constructor()
      ensures Valid() && dataSummaries == Empty() && !dataLoaded
    {
      dataSummaries := Empty();
      dataLoaded := false;
    }

    /** `loadDataSummaries()`. Once loaded it returns true and does nothing.
        `listing` is the storage listing of `data_summaries/`, `None` when
        initializing storage or listing throws: then it returns false and
        nothing changes. Otherwise every listed `.json` file that loads is
        stored, failures are skipped, and the service counts as loaded. */
    method LoadDataSummaries(listing: Option<seq<string>>, download: string -> Download) returns (ok: bool)
      requires Valid()
      modifies this
      ensures Valid()
      ensures old(dataLoaded) ==> ok && dataLoaded && dataSummaries == old(dataSummaries)
      ensures !old(dataLoaded) && listing.None? ==> !ok && !dataLoaded && dataSummaries == old(dataSummaries)
      ensures !old(dataLoaded) && listing.Some? ==>
        ok && dataLoaded && dataSummaries == Stored(old(dataSummaries), listing.value, download)
    {
      if dataLoaded {
        return true;
      }
      if listing.None? {
        return false;
      }
      var summaryFiles := listing.value;
      var i := 0;
      while i < |summaryFiles|
        invariant 0 <= i <= |summaryFiles|
        invariant !dataLoaded
        invariant dataSummaries == Stored(old(dataSummaries), summaryFiles[..i], download)
        invariant dataSummaries.Valid()
      {
        var filePath := summaryFiles[i];
        PrefixStep(summaryFiles, i);
        assert DropLast(summaryFiles[..i + 1]) == summaryFiles[..i];
        if EndsWith(filePath, ".json") {
          var got := download(filePath);
          if got.Loaded? {
            dataSummaries := dataSummaries.Put(filePath, got.value);
          }
        }
        i := i + 1;
      }
      FullPrefix(summaryFiles);
      dataLoaded := true;
      ok := true;
    }

    /** `getDataSummary()`: loads first when not loaded. */
    method GetDataSummary(listing: Option<seq<string>>, download: string -> Download) returns (s: DataSummary)
      requires Valid()
      modifies this
      ensures Valid()
      ensures old(dataLoaded) ==> dataLoaded && dataSummaries == old(dataSummaries)
      ensures !old(dataLoaded) ==> dataLoaded == listing.Some?
      ensures !old(dataLoaded) ==>
        dataSummaries == if listing.Some? then Stored(old(dataSummaries), listing.value, download) else old(dataSummaries)
      ensures s == DataSummaryOf(dataSummaries)
    {
      if !dataLoaded {
        var _ := LoadDataSummaries(listing, download);
      }
      s := DailySummary(dataSummaries);
    }

    /** `getPlatformStats()`: loads first when not loaded. */
    method GetPlatformStats(listing: Option<seq<string>>, download: string -> Download) returns (stats: seq<PlatformStat>)
      requires Valid()
      modifies this
      ensures Valid()
      ensures old(dataLoaded) ==> dataLoaded && dataSummaries == old(dataSummaries)
      ensures !old(dataLoaded) ==> dataLoaded == listing.Some?
      ensures !old(dataLoaded) ==>
        dataSummaries == if listing.Some? then Stored(old(dataSummaries), listing.value, download) else old(dataSummaries)
      ensures stats == PlatformStatsOf(dataSummaries)
    {
      if !dataLoaded {
        var _ := LoadDataSummaries(listing, download);
      }
      stats := PlatformStats(dataSummaries);
    }

    /** `getGenreStats()`: loads first when not loaded. */
    method GetGenreStats(listing: Option<seq<string>>, download: string -> Download) returns (stats: seq<GenreStat>)
      requires Valid()
      modifies this
      ensures Valid()
      ensures old(dataLoaded) ==> dataLoaded && dataSummaries == old(dataSummaries)
      ensures !old(dataLoaded) ==> dataLoaded == listing.Some?
      ensures !old(dataLoaded) ==>
        dataSummaries == if listing.Some? then Stored(old(dataSummaries), listing.value, download) else old(dataSummaries)
      ensures stats == GenreStatsOf(dataSummaries)
    {
      if !dataLoaded {
        var _ := LoadDataSummaries(listing, download);
      }
      stats := GenreStats(dataSummaries);
    }
  }
}

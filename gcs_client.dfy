/** The pure helpers of server/utils/gcs-client.ts: partition paths, month
    keys, the known data gaps and the bucket-name clean-up done before every
    storage call. */
module Gcs {
  import opened Wrappers
  import opened Strings

  const Root: string := "timeseries_data/"

  /** `buildTimeseriesPath(type, fileName)`. */
  function BuildTimeseriesPath(typ: string, fileName: string): (r: string)
    ensures StartsWith(r, Root) && EndsWith(r, fileName)
  {
    if typ == [] then Root + fileName else Root + typ + "/" + fileName
  }

  /** An empty type puts the file directly under the root; any other type is
      one directory level below it. */
  lemma PathShape(typ: string, fileName: string)
    ensures typ == [] ==> BuildTimeseriesPath(typ, fileName) == "timeseries_data/" + fileName
    ensures typ != [] ==> BuildTimeseriesPath(typ, fileName) == "timeseries_data/" + typ + "/" + fileName
  {
  }

  /** For names without `/`, different (type, file) pairs give different
      paths; the root type `""` included. */
  lemma {:induction false} PathInjective(t1: string, f1: string, t2: string, f2: string)
    requires '/' !in t1 && '/' !in f1 && '/' !in t2 && '/' !in f2
    requires BuildTimeseriesPath(t1, f1) == BuildTimeseriesPath(t2, f2)
    ensures t1 == t2 && f1 == f2
  {
    var p := BuildTimeseriesPath(t1, f1);
    var rest := p[|Root|..];
    assert rest == (if t1 == [] then f1 else t1 + "/" + f1);
    assert rest == (if t2 == [] then f2 else t2 + "/" + f2);
    if t1 == [] {
      SplitNoSep(f1, '/');
    } else {
      SplitFirst(t1, '/', f1);
      SplitNoSep(f1, '/');
      assert Split(rest, '/') == [t1, f1];
    }
    if t2 == [] {
      SplitNoSep(f2, '/');
    } else {
      SplitFirst(t2, '/', f2);
      SplitNoSep(f2, '/');
      assert Split(rest, '/') == [t2, f2];
    }
  }

  /** `dateToMonthKey(date)`: `${year}_${month}` from the first two
      `-`-separated pieces; a missing month renders as `undefined`. */
  function DateToMonthKey(date: string): string {
    var pieces := Split(date, '-');
    pieces[0] + "_" + (if |pieces| > 1 then pieces[1] else "undefined")
  }

  /** "YYYY-MM" becomes "YYYY_MM" and a day part is dropped. */
  lemma MonthKeyOf(year: string, month: string, day: string)
    requires '-' !in year && '-' !in month && '-' !in day
    ensures DateToMonthKey(year + "-" + month) == year + "_" + month
    ensures DateToMonthKey(year + "-" + month + "-" + day) == year + "_" + month
  {
    SplitFirst(year, '-', month);
    SplitNoSep(month, '-');
    assert year + "-" + month + "-" + day == year + "-" + (month + "-" + day);
    SplitFirst(year, '-', month + "-" + day);
    SplitFirst(month, '-', day);
  }

  /** Replacing the first `_` by `-` in a month key gives the month back,
      as the index builder does with the manifest's keys. */
  lemma MonthKeyRoundTrip(year: string, month: string)
    requires '-' !in year && '-' !in month && '_' !in year
    ensures ReplaceFirst(DateToMonthKey(year + "-" + month), "_", "-") == year + "-" + month
  {
    MonthKeyOf(year, month, "");
    ReplaceFirstChar(year, '_', '-', month);
  }

  datatype Gap = Gap(start: string, end: string)

  /** `DATA_GAPS`: the date ranges with no data. */
  const DataGaps: seq<Gap> := [Gap("2023-12-18", "2024-01-11"), Gap("2024-04-24", "2024-07-09")]

  predicate InGap(date: string, g: Gap) {
    LexLe(g.start, date) && LexLe(date, g.end)
  }

  /** `gaps.some(gap => date >= gap.start && date <= gap.end)`. */
  function SomeGap(date: string, gaps: seq<Gap>): (r: bool)
    ensures r <==> exists i :: 0 <= i < |gaps| && InGap(date, gaps[i])
    decreases |gaps|
  {
    if |gaps| == 0 then false
    else InGap(date, gaps[0]) || SomeGap(date, gaps[1..])
  }

  /** `isInDataGap(date)`: within one of the two gaps, endpoints included. */
  function IsInDataGap(date: string): (r: bool)
    ensures r <==> InGap(date, Gap("2023-12-18", "2024-01-11")) || InGap(date, Gap("2024-04-24", "2024-07-09"))
  {
    SomeGap(date, DataGaps)
  }

  /** In any list of gaps whose start is not after its end, both ends of
      every gap are in some gap. */
  lemma GapEndsInside(gaps: seq<Gap>)
    requires forall i :: 0 <= i < |gaps| ==> LexLe(gaps[i].start, gaps[i].end)
    ensures forall i :: 0 <= i < |gaps| ==> SomeGap(gaps[i].start, gaps) && SomeGap(gaps[i].end, gaps)
  {
    forall i | 0 <= i < |gaps|
      ensures SomeGap(gaps[i].start, gaps) && SomeGap(gaps[i].end, gaps)
    {
      LexLeReflexive(gaps[i].start);
      LexLeReflexive(gaps[i].end);
      assert InGap(gaps[i].start, gaps[i]) && InGap(gaps[i].end, gaps[i]);
    }
  }

  /** Both ends of each listed data gap count as inside a gap. */
  lemma DataGapEnds()
    ensures forall i :: 0 <= i < |DataGaps| ==> IsInDataGap(DataGaps[i].start) && IsInDataGap(DataGaps[i].end)
  {
    DataGapsOrdered();
    GapEndsInside(DataGaps);
  }

  lemma DataGapsOrdered()
    ensures forall i :: 0 <= i < |DataGaps| ==> LexLe(DataGaps[i].start, DataGaps[i].end)
  {
    FirstGapOrdered();
    SecondGapOrdered();
  }

  lemma FirstGapOrdered()
    ensures LexLe(DataGaps[0].start, DataGaps[0].end)
  {
  }

  lemma SecondGapOrdered()
    ensures LexLe(DataGaps[1].start, DataGaps[1].end)
  {
  }

  /** The bucket name with the first `.firebasestorage.app`, then the first
      `.appspot.com`, removed (readGCSFile and listGCSFiles). */
  function CleanBucketName(bucketName: string): string {
    ReplaceFirst(ReplaceFirst(bucketName, ".firebasestorage.app", ""), ".appspot.com", "")
  }

  /** A name containing neither suffix is used unchanged. */
  lemma CleanUnchanged(bucketName: string)
    requires !Contains(bucketName, ".firebasestorage.app") && !Contains(bucketName, ".appspot.com")
    ensures CleanBucketName(bucketName) == bucketName
  {
  }

  /** A project id without dots, followed by either storage suffix, is
      reduced to the project id. */
  lemma CleanStripsSuffix(project: string)
    requires '.' !in project
    ensures CleanBucketName(project + ".firebasestorage.app") == project
    ensures CleanBucketName(project + ".appspot.com") == project
  {
    IndexOfHeadFree(project, ".firebasestorage.app", "");
    assert project + ".firebasestorage.app" + "" == project + ".firebasestorage.app";
    assert (project + ".firebasestorage.app")[..|project|] == project;
    IndexOfHeadFree(project, ".appspot.com", "");
    assert project + ".appspot.com" + "" == project + ".appspot.com";
    assert (project + ".appspot.com")[..|project|] == project;
    IndexOfHeadFree(project, ".firebasestorage.app", ".appspot.com");
    assert (project + ".appspot.com")[..|project| + 1] == project + ".";
    assert !Contains(project + ".appspot.com", ".firebasestorage.app") by {
      NoFirebaseInAppspot(project);
    }
  }

  lemma NoFirebaseInAppspot(project: string)
    requires '.' !in project
    ensures !Contains(project + ".appspot.com", ".firebasestorage.app")
  {
    var s := project + ".appspot.com";
    forall j | 0 <= j
      ensures !OccursAt(s, ".firebasestorage.app", j)
    {
      assert j + 20 <= |s| ==> s[j..j + 20][0] == s[j] && j < |project| && s[j] == project[j];
    }
  }
}

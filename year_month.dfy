/** The year-month pattern `(\d{4})[年-](\d{1,2})[月-]` scanned with the
    global flag, as `extractTimeRange` (server/utils/rag-enhanced.ts) and
    `extractFilters` (server/services/chatService.ts) both do: the matches
    are found left to right without overlap, and each becomes `YYYY-MM`
    with the month padded to two digits. `\d` is an ASCII digit. */
module YearMonths {
  import opened Wrappers
  import opened Strings
  import opened Types

  predicate YearSep(c: char) {
    c == '年' || c == '-'
  }

  predicate MonthSep(c: char) {
    c == '月' || c == '-'
  }

  /** The captured year and month of one match. */
  datatype Match = Match(year: string, month: string)

  /** The number of characters a match spans. */
  function Span(m: Match): nat {
    |m.year| + 1 + |m.month| + 1
  }

  /** The pattern matches at `p` with these two captures. */
  ghost predicate MatchesAt(s: string, p: nat, m: Match) {
    && |m.year| == 4 && 1 <= |m.month| <= 2
    && AllDigits(m.year) && AllDigits(m.month)
    && p + Span(m) <= |s|
    && s[p..p + 4] == m.year
    && YearSep(s[p + 4])
    && s[p + 5..p + 5 + |m.month|] == m.month
    && MonthSep(s[p + 5 + |m.month|])
  }

  /** The match the regular expression engine reports at `p`: `\d{1,2}` is
      greedy, so a two-digit month wins when both would fit. */
  function MatchAt(s: string, p: nat): (r: Option<Match>)
    ensures r.Some? ==> MatchesAt(s, p, r.value)
    ensures r.Some? ==> forall m :: MatchesAt(s, p, m) ==> |m.month| <= |r.value.month|
    ensures r.None? ==> forall m :: !MatchesAt(s, p, m)
  {
    if p + 7 <= |s| && AllDigits(s[p..p + 4]) && YearSep(s[p + 4]) && IsDigit(s[p + 5]) then
      if p + 8 <= |s| && IsDigit(s[p + 6]) && MonthSep(s[p + 7]) then
        Some(Match(s[p..p + 4], s[p + 5..p + 7]))
      else if MonthSep(s[p + 6]) then
        NoLongerMonth(s, p);
        Some(Match(s[p..p + 4], s[p + 5..p + 6]))
      else
        NoMatchHere(s, p);
        None
    else
      NoMatchHere(s, p);
      None
  }

  /** What a match at `p` says about the characters there. */
  lemma MatchFacts(s: string, p: nat)
    ensures forall m :: MatchesAt(s, p, m) ==>
      && p + 7 <= |s| && AllDigits(s[p..p + 4]) && YearSep(s[p + 4]) && IsDigit(s[p + 5])
      && (|m.month| == 1 ==> MonthSep(s[p + 6]))
      && (|m.month| == 2 ==> p + 8 <= |s| && IsDigit(s[p + 6]) && MonthSep(s[p + 7]))
  {
    forall m | MatchesAt(s, p, m)
      ensures IsDigit(s[p + 5])
      ensures |m.month| == 2 ==> IsDigit(s[p + 6])
    {
      assert m.month[0] == s[p + 5];
      assert |m.month| == 2 ==> m.month[1] == s[p + 6];
    }
  }

  lemma NoLongerMonth(s: string, p: nat)
    requires p + 7 <= |s| && MonthSep(s[p + 6])
    ensures forall m :: MatchesAt(s, p, m) ==> |m.month| <= 1
  {
    MatchFacts(s, p);
  }

  lemma NoMatchHere(s: string, p: nat)
    requires !(p + 8 <= |s| && AllDigits(s[p..p + 4]) && YearSep(s[p + 4]) && IsDigit(s[p + 5]) && IsDigit(s[p + 6]) && MonthSep(s[p + 7]))
    requires !(p + 7 <= |s| && AllDigits(s[p..p + 4]) && YearSep(s[p + 4]) && IsDigit(s[p + 5]) && MonthSep(s[p + 6]))
    ensures forall m :: !MatchesAt(s, p, m)
  {
    MatchFacts(s, p);
  }

  /** `m[2].padStart(2, '0')`. */
  function PadMonth(month: string): (r: string)
    ensures |month| <= 2 ==> |r| == 2
  {
    if |month| < 2 then seq(2 - |month|, _ => '0') + month else month
  }

  /** Padding only puts zeros in front: the month is kept at the end. */
  lemma PadMonthShape(month: string)
    ensures EndsWith(PadMonth(month), month)
    ensures forall i :: 0 <= i < |PadMonth(month)| - |month| ==> PadMonth(month)[i] == '0'
  {
    var r := PadMonth(month);
    assert r[|r| - |month|..] == month;
  }

  function Render(m: Match): string {
    m.year + "-" + PadMonth(m.month)
  }

  /** `[...s.matchAll(pattern)]` from position `p`, each match rendered;
      after a match the search resumes where it ended. */
  function ScanFrom(s: string, p: nat): seq<string>
    decreases |s| - p
  {
    if p >= |s| then []
    else match MatchAt(s, p)
      case Some(m) => [Render(m)] + ScanFrom(s, p + Span(m))
      case None => ScanFrom(s, p + 1)
  }

  function YearMonthsIn(s: string): seq<string> {
    ScanFrom(s, 0)
  }

  /** `YYYY-MM` with ASCII digits. */
  predicate IsYearMonth(d: string) {
    |d| == 7 && AllDigits(d[..4]) && d[4] == '-' && AllDigits(d[5..])
  }

  /** A rendered match is a well-formed `YYYY-MM`. */
  lemma RenderShape(s: string, p: nat, m: Match)
    requires MatchesAt(s, p, m)
    ensures IsYearMonth(Render(m))
  {
    var d := Render(m);
    assert d[..4] == m.year;
    assert d[5..] == PadMonth(m.month);
  }

  /** Every rendered match is a well-formed `YYYY-MM`. */
  lemma {:induction false} ScanShape(s: string, p: nat)
    ensures forall i :: 0 <= i < |ScanFrom(s, p)| ==> IsYearMonth(ScanFrom(s, p)[i])
    decreases |s| - p
  {
    if p < |s| {
      match MatchAt(s, p)
      case Some(m) =>
        ScanShape(s, p + Span(m));
        ScanShapeMatch(s, p, m, ScanFrom(s, p + Span(m)));
      case None =>
        assert ScanFrom(s, p) == ScanFrom(s, p + 1);
        ScanShape(s, p + 1);
    }
  }

  /** The step of `ScanShape` at a match. */
  lemma ScanShapeMatch(s: string, p: nat, m: Match, rest: seq<string>)
    requires p < |s| && MatchAt(s, p) == Some(m)
    requires rest == ScanFrom(s, p + Span(m))
    requires forall i :: 0 <= i < |rest| ==> IsYearMonth(rest[i])
    ensures forall i :: 0 <= i < |ScanFrom(s, p)| ==> IsYearMonth(ScanFrom(s, p)[i])
  {
    var all := ScanFrom(s, p);
    assert all == [Render(m)] + rest;
    forall i | 0 <= i < |all|
      ensures IsYearMonth(all[i])
    {
      if i == 0 {
        RenderShape(s, p, m);
      } else {
        assert all[i] == rest[i - 1];
      }
    }
  }

  /** The range the two callers build: the first and the last match, in
      the order they occur, with no sorting. */
  function RangeOf(s: string): (r: Option<DateRange>)
    ensures r.None? <==> YearMonthsIn(s) == []
    ensures r.Some? ==> r.value.start == YearMonthsIn(s)[0]
    ensures r.Some? ==> r.value.end == YearMonthsIn(s)[|YearMonthsIn(s)| - 1]
    ensures r.Some? ==> IsYearMonth(r.value.start) && IsYearMonth(r.value.end)
  {
    var ds := YearMonthsIn(s);
    ScanShape(s, 0);
    if |ds| > 0 then Some(DateRange(ds[0], ds[|ds| - 1])) else None
  }

  /** A string with no ASCII digit has no match. */
  lemma {:induction false} NoDigitsNoMatch(s: string, p: nat)
    requires forall i :: 0 <= i < |s| ==> !IsDigit(s[i])
    ensures ScanFrom(s, p) == []
    decreases |s| - p
  {
    if p < |s| {
      if p + 4 <= |s| {
        assert !IsDigit(s[p..p + 4][0]);
      }
      assert MatchAt(s, p).None?;
      NoDigitsNoMatch(s, p + 1);
    }
  }

  /** Positions where no match starts are skipped one by one. */
  lemma {:induction false} ScanSkips(s: string, q: nat, p: nat)
    requires q <= p <= |s|
    requires forall k :: q <= k < p ==> MatchAt(s, k).None?
    ensures ScanFrom(s, q) == ScanFrom(s, p)
    decreases p - q
  {
    if q < p {
      assert MatchAt(s, q).None?;
      ScanSkips(s, q + 1, p);
    }
  }

  /** The range starts at the earliest match in the text, whatever its
      value: a later month named first becomes the start, as nothing is
      sorted. */
  lemma FirstMatchIsStart(s: string, p: nat, m: Match)
    requires MatchAt(s, p) == Some(m)
    requires forall k :: 0 <= k < p ==> MatchAt(s, k).None?
    ensures RangeOf(s).Some? && RangeOf(s).value.start == Render(m)
  {
    ScanSkips(s, 0, p);
    ScanAt(s, p, m);
  }

  /** The scan at a position where a match starts begins with it. */
  lemma ScanAt(s: string, p: nat, m: Match)
    requires MatchAt(s, p) == Some(m)
    ensures |ScanFrom(s, p)| > 0 && ScanFrom(s, p)[0] == Render(m)
  {
    assert p < |s|;
  }
}

/** The basic RAG system (server/utils/rag.ts): the formatters that turn a
    summary file into context text, the response shown when no language
    model is configured, and the fallbacks of `search` and
    `generateResponse`. The vector store and the model are inputs. */
module Rag {
  import opened Wrappers
  import opened Strings
  import opened Seqs
  import opened Types

  // ---------------------------------------------------------------------
  // summary statistics

  const StatsHeader := "統計情報:\n"

  /** A number is written with `toLocaleString` (plain decimal here), any
      other value as its text. */
  function StatValueText(v: StatValue): string {
    match v
    case Num(n) => IntToString(n)
    case Text(t) => t
  }

  function StatText(entry: (string, StatValue)): string {
    "  - " + entry.0 + ": " + StatValueText(entry.1)
  }

  /** `formatSummaryStats(stats)`. */
  method FormatSummaryStats(stats: Option<seq<(string, StatValue)>>) returns (result: string)
    ensures stats.None? ==> result == ""
    ensures stats.Some? ==> result == StatsHeader + Terminated(Map(stats.value, StatText))
  {
    if stats.None? {
      return "";
    }
    result := WriteLines(StatsHeader, stats.value, StatText);
  }

  /** The loop every formatter runs: start from the header and add each
      item's line followed by a newline, `result += line + '\n'`. */
  method WriteLines<T>(header: string, items: seq<T>, text: T -> string) returns (result: string)
    ensures result == header + Terminated(Map(items, text))
  {
    result := header;
    var i := 0;
    while i < |items|
      invariant 0 <= i <= |items|
      invariant result == header + Terminated(Map(items[..i], text))
    {
      MapPrefixStep(items, i, text);
      TerminatedStep(Map(items[..i], text), text(items[i]));
      result := result + text(items[i]) + "\n";
      i := i + 1;
    }
    FullPrefix(items);
  }

  /** A header line followed by terminated lines reads back, split on the
      newline, as the header, the lines, and one empty piece. */
  lemma HeadedLines(header: string, lines: seq<string>)
    requires '\n' !in header
    requires forall i :: 0 <= i < |lines| ==> '\n' !in lines[i]
    ensures Split(header + "\n" + Terminated(lines), '\n') == [header] + lines + [""]
  {
    SplitTerminated(lines);
    SplitFirst(header, '\n', Terminated(lines));
    AppendAssoc([header], lines, [""]);
  }

  /** The same after an empty line. */
  lemma BlankHeadedLines(title: string, lines: seq<string>)
    requires '\n' !in title
    requires forall i :: 0 <= i < |lines| ==> '\n' !in lines[i]
    ensures Split("\n" + title + "\n" + Terminated(lines), '\n') == ["", title] + lines + [""]
  {
    var t := Terminated(lines);
    AppendAssoc("\n", title, "\n");
    AppendAssoc("\n", title + "\n", t);
    SplitFirst("", '\n', title + "\n" + t);
    AppendEmpty("\n");
    HeadedLines(title, lines);
    ConsPair("", title, lines, "");
  }

  lemma IntToStringNoNewline(n: int)
    ensures '\n' !in IntToString(n)
  {
    var d := NatToString(if n < 0 then -n else n);
    assert forall i :: 0 <= i < |d| ==> d[i] != '\n';
    if n < 0 {
      assert IntToString(n) == "-" + d;
    }
  }

  /** Read back line by line, the statistics text is its title and then one
      line per entry, in entry order, provided no key or text value holds a
      newline. */
  lemma StatsLines(entries: seq<(string, StatValue)>)
    requires forall i :: 0 <= i < |entries| ==> '\n' !in entries[i].0
    requires forall i :: 0 <= i < |entries| ==> entries[i].1.Text? ==> '\n' !in entries[i].1.t
    ensures Split(StatsHeader + Terminated(Map(entries, StatText)), '\n')
         == ["統計情報:"] + Map(entries, StatText) + [""]
  {
    var lines := Map(entries, StatText);
    forall i | 0 <= i < |lines|
      ensures '\n' !in lines[i]
    {
      var e := entries[i];
      if e.1.Num? {
        IntToStringNoNewline(e.1.n);
      }
      assert lines[i] == "  - " + e.0 + ": " + StatValueText(e.1);
    }
    assert StatsHeader + Terminated(lines) == "統計情報:" + "\n" + Terminated(lines);
    HeadedLines("統計情報:", lines);
  }

  // ---------------------------------------------------------------------
  // platforms and genres

  /** `x?.toLocaleString() || 0`: a missing number renders as `0`; a present
      one, zero included, renders as itself. */
  function CountText(n: Option<int>): string {
    if n.Some? then IntToString(n.value) else "0"
  }

  lemma MissingCountIsZero()
    ensures CountText(None) == CountText(Some(0)) == "0"
  {
    assert IntToString(0) == NatToString(0);
  }

  const PlatformsTitle := "プラットフォーム別統計:"
  const PlatformsHeader := "\nプラットフォーム別統計:\n"
  const GenresHeader := "\nジャンル別統計 (トップ10):\n"
  const MaxPlatforms: nat := 5
  const MaxGenres: nat := 10

  function PlatformText(p: PlatformEntry): string {
    "  - " + p.appName + ": " + CountText(p.totalAds) + "件, " + CountText(p.totalCost) + "円"
  }

  function GenreText(g: GenreEntry): string {
    "  - " + g.genreName + ": " + CountText(g.totalAds) + "件, " + CountText(g.totalCost) + "円"
  }

  /** `formatPlatforms(platforms)`: nothing for a missing or empty list,
      otherwise the header and one line for each of the first five. */
  method FormatPlatforms(platforms: Option<seq<PlatformEntry>>) returns (result: string)
    ensures platforms.None? || platforms.value == [] ==> result == ""
    ensures platforms.Some? && platforms.value != [] ==>
      result == PlatformsHeader + Terminated(Map(platforms.value[..Min(|platforms.value|, MaxPlatforms)], PlatformText))
  {
    if platforms.None? || platforms.value == [] {
      return "";
    }
    var shown := platforms.value[..Min(|platforms.value|, MaxPlatforms)];
    result := WriteLines(PlatformsHeader, shown, PlatformText);
  }

  /** `formatGenres(genres)`: nothing for a missing or empty list, otherwise
      the header and one line for each of the first ten. */
  method FormatGenres(genres: Option<seq<GenreEntry>>) returns (result: string)
    ensures genres.None? || genres.value == [] ==> result == ""
    ensures genres.Some? && genres.value != [] ==>
      result == GenresHeader + Terminated(Map(genres.value[..Min(|genres.value|, MaxGenres)], GenreText))
  {
    if genres.None? || genres.value == [] {
      return "";
    }
    var shown := genres.value[..Min(|genres.value|, MaxGenres)];
    result := WriteLines(GenresHeader, shown, GenreText);
  }

  lemma PlatformTextNoNewline(p: PlatformEntry)
    requires '\n' !in p.appName
    ensures '\n' !in PlatformText(p)
  {
    if p.totalAds.Some? {
      IntToStringNoNewline(p.totalAds.value);
    }
    if p.totalCost.Some? {
      IntToStringNoNewline(p.totalCost.value);
    }
  }

  /** Read back line by line, the platform text is an empty line, its title,
      and at most five platform lines in list order, provided no name holds a
      newline. */
  lemma PlatformLines(platforms: seq<PlatformEntry>)
    requires platforms != []
    requires forall i :: 0 <= i < |platforms| ==> '\n' !in platforms[i].appName
    ensures var lines := Map(platforms[..Min(|platforms|, MaxPlatforms)], PlatformText);
      && 1 <= |lines| <= MaxPlatforms
      && lines[0] == PlatformText(platforms[0])
      && Split(PlatformsHeader + Terminated(lines), '\n') == ["", PlatformsTitle] + lines + [""]
  {
    var shown := platforms[..Min(|platforms|, MaxPlatforms)];
    var lines := Map(shown, PlatformText);
    forall i | 0 <= i < |lines|
      ensures '\n' !in lines[i]
    {
      PlatformTextNoNewline(shown[i]);
    }
    assert PlatformsHeader == "\n" + PlatformsTitle + "\n";
    BlankHeadedLines(PlatformsTitle, lines);
  }

  // ---------------------------------------------------------------------
  // responses

  const DataOnlyPrefix := "以下のデータが見つかりました:\n\n"
  const AdsSuffix := "\n\n広告データに関する情報を表示しています。"
  const PlatformSuffix := "\n\nプラットフォーム別のデータを確認してください。"
  const GenreSuffix := "\n\nジャンル別の統計情報を表示しています。"
  const ErrorMessage := "エラーが発生しました。もう一度お試しください。"

  /** The hint chosen by the first keyword group the lowercased query
      contains, or none. */
  function DataOnlySuffix(query: string): (r: string)
    ensures r in {AdsSuffix, PlatformSuffix, GenreSuffix, ""}
    ensures var q := AsciiLower(query);
      (Contains(q, "広告") || Contains(q, "総数")) ==> r == AdsSuffix
  {
    var q := AsciiLower(query);
    if Contains(q, "広告") || Contains(q, "総数") then AdsSuffix
    else if Contains(q, "プラットフォーム") then PlatformSuffix
    else if Contains(q, "ジャンル") then GenreSuffix
    else ""
  }

  /** `generateDataOnlyResponse(query, context)`: the fixed prefix, the
      context unchanged, then at most one hint. */
  function DataOnlyResponse(query: string, context: string): (r: string)
    ensures StartsWith(r, DataOnlyPrefix + context)
    ensures EndsWith(r, DataOnlySuffix(query))
    ensures |r| == |DataOnlyPrefix| + |context| + |DataOnlySuffix(query)|
  {
    var r := DataOnlyPrefix + context + DataOnlySuffix(query);
    assert r[..|DataOnlyPrefix + context|] == DataOnlyPrefix + context;
    assert r[|r| - |DataOnlySuffix(query)|..] == DataOnlySuffix(query);
    r
  }

  /** The platform hint appears only when the query names no advertising
      keyword. */
  lemma PlatformHintNeedsNoAdKeyword(query: string)
    requires DataOnlySuffix(query) == PlatformSuffix
    ensures !Contains(AsciiLower(query), "広告") && !Contains(AsciiLower(query), "総数")
    ensures Contains(AsciiLower(query), "プラットフォーム")
  {
    assert PlatformSuffix != AdsSuffix && PlatformSuffix != GenreSuffix && PlatformSuffix != "";
  }

  /** `search(query, k)`: `found` is what the vector store returned for the
      query, `None` when it threw. */
  function Search(hasVectorStore: bool, found: Option<seq<TextDocument>>): (r: seq<TextDocument>)
    ensures !hasVectorStore || found.None? ==> r == []
    ensures hasVectorStore && found.Some? ==> r == found.value
  {
    if !hasVectorStore then [] else found.GetOr([])
  }

  /** The prompt sent to the model, after `trim()`: the template's own
      first and last lines carry no white space at the outer ends, so trimming
      removes only the template's leading newline and trailing indentation. */
  function Prompt(query: string, context: string): string {
    "あなたは広告データ分析の専門家です。以下のコンテキストを参考に、ユーザーの質問に答えてください。\n\nコンテキスト:\n"
    + context + "\n\n質問: " + query
    + "\n\n回答は日本語で、具体的な数値やデータを含めて分かりやすく説明してください。"
  }

  /** The prompt carries both the context and the question. */
  lemma PromptCarriesInputs(query: string, context: string)
    ensures Contains(Prompt(query, context), context)
    ensures Contains(Prompt(query, context), query)
  {
    var head := "あなたは広告データ分析の専門家です。以下のコンテキストを参考に、ユーザーの質問に答えてください。\n\nコンテキスト:\n";
    var mid := "\n\n質問: ";
    var p := Prompt(query, context);
    assert p == head + context + mid + query + "\n\n回答は日本語で、具体的な数値やデータを含めて分かりやすく説明してください。";
    assert p[|head|..|head| + |context|] == context;
    ContainsAt(p, context, |head|);
    assert p[|head + context + mid|..|head + context + mid| + |query|] == query;
    ContainsAt(p, query, |head + context + mid|);
  }

  /** `generateResponse(query, context)`: without a model the data-only
      response; with one, the model's answer to the prompt, or the error
      message when the call throws (`invoke` gives `None`). */
  function GenerateResponse(hasModel: bool, query: string, context: string, invoke: string -> Option<string>): (r: string)
    ensures !hasModel ==> r == DataOnlyResponse(query, context)
    ensures hasModel && invoke(Prompt(query, context)).Some? ==> r == invoke(Prompt(query, context)).value
    ensures hasModel && invoke(Prompt(query, context)).None? ==> r == ErrorMessage
  {
    if !hasModel then DataOnlyResponse(query, context)
    else match invoke(Prompt(query, context))
      case Some(answer) => answer
      case None => ErrorMessage
  }

  /** Without a model the answer always carries the context. */
  lemma NoModelKeepsContext(query: string, context: string, invoke: string -> Option<string>)
    ensures Contains(GenerateResponse(false, query, context, invoke), context)
  {
    ContainsMiddle(DataOnlyPrefix, context, DataOnlySuffix(query));
  }
}

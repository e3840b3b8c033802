/** The chat service (server/services/chatService.ts): one history per
    session id, the choice between the enhanced and the basic RAG system,
    the filters read off a message, and the removal of idle sessions.

    What the other services answer is an input: whether they loaded, what
    the enhanced search returned and what the models answered (`None` where
    the call threw). The clock is the parameter `now`, in milliseconds, and
    the fresh UUID is the parameter `freshId`. */
module ChatService {
  import opened Wrappers
  import opened Strings
  import opened Seqs
  import opened OrderedMaps
  import opened Types
  import opened YearMonths
  import Rag

  /** One `SessionHistory` element; the ISO timestamp is kept as the
      milliseconds it denotes. */
  datatype SessionEntry = SessionEntry(timestamp: int, message: string, response: string)

  /** A result of the enhanced search, with the metadata the service reads. */
  datatype RagResult = RagResult(content: string, source: string, platform: Option<string>, date: Option<string>)

  /** An element of `sources` in the response. */
  datatype SourceInfo = SourceInfo(source: string, content: string, platform: Option<string>, date: Option<string>)

  /** `ChatResponse` without its timestamp. */
  datatype ChatResponse = ChatResponse(message: string, sessionId: string, sources: seq<SourceInfo>)

  /** What the collaborating services do during one call. */
  datatype Backends = Backends(
    dataLoaded: bool,                                          // dataService.loadDataSummaries()
    ragInitialized: bool,                                      // ragSystem.initialize()
    enhancedReady: bool,                                       // enhanced system initialized, or initializes now
    enhancedSearch: (string, SearchFilters) -> seq<RagResult>, // enhancedRAGSystem.search
    enhancedAnswer: (string, seq<RagResult>) -> Option<string>,// enhancedRAGSystem.generateResponse
    hasVectorStore: bool,
    found: Option<seq<TextDocument>>,                          // the basic store's similarity search
    hasModel: bool,
    invoke: string -> Option<string>)                          // the basic system's model

  const ErrorMessage := "エラーが発生しました。もう一度お試しください。"

  // ---------------------------------------------------------------------
  // choosing the RAG system

  const EnhancedKeywords := ["推移", "トレンド", "比較", "分析", "instagram", "facebook",
                             "期間", "月別", "日別", "ジャンル", "広告主"]

  /** `shouldUseEnhancedRAG(message)`: `ready` is false when the enhanced
      system was not initialized and its initialization failed now. */
  function ShouldUseEnhancedRag(message: string, ready: bool): (r: bool)
    ensures r ==> ready
  {
    ready && ContainsAny(AsciiLower(message), EnhancedKeywords)
  }

  /** The choice does not depend on letter case. */
  lemma ShouldUseIgnoresCase(message: string, ready: bool)
    ensures ShouldUseEnhancedRag(AsciiLower(message), ready) == ShouldUseEnhancedRag(message, ready)
  {
    AsciiLowerIdempotent(message);
  }

  /** A message the filters read as Instagram or Facebook always goes to the
      enhanced system when it is ready. */
  lemma PlatformMessageIsEnhanced(message: string)
    requires ExtractFilters(message).platform in {Some("Instagram"), Some("Facebook")}
    ensures ShouldUseEnhancedRag(message, true)
  {
    var lower := AsciiLower(message);
    if Contains(lower, "instagram") {
      assert EnhancedKeywords[4] == "instagram";
    } else {
      assert Contains(lower, "facebook");
      assert EnhancedKeywords[5] == "facebook";
    }
  }

  // ---------------------------------------------------------------------
  // filters read off a message

  /** The first platform name the lowercased message mentions, in the
      service's order; any `x` counts as X. */
  function PlatformOf(lower: string): (r: Option<string>)
    ensures r.None? || r.value in {"Instagram", "Facebook", "TikTok", "X", "LAP"}
    ensures Contains(lower, "instagram") ==> r == Some("Instagram")
  {
    if Contains(lower, "instagram") then Some("Instagram")
    else if Contains(lower, "facebook") then Some("Facebook")
    else if Contains(lower, "tiktok") then Some("TikTok")
    else if Contains(lower, "x") || Contains(lower, "twitter") then Some("X")
    else if Contains(lower, "lap") then Some("LAP")
    else None
  }

  /** Any message with an `x` but none of the earlier names is read as X. */
  lemma AnyXIsX(lower: string)
    requires Contains(lower, "x")
    requires !Contains(lower, "instagram") && !Contains(lower, "facebook") && !Contains(lower, "tiktok")
    ensures PlatformOf(lower) == Some("X")
  {
  }

  /** A line terminator: `.` in a JavaScript pattern does not match these. */
  predicate LineEnd(c: char) {
    c == '\n' || c == '\r' || c == '\U{2028}' || c == '\U{2029}'
  }

  /** No line terminator in `s[p..q]`. */
  predicate SameLine(s: string, p: nat, q: nat)
    requires p <= q <= |s|
  {
    forall k :: p <= k < q ==> !LineEnd(s[k])
  }

  /** Where `.*?\d` stops from `p`: the first digit before the line ends. */
  function FirstDigitOnLine(s: string, p: nat): (r: Option<nat>)
    requires p <= |s|
    ensures r.Some? ==> p <= r.value < |s| && IsDigit(s[r.value]) && SameLine(s, p, r.value)
    ensures r.Some? ==> forall j :: p <= j < r.value ==> !IsDigit(s[j])
    ensures r.None? ==> forall j :: p <= j < |s| && SameLine(s, p, j) ==> !IsDigit(s[j])
    decreases |s| - p
  {
    if p == |s| || LineEnd(s[p]) then None
    else if IsDigit(s[p]) then Some(p)
    else FirstDigitOnLine(s, p + 1)
  }

  /** The number `(\d+)` captures after `.*?` from `p`, if any. */
  function NumberOnLine(s: string, p: nat): (r: Option<int>)
    requires p <= |s|
    ensures r.Some? ==> r.value >= 0
    ensures r.Some? <==> FirstDigitOnLine(s, p).Some?
  {
    match FirstDigitOnLine(s, p)
    case None => None
    case Some(q) => Some(DigitsValue(LeadingDigits(s[q..])) as int)
  }

  /** The marker occurs at `i` and a digit follows it on its line. */
  predicate Hit(s: string, marker: string, i: nat) {
    OccursAt(s, marker, i) && FirstDigitOnLine(s, i + |marker|).Some?
  }

  /** Where `/marker.*?(\d+)/` matches, searching from `from`: the leftmost
      occurrence of the marker that has a digit later on its line. */
  function MarkerHit(s: string, marker: string, from: nat): (r: Option<nat>)
    requires |marker| > 0
    ensures r.Some? ==> from <= r.value && Hit(s, marker, r.value)
    ensures r.Some? ==> forall j :: from <= j < r.value ==> !Hit(s, marker, j)
    ensures r.None? ==> forall j :: from <= j ==> !Hit(s, marker, j)
    decreases |s| - from
  {
    match IndexOfFrom(s, marker, from)
    case None => None
    case Some(i) =>
      if FirstDigitOnLine(s, i + |marker|).Some? then Some(i) else MarkerHit(s, marker, i + 1)
  }

  /** `s.match(/marker.*?(\d+)/i)`, its capture read with `parseInt`: the
      digit run that starts at the first digit after the hit. */
  function NumberAfter(s: string, marker: string): (r: Option<int>)
    requires |marker| > 0
    ensures r.Some? <==> exists i :: Hit(s, marker, i)
    ensures r.Some? ==> r.value >= 0
  {
    match MarkerHit(s, marker, 0)
    case None => None
    case Some(i) => NumberOnLine(s, i + |marker|)
  }

  /** The leftmost occurrence wins: when the first occurrence of the marker
      has a number on its line, that number is the value. */
  lemma FirstMarkerDecides(s: string, marker: string, i: nat)
    requires |marker| > 0
    requires IndexOf(s, marker) == Some(i)
    requires NumberOnLine(s, i + |marker|).Some?
    ensures NumberAfter(s, marker) == NumberOnLine(s, i + |marker|)
  {
    assert IndexOfFrom(s, marker, 0) == Some(i);
    assert MarkerHit(s, marker, 0) == Some(i);
  }

  /** `extractFilters(message)`: platform, the two thresholds, and the
      year-month range; nothing else is set. */
  function ExtractFilters(message: string): (f: SearchFilters)
    ensures f.genre.None? && f.advertiser.None? && f.limit.None?
    ensures f.platform.None? || f.platform.value in {"Instagram", "Facebook", "TikTok", "X", "LAP"}
    ensures f.minPlayCount.Some? ==> f.minPlayCount.value >= 0
    ensures f.minCost.Some? ==> f.minCost.value >= 0
    ensures f.dateRange.Some? <==> YearMonthsIn(message) != []
    // each field is the proved part it comes from
    ensures f.dateRange == RangeOf(message) && f.platform == PlatformOf(AsciiLower(message))
    ensures f.minPlayCount == NumberAfter(message, "再生数") && f.minCost == NumberAfter(message, "コスト")
  {
    SearchFilters(
      RangeOf(message),
      PlatformOf(AsciiLower(message)),
      None, None,
      NumberAfter(message, "再生数"),
      NumberAfter(message, "コスト"),
      None)
  }

  /** A message without digits sets neither threshold nor a range. */
  lemma NoDigitsNoNumbers(message: string)
    requires forall i :: 0 <= i < |message| ==> !IsDigit(message[i])
    ensures ExtractFilters(message).minPlayCount.None?
    ensures ExtractFilters(message).minCost.None?
    ensures ExtractFilters(message).dateRange.None?
  {
    NoDigitsNoMatch(message, 0);
    assert forall p :: 0 <= p <= |message| ==> FirstDigitOnLine(message, p).None?;
  }

  // ---------------------------------------------------------------------
  // sources and context

  /** `content.substring(0, 200) + '...'`. */
  function Preview(content: string): (r: string)
    ensures |r| == Min(200, |content|) + 3
    ensures |r| <= 203 && EndsWith(r, "...")
    ensures StartsWith(content, r[..|r| - 3])
  {
    var r := content[..Min(200, |content|)] + "...";
    assert r[..|r| - 3] == content[..Min(200, |content|)];
    assert r[|r| - 3..] == "...";
    r
  }

  function EnhancedSource(r: RagResult): SourceInfo {
    SourceInfo(r.source, Preview(r.content), r.platform, r.date)
  }

  /** The sources of the enhanced path: the first five results. */
  function EnhancedSources(results: seq<RagResult>): (r: seq<SourceInfo>)
    ensures |r| == Min(|results|, 5)
    ensures forall i :: 0 <= i < |r| ==> r[i] == EnhancedSource(results[i])
  {
    Map(results[..Min(|results|, 5)], EnhancedSource)
  }

  function LegacySource(d: TextDocument): SourceInfo {
    SourceInfo(d.source, Preview(d.pageContent), None, None)
  }

  function DocBlock(d: TextDocument): string {
    d.pageContent + "\n\n"
  }

  /** The context the basic path builds: every document followed by an
      empty line. */
  function ContextOf(docs: seq<TextDocument>): string {
    Flatten(Map(docs, DocBlock))
  }

  /** The loop of the basic path: the context and one source per document. */
  method LegacyContext(docs: seq<TextDocument>) returns (context: string, sources: seq<SourceInfo>)
    ensures context == ContextOf(docs)
    ensures sources == Map(docs, LegacySource)
  {
    context, sources := "", [];
    var i := 0;
    while i < |docs|
      invariant 0 <= i <= |docs|
      invariant context == ContextOf(docs[..i])
      invariant sources == Map(docs[..i], LegacySource)
    {
      MapPrefixStep(docs, i, DocBlock);
      MapStep(docs[..i], docs[i], LegacySource);
      FlattenStep(Map(docs[..i], DocBlock), DocBlock(docs[i]));
      context := context + DocBlock(docs[i]);
      sources := sources + [LegacySource(docs[i])];
      i := i + 1;
    }
    FullPrefix(docs);
  }

  /** Every document's text is part of the context. */
  lemma ContextHoldsEveryDoc(docs: seq<TextDocument>, i: nat)
    requires i < |docs|
    ensures Contains(ContextOf(docs), docs[i].pageContent)
  {
    var blocks := Map(docs, DocBlock);
    assert blocks == blocks[..i] + [blocks[i]] + blocks[i + 1..];
    FlattenAppend(blocks[..i] + [blocks[i]], blocks[i + 1..]);
    FlattenStep(blocks[..i], blocks[i]);
    var before, after := Flatten(blocks[..i]), Flatten(blocks[i + 1..]);
    assert ContextOf(docs) == before + docs[i].pageContent + ("\n\n" + after);
    ContainsMiddle(before, docs[i].pageContent, "\n\n" + after);
  }

  /** What the `try` block of `chat` yields: the answer and its sources, or
      `None` when something in it threw. */
  function Respond(message: string, b: Backends): (r: Option<(string, seq<SourceInfo>)>)
    ensures r.None? ==> ShouldUseEnhancedRag(message, b.enhancedReady)
    ensures r.Some? && ShouldUseEnhancedRag(message, b.enhancedReady) ==> |r.value.1| <= 5
    ensures r.Some? ==> forall i :: 0 <= i < |r.value.1| ==> |r.value.1[i].content| <= 203
    // each source is built from the i-th search result or retrieved document
    ensures r.Some? && ShouldUseEnhancedRag(message, b.enhancedReady) ==>
      var results := b.enhancedSearch(message, ExtractFilters(message));
      |r.value.1| <= |results| && forall i :: 0 <= i < |r.value.1| ==> r.value.1[i] == EnhancedSource(results[i])
    ensures r.Some? && !ShouldUseEnhancedRag(message, b.enhancedReady) ==>
      var docs := Rag.Search(b.hasVectorStore, b.found);
      |r.value.1| == |docs| && forall i :: 0 <= i < |docs| ==> r.value.1[i] == LegacySource(docs[i])
  {
    if ShouldUseEnhancedRag(message, b.enhancedReady) then
      var results := b.enhancedSearch(message, ExtractFilters(message));
      match b.enhancedAnswer(message, results)
      case None => None
      case Some(answer) => Some((answer, EnhancedSources(results)))
    else
      var docs := Rag.Search(b.hasVectorStore, b.found);
      Some((Rag.GenerateResponse(b.hasModel, message, ContextOf(docs), b.invoke), Map(docs, LegacySource)))
  }

  /** The `try` block of `chat` up to the answer, as the service runs it. */
  method Answer(message: string, b: Backends) returns (r: Option<(string, seq<SourceInfo>)>)
    ensures r == Respond(message, b)
  {
    if ShouldUseEnhancedRag(message, b.enhancedReady) {
      var filters := ExtractFilters(message);
      var results := b.enhancedSearch(message, filters);
      var answer := b.enhancedAnswer(message, results);
      if answer.None? {
        return None;
      }
      r := Some((answer.value, EnhancedSources(results)));
    } else {
      var docs := Rag.Search(b.hasVectorStore, b.found);
      var context, sources := LegacyContext(docs);
      r := Some((Rag.GenerateResponse(b.hasModel, message, context, b.invoke), sources));
    }
  }

  /** The first loop of `clearOldSessions`: the ids whose history is stale,
      in map order. */
  method StaleKeys(start: OMap<seq<SessionEntry>>, now: int, maxAgeMs: int) returns (removed: seq<string>)
    requires start.Valid()
    ensures removed == Filter(start.keys, StaleIn(start, now, maxAgeMs))
    ensures forall k :: k in removed <==> k in start.vals && Stale(start.vals[k], now, maxAgeMs)
  {
    removed := StaleScan(start.keys, start.vals, now, maxAgeMs);
    StaleExactly(start, now, maxAgeMs);
  }

  /** The loop itself, over the keys in map order. */
  method StaleScan(keys: seq<string>, vals: map<string, seq<SessionEntry>>, now: int, maxAgeMs: int)
    returns (removed: seq<string>)
    requires forall k :: k in keys ==> k in vals
    ensures removed == Filter(keys, StaleIn(OMap(keys, vals), now, maxAgeMs))
  {
    var stale := StaleIn(OMap(keys, vals), now, maxAgeMs);
    removed := [];
    var i := 0;
    while i < |keys|
      invariant 0 <= i <= |keys|
      invariant removed == Filter(keys[..i], stale)
    {
      var k := keys[i];
      FilterPrefixStep(keys, i, stale);
      assert k in vals;
      assert stale(k) == Stale(vals[k], now, maxAgeMs);
      if |vals[k]| > 0 {
        var history := vals[k];
        var lastActivity := history[|history| - 1].timestamp;
        if now - lastActivity > maxAgeMs {
          removed := removed + [k];
        }
      }
      i := i + 1;
    }
    FullPrefix(keys);
  }

  /** The stale keys in map order are exactly the sessions that are stale. */
  lemma StaleExactly(start: OMap<seq<SessionEntry>>, now: int, maxAgeMs: int)
    requires start.Valid()
    ensures forall k :: k in Filter(start.keys, StaleIn(start, now, maxAgeMs)) <==>
      k in start.vals && Stale(start.vals[k], now, maxAgeMs)
  {
    forall k
      ensures k in Filter(start.keys, StaleIn(start, now, maxAgeMs)) <==> StaleIn(start, now, maxAgeMs)(k)
    {
      FilterMembership(start.keys, StaleIn(start, now, maxAgeMs), k);
    }
  }

  /** `sessionId || uuidv4()`. */
  function SessionKey(sessionId: Option<string>, freshId: string): (r: string)
    ensures IsSet(sessionId) ==> r == sessionId.value
  {
    if IsSet(sessionId) then sessionId.value else freshId
  }

  /** The history stored under `id`, `[]` when there is none. */
  function HistoryOf(sessions: OMap<seq<SessionEntry>>, id: string): seq<SessionEntry> {
    if id in sessions.vals then sessions.vals[id] else []
  }

  /** The history is stale when its last entry is older than the age. */
  predicate Stale(h: seq<SessionEntry>, now: int, maxAgeMs: int) {
    |h| > 0 && now - h[|h| - 1].timestamp > maxAgeMs
  }

  function StaleIn(m: OMap<seq<SessionEntry>>, now: int, maxAgeMs: int): string -> bool {
    (k: string) => k in m.vals && Stale(m.vals[k], now, maxAgeMs)
  }

  function NotIn(ks: seq<string>): string -> bool {
    (k: string) => k !in ks
  }

  const DefaultMaxAgeHours := 24

  /** `maxAgeHours` with its default: `undefined`, written `None`, is 24. */
  function MaxAgeHours(maxAgeHours: Option<int>): (h: int)
    ensures maxAgeHours.None? ==> h == 24
    ensures maxAgeHours.Some? ==> h == maxAgeHours.value
  {
    if maxAgeHours.Some? then maxAgeHours.value else DefaultMaxAgeHours
  }

  /** `cur` is `start` with the keys in `removed` deleted: order, keys and
      values. */
  ghost predicate Pruned(start: OMap<seq<SessionEntry>>, cur: OMap<seq<SessionEntry>>, removed: seq<string>) {
    && cur.Valid()
    && cur.keys == Filter(start.keys, NotIn(removed))
    && (forall k :: k in cur.vals <==> k in start.vals && k !in removed)
    && (forall k :: k in cur.vals ==> cur.vals[k] == start.vals[k])
  }

  /** The deletions of `RemoveSessions`, one id at a time. */
  method Prune(start: OMap<seq<SessionEntry>>, ids: seq<string>) returns (cur: OMap<seq<SessionEntry>>)
    requires start.Valid()
    ensures Pruned(start, cur, ids)
  {
    cur := start;
    FilterAll(start.keys, NotIn([]));
    var j := 0;
    while j < |ids|
      invariant 0 <= j <= |ids|
      invariant Pruned(start, cur, ids[..j])
    {
      var k := ids[j];
      PrefixStep(ids, j);
      PrunedStep(start, cur, ids[..j], k);
      cur := cur.Remove(k);
      j := j + 1;
    }
    FullPrefix(ids);
  }

  /** Deleting one more key keeps `Pruned`. */
  lemma PrunedStep(start: OMap<seq<SessionEntry>>, cur: OMap<seq<SessionEntry>>, removed: seq<string>, k: string)
    requires Pruned(start, cur, removed)
    ensures Pruned(start, cur.Remove(k), removed + [k])
  {
    FilterFilter(start.keys, NotIn(removed), Other(k), NotIn(removed + [k]));
  }

  class ChatService {
    var sessions: OMap<seq<SessionEntry>>
    var initialized: bool

    ghost predicate Valid()
      reads this
    {
      sessions.Valid()
    }

    constructor()
      ensures Valid() && sessions == Empty() && !initialized
    {
      sessions := Empty();
      initialized := false;
    }

    /** `initialize()`: once initialized it answers true and does nothing
        else; otherwise it is initialized iff both loaders succeeded. */
    method Initialize(dataLoaded: bool, ragInitialized: bool) returns (ok: bool)
      modifies this
      ensures sessions == old(sessions)
      ensures old(initialized) ==> ok && initialized
      ensures !old(initialized) ==> initialized == (dataLoaded && ragInitialized) && ok == initialized
    {
      if initialized {
        return true;
      }
      initialized := dataLoaded && ragInitialized;
      ok := initialized;
    }

    /** `chat(message, sessionId)`. The session exists afterwards; a
        successful answer is appended to its history, an error appends
        nothing and comes back without sources. */
    method Chat(message: string, sessionId: Option<string>, freshId: string, now: int, b: Backends)
      returns (resp: ChatResponse)
      requires Valid()
      modifies this
      ensures Valid()
      ensures initialized == (old(initialized) || (b.dataLoaded && b.ragInitialized))
      ensures resp.sessionId == SessionKey(sessionId, freshId)
      ensures resp.sessionId in sessions.vals
      ensures var answer := Respond(message, b);
        && (answer.Some? ==>
              && resp == ChatResponse(answer.value.0, resp.sessionId, answer.value.1)
              && sessions == old(sessions).Put(resp.sessionId,
                   HistoryOf(old(sessions), resp.sessionId) + [SessionEntry(now, message, resp.message)]))
        && (answer.None? ==>
              && resp == ChatResponse(ErrorMessage, resp.sessionId, [])
              && sessions == old(sessions).Put(resp.sessionId, HistoryOf(old(sessions), resp.sessionId)))
      // no other session changes
      ensures forall k :: k != resp.sessionId ==>
        (k in sessions.vals <==> k in old(sessions.vals)) &&
        (k in sessions.vals ==> sessions.vals[k] == old(sessions.vals)[k])
    {
      if !initialized {
        var _ := Initialize(b.dataLoaded, b.ragInitialized);
      }
      var id := SessionKey(sessionId, freshId);
      ghost var start := sessions;
      OpenSession(id);
      var answer := Answer(message, b);
      if answer.None? {
        return ChatResponse(ErrorMessage, id, []);
      }
      var (message', sources) := answer.value;
      AppendEntry(id, SessionEntry(now, message, message'));
      PutTwice(start, id, HistoryOf(start, id), HistoryOf(start, id) + [SessionEntry(now, message, message')]);
      resp := ChatResponse(message', id, sources);
    }

    /** `if (!this.sessions.has(id)) this.sessions.set(id, [])`. */
    method OpenSession(id: string)
      requires Valid()
      modifies this
      ensures Valid() && initialized == old(initialized)
      ensures sessions == old(sessions).Put(id, HistoryOf(old(sessions), id))
    {
      if id !in sessions.vals {
        sessions := sessions.Put(id, []);
      } else {
        assert sessions.vals[id := sessions.vals[id]] == sessions.vals;
      }
    }

    /** `history.push(entry); this.sessions.set(id, history)`. */
    method AppendEntry(id: string, entry: SessionEntry)
      requires Valid() && id in sessions.vals
      modifies this
      ensures Valid() && initialized == old(initialized)
      ensures sessions == old(sessions).Put(id, HistoryOf(old(sessions), id) + [entry])
    {
      var history := HistoryOf(sessions, id);
      sessions := sessions.Put(id, history + [entry]);
    }

    /** `clearOldSessions(maxAgeHours = 24)`: every session whose last
        entry is older than the age is removed, the others stay as they
        were and in the same order; empty sessions always stay. Returns the
        ids removed. */
    method ClearOldSessions(maxAgeHours: Option<int>, now: int) returns (removed: seq<string>)
      requires Valid()
      modifies this
      ensures Valid() && initialized == old(initialized)
      ensures removed == Filter(old(sessions.keys), StaleIn(old(sessions), now, MaxAgeHours(maxAgeHours) * 3600000))
      ensures sessions.keys == Filter(old(sessions.keys), NotIn(removed))
      ensures forall k :: k in sessions.vals <==>
        k in old(sessions.vals) && !Stale(old(sessions.vals)[k], now, MaxAgeHours(maxAgeHours) * 3600000)
      ensures forall k :: k in sessions.vals ==> sessions.vals[k] == old(sessions.vals)[k]
    {
      var maxAgeMs := MaxAgeHours(maxAgeHours) * 60 * 60 * 1000;
      assert maxAgeMs == MaxAgeHours(maxAgeHours) * 3600000;
      removed := StaleKeys(sessions, now, maxAgeMs);
      RemoveSessions(removed);
    }

    /** The second loop of `clearOldSessions`: each id is deleted in turn. */
    method RemoveSessions(ids: seq<string>)
      requires Valid()
      modifies this
      ensures Valid() && initialized == old(initialized)
      ensures sessions.keys == Filter(old(sessions.keys), NotIn(ids))
      ensures forall k :: k in sessions.vals <==> k in old(sessions.vals) && k !in ids
      ensures forall k :: k in sessions.vals ==> sessions.vals[k] == old(sessions.vals)[k]
    {
      sessions := Prune(sessions, ids);
    }
  }
}

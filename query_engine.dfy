/**
 * The five-layer query engine: match a context frame (keywords first, then the
 * frame index), activate convictions, retrieve reasoning traces (spread over time for
 * questions about change), attach the identity core, trace back to the owner's own
 * words, and flag answers the records barely support.
 *
 * The vector store is outside the model: what its collections answer for the
 * question's embedding is given as a `VectorIndex`, with `None` standing for a
 * missing collection or a failed query.  Loading an owner's files is the function
 * `load`.  Prompt text and the language-model call are not modelled.
 */
module QueryEngine {
  import opened Wrappers
  import opened Models
  import Seqs
  import Strings

  // ================================================================ temporal questions

  const TemporalKeywords: seq<string> := [
    "變化", "改變", "以前", "之前", "最近", "一直", "演變", "轉變",
    "過去", "現在", "從前", "後來", "趨勢", "還是一樣", "不一樣了"]

  /** `any(kw in text for kw in kws)`. */
  function AnyKeyword(text: string, kws: seq<string>): (r: bool)
    ensures r <==> exists i :: 0 <= i < |kws| && Strings.Contains(text, kws[i])
  {
    if kws == [] then false
    else
      var r := Strings.Contains(text, kws[0]) || AnyKeyword(text, kws[1..]);
      assert r ==> exists i :: 0 <= i < |kws| && Strings.Contains(text, kws[i]) by {
        if !Strings.Contains(text, kws[0]) && r {
          var i :| 0 <= i < |kws[1..]| && Strings.Contains(text, kws[1..][i]);
          assert kws[i + 1] == kws[1..][i];
        }
      }
      assert (exists i :: 0 <= i < |kws| && Strings.Contains(text, kws[i])) ==> r by {
        if exists i :: 0 <= i < |kws| && Strings.Contains(text, kws[i]) {
          var i :| 0 <= i < |kws| && Strings.Contains(text, kws[i]);
          if i > 0 {
            assert kws[1..][i - 1] == kws[i];
          }
        }
      }
      r
  }

  /** `_is_temporal_query`: some temporal keyword occurs in the question. */
  predicate IsTemporal(question: string)
  {
    AnyKeyword(question, TemporalKeywords)
  }

  lemma TemporalExample()
    ensures IsTemporal("我最近的想法")
    ensures !IsTemporal("")
  {
    var q := "我最近的想法";
    assert q[1..3] == TemporalKeywords[4];
    assert Strings.OccursAt(q, TemporalKeywords[4], 1);
    forall i | 0 <= i < |TemporalKeywords| ensures !Strings.Contains("", TemporalKeywords[i]) {
      assert |TemporalKeywords[i]| > 0;
    }
  }

  // ================================================================ the per-owner cache

  /** An owner's loaded data: frames, convictions, traces and identities, in file order. */
  datatype Snapshot = Snapshot(
    frames: seq<Frame>, convictions: seq<Conviction>, traces: seq<Trace>, identities: seq<Identity>)

  /** A cache entry: the data and `conviction_map`, its convictions keyed by id. */
  datatype CacheEntry = CacheEntry(data: Snapshot, convictionMap: map<string, Conviction>)

  function EntryOf(s: Snapshot): (e: CacheEntry)
    ensures e.data == s
    ensures forall k :: k in e.convictionMap <==> exists i :: 0 <= i < |s.convictions| && s.convictions[i].convictionId == k
    ensures forall k :: k in e.convictionMap ==> e.convictionMap[k].convictionId == k
  {
    CacheEntry(s, KeyedBy(s.convictions, ConvictionId))
  }

  predicate WellKeyed(e: CacheEntry)
  {
    e.convictionMap == KeyedBy(e.data.convictions, ConvictionId)
  }

  /** The module-level `_cache`: one entry per owner, loaded on first use. */
  class QueryCache {
    var entries: map<string, CacheEntry>

    predicate Valid()
      reads this
    {
      forall o :: o in entries ==> WellKeyed(entries[o])
    }

    constructor()
      ensures Valid() && entries == map[]
    {
      entries := map[];
    }

    /**
     * `_get_cached`: an owner's entry is built from `load(owner)` only when absent, and
     * from then on returned as it is, whatever the files now hold.
     */
    method Get(owner: string, load: string -> Snapshot) returns (e: CacheEntry)
      requires Valid()
      modifies this
      ensures Valid()
      ensures owner in old(entries) ==> e == old(entries)[owner] && entries == old(entries)
      ensures owner !in old(entries) ==> e == EntryOf(load(owner)) && entries == old(entries)[owner := e]
      ensures WellKeyed(e)
    {
      if owner !in entries {
        entries := entries[owner := EntryOf(load(owner))];
      }
      e := entries[owner];
    }

    /** `invalidate_cache`: a non-empty owner id drops that owner only; `None` or "" clears all. */
    method Invalidate(owner: Option<string>)
      requires Valid()
      modifies this
      ensures Valid()
      ensures owner.Some? && owner.value != [] ==> entries == old(entries) - {owner.value}
      ensures owner.None? || owner.value == [] ==> entries == map[]
    {
      if owner.Some? && owner.value != [] {
        entries := entries - {owner.value};
      } else {
        entries := map[];
      }
    }
  }

  // ================================================================ frame matching

  /** How many of `kws` occur in the lower-cased question `ql`, each compared lower-cased. */
  function KeywordHits(kws: seq<string>, ql: string): (n: nat)
    ensures n <= |kws|
    ensures n == 0 <==> forall i :: 0 <= i < |kws| ==> !Strings.Contains(ql, Strings.Lower(kws[i]))
  {
    if kws == [] then 0
    else
      var k := |kws| - 1;
      var n := KeywordHits(kws[..k], ql) + (if Strings.Contains(ql, Strings.Lower(kws[k])) then 1 else 0);
      assert n == 0 <==> forall i :: 0 <= i < |kws| ==> !Strings.Contains(ql, Strings.Lower(kws[i])) by {
        assert forall i :: 0 <= i < k ==> kws[..k][i] == kws[i];
      }
      n
  }

  /** A trigger pattern contributes its keyword hits; one without keywords contributes none. */
  function PatternHits(p: TriggerPattern, ql: string): nat
  {
    if p.keywords.Some? then KeywordHits(p.keywords.value, ql) else 0
  }

  /** A frame's hits: the sum over its trigger patterns. */
  function FrameHits(ps: seq<TriggerPattern>, ql: string): (n: nat)
    ensures n == 0 <==> forall i :: 0 <= i < |ps| ==> PatternHits(ps[i], ql) == 0
  {
    if ps == [] then 0
    else
      var k := |ps| - 1;
      var n := FrameHits(ps[..k], ql) + PatternHits(ps[k], ql);
      assert forall i :: 0 <= i < k ==> ps[..k][i] == ps[i];
      n
  }

  function HitCounts(frames: seq<Frame>, ql: string): (hs: seq<nat>)
    ensures |hs| == |frames| && forall i :: 0 <= i < |frames| ==> hs[i] == FrameHits(frames[i].triggers, ql)
  {
    seq(|frames|, i requires 0 <= i < |frames| => FrameHits(frames[i].triggers, ql))
  }

  /**
   * The best-hits loop: the position of the first strictly greatest count, or `None`
   * when every count is zero.
   */
  function FirstBest(hs: seq<nat>): (r: Option<nat>)
    ensures r.None? <==> forall j :: 0 <= j < |hs| ==> hs[j] == 0
    ensures r.Some? ==> r.value < |hs| && hs[r.value] > 0
                        && (forall j :: 0 <= j < |hs| ==> hs[j] <= hs[r.value])
                        && (forall j :: 0 <= j < r.value ==> hs[j] < hs[r.value])
  {
    if hs == [] then None
    else
      var n := |hs| - 1;
      var p := FirstBest(hs[..n]);
      assert forall j :: 0 <= j < n ==> hs[..n][j] == hs[j];
      var best := if p.Some? then hs[p.value] else 0;
      if hs[n] > best then Some(n) else p
  }

  /** `_reflex_match`: the frame with the most keyword hits, the earliest on ties; none without hits. */
  function Reflexed(question: string, frames: seq<Frame>): (r: Option<Frame>)
  {
    match FirstBest(HitCounts(frames, Strings.Lower(question)))
    case None => None
    case Some(i) => Some(frames[i])
  }

  lemma ReflexFacts(question: string, frames: seq<Frame>)
    ensures var hs := HitCounts(frames, Strings.Lower(question));
            (Reflexed(question, frames).None? <==> forall j :: 0 <= j < |frames| ==> hs[j] == 0)
            && (Reflexed(question, frames).Some? ==>
                  exists i :: 0 <= i < |frames| && Reflexed(question, frames) == Some(frames[i]) && hs[i] > 0
                              && (forall j :: 0 <= j < |frames| ==> hs[j] <= hs[i])
                              && (forall j :: 0 <= j < i ==> hs[j] < hs[i]))
  {
  }

  method CountKeywordHits(kws: seq<string>, ql: string) returns (hits: nat)
    ensures hits == KeywordHits(kws, ql)
  {
    hits := 0;
    var i := 0;
    while i < |kws|
      invariant 0 <= i <= |kws|
      invariant hits == KeywordHits(kws[..i], ql)
    {
      assert kws[..i + 1][..i] == kws[..i];
      if Strings.Contains(ql, Strings.Lower(kws[i])) {
        hits := hits + 1;
      }
      i := i + 1;
    }
    assert kws[..i] == kws;
  }

  method CountFrameHits(f: Frame, ql: string) returns (hits: nat)
    ensures hits == FrameHits(f.triggers, ql)
  {
    hits := 0;
    var i := 0;
    while i < |f.triggers|
      invariant 0 <= i <= |f.triggers|
      invariant hits == FrameHits(f.triggers[..i], ql)
    {
      assert f.triggers[..i + 1][..i] == f.triggers[..i];
      var tp := f.triggers[i];
      if tp.keywords.Some? {
        var h := CountKeywordHits(tp.keywords.value, ql);
        hits := hits + h;
      }
      i := i + 1;
    }
    assert f.triggers[..i] == f.triggers;
  }

  method ReflexMatch(question: string, frames: seq<Frame>) returns (r: Option<Frame>)
    ensures r == Reflexed(question, frames)
  {
    var ql := Strings.Lower(question);
    ghost var hs := HitCounts(frames, ql);
    var best: Option<Frame> := None;
    var bestHits: nat := 0;
    ghost var at: Option<nat> := None;
    var i := 0;
    while i < |frames|
      invariant 0 <= i <= |frames|
      invariant at == FirstBest(hs[..i])
      invariant at.None? ==> best.None? && bestHits == 0
      invariant at.Some? ==> at.value < i && best == Some(frames[at.value]) && bestHits == hs[at.value]
    {
      assert hs[..i + 1][..i] == hs[..i];
      var hits := CountFrameHits(frames[i], ql);
      if hits > bestHits {
        bestHits := hits;
        best := Some(frames[i]);
        at := Some(i);
      }
      i := i + 1;
    }
    assert hs[..i] == hs;
    r := if bestHits >= 1 then best else None;
  }

  /** The frame index's nearest frame; a result without distances counts as distance 1. */
  datatype Nearest = Nearest(id: string, distance: Option<real>)

  function DistanceOf(n: Nearest): real
  {
    n.distance.GetOr(1.0)
  }

  /**
   * `_embedding_match_frame`: the nearest frame is taken only when it lies closer than
   * 0.7 and is one of the frames offered.
   */
  function EmbeddingMatch(frames: seq<Frame>, nearest: Option<Nearest>): (r: Option<Frame>)
    ensures r.Some? <==> frames != [] && nearest.Some? && DistanceOf(nearest.value) < 0.7
                         && exists i :: 0 <= i < |frames| && frames[i].frameId == nearest.value.id
    ensures r.Some? ==> r.value in frames && r.value.frameId == nearest.value.id
  {
    if frames == [] || nearest.None? then None
    else
      var m := KeyedBy(frames, FrameId);
      if DistanceOf(nearest.value) < 0.7 && nearest.value.id in m then
        KeyedByIn(frames, FrameId, nearest.value.id);
        Some(m[nearest.value.id])
      else None
  }

  // ================================================================ intent

  datatype Intent = QueryIntent | GenerateIntent(outputType: string)

  /** The generate keywords, in the order the types are tried. */
  const GenerateKeywords: seq<(string, seq<string>)> := [
    ("script", ["腳本", "script", "短影音腳本", "影片腳本"]),
    ("article", ["寫一篇", "幫我寫", "寫文章", "寫文", "撰寫", "產出文章", "寫稿"]),
    ("post", ["貼文", "發文", "社群貼文", "po文", "fb貼文", "ig貼文", "threads"]),
    ("decision", ["幫我決定", "該選哪個", "怎麼選", "決策分析", "幫我分析要不要"])]

  /** The first type one of whose keywords occurs in `t`. */
  function FirstType(t: string, table: seq<(string, seq<string>)>): (r: Intent)
    ensures r.QueryIntent? <==> forall i :: 0 <= i < |table| ==> !AnyKeyword(t, table[i].1)
    ensures r.GenerateIntent? ==> exists i :: 0 <= i < |table| && table[i].0 == r.outputType && AnyKeyword(t, table[i].1)
                                     && forall j :: 0 <= j < i ==> !AnyKeyword(t, table[j].1)
  {
    if table == [] then QueryIntent
    else if AnyKeyword(t, table[0].1) then GenerateIntent(table[0].0)
    else
      var r := FirstType(t, table[1..]);
      assert forall j :: 0 < j < |table| ==> table[j] == table[1..][j - 1];
      if r.GenerateIntent? then
        var i :| 0 <= i < |table[1..]| && table[1..][i].0 == r.outputType && AnyKeyword(t, table[1..][i].1)
                 && forall j :: 0 <= j < i ==> !AnyKeyword(t, table[1..][j].1);
        assert forall j :: 0 <= j < i + 1 ==> !AnyKeyword(t, table[j].1) by {
          forall j | 0 <= j < i + 1 ensures !AnyKeyword(t, table[j].1) {
            if j > 0 {
              assert table[j] == table[1..][j - 1];
            }
          }
        }
        r
      else
        r
  }

  /** `_classify_intent`: the first generate type with a keyword in the lower-cased text, else a query. */
  function ClassifyIntent(text: string): Intent
  {
    FirstType(Strings.Lower(text), GenerateKeywords)
  }

  /**
   * Type precedence: the text is classified as the first type one of whose keywords
   * occurs in it, whatever later types also match.
   */
  lemma IntentPrecedence(text: string, i: nat)
    requires i < |GenerateKeywords| && AnyKeyword(Strings.Lower(text), GenerateKeywords[i].1)
    requires forall j :: 0 <= j < i ==> !AnyKeyword(Strings.Lower(text), GenerateKeywords[j].1)
    ensures ClassifyIntent(text) == GenerateIntent(GenerateKeywords[i].0)
  {
    var t := Strings.Lower(text);
    var r := FirstType(t, GenerateKeywords);
    var k :| 0 <= k < |GenerateKeywords| && GenerateKeywords[k].0 == r.outputType && AnyKeyword(t, GenerateKeywords[k].1)
             && forall j :: 0 <= j < k ==> !AnyKeyword(t, GenerateKeywords[j].1);
    assert k == i;
  }

  /** An earlier type wins: a request holding both an article and a post keyword is an article. */
  lemma IntentOrder()
    ensures ClassifyIntent("幫我寫一篇貼文") == GenerateIntent("article")
  {
    var t := "幫我寫一篇貼文";
    assert Strings.Lower(t) == t;
    assert Strings.OccursAt(t, "寫一篇", 2);
    assert AnyKeyword(t, GenerateKeywords[1].1);
    assert !AnyKeyword(t, GenerateKeywords[0].1) by {
      forall i | 0 <= i < |GenerateKeywords[0].1| ensures !Strings.Contains(t, GenerateKeywords[0].1[i]) {
        NotContains(t, GenerateKeywords[0].1[i]);
      }
    }
  }

  lemma NotContains(t: string, kw: string)
    requires kw in ["腳本", "script", "短影音腳本", "影片腳本"] && t == "幫我寫一篇貼文"
    ensures !Strings.Contains(t, kw)
  {
    forall i | 0 <= i <= |t| - |kw| ensures !Strings.OccursAt(t, kw, i) {
      assert t[i..i + |kw|][0] == t[i];
    }
  }

  // ================================================================ confidence

  /** What one collection answers for the nearest item: missing collection, no items, or a distance. */
  datatype Probe = Missing | NoHits | Closest(distance: real)

  predicate Near(p: Probe)
  {
    p.Closest? && p.distance < 0.8
  }

  /**
   * `_check_low_confidence`: the conviction collection is probed, then the trace
   * collection; a close item ends the check negatively, and so does a missing
   * collection (the exception path).
   */
  function LowConfidence(convictions: Probe, traces: Probe): (r: bool)
    ensures r <==> !convictions.Missing? && !traces.Missing? && !Near(convictions) && !Near(traces)
  {
    if convictions.Missing? || Near(convictions) then false
    else if traces.Missing? || Near(traces) then false
    else true
  }

  // ================================================================ convictions and traces

  /** `[m[k] for k in ids if k in m]`. */
  function Mapped<V>(ids: seq<string>, m: map<string, V>): (r: seq<V>)
    ensures |r| <= |ids|
    ensures forall v :: v in r ==> exists k :: k in ids && k in m && m[k] == v
  {
    if ids == [] then []
    else
      var n := |ids| - 1;
      var r := Mapped(ids[..n], m) + (if ids[n] in m then [m[ids[n]]] else []);
      assert forall v :: v in r ==> exists k :: k in ids && k in m && m[k] == v by {
        forall v | v in r ensures exists k :: k in ids && k in m && m[k] == v {
          if v !in Mapped(ids[..n], m) {
            assert ids[n] in ids;
          } else {
            var k :| k in ids[..n] && k in m && m[k] == v;
            assert k in ids;
          }
        }
      }
      r
  }

  /** Sorting key for `sorted(..., key=lambda c: -c.strength.score)`. */
  function ByStrengthDesc(c: Conviction): Seqs.Rank
  {
    Seqs.Rank(-c.strength.score, 0.0)
  }

  /** The fallback: the `limit` strongest convictions of `conviction_map`. */
  function StrongestConvictions(convictions: seq<Conviction>, limit: nat): seq<Conviction>
  {
    Seqs.Take(Seqs.SortBy(DictValues(convictions, ConvictionId), ByStrengthDesc), limit)
  }

  /**
   * `_find_relevant_convictions`: the index's `limit` nearest convictions that are known,
   * or, when none is, the strongest ones.  `ranking` is the index's whole answer, nearest
   * first; `None` is a missing collection or a failed query.
   */
  function RelevantConvictions(ranking: Option<seq<string>>, convictions: seq<Conviction>, limit: nat): (r: seq<Conviction>)
    ensures |r| <= limit
  {
    var found := if ranking.Some? then Mapped(Seqs.Take(ranking.value, limit), KeyedBy(convictions, ConvictionId)) else [];
    if found != [] then found else StrongestConvictions(convictions, limit)
  }

  /** Every value `Mapped` looks up in a dictionary built from `items` is one of them. */
  lemma MappedIn<V>(ids: seq<string>, items: seq<V>, key: V -> string)
    ensures forall v :: v in Mapped(ids, KeyedBy(items, key)) ==> v in items
  {
    var m := KeyedBy(items, key);
    forall v | v in Mapped(ids, m) ensures v in items {
      var k :| k in ids && k in m && m[k] == v;
      KeyedByIn(items, key, k);
    }
  }

  /** Activated convictions are known ones. */
  lemma RelevantConvictionsKnown(ranking: Option<seq<string>>, convictions: seq<Conviction>, limit: nat)
    ensures forall c :: c in RelevantConvictions(ranking, convictions, limit) ==> c in convictions
  {
    DictValuesIn(convictions, ConvictionId);
    Seqs.TopOf(DictValues(convictions, ConvictionId), ByStrengthDesc, limit);
    if ranking.Some? {
      MappedIn(Seqs.Take(ranking.value, limit), convictions, ConvictionId);
    }
  }

  /**
   * The fallback is sorted by strength, takes `limit` of the owner's convictions (or all of
   * them), and no conviction it leaves out is stronger than one it keeps.
   */
  lemma StrongestConvictionsFacts(convictions: seq<Conviction>, limit: nat)
    ensures var r := StrongestConvictions(convictions, limit);
            var vals := DictValues(convictions, ConvictionId);
            Seqs.SortedBy(r, ByStrengthDesc)
            && |r| == (if limit < |vals| then limit else |vals|)
            && forall c, d :: c in vals && c !in r && d in r ==> c.strength.score <= d.strength.score
  {
    var vals := DictValues(convictions, ConvictionId);
    var s := Seqs.SortBy(vals, ByStrengthDesc);
    Seqs.TopOf(vals, ByStrengthDesc, limit);
    var r := Seqs.Take(s, limit);
    assert r == s[..|r|];
    forall c, d | c in vals && c !in r && d in r ensures c.strength.score <= d.strength.score {
      assert !Seqs.Below(ByStrengthDesc(c), ByStrengthDesc(d));
    }
  }

  /** Sorting key for `sorted(..., key=lambda t: t.source.date, reverse=True)`: stable, latest first. */
  function ByDateDesc(t: Trace): Seqs.Rank
  {
    Seqs.Rank(-(t.source.date as real), 0.0)
  }

  function ByDate(t: Trace): Seqs.Rank
  {
    Seqs.Rank(t.source.date as real, 0.0)
  }

  /** The frame's listed historical traces, `None` when it lists none. */
  function History(frame: Option<Frame>): (h: Option<seq<string>>)
    ensures h.Some? ==> h.value != []
  {
    if frame.Some? && frame.value.patterns.historicalTraces.Some? && frame.value.patterns.historicalTraces.value != []
    then frame.value.patterns.historicalTraces
    else None
  }

  /** `[t for tid, t in trace_map.items() if tid in set(hist)]`. */
  function HistoryTraces(traces: seq<Trace>, hist: seq<string>): (r: seq<Trace>)
    ensures forall t :: t in r ==> t in DictValues(traces, TraceId) && t.traceId in hist
  {
    Seqs.Filter(DictValues(traces, TraceId), (t: Trace) => t.traceId in hist)
  }

  /**
   * `_find_relevant_traces`: a frame with at least `limit` known historical traces gives
   * its first `limit`; else the index's nearest known traces; else the frame's (fewer)
   * historical traces; else the latest traces.
   */
  function RelevantTraces(frame: Option<Frame>, ranking: Option<seq<string>>, traces: seq<Trace>, limit: nat): (r: seq<Trace>)
    ensures |r| <= limit
    ensures var h := History(frame);
            h.Some? && |HistoryTraces(traces, h.value)| >= limit ==> r == HistoryTraces(traces, h.value)[..limit]
  {
    var h := History(frame);
    var ft := if h.Some? then HistoryTraces(traces, h.value) else [];
    if h.Some? && |ft| >= limit then Seqs.Take(ft, limit)
    else
      var found := if ranking.Some? then Mapped(Seqs.Take(ranking.value, limit), KeyedBy(traces, TraceId)) else [];
      if found != [] then found
      else if h.Some? then Seqs.Take(ft, limit)
      else Seqs.Take(Seqs.SortBy(DictValues(traces, TraceId), ByDateDesc), limit)
  }

  /** Every retrieved trace is one of the owner's traces. */
  lemma RelevantTracesKnown(frame: Option<Frame>, ranking: Option<seq<string>>, traces: seq<Trace>, limit: nat)
    ensures forall t :: t in RelevantTraces(frame, ranking, traces, limit) ==> t in traces
  {
    DictValuesIn(traces, TraceId);
    Seqs.TopOf(DictValues(traces, TraceId), ByDateDesc, limit);
    if ranking.Some? {
      MappedIn(Seqs.Take(ranking.value, limit), traces, TraceId);
    }
  }

  // ---------------------------------------------------------------- spread over time

  /** The temporal candidates: the index's nearest `3 * limit` known traces, or all traces when the query fails. */
  function TemporalCandidates(ranking: Option<seq<string>>, traces: seq<Trace>, limit: nat): seq<Trace>
  {
    var vals := DictValues(traces, TraceId);
    match ranking
    case None => vals
    case Some(ids) => Mapped(Seqs.Take(ids, if 3 * limit < |vals| then 3 * limit else |vals|), KeyedBy(traces, TraceId))
  }

  function Third(limit: nat): (t: nat)
    ensures t >= 1
  {
    if limit / 3 >= 1 then limit / 3 else 1
  }

  /**
   * `candidates[n // 3:2 * n // 3][:limit - 2 * third]`: a run of consecutive candidates
   * from `n / 3` that stops before `2 * n / 3`.
   */
  function Middle(c: seq<Trace>, limit: nat): (m: seq<Trace>)
    ensures |c| / 3 + |m| <= 2 * |c| / 3 && m == c[|c| / 3..|c| / 3 + |m|]
    ensures limit >= 2 * Third(limit) ==> |m| <= limit - 2 * Third(limit)
  {
    var n := |c|;
    var w := c[n / 3..2 * n / 3];
    var m := Seqs.PyPrefix(w, limit - 2 * Third(limit));
    assert m == w[..|m|];
    m
  }

  /**
   * The earliest third, a middle slice, and the latest third of the date-sorted
   * candidates `c`, when there are more than `limit`.
   */
  function Spread(c: seq<Trace>, limit: nat): (r: seq<Trace>)
  {
    var n := |c|;
    if n <= limit then c
    else
      var third := Third(limit);
      c[..third] + Middle(c, limit) + c[n - third..]
  }

  /** `_find_temporal_traces`. */
  function TemporalTraces(ranking: Option<seq<string>>, traces: seq<Trace>, limit: nat): seq<Trace>
  {
    var c := TemporalCandidates(ranking, traces, limit);
    if c == [] then [] else Spread(Seqs.SortBy(c, ByDate), limit)
  }

  /**
   * Up to `limit` candidates are all returned; beyond that the earliest and the latest
   * `third` are kept in front and at the back.
   */
  lemma SpreadEnds(c: seq<Trace>, limit: nat)
    ensures |c| <= limit ==> Spread(c, limit) == c
    ensures |c| > limit ==> var r := Spread(c, limit); var t := Third(limit);
              |r| >= 2 * t && r[..t] == c[..t] && r[|r| - t..] == c[|c| - t..]
  {
    var n := |c|;
    if n > limit {
      var t := Third(limit);
      var mid := Middle(c, limit);
      var r := c[..t] + mid + c[n - t..];
      assert r[..t] == c[..t];
      assert r[|r| - t..] == c[n - t..];
    }
  }

  /** Where position `i` of the spread comes from in the sorted candidates. */
  function Pos(n: nat, t: nat, m: nat, i: nat): int
  {
    if i < t then i else if i < t + m then n / 3 + (i - t) else n - t + (i - t - m)
  }

  /** Every position of the spread holds the candidate at `Pos`, and `Pos` is increasing. */
  lemma SpreadPositions(c: seq<Trace>, limit: nat)
    requires |c| > limit >= 3
    ensures var r := Spread(c, limit); var t := Third(limit); var m := |r| - 2 * t;
            m >= 0 && |r| <= limit && t <= |c| / 3 && |c| / 3 + m <= |c| - t
            && forall i :: 0 <= i < |r| ==> 0 <= Pos(|c|, t, m, i) < |c| && r[i] == c[Pos(|c|, t, m, i)]
  {
    var n := |c|;
    var t := Third(limit);
    var mid := Middle(c, limit);
    var r := c[..t] + mid + c[n - t..];
    assert t == limit / 3 && t <= n / 3;
    forall i | 0 <= i < |r| ensures 0 <= Pos(n, t, |mid|, i) < n && r[i] == c[Pos(n, t, |mid|, i)] {
      if t <= i < t + |mid| {
        assert r[i] == mid[i - t];
      }
    }
  }

  lemma PosIncreasing(n: nat, t: nat, m: nat, i: nat, j: nat)
    requires t <= n / 3 && n / 3 + m <= n - t && i < j < 2 * t + m
    ensures Pos(n, t, m, i) < Pos(n, t, m, j)
  {
  }

  /** For `limit >= 3` the spread has at most `limit` traces and stays in date order. */
  lemma SpreadSorted(c: seq<Trace>, limit: nat)
    requires Seqs.SortedBy(c, ByDate)
    requires |c| > limit >= 3
    ensures |Spread(c, limit)| <= limit && Seqs.SortedBy(Spread(c, limit), ByDate)
  {
    var r := Spread(c, limit);
    var t := Third(limit);
    var m := |r| - 2 * t;
    SpreadPositions(c, limit);
    forall i, j | 0 <= i < j < |r| ensures !Seqs.Below(ByDate(r[j]), ByDate(r[i])) {
      PosIncreasing(|c|, t, m, i, j);
      assert r[i] == c[Pos(|c|, t, m, i)] && r[j] == c[Pos(|c|, t, m, j)];
    }
  }

  lemma SpreadWithin(c: seq<Trace>, limit: nat, x: Trace)
    requires x in Spread(c, limit)
    ensures x in c
  {
    var n := |c|;
    if n > limit {
      var t := Third(limit);
      var mid := Middle(c, limit);
      assert t <= n;
      InParts(c, t, n / 3, mid, x);
    }
  }

  /** A member of three slices of `c` is a member of `c`. */
  lemma InParts(c: seq<Trace>, t: nat, k: nat, mid: seq<Trace>, x: Trace)
    requires t <= |c| && k + |mid| <= |c| && mid == c[k..k + |mid|]
    requires x in c[..t] + mid + c[|c| - t..]
    ensures x in c
  {
    var r := c[..t] + mid + c[|c| - t..];
    var i :| 0 <= i < |r| && r[i] == x;
    if i < t {
      assert c[i] == x;
    } else if i < t + |mid| {
      assert mid[i - t] == x;
      assert c[k + i - t] == x;
    } else {
      assert c[|c| - t + (i - t - |mid|)] == x;
    }
  }

  /**
   * Temporal traces are owner traces; for `limit >= 3` there are at most `limit` of them,
   * in date order.
   */
  lemma TemporalTracesFacts(ranking: Option<seq<string>>, traces: seq<Trace>, limit: nat)
    ensures forall t :: t in TemporalTraces(ranking, traces, limit) ==> t in traces
    ensures limit >= 3 ==> |TemporalTraces(ranking, traces, limit)| <= limit
                           && Seqs.SortedBy(TemporalTraces(ranking, traces, limit), ByDate)
  {
    var c := TemporalCandidates(ranking, traces, limit);
    DictValuesIn(traces, TraceId);
    if ranking.Some? {
      MappedIn(Seqs.Take(ranking.value, if 3 * limit < |DictValues(traces, TraceId)| then 3 * limit else |DictValues(traces, TraceId)|), traces, TraceId);
    }
    if c != [] {
      var s := Seqs.SortBy(c, ByDate);
      SpreadEnds(s, limit);
      if |s| > limit >= 3 {
        SpreadSorted(s, limit);
      }
      forall t | t in Spread(s, limit) ensures t in traces {
        SpreadWithin(s, limit, t);
        Seqs.InMultiset(s, c, t);
      }
    }
  }

  // ================================================================ the owner's own words

  /** `item.signal_ids[:2]` for every evidence item that has ids: persistence and cross-context ones. */
  function EvidenceIds(e: Evidence): (r: seq<string>)
  {
    PersistenceIds(e.persistence.GetOr([])) + CrossContextIds(e.crossContext.GetOr([]))
  }

  function PersistenceIds(ps: seq<Persistence>): seq<string>
  {
    if ps == [] then [] else var n := |ps| - 1; PersistenceIds(ps[..n]) + Seqs.Take(ps[n].signalIds, 2)
  }

  function CrossContextIds(cs: seq<CrossContext>): seq<string>
  {
    if cs == [] then [] else var n := |cs| - 1; CrossContextIds(cs[..n]) + Seqs.Take(cs[n].signalIds, 2)
  }

  /** The id gathering loop, stopping after the conviction that brings the list to `2 * max`. */
  function Gathered(cs: seq<Conviction>, acc: seq<string>, max: nat): seq<string>
  {
    if cs == [] then acc
    else
      var a := acc + EvidenceIds(cs[0].evidence);
      if |a| >= 2 * max then a else Gathered(cs[1..], a, max)
  }

  /** The ids asked for: gathered, first occurrences only, at most `max`. */
  function RequestedIds(cs: seq<Conviction>, max: nat): seq<string>
  {
    Seqs.Take(Seqs.Dedup(Gathered(cs, [], max)), max)
  }

  /**
   * `_collect_raw_signals`: the documents of the requested ids, as `fetch` returns them
   * (`None`: the store failed).  No ids, no request.
   */
  function RawSignals(cs: seq<Conviction>, max: nat, fetch: seq<string> -> Option<seq<string>>): seq<string>
  {
    if Gathered(cs, [], max) == [] then []
    else match fetch(RequestedIds(cs, max)) case None => [] case Some(docs) => docs
  }

  /** What a conviction can contribute: the first two ids of one of its persistence or cross-context items. */
  predicate Contributes(c: Conviction, id: string)
  {
    (exists p :: p in c.evidence.persistence.GetOr([]) && id in Seqs.Take(p.signalIds, 2))
    || (exists x :: x in c.evidence.crossContext.GetOr([]) && id in Seqs.Take(x.signalIds, 2))
  }

  lemma {:induction false} PersistenceIdsFrom(ps: seq<Persistence>, id: string)
    requires id in PersistenceIds(ps)
    ensures exists p :: p in ps && id in Seqs.Take(p.signalIds, 2)
  {
    var n := |ps| - 1;
    if id !in Seqs.Take(ps[n].signalIds, 2) {
      PersistenceIdsFrom(ps[..n], id);
      var p :| p in ps[..n] && id in Seqs.Take(p.signalIds, 2);
      assert p in ps;
    }
  }

  lemma {:induction false} CrossContextIdsFrom(xs: seq<CrossContext>, id: string)
    requires id in CrossContextIds(xs)
    ensures exists x :: x in xs && id in Seqs.Take(x.signalIds, 2)
  {
    var n := |xs| - 1;
    if id !in Seqs.Take(xs[n].signalIds, 2) {
      CrossContextIdsFrom(xs[..n], id);
      var x :| x in xs[..n] && id in Seqs.Take(x.signalIds, 2);
      assert x in xs;
    }
  }

  lemma {:induction false} GatheredFrom(cs: seq<Conviction>, acc: seq<string>, max: nat, id: string)
    requires id in Gathered(cs, acc, max)
    ensures id in acc || exists c :: c in cs && Contributes(c, id)
  {
    if cs != [] {
      var e := cs[0].evidence;
      var a := acc + EvidenceIds(e);
      if id !in acc && id in EvidenceIds(e) {
        if id in PersistenceIds(e.persistence.GetOr([])) {
          PersistenceIdsFrom(e.persistence.GetOr([]), id);
        } else {
          CrossContextIdsFrom(e.crossContext.GetOr([]), id);
        }
        assert Contributes(cs[0], id);
      } else if |a| < 2 * max && id !in acc {
        GatheredFrom(cs[1..], a, max, id);
        if exists c :: c in cs[1..] && Contributes(c, id) {
          var c :| c in cs[1..] && Contributes(c, id);
          assert c in cs;
        }
      }
    }
  }

  /** At most `max` distinct ids are asked for, each contributed by an activated conviction. */
  lemma RequestedIdsFacts(cs: seq<Conviction>, max: nat)
    ensures |RequestedIds(cs, max)| <= max && Seqs.Distinct(RequestedIds(cs, max))
    ensures forall id :: id in RequestedIds(cs, max) ==> exists c :: c in cs && Contributes(c, id)
  {
    var d := Seqs.Dedup(Gathered(cs, [], max));
    var r := Seqs.Take(d, max);
    assert r == d[..|r|];
    forall id | id in r ensures exists c :: c in cs && Contributes(c, id) {
      assert id in d;
      GatheredFrom(cs, [], max, id);
    }
  }

  // ---------------------------------------------------------------- the loops

  method CollectEvidenceIds(e: Evidence) returns (ids: seq<string>)
    ensures ids == EvidenceIds(e)
  {
    ids := [];
    var ps := e.persistence.GetOr([]);
    var i := 0;
    while i < |ps|
      invariant 0 <= i <= |ps|
      invariant ids == PersistenceIds(ps[..i])
    {
      assert ps[..i + 1][..i] == ps[..i];
      ids := ids + Seqs.Take(ps[i].signalIds, 2);
      i := i + 1;
    }
    assert ps[..i] == ps;
    var xs := e.crossContext.GetOr([]);
    ghost var front := ids;
    var j := 0;
    while j < |xs|
      invariant 0 <= j <= |xs|
      invariant ids == front + CrossContextIds(xs[..j])
    {
      assert xs[..j + 1][..j] == xs[..j];
      ids := ids + Seqs.Take(xs[j].signalIds, 2);
      j := j + 1;
    }
    assert xs[..j] == xs;
  }

  /** The gathering loop with its `break`. */
  method GatherIds(cs: seq<Conviction>, max: nat) returns (ids: seq<string>)
    ensures ids == Gathered(cs, [], max)
  {
    ids := [];
    var i := 0;
    while i < |cs|
      invariant 0 <= i <= |cs|
      invariant Gathered(cs[i..], ids, max) == Gathered(cs, [], max)
    {
      assert cs[i..][1..] == cs[i + 1..];
      var more := CollectEvidenceIds(cs[i].evidence);
      ids := ids + more;
      if |ids| >= 2 * max {
        return;
      }
      i := i + 1;
    }
  }

  /** The order-keeping de-duplication loop with its `seen` set. */
  method Unique(ids: seq<string>) returns (r: seq<string>)
    ensures r == Seqs.Dedup(ids)
  {
    var seen: set<string> := {};
    r := [];
    var i := 0;
    while i < |ids|
      invariant 0 <= i <= |ids|
      invariant r == Seqs.Dedup(ids[..i])
      invariant seen == set x | x in r
    {
      assert ids[..i + 1][..i] == ids[..i];
      if ids[i] !in seen {
        seen := seen + {ids[i]};
        r := r + [ids[i]];
      }
      i := i + 1;
    }
    assert ids[..i] == ids;
  }

  method CollectRawSignals(cs: seq<Conviction>, max: nat, fetch: seq<string> -> Option<seq<string>>)
    returns (docs: seq<string>)
    ensures docs == RawSignals(cs, max, fetch)
  {
    var ids := GatherIds(cs, max);
    if ids == [] {
      return [];
    }
    var unique := Unique(ids);
    var answer := fetch(Seqs.Take(unique, max));
    docs := if answer.Some? then answer.value else [];
  }

  // ================================================================ the pipeline

  /**
   * What the vector store answers for the question's embedding: the frame index's
   * nearest frame, the conviction and trace collections' rankings (nearest first, whole),
   * their probes for the confidence check, and fetching documents by id.
   */
  datatype VectorIndex = VectorIndex(
    frameNearest: Option<Nearest>,
    convictionRanking: Option<seq<string>>,
    traceRanking: Option<seq<string>>,
    convictionProbe: Probe,
    traceProbe: Probe,
    fetch: seq<string> -> Option<seq<string>>)

  /** `QueryContext` without the response text, which only the language model writes. */
  datatype QueryContext = QueryContext(
    question: string,
    caller: Option<string>,
    matchedFrame: Option<Frame>,
    matchMethod: string,
    activated: seq<Conviction>,
    traces: seq<Trace>,
    identities: seq<Identity>,
    rawSignals: seq<string>,
    lowConfidence: bool,
    isTemporal: bool)

  /** `max_signals` of `_collect_raw_signals`. */
  const MaxRawSignals: nat := 6

  function PrimaryIds(f: Frame): (ids: seq<string>)
    ensures |ids| == |f.profile.primary|
    ensures forall i :: 0 <= i < |ids| ==> ids[i] == f.profile.primary[i].convictionId
  {
    seq(|f.profile.primary|, i requires 0 <= i < |f.profile.primary| => f.profile.primary[i].convictionId)
  }

  function ActiveFrames(frames: seq<Frame>): seq<Frame>
  {
    Seqs.Filter(frames, FrameIsActive)
  }

  /** Step 1: the reflex match over the active frames, else the frame index's. */
  function MatchedFrame(frames: seq<Frame>, question: string, nearest: Option<Nearest>): Option<Frame>
  {
    var active := ActiveFrames(frames);
    var reflex := Reflexed(question, active);
    if reflex.Some? then reflex else EmbeddingMatch(active, nearest)
  }

  /** Step 2: the matched frame's primary convictions that are known, else the index's. */
  function Activated(e: CacheEntry, matched: Option<Frame>, ranking: Option<seq<string>>, limit: nat): seq<Conviction>
  {
    var fromFrame := if matched.Some? then Mapped(PrimaryIds(matched.value), e.convictionMap) else [];
    if fromFrame != [] then fromFrame else RelevantConvictions(ranking, e.data.convictions, limit)
  }

  /** `_run_five_layer_pipeline`. */
  function Pipeline(e: CacheEntry, question: string, caller: Option<string>, ix: VectorIndex,
                    convictionLimit: nat, traceLimit: nat): QueryContext
  {
    var active := ActiveFrames(e.data.frames);
    var reflex := Reflexed(question, active);
    var matched := MatchedFrame(e.data.frames, question, ix.frameNearest);
    var how := if reflex.Some? then "reflex" else if matched.Some? then "embedding" else "";
    var activated := Activated(e, matched, ix.convictionRanking, convictionLimit);
    var temporal := IsTemporal(question);
    var traces := if temporal then TemporalTraces(ix.traceRanking, e.data.traces, traceLimit)
                  else RelevantTraces(matched, ix.traceRanking, e.data.traces, traceLimit);
    QueryContext(question, caller, matched, how, activated, traces, e.data.identities,
                 RawSignals(activated, MaxRawSignals, ix.fetch),
                 LowConfidence(ix.convictionProbe, ix.traceProbe), temporal)
  }

  /** The frame-driven activation loop: `[map[id] for id in ids if id in map]`. */
  method ActivateFromFrame(ids: seq<string>, m: map<string, Conviction>) returns (r: seq<Conviction>)
    ensures r == Mapped(ids, m)
  {
    r := [];
    var i := 0;
    while i < |ids|
      invariant 0 <= i <= |ids|
      invariant r == Mapped(ids[..i], m)
    {
      assert ids[..i + 1][..i] == ids[..i];
      if ids[i] in m {
        r := r + [m[ids[i]]];
      }
      i := i + 1;
    }
    assert ids[..i] == ids;
  }

  /** Layers 1 and 2: reflex match, else the embedding match; `embedded` says whether the question was embedded. */
  method MatchStep(frames: seq<Frame>, question: string, nearest: Option<Nearest>)
    returns (matched: Option<Frame>, how: string, embedded: bool)
    ensures matched == MatchedFrame(frames, question, nearest)
    ensures how == if Reflexed(question, ActiveFrames(frames)).Some? then "reflex" else if matched.Some? then "embedding" else ""
    ensures embedded <==> Reflexed(question, ActiveFrames(frames)).None?
  {
    var active := ActiveFrames(frames);
    matched, how, embedded := None, "", false;
    var reflex := ReflexMatch(question, active);
    if reflex.Some? {
      matched, how := reflex, "reflex";
    }
    if matched.None? {
      embedded := true;
      var m := EmbeddingMatch(active, nearest);
      if m.Some? {
        matched, how := m, "embedding";
      }
    }
  }

  /** Step 2: the frame's convictions, else the index's. */
  method ActivateStep(e: CacheEntry, matched: Option<Frame>, ranking: Option<seq<string>>, limit: nat,
                      embedded0: bool, embeddings0: nat)
    returns (activated: seq<Conviction>, embedded: bool, embeddings: nat)
    requires embeddings0 == if embedded0 then 1 else 0
    ensures activated == Activated(e, matched, ranking, limit)
    ensures embedded0 ==> embedded
    ensures embeddings == if embedded then 1 else 0
  {
    activated, embedded, embeddings := [], embedded0, embeddings0;
    if matched.Some? {
      activated := ActivateFromFrame(PrimaryIds(matched.value), e.convictionMap);
    }
    if activated == [] {
      if !embedded {
        embedded, embeddings := true, embeddings + 1;
      }
      activated := RelevantConvictions(ranking, e.data.convictions, limit);
    }
  }

  /**
   * The pipeline, step by step as the source runs it.  `embeddings` counts the calls
   * that embed the question: whatever path is taken, exactly one.
   */
  method RunPipeline(e: CacheEntry, question: string, caller: Option<string>, ix: VectorIndex,
                     convictionLimit: nat, traceLimit: nat)
    returns (ctx: QueryContext, embeddings: nat)
    ensures ctx == Pipeline(e, question, caller, ix, convictionLimit, traceLimit)
    ensures embeddings == 1
  {
    ctx := QueryContext(question, caller, None, "", [], [], [], [], false, false);
    var matched, how, embedded := MatchStep(e.data.frames, question, ix.frameNearest);
    embeddings := if embedded then 1 else 0;
    ctx := ctx.(matchedFrame := matched, matchMethod := how);
    var activated;
    activated, embedded, embeddings := ActivateStep(e, matched, ix.convictionRanking, convictionLimit, embedded, embeddings);
    ctx := ctx.(activated := activated);
    if !embedded {
      embedded, embeddings := true, 1;
    }
    ctx := ctx.(isTemporal := IsTemporal(question));
    if ctx.isTemporal {
      ctx := ctx.(traces := TemporalTraces(ix.traceRanking, e.data.traces, traceLimit));
    } else {
      ctx := ctx.(traces := RelevantTraces(ctx.matchedFrame, ix.traceRanking, e.data.traces, traceLimit));
    }

    ctx := ctx.(identities := e.data.identities);
    var raw := CollectRawSignals(ctx.activated, MaxRawSignals, ix.fetch);
    ctx := ctx.(rawSignals := raw);
    ctx := ctx.(lowConfidence := LowConfidence(ix.convictionProbe, ix.traceProbe));
  }

  /**
   * "reflex" exactly when an active frame's keywords hit, "embedding" exactly when none
   * did and the frame index matched; the matched frame is always an active frame.
   */
  lemma PipelineMatch(e: CacheEntry, question: string, caller: Option<string>, ix: VectorIndex, cl: nat, tl: nat)
    ensures var ctx := Pipeline(e, question, caller, ix, cl, tl);
            var active := ActiveFrames(e.data.frames);
            (ctx.matchMethod == "reflex" <==> Reflexed(question, active).Some?)
            && (ctx.matchMethod == "embedding" <==> Reflexed(question, active).None? && EmbeddingMatch(active, ix.frameNearest).Some?)
            && (ctx.matchMethod == "" <==> ctx.matchedFrame.None?)
            && (ctx.matchedFrame.Some? ==> ctx.matchedFrame.value in e.data.frames && FrameIsActive(ctx.matchedFrame.value))
  {
    var active := ActiveFrames(e.data.frames);
    ReflexFacts(question, active);
  }

  /**
   * Activated convictions, retrieved traces and identities all come from the owner's
   * cached records; the question's temporal keywords decide the retrieval path, at most
   * `tl` traces come back (on the temporal path for `tl >= 3`), and low confidence is
   * the two probes' verdict.
   */
  lemma PipelineGrounded(e: CacheEntry, question: string, caller: Option<string>, ix: VectorIndex, cl: nat, tl: nat)
    requires WellKeyed(e)
    ensures var ctx := Pipeline(e, question, caller, ix, cl, tl);
            (forall c :: c in ctx.activated ==> c in e.data.convictions)
            && (forall t :: t in ctx.traces ==> t in e.data.traces)
            && ctx.identities == e.data.identities
            && ctx.isTemporal == IsTemporal(question)
            && (!ctx.isTemporal ==> |ctx.traces| <= tl)
            && (ctx.isTemporal && tl >= 3 ==> |ctx.traces| <= tl)
            && ctx.lowConfidence == LowConfidence(ix.convictionProbe, ix.traceProbe)
  {
    var matched := MatchedFrame(e.data.frames, question, ix.frameNearest);
    RelevantConvictionsKnown(ix.convictionRanking, e.data.convictions, cl);
    if matched.Some? {
      MappedIn(PrimaryIds(matched.value), e.data.convictions, ConvictionId);
    }
    RelevantTracesKnown(matched, ix.traceRanking, e.data.traces, tl);
    TemporalTracesFacts(ix.traceRanking, e.data.traces, tl);
  }

  /** The raw signals are the store's answer for at most six distinct ids the activated convictions contribute. */
  lemma PipelineRawSignals(e: CacheEntry, question: string, caller: Option<string>, ix: VectorIndex, cl: nat, tl: nat)
    ensures var ctx := Pipeline(e, question, caller, ix, cl, tl);
            var ids := RequestedIds(ctx.activated, MaxRawSignals);
            |ids| <= MaxRawSignals && Seqs.Distinct(ids)
            && (forall id :: id in ids ==> exists c :: c in ctx.activated && Contributes(c, id))
            && (Gathered(ctx.activated, [], MaxRawSignals) != [] && ix.fetch(ids).Some? ==> ctx.rawSignals == ix.fetch(ids).value)
  {
    var ctx := Pipeline(e, question, caller, ix, cl, tl);
    RequestedIdsFacts(ctx.activated, MaxRawSignals);
  }
}

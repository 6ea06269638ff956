/**
 * The explorer's aggregations over an owner's records: a topic's related convictions,
 * traces, frames and tensions (explore), the drift of convictions and reasoning styles
 * over time (evolution), blind spots (say-do gaps, one-directional convictions and
 * topics, contradictions, reasoning-style inertia), and the hidden links between two
 * topics (connections).
 *
 * What the vector store answers for a topic's embedding is given: the conviction
 * collection's hits with their distances, the trace collection's ranking, `None` for a
 * missing collection or a failed query.  Loading files and the language-model call of
 * `simulate` are not modelled.
 */
module Explorer {
  import opened Wrappers
  import opened Models
  import Seqs
  import Calendar
  import QueryEngine

  type Nearest = QueryEngine.Nearest

  /** Distances at or beyond this are not related. */
  const MaxDistance: real := 0.8

  predicate Close(h: Nearest)
  {
    QueryEngine.DistanceOf(h) < MaxDistance
  }

  /** The hits of a query with `n_results = n`; a failed query has none. */
  function Hits<T(!new)>(answer: Option<seq<T>>, n: nat): (r: seq<T>)
    ensures |r| <= n
    ensures forall x :: x in r ==> answer.Some? && x in answer.value
  {
    if answer.None? then [] else var r := Seqs.Take(answer.value, n); assert r == answer.value[..|r|]; r
  }

  /** The identifiers a frame activates. */
  function PrimarySet(f: Frame): set<string>
  {
    set a | a in f.profile.primary :: a.convictionId
  }

  /** How a tension reads: both statements (the bare id when the other is unknown). */
  datatype TensionView = TensionView(a: string, b: string, relationship: Relation, note: Option<string>)

  function OpposingName(m: map<string, Conviction>, id: string): string
  {
    if id in m then m[id].statement else id
  }

  function ViewOf(c: Conviction, t: Tension, m: map<string, Conviction>): TensionView
  {
    TensionView(c.statement, OpposingName(m, t.opposing), t.relationship, t.note)
  }

  // ================================================================ explore

  const ExploreConvictionHits: nat := 10
  const ExploreTraceHits: nat := 10
  const ExploreRawSignals: nat := 6

  /** A related conviction and its distance to the topic. */
  datatype Related = Related(conviction: Conviction, distance: real)

  /** How relevant a related conviction is (before rounding to two places). */
  function Relevance(x: Related): real
  {
    1.0 - x.distance
  }

  predicate HitFor(hits: seq<Nearest>, m: map<string, Conviction>, x: Related)
  {
    exists h :: h in hits && h.id in m && Close(h) && x == Related(m[h.id], QueryEngine.DistanceOf(h))
  }

  /** The known convictions among the hits, with their distances, that lie closer than 0.8. */
  function NearConvictions(hits: seq<Nearest>, m: map<string, Conviction>): (r: seq<Related>)
    ensures |r| <= |hits|
    ensures forall x :: x in r <==> HitFor(hits, m, x)
  {
    if hits == [] then []
    else
      var n := |hits| - 1;
      var h := hits[n];
      var r := NearConvictions(hits[..n], m)
               + (if h.id in m && Close(h) then [Related(m[h.id], QueryEngine.DistanceOf(h))] else []);
      assert forall x :: x in r <==> HitFor(hits, m, x) by {
        forall x | x in r ensures HitFor(hits, m, x) {
          if x in NearConvictions(hits[..n], m) {
            var g :| g in hits[..n] && g.id in m && Close(g) && x == Related(m[g.id], QueryEngine.DistanceOf(g));
            assert g in hits;
          } else {
            assert h in hits;
          }
        }
        forall x | HitFor(hits, m, x) ensures x in r {
          var g :| g in hits && g.id in m && Close(g) && x == Related(m[g.id], QueryEngine.DistanceOf(g));
          if g != h {
            var i :| 0 <= i < |hits| && hits[i] == g;
            assert g in hits[..n] by { assert i < n && hits[..n][i] == g; }
            assert HitFor(hits[..n], m, x);
          }
        }
      }
      r
  }

  function RelatedIds(rs: seq<Related>): set<string>
  {
    set x | x in rs :: x.conviction.convictionId
  }

  /** The frames one of whose primary convictions is among `ids`. */
  function FramesTouching(frames: seq<Frame>, ids: set<string>): (r: seq<Frame>)
    ensures forall f :: f in r <==> f in frames && exists a :: a in f.profile.primary && a.convictionId in ids
  {
    var r := Seqs.Filter(frames, (f: Frame) => PrimarySet(f) * ids != {});
    assert forall f :: f in r <==> f in frames && exists a :: a in f.profile.primary && a.convictionId in ids by {
      forall f ensures f in r <==> f in frames && exists a :: a in f.profile.primary && a.convictionId in ids {
        if f in frames && exists a :: a in f.profile.primary && a.convictionId in ids {
          var a :| a in f.profile.primary && a.convictionId in ids;
          assert a.convictionId in PrimarySet(f) * ids;
        }
        if f in r {
          var k :| k in PrimarySet(f) * ids;
        }
      }
    }
    r
  }

  predicate ViewFrom(rs: seq<Related>, m: map<string, Conviction>, v: TensionView)
  {
    exists x, t :: x in rs && t in TensionsOf(x.conviction) && v == ViewOf(x.conviction, t, m)
  }

  function ViewsOf(c: Conviction, m: map<string, Conviction>): (r: seq<TensionView>)
    ensures |r| == |TensionsOf(c)|
    ensures forall i :: 0 <= i < |r| ==> r[i] == ViewOf(c, TensionsOf(c)[i], m)
  {
    seq(|TensionsOf(c)|, i requires 0 <= i < |TensionsOf(c)| => ViewOf(c, TensionsOf(c)[i], m))
  }

  /** Every tension of every related conviction, in order. */
  function RelatedTensions(rs: seq<Related>, m: map<string, Conviction>): (r: seq<TensionView>)
    ensures forall v :: v in r <==> ViewFrom(rs, m, v)
  {
    var ss := seq(|rs|, i requires 0 <= i < |rs| => ViewsOf(rs[i].conviction, m));
    var r := Seqs.Flatten(ss);
    assert forall v :: v in r <==> ViewFrom(rs, m, v) by {
      forall v ensures v in r <==> ViewFrom(rs, m, v) {
        if v in r {
          var i :| 0 <= i < |ss| && v in ss[i];
          var k :| 0 <= k < |ss[i]| && ss[i][k] == v;
          assert rs[i] in rs && TensionsOf(rs[i].conviction)[k] in TensionsOf(rs[i].conviction);
        }
        if ViewFrom(rs, m, v) {
          var x, t :| x in rs && t in TensionsOf(x.conviction) && v == ViewOf(x.conviction, t, m);
          var i :| 0 <= i < |rs| && rs[i] == x;
          var k :| 0 <= k < |TensionsOf(x.conviction)| && TensionsOf(x.conviction)[k] == t;
          assert ss[i][k] == v;
        }
      }
    }
    r
  }

  /** `explore` at `depth="lite"` reports the related convictions only. */
  datatype Explored =
    | Lite(convictions: seq<Related>)
    | Full(convictions: seq<Related>, traces: seq<Trace>, frames: seq<Frame>,
           tensions: seq<TensionView>, rawSignals: seq<Signal>)

  /**
   * `explore`: `convictionHits` and `traceRanking` are the collections' answers, and
   * `recalled` what recalling the topic's own words returns.
   */
  function Explore(full: bool, convictionHits: Option<seq<Nearest>>, traceRanking: Option<seq<string>>,
                   convictions: seq<Conviction>, traces: seq<Trace>, frames: seq<Frame>,
                   recalled: seq<Signal>): Explored
  {
    var m := KeyedBy(convictions, ConvictionId);
    var related := NearConvictions(Hits(convictionHits, ExploreConvictionHits), m);
    if !full then Lite(related)
    else
      Full(related,
           QueryEngine.Mapped(Hits(traceRanking, ExploreTraceHits), KeyedBy(traces, TraceId)),
           FramesTouching(frames, RelatedIds(related)),
           RelatedTensions(related, m),
           Seqs.Take(recalled, ExploreRawSignals))
  }

  /**
   * Every related conviction is a known one closer than 0.8 (relevance above 0.2) among
   * the first ten hits, and every such hit is reported; a frame is reported exactly when
   * it activates a related conviction; the tensions are exactly those of the related
   * convictions; traces are known ones among the first ten hits.
   */
  lemma ExploreFacts(full: bool, convictionHits: Option<seq<Nearest>>, traceRanking: Option<seq<string>>,
                     convictions: seq<Conviction>, traces: seq<Trace>, frames: seq<Frame>, recalled: seq<Signal>)
    ensures var e := Explore(full, convictionHits, traceRanking, convictions, traces, frames, recalled);
            var m := KeyedBy(convictions, ConvictionId);
            var hits := Hits(convictionHits, ExploreConvictionHits);
            (forall x :: x in e.convictions ==> x.conviction in convictions && x.distance < MaxDistance && Relevance(x) > 0.2)
            && (forall x :: x in e.convictions <==> HitFor(hits, m, x))
            && (e.Full? ==>
                  (forall f :: f in e.frames <==> f in frames && exists a :: a in f.profile.primary && a.convictionId in RelatedIds(e.convictions))
                  && (forall v :: v in e.tensions <==> ViewFrom(e.convictions, m, v))
                  && (forall t :: t in e.traces ==> t in traces)
                  && |e.traces| <= ExploreTraceHits && |e.rawSignals| <= ExploreRawSignals)
  {
    var m := KeyedBy(convictions, ConvictionId);
    var hits := Hits(convictionHits, ExploreConvictionHits);
    var related := NearConvictions(hits, m);
    forall x | x in related ensures x.conviction in convictions {
      var h :| h in hits && h.id in m && Close(h) && x == Related(m[h.id], QueryEngine.DistanceOf(h));
      KeyedByIn(convictions, ConvictionId, h.id);
    }
    QueryEngine.MappedIn(Hits(traceRanking, ExploreTraceHits), traces, TraceId);
  }

  // ================================================================ connections

  const ConnectionHits: nat := 8

  /** `_find_conviction_ids`: the close hits' ids, known or not. */
  function CloseIds(answer: Option<seq<Nearest>>): (ids: set<string>)
    ensures forall id :: id in ids <==> exists h :: h in Hits(answer, ConnectionHits) && Close(h) && h.id == id
  {
    set h | h in Hits(answer, ConnectionHits) && Close(h) :: h.id
  }

  /** `_find_trace_ids`. */
  function RankedIds(answer: Option<seq<string>>): (ids: set<string>)
    ensures forall id :: id in ids <==> id in Hits(answer, ConnectionHits)
  {
    set id | id in Hits(answer, ConnectionHits)
  }

  function FrameIdsTouching(frames: seq<Frame>, ids: set<string>): set<string>
  {
    set f | f in frames && PrimarySet(f) * ids != {} :: f.frameId
  }

  /** A frame id is collected iff some frame with that id activates one of `ids`. */
  lemma FrameIdsTouchingIff(frames: seq<Frame>, ids: set<string>)
    ensures forall fid :: fid in FrameIdsTouching(frames, ids) <==>
              exists f :: f in frames && f.frameId == fid && PrimarySet(f) * ids != {}
  {
    forall fid | fid in FrameIdsTouching(frames, ids)
      ensures exists f :: f in frames && f.frameId == fid && PrimarySet(f) * ids != {}
    {
      var f :| f in frames && PrimarySet(f) * ids != {} && f.frameId == fid;
    }
  }

  function SetOf(s: seq<string>): set<string>
  {
    set x | x in s
  }

  /** A tension from a conviction of topic A to one of topic B. */
  datatype Link = Link(a: string, b: string, relationship: Relation)

  function LinkOf(c: Conviction, t: Tension, m: map<string, Conviction>): Link
  {
    Link(c.statement, OpposingName(m, t.opposing), t.relationship)
  }

  function LinksFrom(c: Conviction, idsB: set<string>, m: map<string, Conviction>): (r: seq<Link>)
    ensures forall l :: l in r <==> exists t :: t in TensionsOf(c) && t.opposing in idsB && l == LinkOf(c, t, m)
  {
    var toB := (t: Tension) => t.opposing in idsB;
    var link := (t: Tension) => LinkOf(c, t, m);
    Seqs.KeepIff(TensionsOf(c), toB, link);
    Seqs.Keep(TensionsOf(c), toB, link)
  }

  /** `l` is a tension of the known conviction `id` towards an id of `idsB`. */
  predicate LinkVia(id: string, idsB: set<string>, m: map<string, Conviction>, l: Link)
  {
    id in m && exists t :: t in TensionsOf(m[id]) && t.opposing in idsB && l == LinkOf(m[id], t, m)
  }

  predicate LinkFrom(idsA: set<string>, idsB: set<string>, m: map<string, Conviction>, l: Link)
  {
    exists id :: id in idsA && LinkVia(id, idsB, m, l)
  }

  /**
   * The tension links, walking topic A's ids in `order`: the order in which the set
   * `ids_a` happens to be iterated.
   */
  function TensionLinks(order: seq<string>, idsB: set<string>, m: map<string, Conviction>): seq<Link>
  {
    if order == [] then []
    else
      var n := |order| - 1;
      TensionLinks(order[..n], idsB, m) + (if order[n] in m then LinksFrom(m[order[n]], idsB, m) else [])
  }

  /** The links are exactly the tensions from a known id of `order` to an id of topic B. */
  lemma TensionLinksIff(order: seq<string>, idsB: set<string>, m: map<string, Conviction>)
    ensures forall l :: l in TensionLinks(order, idsB, m) <==> LinkFrom(SetOf(order), idsB, m, l)
  {
    forall l ensures l in TensionLinks(order, idsB, m) <==> LinkFrom(SetOf(order), idsB, m, l) {
      TensionLinksHas(order, idsB, m, l);
    }
  }

  lemma {:induction false} TensionLinksHas(order: seq<string>, idsB: set<string>, m: map<string, Conviction>, l: Link)
    ensures l in TensionLinks(order, idsB, m) <==> LinkFrom(SetOf(order), idsB, m, l)
  {
    if order != [] {
      var n := |order| - 1;
      TensionLinksHas(order[..n], idsB, m, l);
      var rest := TensionLinks(order[..n], idsB, m);
      var here := if order[n] in m then LinksFrom(m[order[n]], idsB, m) else [];
      assert TensionLinks(order, idsB, m) == rest + here;
      if l in rest {
        var id :| id in SetOf(order[..n]) && LinkVia(id, idsB, m, l);
        assert id in order[..n];
        assert id in SetOf(order);
      }
      if l in here {
        assert LinkVia(order[n], idsB, m, l);
        assert order[n] in SetOf(order);
      }
      if LinkFrom(SetOf(order), idsB, m, l) {
        var id :| id in SetOf(order) && LinkVia(id, idsB, m, l);
        if id != order[n] {
          var i :| 0 <= i < |order| && order[i] == id;
          assert order[..n][i] == id;
          assert id in SetOf(order[..n]);
        }
      }
    }
  }

  /** What `connections` finds between topic A and topic B. */
  datatype Connection = Connection(
    sharedConvictions: set<string>, listedConvictions: set<string>,
    sharedTraces: set<string>, listedTraces: set<string>,
    sharedFrames: set<string>, links: seq<Link>)

  /**
   * `connections`: `orderA` is the iteration order of topic A's conviction ids.  Shared
   * convictions and traces are counted whether or not they are known, and listed only
   * when they are.
   */
  function Connections(convictions: seq<Conviction>, traces: seq<Trace>, frames: seq<Frame>,
                       convictionsA: Option<seq<Nearest>>, convictionsB: Option<seq<Nearest>>,
                       tracesA: Option<seq<string>>, tracesB: Option<seq<string>>,
                       orderA: seq<string>): Connection
    requires SetOf(orderA) == CloseIds(convictionsA)
  {
    var m := KeyedBy(convictions, ConvictionId);
    var tm := KeyedBy(traces, TraceId);
    var a, b := CloseIds(convictionsA), CloseIds(convictionsB);
    var shared := a * b;
    var sharedTraces := RankedIds(tracesA) * RankedIds(tracesB);
    Connection(shared, (set id | id in shared && id in m),
               sharedTraces, (set id | id in sharedTraces && id in tm),
               FrameIdsTouching(frames, a) * FrameIdsTouching(frames, b),
               TensionLinks(orderA, b, m))
  }

  /**
   * A shared conviction is a close hit for both topics, and it is listed iff it is known;
   * a shared trace is a hit for both topics.
   */
  lemma ConnectionsShared(convictions: seq<Conviction>, traces: seq<Trace>, frames: seq<Frame>,
                          convictionsA: Option<seq<Nearest>>, convictionsB: Option<seq<Nearest>>,
                          tracesA: Option<seq<string>>, tracesB: Option<seq<string>>, orderA: seq<string>)
    requires SetOf(orderA) == CloseIds(convictionsA)
    ensures var c := Connections(convictions, traces, frames, convictionsA, convictionsB, tracesA, tracesB, orderA);
            (forall id :: id in c.sharedConvictions <==>
               (exists h :: h in Hits(convictionsA, ConnectionHits) && Close(h) && h.id == id)
               && (exists h :: h in Hits(convictionsB, ConnectionHits) && Close(h) && h.id == id))
            && (forall id :: id in c.listedConvictions <==>
                  id in c.sharedConvictions && exists i :: 0 <= i < |convictions| && convictions[i].convictionId == id)
            && (forall id :: id in c.sharedTraces <==> id in Hits(tracesA, ConnectionHits) && id in Hits(tracesB, ConnectionHits))
  {
  }

  /** A shared frame id belongs to a frame touching topic A and to a frame touching topic B. */
  lemma ConnectionsFrames(convictions: seq<Conviction>, traces: seq<Trace>, frames: seq<Frame>,
                          convictionsA: Option<seq<Nearest>>, convictionsB: Option<seq<Nearest>>,
                          tracesA: Option<seq<string>>, tracesB: Option<seq<string>>, orderA: seq<string>)
    requires SetOf(orderA) == CloseIds(convictionsA)
    ensures var c := Connections(convictions, traces, frames, convictionsA, convictionsB, tracesA, tracesB, orderA);
            forall fid :: fid in c.sharedFrames <==>
              (exists f :: f in frames && f.frameId == fid && PrimarySet(f) * CloseIds(convictionsA) != {})
              && (exists f :: f in frames && f.frameId == fid && PrimarySet(f) * CloseIds(convictionsB) != {})
  {
    SharedFrames(frames, CloseIds(convictionsA), CloseIds(convictionsB));
  }

  /** A link is exactly a tension from a known conviction of topic A to a conviction of topic B. */
  lemma ConnectionsLinks(convictions: seq<Conviction>, traces: seq<Trace>, frames: seq<Frame>,
                         convictionsA: Option<seq<Nearest>>, convictionsB: Option<seq<Nearest>>,
                         tracesA: Option<seq<string>>, tracesB: Option<seq<string>>, orderA: seq<string>)
    requires SetOf(orderA) == CloseIds(convictionsA)
    ensures var c := Connections(convictions, traces, frames, convictionsA, convictionsB, tracesA, tracesB, orderA);
            forall l :: l in c.links <==> LinkFrom(CloseIds(convictionsA), CloseIds(convictionsB), KeyedBy(convictions, ConvictionId), l)
  {
    TensionLinksIff(orderA, CloseIds(convictionsB), KeyedBy(convictions, ConvictionId));
  }

  /** The frame ids collected for both topics. */
  lemma SharedFrames(frames: seq<Frame>, a: set<string>, b: set<string>)
    ensures forall fid :: fid in FrameIdsTouching(frames, a) * FrameIdsTouching(frames, b) <==>
              (exists f :: f in frames && f.frameId == fid && PrimarySet(f) * a != {})
              && (exists f :: f in frames && f.frameId == fid && PrimarySet(f) * b != {})
  {
    FrameIdsTouchingIff(frames, a);
    FrameIdsTouchingIff(frames, b);
  }

  // ================================================================ evolution

  const EvolutionConvictionHits: nat := 8
  const EvolutionTraceHits: nat := 15

  /** One line of the strength snapshot file: its date and the strengths recorded then. */
  datatype StrengthSnapshot = StrengthSnapshot(date: string, strengths: map<string, real>)

  datatype Point = Point(date: string, strength: real)

  /** The snapshots that recorded conviction `cid`. */
  function Recorded(snaps: seq<StrengthSnapshot>, cid: string): seq<StrengthSnapshot>
  {
    Seqs.Filter(snaps, (s: StrengthSnapshot) => cid in s.strengths)
  }

  /** A conviction's strength history: one point per snapshot that recorded it, in file order. */
  function HistoryOf(snaps: seq<StrengthSnapshot>, cid: string): (r: seq<Point>)
    ensures |r| == |Recorded(snaps, cid)|
    ensures forall i :: 0 <= i < |r| ==>
              r[i] == Point(Recorded(snaps, cid)[i].date, Recorded(snaps, cid)[i].strengths[cid])
  {
    if snaps == [] then []
    else
      var n := |snaps| - 1;
      HistoryOf(snaps[..n], cid)
      + (if cid in snaps[n].strengths then [Point(snaps[n].date, snaps[n].strengths[cid])] else [])
  }

  /** The ids of the known convictions among the close hits, in hit order. */
  function CloseKnownIds(hits: seq<Nearest>, m: map<string, Conviction>): (r: seq<string>)
    ensures forall id :: id in r ==> id in m
    ensures forall id :: id in r <==> id in m && exists h :: h in hits && Close(h) && h.id == id
  {
    var known := (h: Nearest) => Close(h) && h.id in m;
    var id := (h: Nearest) => h.id;
    Seqs.KeepIff(hits, known, id);
    Seqs.Keep(hits, known, id)
  }

  datatype Timeline = Timeline(
    convictionId: string, statement: string, score: real, level: Level, trend: Option<Trend>,
    firstDetected: Calendar.Day, history: seq<Point>)

  function TimelineOf(c: Conviction, snaps: seq<StrengthSnapshot>): Timeline
  {
    Timeline(c.convictionId, c.statement, c.strength.score, c.strength.level, c.strength.trend,
             c.lifecycle.firstDetected, HistoryOf(snaps, c.convictionId))
  }

  /** One month of reasoning: the most common style and each style's count. */
  datatype PeriodStyle = PeriodStyle(period: int, dominant: Style, counts: seq<(Style, nat)>)

  datatype Evolution = Evolution(convictions: seq<Timeline>, traces: seq<Trace>, styles: seq<PeriodStyle>)

  /** `t.source.date[:7]` for each trace: the month as `year * 100 + month`. */
  function MonthsOf(ts: seq<Trace>): (r: seq<int>)
    ensures |r| == |ts|
  {
    seq(|ts|, i requires 0 <= i < |ts| => Calendar.MonthKey(ts[i].source.date))
  }

  function StylesOf(ts: seq<Trace>): (r: seq<Style>)
    ensures |r| == |ts|
  {
    seq(|ts|, i requires 0 <= i < |ts| => ts[i].path.style)
  }

  function ByPeriod(k: int): Seqs.Rank
  {
    Seqs.Rank(k as real, 0.0)
  }

  /** The months in ascending order, each once. */
  function Periods(keys: seq<int>): seq<int>
  {
    Seqs.SortBy(Seqs.Dedup(keys), ByPeriod)
  }

  function PeriodStyleFrom(p: int, styles: seq<Style>): PeriodStyle
    requires styles != []
  {
    PeriodStyle(p, Seqs.Mode(styles), Seqs.CounterOf(styles))
  }

  /** Month `p`'s entry, for the months `keys` and the styles `vals` of the same traces. */
  function PeriodStyleOf(keys: seq<int>, vals: seq<Style>, p: int): PeriodStyle
    requires |keys| == |vals| && p in keys
  {
    var ss := Seqs.Select(keys, vals, p);
    assert |ss| > 0;
    PeriodStyleFrom(p, ss)
  }

  /** The entries of the months `ps`, in that order. */
  function PeriodsRead(ps: seq<int>, keys: seq<int>, vals: seq<Style>): (r: seq<PeriodStyle>)
    requires |keys| == |vals| && forall p :: p in ps ==> p in keys
    ensures |r| == |ps|
  {
    if ps == [] then []
    else
      var n := |ps| - 1;
      assert ps[n] in ps;
      PeriodsRead(ps[..n], keys, vals) + [PeriodStyleOf(keys, vals, ps[n])]
  }

  function PeriodStyles(keys: seq<int>, vals: seq<Style>): seq<PeriodStyle>
    requires |keys| == |vals|
  {
    var ps := Periods(keys);
    assert forall p :: p in ps ==> p in keys by {
      forall p | p in ps ensures p in keys {
        Seqs.InMultiset(ps, Seqs.Dedup(keys), p);
      }
    }
    PeriodsRead(ps, keys, vals)
  }

  /** The style evolution: per month, ascending, the most common style and the counts. */
  function StylePeriods(ts: seq<Trace>): seq<PeriodStyle>
  {
    PeriodStyles(MonthsOf(ts), StylesOf(ts))
  }

  /** One timeline per id, in order. */
  function Timelines(ids: seq<string>, m: map<string, Conviction>, snaps: seq<StrengthSnapshot>): (r: seq<Timeline>)
    requires forall id :: id in ids ==> id in m
    ensures |r| == |ids| && forall j :: 0 <= j < |ids| ==> r[j] == TimelineOf(m[ids[j]], snaps)
  {
    seq(|ids|, i requires 0 <= i < |ids| => TimelineOf(m[ids[i]], snaps))
  }

  /** `evolution`: `snaps` are the snapshot file's lines in order. */
  function EvolutionOf(convictionHits: Option<seq<Nearest>>, traceRanking: Option<seq<string>>,
                       convictions: seq<Conviction>, traces: seq<Trace>, snaps: seq<StrengthSnapshot>): Evolution
  {
    var m := KeyedBy(convictions, ConvictionId);
    var ids := CloseKnownIds(Hits(convictionHits, EvolutionConvictionHits), m);
    var ts := Seqs.SortBy(QueryEngine.Mapped(Hits(traceRanking, EvolutionTraceHits), KeyedBy(traces, TraceId)), QueryEngine.ByDate);
    Evolution(Timelines(ids, m, snaps), ts, StylePeriods(ts))
  }

  /** Months come out strictly ascending, and every month of a trace comes out. */
  lemma PeriodsFacts(keys: seq<int>)
    ensures var ps := Periods(keys);
            (forall i, j :: 0 <= i < j < |ps| ==> ps[i] < ps[j])
            && (forall p :: p in ps <==> p in keys)
  {
    var d := Seqs.Dedup(keys);
    var ps := Periods(keys);
    Seqs.DistinctOnce(d);
    forall i, j | 0 <= i < j < |ps| ensures ps[i] < ps[j] {
      assert !Seqs.Below(ByPeriod(ps[j]), ByPeriod(ps[i]));
      if ps[i] == ps[j] {
        Seqs.MultisetTwoPositions(ps, i, j);
        assert false;
      }
    }
    forall p ensures p in ps <==> p in keys {
      Seqs.InMultiset(ps, d, p);
    }
  }

  /**
   * Each month's dominant style is the style of one of that month's traces, and no
   * style of that month occurs more often.
   */
  lemma PeriodStyleFacts(ts: seq<Trace>, p: int)
    requires p in MonthsOf(ts)
    ensures var e := PeriodStyleOf(MonthsOf(ts), StylesOf(ts), p);
            var ss := Seqs.Select(MonthsOf(ts), StylesOf(ts), p);
            (exists k :: 0 <= k < |ts| && Calendar.MonthKey(ts[k].source.date) == p && ts[k].path.style == e.dominant)
            && (forall y :: y in ss ==> Seqs.Count(ss, y) <= Seqs.Count(ss, e.dominant))
  {
    var keys, vals := MonthsOf(ts), StylesOf(ts);
    var e := PeriodStyleOf(keys, vals, p);
    Seqs.SelectHas(keys, vals, p, e.dominant);
    var k :| 0 <= k < |ts| && keys[k] == p && vals[k] == e.dominant;
  }

  /** The trace timeline is sorted by date and holds known traces. */
  lemma EvolutionTraces(traceRanking: Option<seq<string>>, traces: seq<Trace>)
    ensures var ts := Seqs.SortBy(QueryEngine.Mapped(Hits(traceRanking, EvolutionTraceHits), KeyedBy(traces, TraceId)), QueryEngine.ByDate);
            Seqs.SortedBy(ts, QueryEngine.ByDate) && forall t :: t in ts ==> t in traces
  {
    var found := QueryEngine.Mapped(Hits(traceRanking, EvolutionTraceHits), KeyedBy(traces, TraceId));
    QueryEngine.MappedIn(Hits(traceRanking, EvolutionTraceHits), traces, TraceId);
    var ts := Seqs.SortBy(found, QueryEngine.ByDate);
    forall t | t in ts ensures t in traces {
      Seqs.InMultiset(ts, found, t);
    }
  }

  /**
   * Each timeline belongs to a known conviction among the close hits, with one point per
   * snapshot recording it.
   */
  lemma EvolutionTimelines(convictionHits: Option<seq<Nearest>>, traceRanking: Option<seq<string>>,
                           convictions: seq<Conviction>, traces: seq<Trace>, snaps: seq<StrengthSnapshot>)
    ensures var ev := EvolutionOf(convictionHits, traceRanking, convictions, traces, snaps);
            forall x :: x in ev.convictions ==>
              (exists c :: c in convictions && c.convictionId == x.convictionId && x == TimelineOf(c, snaps))
              && (exists h :: h in Hits(convictionHits, EvolutionConvictionHits) && Close(h) && h.id == x.convictionId)
              && |x.history| == |Recorded(snaps, x.convictionId)|
  {
    var m := KeyedBy(convictions, ConvictionId);
    var ids := CloseKnownIds(Hits(convictionHits, EvolutionConvictionHits), m);
    var ev := EvolutionOf(convictionHits, traceRanking, convictions, traces, snaps);
    forall x | x in ev.convictions
      ensures exists c :: c in convictions && c.convictionId == x.convictionId && x == TimelineOf(c, snaps)
    {
      var i :| 0 <= i < |ids| && ev.convictions[i] == x;
      KeyedByIn(convictions, ConvictionId, ids[i]);
    }
  }

  // ---------------------------------------------------------------- evolution, step by step

  method CollectHistory(snaps: seq<StrengthSnapshot>, cid: string) returns (r: seq<Point>)
    ensures r == HistoryOf(snaps, cid)
  {
    r := [];
    var i := 0;
    while i < |snaps|
      invariant 0 <= i <= |snaps|
      invariant r == HistoryOf(snaps[..i], cid)
    {
      assert snaps[..i + 1][..i] == snaps[..i];
      if cid in snaps[i].strengths {
        r := r + [Point(snaps[i].date, snaps[i].strengths[cid])];
      }
      i := i + 1;
    }
    assert snaps[..i] == snaps;
  }

  /** The `style_by_period` dict built in one pass, then read in ascending month order. */
  method CollectStylePeriods(ts: seq<Trace>) returns (r: seq<PeriodStyle>)
    ensures r == StylePeriods(ts)
  {
    var keys, vals := MonthsOf(ts), StylesOf(ts);
    var order, members := Seqs.GroupInto(keys, vals);
    Seqs.GroupedIsPartition(keys, vals);
    var ps := Seqs.SortBy(order, ByPeriod);
    PeriodsFacts(keys);
    r := ReadPeriods(keys, vals, ps, members);
  }

  lemma PeriodsReadSnoc(ps: seq<int>, keys: seq<int>, vals: seq<Style>, i: int)
    requires |keys| == |vals| && forall p :: p in ps ==> p in keys
    requires 0 <= i < |ps|
    ensures ps[i] in keys
    ensures PeriodsRead(ps[..i + 1], keys, vals) == PeriodsRead(ps[..i], keys, vals) + [PeriodStyleOf(keys, vals, ps[i])]
  {
    var p := ps[i];
    assert p in ps;
    assert ps[..i + 1][..i] == ps[..i];
  }

  /** One step of that loop: month `p`'s group, read from the grouped map. */
  method ReadPeriod(keys: seq<int>, vals: seq<Style>, p: int, members: map<int, seq<Style>>)
    returns (entry: PeriodStyle)
    requires |keys| == |vals| && p in keys
    requires p in members && members[p] == Seqs.Select(keys, vals, p)
    ensures entry == PeriodStyleOf(keys, vals, p)
  {
    var styles := members[p];
    entry := PeriodStyleFrom(p, styles);
  }

  /** The loop over `sorted(style_by_period.keys())`. */
  method ReadPeriods(keys: seq<int>, vals: seq<Style>, ps: seq<int>, members: map<int, seq<Style>>)
    returns (r: seq<PeriodStyle>)
    requires |keys| == |vals|
    requires forall p :: p in ps ==> p in keys
    requires forall p :: p in ps ==> p in members && members[p] == Seqs.Select(keys, vals, p)
    ensures r == PeriodsRead(ps, keys, vals)
  {
    r := [];
    var i := 0;
    while i < |ps|
      invariant 0 <= i <= |ps|
      invariant r == PeriodsRead(ps[..i], keys, vals)
    {
      var p := ps[i];
      assert p in ps;
      var entry := ReadPeriod(keys, vals, p, members);
      PeriodsReadSnoc(ps, keys, vals, i);
      r := r + [entry];
      i := i + 1;
    }
    assert ps[..i] == ps;
  }

  method CollectTimelines(ids: seq<string>, m: map<string, Conviction>, snaps: seq<StrengthSnapshot>)
    returns (timelines: seq<Timeline>)
    requires forall id :: id in ids ==> id in m
    ensures timelines == Timelines(ids, m, snaps)
  {
    timelines := [];
    var i := 0;
    while i < |ids|
      invariant 0 <= i <= |ids|
      invariant |timelines| == i && forall j :: 0 <= j < i ==> timelines[j] == TimelineOf(m[ids[j]], snaps)
    {
      var c := m[ids[i]];
      var history := CollectHistory(snaps, c.convictionId);
      timelines := timelines + [Timeline(c.convictionId, c.statement, c.strength.score, c.strength.level,
                                         c.strength.trend, c.lifecycle.firstDetected, history)];
      i := i + 1;
    }
    assert |timelines| == |Timelines(ids, m, snaps)|;
  }

  method Evolve(convictionHits: Option<seq<Nearest>>, traceRanking: Option<seq<string>>,
                convictions: seq<Conviction>, traces: seq<Trace>, snaps: seq<StrengthSnapshot>)
    returns (ev: Evolution)
    ensures ev == EvolutionOf(convictionHits, traceRanking, convictions, traces, snaps)
  {
    var m := KeyedBy(convictions, ConvictionId);
    var ids := CloseKnownIds(Hits(convictionHits, EvolutionConvictionHits), m);
    var timelines := CollectTimelines(ids, m, snaps);
    var ts := Seqs.SortBy(QueryEngine.Mapped(Hits(traceRanking, EvolutionTraceHits), KeyedBy(traces, TraceId)), QueryEngine.ByDate);
    var styles := CollectStylePeriods(ts);
    ev := Evolution(timelines, ts, styles);
  }

  // ================================================================ blind spots

  /** A conviction that some recorded actions went against. */
  datatype Gap = Gap(statement: string, score: real, misaligned: nat)

  /** The action alignments recorded as contrary (`aligned is False`; unknown ones do not count). */
  function Misaligned(c: Conviction): (r: seq<Alignment>)
    ensures forall a :: a in r <==> a in c.evidence.alignment.GetOr([]) && a.aligned == Some(false)
  {
    Seqs.Filter(c.evidence.alignment.GetOr([]), (a: Alignment) => a.aligned == Some(false))
  }

  function GapOf(c: Conviction): Gap
  {
    Gap(c.statement, c.strength.score, |Misaligned(c)|)
  }

  predicate HasGap(c: Conviction)
  {
    |Misaligned(c)| > 0
  }

  /** Say-do gaps: one per conviction with a misaligned action, in conviction order. */
  function SayDoGaps(cs: seq<Conviction>): (r: seq<Gap>)
    ensures |r| <= |cs|
  {
    Seqs.Keep(cs, HasGap, GapOf)
  }

  /** The gaps are exactly those of the convictions with a misaligned action. */
  lemma SayDoGapsIff(cs: seq<Conviction>)
    ensures forall g :: g in SayDoGaps(cs) <==> exists c :: c in cs && |Misaligned(c)| > 0 && g == GapOf(c)
  {
    Seqs.KeepIff(cs, HasGap, GapOf);
  }

  /** Every gap counts at least one, and at most all, of its conviction's recorded alignments. */
  lemma GapCounts(cs: seq<Conviction>)
    ensures forall g :: g in SayDoGaps(cs) ==>
              exists c :: c in cs && g.statement == c.statement && 0 < g.misaligned <= |c.evidence.alignment.GetOr([])|
  {
    SayDoGapsIff(cs);
  }

  /** A conviction is voiced without ever being fed once its score reaches this. */
  const OutputOnlyMinScore: real := 0.3

  /** A conviction spoken of but never taken in. */
  datatype Voiced = Voiced(statement: string, score: real)

  function PersistenceSignals(p: Persistence): seq<string> { p.signalIds }
  function CrossContextSignals(x: CrossContext): seq<string> { x.signalIds }
  function SpontaneousSignal(s: Spontaneous): seq<string> { [s.signalId] }

  /** The signal ids a list of evidence items cites, `ids(item)` for each item. */
  function Cites<T>(items: seq<T>, ids: T -> seq<string>): (r: set<string>)
    ensures forall id :: id in r <==> exists i :: 0 <= i < |items| && id in ids(items[i])
  {
    if items == [] then {}
    else
      var n := |items| - 1;
      var r := Cites(items[..n], ids) + SetOf(ids(items[n]));
      assert forall id :: id in r <==> exists i :: 0 <= i < |items| && id in ids(items[i]) by {
        forall id ensures id in r <==> exists i :: 0 <= i < |items| && id in ids(items[i]) {
          if id in Cites(items[..n], ids) {
            var i :| 0 <= i < n && id in ids(items[..n][i]);
            assert items[..n][i] == items[i];
          }
          if exists i :: 0 <= i < |items| && id in ids(items[i]) {
            var i :| 0 <= i < |items| && id in ids(items[i]);
            if i < n {
              assert items[..n][i] == items[i];
            }
          }
        }
      }
      r
  }

  /** The signals a conviction's persistence, cross-context and spontaneous evidence cites. */
  function ReferencedIds(e: Evidence): set<string>
  {
    Cites(e.persistence.GetOr([]), PersistenceSignals)
    + Cites(e.crossContext.GetOr([]), CrossContextSignals)
    + Cites(e.spontaneous.GetOr([]), SpontaneousSignal)
  }

  /** `{s.signal_id: s for s in signals if s.signal_id in ids}`. */
  function CitedSignals(signals: seq<Signal>, ids: set<string>): map<string, Signal>
  {
    KeyedBy(Seqs.Filter(signals, (s: Signal) => s.signalId in ids), SignalId)
  }

  function Directions(signals: seq<Signal>, ids: set<string>): set<Direction>
  {
    var m := CitedSignals(signals, ids);
    set k | k in m :: m[k].direction
  }

  predicate OutputOnly(c: Conviction, signals: seq<Signal>)
  {
    c.strength.score >= OutputOnlyMinScore && Directions(signals, ReferencedIds(c.evidence)) == {Output}
  }

  predicate CitesSome(signals: seq<Signal>, ids: set<string>)
  {
    exists i :: 0 <= i < |signals| && signals[i].signalId in ids
  }

  predicate AllOutput(signals: seq<Signal>, ids: set<string>)
  {
    forall i :: 0 <= i < |signals| && signals[i].signalId in ids ==> signals[i].direction == Output
  }

  /** Each cited signal is a signal with its key as id, and every signal with a wanted id is keyed. */
  lemma CitedFacts(signals: seq<Signal>, ids: set<string>)
    ensures forall k :: k in CitedSignals(signals, ids) ==>
              k in ids && exists p :: 0 <= p < |signals| && signals[p] == CitedSignals(signals, ids)[k] && signals[p].signalId == k
    ensures forall i :: 0 <= i < |signals| && signals[i].signalId in ids ==> signals[i].signalId in CitedSignals(signals, ids)
  {
    var f := Seqs.Filter(signals, (s: Signal) => s.signalId in ids);
    var m := CitedSignals(signals, ids);
    forall k | k in m
      ensures k in ids && exists p :: 0 <= p < |signals| && signals[p] == m[k] && signals[p].signalId == k
    {
      KeyedByIn(f, SignalId, k);
    }
    forall i | 0 <= i < |signals| && signals[i].signalId in ids ensures signals[i].signalId in m {
      var s := signals[i];
      assert s in f;
      var j :| 0 <= j < |f| && f[j] == s;
      assert SignalId(f[j]) in m;
    }
  }

  /** Only `{output}` when some signal is cited. */
  lemma DirectionsCite(signals: seq<Signal>, ids: set<string>)
    requires Directions(signals, ids) == {Output}
    ensures CitesSome(signals, ids)
  {
    var m := CitedSignals(signals, ids);
    CitedFacts(signals, ids);
    assert Output in Directions(signals, ids);
    var k :| k in m && m[k].direction == Output;
    var p :| 0 <= p < |signals| && signals[p] == m[k] && signals[p].signalId == k;
  }

  /** `{output}` when some signal is cited and every cited signal is an output. */
  lemma AllOutputDirections(signals: seq<Signal>, ids: set<string>)
    requires CitesSome(signals, ids) && AllOutput(signals, ids)
    ensures Directions(signals, ids) == {Output}
  {
    var m := CitedSignals(signals, ids);
    var ds := Directions(signals, ids);
    CitedFacts(signals, ids);
    var i :| 0 <= i < |signals| && signals[i].signalId in ids;
    var k := signals[i].signalId;
    assert m[k].direction in ds;
    forall d | d in ds ensures d == Output {
      var k' :| k' in m && m[k'].direction == d;
      var p :| 0 <= p < |signals| && signals[p] == m[k'] && signals[p].signalId == k';
    }
  }

  /** With distinct signal ids, `{output}` means every cited signal is an output. */
  lemma DirectionsAllOutput(signals: seq<Signal>, ids: set<string>)
    requires DistinctSignalIds(signals) && Directions(signals, ids) == {Output}
    ensures AllOutput(signals, ids)
  {
    var m := CitedSignals(signals, ids);
    CitedFacts(signals, ids);
    forall i | 0 <= i < |signals| && signals[i].signalId in ids ensures signals[i].direction == Output {
      var k := signals[i].signalId;
      var p :| 0 <= p < |signals| && signals[p] == m[k] && signals[p].signalId == k;
      assert p == i;
      assert m[k].direction in Directions(signals, ids);
    }
  }

  /**
   * A conviction is output-only exactly when its score is at least 0.3, it cites some
   * stored signal, and (signal ids being distinct) every stored signal it cites is an output.
   */
  lemma OutputOnlyMeans(c: Conviction, signals: seq<Signal>)
    requires DistinctSignalIds(signals)
    ensures OutputOnly(c, signals) <==>
              c.strength.score >= OutputOnlyMinScore
              && CitesSome(signals, ReferencedIds(c.evidence)) && AllOutput(signals, ReferencedIds(c.evidence))
  {
    var ids := ReferencedIds(c.evidence);
    if OutputOnly(c, signals) {
      DirectionsCite(signals, ids);
      DirectionsAllOutput(signals, ids);
    }
    if CitesSome(signals, ids) && AllOutput(signals, ids) {
      AllOutputDirections(signals, ids);
    }
  }

  function VoicedOf(c: Conviction): Voiced
  {
    Voiced(c.statement, c.strength.score)
  }

  /** Output-only convictions, in conviction order. */
  function OutputOnlyConvictions(cs: seq<Conviction>, signals: seq<Signal>): (r: seq<Voiced>)
    ensures |r| <= |cs|
  {
    Seqs.Keep(cs, (c: Conviction) => OutputOnly(c, signals), VoicedOf)
  }

  /** The output-only list holds exactly the output-only convictions. */
  lemma OutputOnlyIff(cs: seq<Conviction>, signals: seq<Signal>)
    ensures forall v :: v in OutputOnlyConvictions(cs, signals) <==>
              exists c :: c in cs && OutputOnly(c, signals) && v == VoicedOf(c)
  {
    Seqs.KeepIff(cs, (c: Conviction) => OutputOnly(c, signals), VoicedOf);
  }

  /** What a topic's signals say: `topic` was mentioned by a signal of direction `direction`. */
  datatype Mention = Mention(topic: string, direction: Direction)

  function MentionsOf(s: Signal): (r: seq<Mention>)
    ensures |r| == |s.topics.GetOr([])|
    ensures forall i :: 0 <= i < |r| ==> r[i] == Mention(s.topics.GetOr([])[i], s.direction)
  {
    var ts := s.topics.GetOr([]);
    seq(|ts|, i requires 0 <= i < |ts| => Mention(ts[i], s.direction))
  }

  /** Every (topic, direction) the signals mention, in order; a repeated topic counts again. */
  function Mentions(signals: seq<Signal>): seq<Mention>
  {
    if signals == [] then [] else Mentions(signals[..|signals| - 1]) + MentionsOf(signals[|signals| - 1])
  }

  function TopicNames(ms: seq<Mention>): (r: seq<string>)
    ensures |r| == |ms| && forall i :: 0 <= i < |ms| ==> r[i] == ms[i].topic
  {
    seq(|ms|, i requires 0 <= i < |ms| => ms[i].topic)
  }

  /** A topic's `{"input": n, "output": m}`. */
  datatype DirectionCounts = DirectionCounts(input: nat, output: nat)

  function Add(c: DirectionCounts, d: Direction): DirectionCounts
  {
    if d == Input then DirectionCounts(c.input + 1, c.output) else DirectionCounts(c.input, c.output + 1)
  }

  /** `topic_directions`: topics in first-mention order, each with its input and output counts. */
  datatype Tally = Tally(order: seq<string>, counts: map<string, DirectionCounts>)

  /** One `topic_directions[t][direction] += 1`, after `setdefault(t, {input: 0, output: 0})`. */
  function Bump(t: Tally, m: Mention): Tally
  {
    var known := m.topic in t.counts;
    var c := if known then t.counts[m.topic] else DirectionCounts(0, 0);
    Tally(if known then t.order else t.order + [m.topic], t.counts[m.topic := Add(c, m.direction)])
  }

  function TallyOf(ms: seq<Mention>): Tally
  {
    if ms == [] then Tally([], map[]) else Bump(TallyOf(ms[..|ms| - 1]), ms[|ms| - 1])
  }

  /** The tally lists each mentioned topic once, in first-mention order. */
  lemma {:induction false} TallyOrder(ms: seq<Mention>)
    ensures TallyOf(ms).order == Seqs.Dedup(TopicNames(ms))
    ensures forall t :: t in TallyOf(ms).counts <==> t in TopicNames(ms)
  {
    if ms != [] {
      var n := |ms| - 1;
      var prev, x := ms[..n], ms[n];
      TallyOrder(prev);
      assert ms == prev + [x];
      assert TopicNames(ms) == TopicNames(prev) + [x.topic];
      Seqs.DedupSnoc(TopicNames(prev), x.topic);
    }
  }

  /** The tally counts exactly the input and the output mentions of each topic. */
  lemma {:induction false} TallyCounts(ms: seq<Mention>)
    ensures forall t :: t in TallyOf(ms).counts ==>
              TallyOf(ms).counts[t] == DirectionCounts(Seqs.Count(ms, Mention(t, Input)), Seqs.Count(ms, Mention(t, Output)))
  {
    if ms != [] {
      var n := |ms| - 1;
      var prev, x := ms[..n], ms[n];
      TallyCounts(prev);
      TallyOrder(prev);
      var before := TallyOf(prev);
      var after := TallyOf(ms);
      assert after == Bump(before, x);
      forall t | t in after.counts
        ensures after.counts[t] == DirectionCounts(Seqs.Count(ms, Mention(t, Input)), Seqs.Count(ms, Mention(t, Output)))
      {
        assert Seqs.Count(ms, Mention(t, Input)) == Seqs.Count(prev, Mention(t, Input)) + if x == Mention(t, Input) then 1 else 0;
        assert Seqs.Count(ms, Mention(t, Output)) == Seqs.Count(prev, Mention(t, Output)) + if x == Mention(t, Output) then 1 else 0;
        if t == x.topic {
          if t !in before.counts {
            NotMentioned(prev, t, Input);
            NotMentioned(prev, t, Output);
          }
          var c := if t in before.counts then before.counts[t] else DirectionCounts(0, 0);
          assert c == DirectionCounts(Seqs.Count(prev, Mention(t, Input)), Seqs.Count(prev, Mention(t, Output)));
          assert after.counts[t] == Add(c, x.direction);
        } else {
          assert after.counts[t] == before.counts[t];
        }
      }
    }
  }

  lemma NotMentioned(ms: seq<Mention>, t: string, d: Direction)
    requires t !in TopicNames(ms)
    ensures Seqs.Count(ms, Mention(t, d)) == 0
  {
  }

  lemma TallyFacts(ms: seq<Mention>)
    ensures TallyOf(ms).order == Seqs.Dedup(TopicNames(ms))
    ensures forall t :: t in TallyOf(ms).counts <==> t in TopicNames(ms)
    ensures forall t :: t in TallyOf(ms).counts ==>
              TallyOf(ms).counts[t] == DirectionCounts(Seqs.Count(ms, Mention(t, Input)), Seqs.Count(ms, Mention(t, Output)))
  {
    TallyOrder(ms);
    TallyCounts(ms);
  }

  /** A topic's line of `topic_directions.items()`. */
  datatype TopicCount = TopicCount(topic: string, input: nat, output: nat)

  function Items(t: Tally): (r: seq<TopicCount>)
    requires forall k :: k in t.order ==> k in t.counts
    ensures |r| == |t.order|
  {
    seq(|t.order|, i requires 0 <= i < |t.order| => TopicCount(t.order[i], t.counts[t.order[i]].input, t.counts[t.order[i]].output))
  }

  function TopicCounts(signals: seq<Signal>): seq<TopicCount>
  {
    TallyFacts(Mentions(signals));
    Items(TallyOf(Mentions(signals)))
  }

  /** Each mentioned topic once, in first-mention order, with its input and output mention counts. */
  lemma TopicCountsFacts(signals: seq<Signal>)
    ensures var ms := Mentions(signals);
            var names := Seqs.Dedup(TopicNames(ms));
            var r := TopicCounts(signals);
            |r| == |names|
            && forall i :: 0 <= i < |r| ==>
                 r[i] == TopicCount(names[i], Seqs.Count(ms, Mention(names[i], Input)), Seqs.Count(ms, Mention(names[i], Output)))
  {
    TallyFacts(Mentions(signals));
  }

  /** Read at least five times, and never once spoken of. */
  predicate InputHeavy(c: TopicCount)
  {
    c.input + c.output >= 5 && c.input > 0 && c.output == 0
  }

  const MaxInputHeavy: nat := 10

  function ByInputDesc(c: TopicCount): Seqs.Rank
  {
    Seqs.Rank(-(c.input as real), 0.0)
  }

  /** The ten most-read such topics, most-read first (ties in first-mention order). */
  function Heaviest(heavy: seq<TopicCount>): seq<TopicCount>
  {
    Seqs.Take(Seqs.SortBy(heavy, ByInputDesc), MaxInputHeavy)
  }

  function InputHeavyTopics(signals: seq<Signal>): seq<TopicCount>
  {
    Heaviest(Seqs.Filter(TopicCounts(signals), InputHeavy))
  }

  /** At most ten of the topics, most-read first, and none left out read more than one kept. */
  lemma HeaviestFacts(heavy: seq<TopicCount>)
    ensures var r := Heaviest(heavy);
            |r| <= MaxInputHeavy
            && (forall x :: x in r ==> x in heavy)
            && (forall i, j :: 0 <= i < j < |r| ==> r[i].input >= r[j].input)
            && (forall x, y :: x in heavy && x !in r && y in r ==> x.input <= y.input)
  {
    var sorted := Seqs.SortBy(heavy, ByInputDesc);
    var r := Heaviest(heavy);
    Seqs.TopOf(heavy, ByInputDesc, MaxInputHeavy);
    forall i, j | 0 <= i < j < |r| ensures r[i].input >= r[j].input {
      assert r[i] == sorted[i] && r[j] == sorted[j];
      assert !Seqs.Below(ByInputDesc(sorted[j]), ByInputDesc(sorted[i]));
    }
    forall x, y | x in heavy && x !in r && y in r ensures x.input <= y.input {
      assert !Seqs.Below(ByInputDesc(x), ByInputDesc(y));
    }
  }

  /** Each topic's line counts its input and its output mentions. */
  lemma TopicCountsCount(signals: seq<Signal>)
    ensures var ms := Mentions(signals);
            forall x :: x in TopicCounts(signals) ==>
              x.input == Seqs.Count(ms, Mention(x.topic, Input)) && x.output == Seqs.Count(ms, Mention(x.topic, Output))
  {
    var all := TopicCounts(signals);
    TopicCountsFacts(signals);
    forall x | x in all
      ensures x.input == Seqs.Count(Mentions(signals), Mention(x.topic, Input))
              && x.output == Seqs.Count(Mentions(signals), Mention(x.topic, Output))
    {
      var i :| 0 <= i < |all| && all[i] == x;
    }
  }

  /**
   * At most ten topics, each read at least five times and never spoken of, counted from
   * the mentions; most-read first; and no input-heavy topic left out is read more than
   * one kept.
   */
  lemma InputHeavyFacts(signals: seq<Signal>)
    ensures var r := InputHeavyTopics(signals);
            var ms := Mentions(signals);
            |r| <= MaxInputHeavy
            && (forall x :: x in r ==>
                  x.input >= 5 && x.output == 0
                  && x.input == Seqs.Count(ms, Mention(x.topic, Input))
                  && Seqs.Count(ms, Mention(x.topic, Output)) == 0)
            && (forall i, j :: 0 <= i < j < |r| ==> r[i].input >= r[j].input)
            && (forall x, y :: x in TopicCounts(signals) && InputHeavy(x) && x !in r && y in r ==> x.input <= y.input)
  {
    HeaviestFacts(Seqs.Filter(TopicCounts(signals), InputHeavy));
    TopicCountsCount(signals);
  }

  /** A contradiction between two convictions. */
  datatype Clash = Clash(a: string, b: string, note: Option<string>)

  function ClashOf(c: Conviction, t: Tension, m: map<string, Conviction>): Clash
  {
    Clash(c.statement, OpposingName(m, t.opposing), t.note)
  }

  /** The contradictions among the tensions `ts` of conviction `c`. */
  function ClashesIn(c: Conviction, ts: seq<Tension>, m: map<string, Conviction>): (r: seq<Clash>)
    ensures forall x :: x in r <==> exists t :: t in ts && t.relationship == Contradiction && x == ClashOf(c, t, m)
  {
    if ts == [] then []
    else
      var n := |ts| - 1;
      var r := ClashesIn(c, ts[..n], m) + (if ts[n].relationship == Contradiction then [ClashOf(c, ts[n], m)] else []);
      assert forall x :: x in r <==> exists t :: t in ts && t.relationship == Contradiction && x == ClashOf(c, t, m) by {
        forall x ensures x in r <==> exists t :: t in ts && t.relationship == Contradiction && x == ClashOf(c, t, m) {
          if x in ClashesIn(c, ts[..n], m) {
            var t :| t in ts[..n] && t.relationship == Contradiction && x == ClashOf(c, t, m);
            assert t in ts;
          }
          if exists t :: t in ts && t.relationship == Contradiction && x == ClashOf(c, t, m) {
            var t :| t in ts && t.relationship == Contradiction && x == ClashOf(c, t, m);
            var i :| 0 <= i < |ts| && ts[i] == t;
            if i < n {
              assert ts[..n][i] == t;
            }
          }
        }
      }
      r
  }

  /** Every contradiction of every conviction, in order. */
  function Contradictions(cs: seq<Conviction>, m: map<string, Conviction>): seq<Clash>
  {
    if cs == [] then []
    else Contradictions(cs[..|cs| - 1], m) + ClashesIn(cs[|cs| - 1], TensionsOf(cs[|cs| - 1]), m)
  }

  predicate ClashFrom(cs: seq<Conviction>, m: map<string, Conviction>, x: Clash)
  {
    exists c, t :: c in cs && t in TensionsOf(c) && t.relationship == Contradiction && x == ClashOf(c, t, m)
  }

  /** The reported contradictions are exactly the `contradiction` tensions of the convictions. */
  lemma {:induction false} ContradictionsIff(cs: seq<Conviction>, m: map<string, Conviction>)
    ensures forall x :: x in Contradictions(cs, m) <==> ClashFrom(cs, m, x)
  {
    if cs != [] {
      var n := |cs| - 1;
      ContradictionsIff(cs[..n], m);
      var here := ClashesIn(cs[n], TensionsOf(cs[n]), m);
      forall x ensures x in Contradictions(cs, m) <==> ClashFrom(cs, m, x) {
        if x in Contradictions(cs[..n], m) {
          var c, t :| c in cs[..n] && t in TensionsOf(c) && t.relationship == Contradiction && x == ClashOf(c, t, m);
          assert c in cs;
        }
        if x in here {
          var t :| t in TensionsOf(cs[n]) && t.relationship == Contradiction && x == ClashOf(cs[n], t, m);
          assert cs[n] in cs;
        }
        if ClashFrom(cs, m, x) {
          var c, t :| c in cs && t in TensionsOf(c) && t.relationship == Contradiction && x == ClashOf(c, t, m);
          var i :| 0 <= i < |cs| && cs[i] == c;
          if i < n {
            assert cs[..n][i] == c;
            assert ClashFrom(cs[..n], m, x);
          }
        }
      }
    }
  }

  /** A reasoning style's share of the traces. */
  datatype StyleShare = StyleShare(style: Style, count: nat, ratio: real)

  /** `count / total`, and 0 when there are no traces (before rounding to two places). */
  function Ratio(count: nat, total: nat): real
  {
    if total == 0 then 0.0 else count as real / total as real
  }

  /** `style_distribution`: each style used, most used first, with its count and share. */
  function Distribution(ts: seq<Trace>): (r: seq<StyleShare>)
  {
    var c := Seqs.CountRanking(StylesOf(ts));
    seq(|c|, i requires 0 <= i < |c| => StyleShare(c[i].0, c[i].1, Ratio(c[i].1, |ts|)))
  }

  /**
   * Each style used appears once, with the number of traces using it and a share in
   * (0, 1]; most used first.
   */
  lemma DistributionFacts(ts: seq<Trace>)
    ensures var d := Distribution(ts);
            var styles := StylesOf(ts);
            (forall i :: 0 <= i < |d| ==>
               d[i].style in styles && d[i].count == Seqs.Count(styles, d[i].style)
               && 0.0 < d[i].ratio <= 1.0)
            && (forall i, j :: 0 <= i < j < |d| ==> d[i].count >= d[j].count && d[i].style != d[j].style)
            && (forall k :: 0 <= k < |ts| ==> exists i :: 0 <= i < |d| && d[i].style == ts[k].path.style)
  {
    var styles := StylesOf(ts);
    var c := Seqs.CountRanking(styles);
    var d := Distribution(ts);
    Seqs.CountRankingFacts(styles);
    forall i | 0 <= i < |d| ensures 0.0 < d[i].ratio <= 1.0 {
      assert 0 < c[i].1 <= |ts|;
      RatioWithin(c[i].1, |ts|);
    }
    forall k | 0 <= k < |ts| ensures exists i :: 0 <= i < |d| && d[i].style == ts[k].path.style {
      assert styles[k] in styles;
      var p :| 0 <= p < |c| && c[p].0 == styles[k];
      assert d[p].style == ts[k].path.style;
    }
  }

  lemma RatioWithin(count: nat, total: nat)
    requires 0 < count <= total
    ensures 0.0 < Ratio(count, total) <= 1.0
  {
    var q := count as real / total as real;
    assert q * total as real == count as real;
  }

  /** More traces than this are needed to speak of inertia. */
  const InertiaMinTraces: nat := 10
  /** A style used by more than this share of the traces is inertia. */
  const InertiaShare: real := 0.4

  datatype Inertia = Inertia(dominant: Style, ratio: real)

  /** `thinking_inertia`: the most used style, when it carries more than 40% of over ten traces. */
  function InertiaOf(ts: seq<Trace>): Option<Inertia>
  {
    if ts == [] then None
    else
      var styles := StylesOf(ts);
      assert styles[0] in styles;
      var dominant := Seqs.Mode(styles);
      var ratio := Seqs.Count(styles, dominant) as real / |ts| as real;
      if |ts| > InertiaMinTraces && ratio > InertiaShare then Some(Inertia(dominant, ratio)) else None
  }

  predicate Overused(ts: seq<Trace>, s: Style)
  {
    Seqs.Count(StylesOf(ts), s) as real > InertiaShare * |ts| as real
  }

  lemma ShareAbove(count: nat, total: nat)
    requires total > 0
    ensures count as real / total as real > InertiaShare <==> count as real > InertiaShare * total as real
    ensures (count as real / total as real) * total as real == count as real
  {
  }

  /** Inertia is reported exactly when there are more than ten traces and some style carries more than 40%. */
  lemma InertiaWhen(ts: seq<Trace>)
    ensures InertiaOf(ts).Some? <==> |ts| > InertiaMinTraces && exists k :: 0 <= k < |ts| && Overused(ts, ts[k].path.style)
  {
    if ts != [] {
      var styles := StylesOf(ts);
      assert styles[0] in styles;
      var d := Seqs.Mode(styles);
      ShareAbove(Seqs.Count(styles, d), |ts|);
      if |ts| > InertiaMinTraces && exists k :: 0 <= k < |ts| && Overused(ts, ts[k].path.style) {
        var k :| 0 <= k < |ts| && Overused(ts, ts[k].path.style);
        assert styles[k] in styles;
        assert Seqs.Count(styles, styles[k]) <= Seqs.Count(styles, d);
      }
      if InertiaOf(ts).Some? {
        var k :| 0 <= k < |ts| && styles[k] == d;
      }
    }
  }

  /** The style reported is a most used one, over 40% of the traces, with its share. */
  lemma InertiaStyle(ts: seq<Trace>)
    requires InertiaOf(ts).Some?
    ensures var styles := StylesOf(ts);
            var d := InertiaOf(ts).value.dominant;
            d in styles && Overused(ts, d)
            && (forall y :: y in styles ==> Seqs.Count(styles, y) <= Seqs.Count(styles, d))
            && InertiaOf(ts).value.ratio == Ratio(Seqs.Count(styles, d), |ts|)
  {
    var styles := StylesOf(ts);
    assert styles[0] in styles;
    ShareAbove(Seqs.Count(styles, Seqs.Mode(styles)), |ts|);
  }

  /** What `blindspots` reports. */
  datatype BlindSpots = BlindSpots(
    sayDoGaps: seq<Gap>, outputOnly: seq<Voiced>, inputHeavy: seq<TopicCount>,
    contradictions: seq<Clash>, styles: seq<StyleShare>, inertia: Option<Inertia>,
    tracesAnalyzed: nat, convictionsAnalyzed: nat)

  /** `blindspots` over an owner's convictions, traces and stored signals (file order). */
  function BlindSpotsOf(convictions: seq<Conviction>, traces: seq<Trace>, signals: seq<Signal>): BlindSpots
  {
    BlindSpots(SayDoGaps(convictions), OutputOnlyConvictions(convictions, signals),
               InputHeavyTopics(signals), Contradictions(convictions, KeyedBy(convictions, ConvictionId)),
               Distribution(traces), InertiaOf(traces), |traces|, |convictions|)
  }

  // ---------------------------------------------------------------- blind spots, step by step

  method CollectSayDoGaps(cs: seq<Conviction>) returns (gaps: seq<Gap>)
    ensures gaps == SayDoGaps(cs)
  {
    gaps := [];
    var i := 0;
    while i < |cs|
      invariant 0 <= i <= |cs|
      invariant gaps == SayDoGaps(cs[..i])
    {
      assert cs[..i + 1][..i] == cs[..i];
      var misaligned := Misaligned(cs[i]);
      if |misaligned| > 0 {
        gaps := gaps + [Gap(cs[i].statement, cs[i].strength.score, |misaligned|)];
      }
      i := i + 1;
    }
    assert cs[..i] == cs;
  }

  /** `signal_ids.update(...)` (or `.add`) for each item of one evidence list. */
  method AddCited<T>(ids0: set<string>, items: seq<T>, ids: T -> seq<string>) returns (acc: set<string>)
    ensures acc == ids0 + Cites(items, ids)
  {
    acc := ids0;
    var i := 0;
    while i < |items|
      invariant 0 <= i <= |items|
      invariant acc == ids0 + Cites(items[..i], ids)
    {
      assert items[..i + 1][..i] == items[..i];
      acc := acc + SetOf(ids(items[i]));
      i := i + 1;
    }
    assert items[..i] == items;
  }

  method GatherReferenced(e: Evidence) returns (ids: set<string>)
    ensures ids == ReferencedIds(e)
  {
    ids := AddCited({}, e.persistence.GetOr([]), PersistenceSignals);
    ids := AddCited(ids, e.crossContext.GetOr([]), CrossContextSignals);
    ids := AddCited(ids, e.spontaneous.GetOr([]), SpontaneousSignal);
  }

  method CollectOutputOnly(cs: seq<Conviction>, signals: seq<Signal>) returns (r: seq<Voiced>)
    ensures r == OutputOnlyConvictions(cs, signals)
  {
    r := [];
    var i := 0;
    while i < |cs|
      invariant 0 <= i <= |cs|
      invariant r == OutputOnlyConvictions(cs[..i], signals)
    {
      assert cs[..i + 1][..i] == cs[..i];
      var c := cs[i];
      if c.strength.score >= OutputOnlyMinScore {
        var ids := GatherReferenced(c.evidence);
        var directions := Directions(signals, ids);
        if directions == {Output} {
          r := r + [Voiced(c.statement, c.strength.score)];
        }
      }
      i := i + 1;
    }
    assert cs[..i] == cs;
  }

  lemma MentionsSnoc(signals: seq<Signal>, i: int)
    requires 0 <= i < |signals|
    ensures Mentions(signals[..i + 1]) == Mentions(signals[..i]) + MentionsOf(signals[i])
  {
    assert signals[..i + 1][..i] == signals[..i];
  }

  /** One mention counted in place: `setdefault`, then the increment. */
  method Record(order0: seq<string>, counts0: map<string, DirectionCounts>, m: Mention)
    returns (order: seq<string>, counts: map<string, DirectionCounts>)
    ensures Tally(order, counts) == Bump(Tally(order0, counts0), m)
  {
    order, counts := order0, counts0;
    var t := m.topic;
    if t !in counts {
      order := order + [t];
      counts := counts[t := DirectionCounts(0, 0)];
    }
    if m.direction == Input {
      counts := counts[t := counts[t].(input := counts[t].input + 1)];
    } else {
      counts := counts[t := counts[t].(output := counts[t].output + 1)];
    }
  }

  lemma TallySnoc(done: seq<Mention>, more: seq<Mention>, j: int)
    requires 0 <= j < |more|
    ensures TallyOf(done + more[..j + 1]) == Bump(TallyOf(done + more[..j]), more[j])
  {
    var ms := done + more[..j + 1];
    assert ms[..|ms| - 1] == done + more[..j];
  }

  /** The `topic_directions` loop over every topic of every signal. */
  method TallyTopics(signals: seq<Signal>) returns (tally: Tally)
    ensures tally == TallyOf(Mentions(signals))
  {
    var order: seq<string> := [];
    var counts: map<string, DirectionCounts> := map[];
    var i := 0;
    while i < |signals|
      invariant 0 <= i <= |signals|
      invariant Tally(order, counts) == TallyOf(Mentions(signals[..i]))
    {
      var s := signals[i];
      var topics := s.topics.GetOr([]);
      var done, more := Mentions(signals[..i]), MentionsOf(s);
      assert done + more[..0] == done;
      var j := 0;
      while j < |topics|
        invariant 0 <= j <= |topics|
        invariant Tally(order, counts) == TallyOf(done + more[..j])
      {
        TallySnoc(done, more, j);
        order, counts := Record(order, counts, Mention(topics[j], s.direction));
        j := j + 1;
      }
      assert more[..j] == more;
      MentionsSnoc(signals, i);
      i := i + 1;
    }
    assert signals[..i] == signals;
    tally := Tally(order, counts);
  }

  /** The loop over `topic_directions.items()` keeping the input-heavy topics. */
  method ReadInputHeavy(tally: Tally) returns (heavy: seq<TopicCount>)
    requires forall k :: k in tally.order ==> k in tally.counts
    ensures heavy == Seqs.Filter(Items(tally), InputHeavy)
  {
    var items := Items(tally);
    heavy := [];
    var i := 0;
    while i < |tally.order|
      invariant 0 <= i <= |tally.order|
      invariant heavy == Seqs.Filter(items[..i], InputHeavy)
    {
      Seqs.FilterSnoc(items, i, InputHeavy);
      var topic := tally.order[i];
      var input, output := tally.counts[topic].input, tally.counts[topic].output;
      assert items[i] == TopicCount(topic, input, output);
      if input + output >= 5 && input > 0 && output == 0 {
        heavy := heavy + [TopicCount(topic, input, output)];
      }
      i := i + 1;
    }
    assert items[..i] == items;
  }

  method CollectContradictions(cs: seq<Conviction>, m: map<string, Conviction>) returns (r: seq<Clash>)
    ensures r == Contradictions(cs, m)
  {
    r := [];
    var i := 0;
    while i < |cs|
      invariant 0 <= i <= |cs|
      invariant r == Contradictions(cs[..i], m)
    {
      assert cs[..i + 1][..i] == cs[..i];
      var clashes := CollectClashes(cs[i], TensionsOf(cs[i]), m);
      r := r + clashes;
      i := i + 1;
    }
    assert cs[..i] == cs;
  }

  /** The inner loop over one conviction's tensions. */
  method CollectClashes(c: Conviction, ts: seq<Tension>, m: map<string, Conviction>) returns (r: seq<Clash>)
    ensures r == ClashesIn(c, ts, m)
  {
    r := [];
    var j := 0;
    while j < |ts|
      invariant 0 <= j <= |ts|
      invariant r == ClashesIn(c, ts[..j], m)
    {
      assert ts[..j + 1][..j] == ts[..j];
      if ts[j].relationship == Contradiction {
        r := r + [Clash(c.statement, if ts[j].opposing in m then m[ts[j].opposing].statement else ts[j].opposing, ts[j].note)];
      }
      j := j + 1;
    }
    assert ts[..j] == ts;
  }

  method Blindspots(convictions: seq<Conviction>, traces: seq<Trace>, signals: seq<Signal>)
    returns (b: BlindSpots)
    ensures b == BlindSpotsOf(convictions, traces, signals)
  {
    var gaps := CollectSayDoGaps(convictions);
    var voiced := CollectOutputOnly(convictions, signals);
    var tally := TallyTopics(signals);
    TallyFacts(Mentions(signals));
    var heavy := ReadInputHeavy(tally);
    var clashes := CollectContradictions(convictions, KeyedBy(convictions, ConvictionId));
    b := BlindSpots(gaps, voiced, Heaviest(heavy), clashes, Distribution(traces), InertiaOf(traces),
                    |traces|, |convictions|);
  }
}

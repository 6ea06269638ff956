/**
 * The frame clusterer (Layer 4): reasoning traces are grouped by the context
 * recorded in their source; every group with enough traces is summarised
 * (conviction activation frequencies, reasoning styles, step actions, outcome
 * counts, date range) and either refreshes the existing context frame already
 * filed under that context or becomes a new frame named by the language model.
 *
 * The model's reply and its JSON decoding are inputs: `reply(context)` is the raw
 * text the model returns for the group with that context, and `parse` turns the
 * cleaned text into metadata or fails.
 */
module FrameClusterer {
  import opened Wrappers
  import opened Models
  import Seqs
  import Strings
  import Calendar

  // ================================================================ grouping

  /** The group a trace falls into: its source context, or "other" when that is missing or empty. */
  function ContextKey(t: Trace): (k: string)
    ensures k != []
    ensures t.source.context.Some? && t.source.context.value != [] ==> k == t.source.context.value
    ensures t.source.context.None? || t.source.context.value == [] ==> k == "other"
  {
    if t.source.context.Some? && t.source.context.value != [] then t.source.context.value else "other"
  }

  function ContextKeys(ts: seq<Trace>): (ks: seq<string>)
    ensures |ks| == |ts| && forall k :: 0 <= k < |ts| ==> ks[k] == ContextKey(ts[k])
  {
    seq(|ts|, k requires 0 <= k < |ts| => ContextKey(ts[k]))
  }

  /** Every trace filed under a key carries that key. */
  lemma {:induction false} SelectedCarryKey(ts: seq<Trace>, key: string)
    ensures forall t :: t in Seqs.Select(ContextKeys(ts), ts, key) ==> ContextKey(t) == key
  {
    if ts != [] {
      var p := ts[..|ts| - 1];
      assert ContextKeys(ts)[..|ts| - 1] == ContextKeys(p);
      SelectedCarryKey(p, key);
    }
  }

  /**
   * The grouping pass over the traces. The groups partition the traces: the keys are
   * the distinct context keys in first-seen order, each group holds exactly the traces
   * with its key in their original order, and only traces with that key.
   */
  method GroupByContext(ts: seq<Trace>) returns (order: seq<string>, members: map<string, seq<Trace>>)
    ensures Seqs.Groups(order, members) == Seqs.Grouped(ContextKeys(ts), ts)
    ensures order == Seqs.Dedup(ContextKeys(ts))
    ensures forall k :: k in members <==> k in ContextKeys(ts)
    ensures forall k :: k in members ==> members[k] == Seqs.Select(ContextKeys(ts), ts, k)
    ensures forall k, t :: k in members && t in members[k] ==> ContextKey(t) == k
  {
    var keys := ContextKeys(ts);
    order, members := Seqs.GroupInto(keys, ts);
    Seqs.GroupedIsPartition(keys, ts);
    forall k | k in members ensures forall t :: t in members[k] ==> ContextKey(t) == k {
      SelectedCarryKey(ts, k);
    }
  }

  // ================================================================ group statistics

  /**
   * What the analysis of a group keeps. Each `collections.Counter` of the engine is kept
   * as the sequence of things it counted, in the order they were counted, from which
   * `Seqs.CounterOf` and `Seqs.MostCommon` recover its counts and its ranking.
   */
  datatype Stats = Stats(
    traceCount: nat,
    activated: seq<string>,          // one entry per activation: conviction_counts
    roles: seq<(string, Role)>,      // conviction and role per activation: conviction_roles
    perTrace: seq<string>,           // each trace's distinct convictions, trace after trace
    styles: seq<Style>,              // style_counts
    steps: seq<string>,              // step_counts (step actions)
    stimuli: seq<string>,            // trigger_counts
    positive: nat,
    negative: nat,
    withOutcome: nat,
    dateRange: Option<(Calendar.Day, Calendar.Day)>,
    traceIds: seq<string>)

  function ActivatedIds(acts: seq<Activated>): (r: seq<string>)
    ensures |r| == |acts| && forall k :: 0 <= k < |acts| ==> r[k] == acts[k].convictionId
  {
    seq(|acts|, k requires 0 <= k < |acts| => acts[k].convictionId)
  }

  function ActivatedRoles(acts: seq<Activated>): (r: seq<(string, Role)>)
    ensures |r| == |acts| && forall k :: 0 <= k < |acts| ==> r[k] == (acts[k].convictionId, acts[k].role)
  {
    seq(|acts|, k requires 0 <= k < |acts| => (acts[k].convictionId, acts[k].role))
  }

  function StepActions(steps: seq<Step>): (r: seq<string>)
    ensures |r| == |steps| && forall k :: 0 <= k < |steps| ==> r[k] == steps[k].action
  {
    seq(|steps|, k requires 0 <= k < |steps| => steps[k].action)
  }

  /** `t.outcome and t.outcome.result == r`. */
  predicate ResultIs(t: Trace, r: OutcomeResult)
  {
    t.outcome.Some? && t.outcome.value.result == Some(r)
  }

  /** `t.outcome and t.outcome.result not in (None, "pending")`. */
  predicate HasVerdict(t: Trace)
  {
    t.outcome.Some? && t.outcome.value.result.Some? && t.outcome.value.result.value != Pending
  }

  function Widen(range: Option<(Calendar.Day, Calendar.Day)>, d: Calendar.Day): (r: Option<(Calendar.Day, Calendar.Day)>)
    ensures r.Some? && r.value.0 <= d <= r.value.1
    ensures range.Some? ==> r.value.0 <= range.value.0 && range.value.1 <= r.value.1
    ensures r.value.0 == d || (range.Some? && r.value.0 == range.value.0)
    ensures r.value.1 == d || (range.Some? && r.value.1 == range.value.1)
  {
    if range.None? then Some((d, d))
    else Some((if d < range.value.0 then d else range.value.0, if d > range.value.1 then d else range.value.1))
  }

  const NoStats := Stats(0, [], [], [], [], [], [], 0, 0, 0, None, [])

  /** One trace folded into the statistics. */
  function AddTrace(s: Stats, t: Trace): Stats
  {
    var ids := ActivatedIds(t.activated);
    Stats(s.traceCount + 1,
          s.activated + ids,
          s.roles + ActivatedRoles(t.activated),
          s.perTrace + Seqs.Dedup(ids),
          s.styles + [t.path.style],
          s.steps + StepActions(t.path.steps),
          s.stimuli + [t.trigger.stimulus],
          s.positive + (if ResultIs(t, Positive) then 1 else 0),
          s.negative + (if ResultIs(t, Negative) then 1 else 0),
          s.withOutcome + (if HasVerdict(t) then 1 else 0),
          Widen(s.dateRange, t.source.date),
          s.traceIds + [t.traceId])
  }

  /** The statistics of a group of traces. */
  function Analyze(ts: seq<Trace>): Stats
  {
    if ts == [] then NoStats else AddTrace(Analyze(ts[..|ts| - 1]), ts[|ts| - 1])
  }

  /** The analysis pass: one loop over the traces, every counter updated in place. */
  method AnalyzeGroup(ts: seq<Trace>) returns (s: Stats)
    ensures s == Analyze(ts)
  {
    var count, activated, roles, perTrace := 0, [], [], [];
    var styles, steps, stimuli := [], [], [];
    var positive, negative, withOutcome := 0, 0, 0;
    var range: Option<(Calendar.Day, Calendar.Day)> := None;
    var ids := [];
    var i := 0;
    while i < |ts|
      invariant 0 <= i <= |ts|
      invariant Analyze(ts[..i]) == Stats(count, activated, roles, perTrace, styles, steps, stimuli,
                                          positive, negative, withOutcome, range, ids)
    {
      var t := ts[i];
      assert ts[..i + 1][..i] == ts[..i];
      assert Analyze(ts[..i + 1]) == AddTrace(Analyze(ts[..i]), t);
      var seen := Seqs.Dedup(ActivatedIds(t.activated));
      activated := activated + ActivatedIds(t.activated);
      roles := roles + ActivatedRoles(t.activated);
      perTrace := perTrace + seen;
      styles := styles + [t.path.style];
      steps := steps + StepActions(t.path.steps);
      stimuli := stimuli + [t.trigger.stimulus];
      if ResultIs(t, Positive) {
        positive := positive + 1;
      }
      if ResultIs(t, Negative) {
        negative := negative + 1;
      }
      if HasVerdict(t) {
        withOutcome := withOutcome + 1;
      }
      range := Widen(range, t.source.date);
      ids := ids + [t.traceId];
      count := count + 1;
      i := i + 1;
    }
    assert ts[..i] == ts;
    s := Stats(count, activated, roles, perTrace, styles, steps, stimuli,
               positive, negative, withOutcome, range, ids);
  }

  function Dates(ts: seq<Trace>): (r: seq<Calendar.Day>)
    ensures |r| == |ts| && forall k :: 0 <= k < |ts| ==> r[k] == ts[k].source.date
  {
    seq(|ts|, k requires 0 <= k < |ts| => ts[k].source.date)
  }

  /**
   * The outcome counts: a positive or a negative result is a verdict, and no trace
   * counts twice, so `positive + negative <= total_with_outcome <= trace_count`.
   * The trace ids are the traces' ids in order.
   */
  lemma {:induction false} AnalyzeCounts(ts: seq<Trace>)
    ensures Analyze(ts).traceCount == |ts|
    ensures Analyze(ts).positive + Analyze(ts).negative <= Analyze(ts).withOutcome <= Analyze(ts).traceCount
    ensures |Analyze(ts).traceIds| == |ts| && forall k :: 0 <= k < |ts| ==> Analyze(ts).traceIds[k] == ts[k].traceId
  {
    if ts != [] {
      var p := ts[..|ts| - 1];
      AnalyzeCounts(p);
      assert forall k :: 0 <= k < |p| ==> p[k] == ts[k];
    }
  }

  /**
   * `(dates[0], dates[-1])` of the sorted dates: missing exactly for an empty group,
   * otherwise the earliest and the latest date of the group, both attained.
   */
  lemma {:induction false} DateRangeBounds(ts: seq<Trace>)
    ensures Analyze(ts).dateRange.None? <==> ts == []
    ensures Analyze(ts).dateRange.Some? ==>
              var lo, hi := Analyze(ts).dateRange.value.0, Analyze(ts).dateRange.value.1;
              lo in Dates(ts) && hi in Dates(ts)
              && forall k :: 0 <= k < |ts| ==> lo <= ts[k].source.date <= hi
  {
    if ts != [] {
      var p := ts[..|ts| - 1];
      DateRangeBounds(p);
      assert Dates(ts) == Dates(p) + [ts[|ts| - 1].source.date];
      assert forall k :: 0 <= k < |p| ==> p[k] == ts[k];
    }
  }

  /** The parallel counters stay parallel: role observation `k` belongs to activation `k`. */
  predicate RolesParallel(s: Stats)
  {
    |s.roles| == |s.activated| && forall k :: 0 <= k < |s.roles| ==> s.roles[k].0 == s.activated[k]
  }

  lemma {:induction false} AnalyzeRolesParallel(ts: seq<Trace>)
    ensures RolesParallel(Analyze(ts))
  {
    if ts != [] {
      AnalyzeRolesParallel(ts[..|ts| - 1]);
    }
  }

  /**
   * The per-trace counts: each trace contributes each of its convictions once, so no
   * conviction is counted in more traces than there are.
   */
  lemma {:induction false} PerTraceBound(ts: seq<Trace>, c: string)
    ensures Seqs.Count(Analyze(ts).perTrace, c) <= |ts|
  {
    if ts != [] {
      var p := ts[..|ts| - 1];
      PerTraceBound(p, c);
      var d := Seqs.Dedup(ActivatedIds(ts[|ts| - 1].activated));
      Seqs.CountAppend(Analyze(p).perTrace, d, c);
      Seqs.DistinctOnce(d);
      CountIsMultiplicity(d, c);
    }
  }

  /** Exactly the activated convictions are counted per trace. */
  lemma {:induction false} PerTraceSame(ts: seq<Trace>, c: string)
    ensures c in Analyze(ts).perTrace <==> c in Analyze(ts).activated
  {
    if ts != [] {
      PerTraceSame(ts[..|ts| - 1], c);
    }
  }

  lemma {:induction false} CountIsMultiplicity<T(!new)>(s: seq<T>, x: T)
    ensures Seqs.Count(s, x) == multiset(s)[x]
  {
    if s != [] {
      var p := s[..|s| - 1];
      CountIsMultiplicity(p, x);
      assert s == p + [s[|s| - 1]];
    }
  }

  // ================================================================ conviction activations

  /** The roles observed for conviction `c`: `conviction_roles[c]`. */
  function RolesFor(roles: seq<(string, Role)>, c: string): (r: seq<Role>)
    ensures r == [] <==> forall k :: 0 <= k < |roles| ==> roles[k].0 != c
  {
    if roles == [] then []
    else RolesFor(roles[..|roles| - 1], c) + (if roles[|roles| - 1].0 == c then [roles[|roles| - 1].1] else [])
  }

  /** The most common role of `c`, or `framework` when no role was observed. */
  function TypicalRole(roles: seq<(string, Role)>, c: string): (r: Role)
    ensures RolesFor(roles, c) == [] ==> r == Framework
    ensures RolesFor(roles, c) != [] ==>
              r in RolesFor(roles, c)
              && forall y :: y in RolesFor(roles, c) ==> Seqs.Count(RolesFor(roles, c), y) <= Seqs.Count(RolesFor(roles, c), r)
  {
    var rs := RolesFor(roles, c);
    if rs == [] then Framework else Seqs.Mode(rs)
  }

  function Weight(count: nat, total: nat): real
    requires total > 0
  {
    count as real / total as real
  }

  /** Activations weighing less than this are dropped. */
  const MinWeight: real := 0.1

  /** The candidates whose weight reaches `MinWeight`, in order: the loop's `continue`. */
  function Heavy(cands: seq<(string, nat)>, total: nat): (r: seq<(string, nat)>)
    requires total > 0
    ensures |r| <= |cands|
    ensures forall k :: 0 <= k < |r| ==> Weight(r[k].1, total) >= MinWeight
  {
    if cands == [] then []
    else
      var last := cands[|cands| - 1];
      Heavy(cands[..|cands| - 1], total) + (if Weight(last.1, total) >= MinWeight then [last] else [])
  }

  lemma {:induction false} HeavyAll(cands: seq<(string, nat)>, total: nat)
    requires total > 0
    requires forall k :: 0 <= k < |cands| ==> Weight(cands[k].1, total) >= MinWeight
    ensures Heavy(cands, total) == cands
  {
    if cands != [] {
      HeavyAll(cands[..|cands| - 1], total);
    }
  }

  /** A count out of a larger total is a share in `[0, 1]`. */
  lemma ShareBounds(a: nat, b: nat)
    requires 0 < b && a <= b
    ensures 0.0 <= a as real / b as real <= 1.0
  {
    assert (a as real / b as real) * b as real == a as real;
  }

  lemma WeightMonotone(a: nat, b: nat, total: nat)
    requires total > 0 && a <= b
    ensures Weight(a, total) <= Weight(b, total)
  {
  }

  /**
   * On candidates ranked by decreasing count, dropping the light ones keeps a prefix:
   * once one candidate is too light, so is every later one.
   */
  lemma {:induction false} HeavyIsPrefix(cands: seq<(string, nat)>, total: nat)
    requires total > 0
    requires forall i, j :: 0 <= i < j < |cands| ==> cands[i].1 >= cands[j].1
    ensures Heavy(cands, total) == cands[..|Heavy(cands, total)|]
    ensures forall k :: |Heavy(cands, total)| <= k < |cands| ==> Weight(cands[k].1, total) < MinWeight
  {
    if cands != [] {
      var p := cands[..|cands| - 1];
      var last := cands[|cands| - 1];
      HeavyIsPrefix(p, total);
      if Weight(last.1, total) >= MinWeight {
        forall k | 0 <= k < |cands| ensures Weight(cands[k].1, total) >= MinWeight {
          WeightMonotone(last.1, cands[k].1, total);
        }
        HeavyAll(cands, total);
      } else {
        assert Heavy(cands, total) == Heavy(p, total);
      }
    }
  }

  function ActivationOf(p: (string, nat), roles: seq<(string, Role)>, total: nat): Activation
    requires total > 0
  {
    Activation(p.0, Weight(p.1, total), Some(TypicalRole(roles, p.0)))
  }

  /**
   * `_build_conviction_activations` over the counted convictions `counted`: of the seven
   * most counted convictions, those whose share of the group's traces reaches
   * `MinWeight`, each with its share as weight and its most common role. The result is
   * exactly the heavy prefix of the top seven: entry `k` is the `k`-th most counted
   * conviction, and every top-seven conviction left out is too light.
   */
  function Activations(counted: seq<string>, roles: seq<(string, Role)>, total: nat): (r: seq<Activation>)
    requires total > 0
    ensures |r| <= 7 && |r| <= |Seqs.MostCommon(counted, 7)|
    ensures forall k :: 0 <= k < |r| ==>
              r[k].convictionId == Seqs.MostCommon(counted, 7)[k].0
              && r[k].convictionId in counted
              && r[k].weight == Weight(Seqs.Count(counted, r[k].convictionId), total) >= MinWeight
              && r[k].role == Some(TypicalRole(roles, r[k].convictionId))
    ensures forall k :: |r| <= k < |Seqs.MostCommon(counted, 7)| ==>
              Weight(Seqs.MostCommon(counted, 7)[k].1, total) < MinWeight
  {
    var cands := Seqs.MostCommon(counted, 7);
    HeavyIsPrefix(cands, total);
    ActivationsOf(Heavy(cands, total), roles, total)
  }

  function ActivationsOf(kept: seq<(string, nat)>, roles: seq<(string, Role)>, total: nat): (r: seq<Activation>)
    requires total > 0
    ensures |r| == |kept| && forall k :: 0 <= k < |kept| ==> r[k] == ActivationOf(kept[k], roles, total)
  {
    seq(|kept|, k requires 0 <= k < |kept| => ActivationOf(kept[k], roles, total))
  }

  lemma ActivationsSnoc(kept: seq<(string, nat)>, x: (string, nat), roles: seq<(string, Role)>, total: nat)
    requires total > 0
    ensures ActivationsOf(kept + [x], roles, total) == ActivationsOf(kept, roles, total) + [ActivationOf(x, roles, total)]
  {
  }

  /** The activation loop: walk the top seven, skip the light ones, append the rest. */
  method BuildActivations(counted: seq<string>, roles: seq<(string, Role)>, total: nat) returns (acts: seq<Activation>)
    requires total > 0
    ensures acts == Activations(counted, roles, total)
  {
    var cands := Seqs.MostCommon(counted, 7);
    acts := [];
    var i := 0;
    while i < |cands|
      invariant 0 <= i <= |cands|
      invariant acts == ActivationsOf(Heavy(cands[..i], total), roles, total)
    {
      var cand := cands[i];
      var kept := Heavy(cands[..i], total);
      HeavySnoc(cands, i, total);
      if Weight(cand.1, total) >= MinWeight {
        ActivationsSnoc(kept, cand, roles, total);
        acts := acts + [ActivationOf(cand, roles, total)];
      }
      i := i + 1;
    }
    assert cands[..i] == cands;
  }

  lemma HeavySnoc(cands: seq<(string, nat)>, i: nat, total: nat)
    requires total > 0 && i < |cands|
    ensures Weight(cands[i].1, total) >= MinWeight ==> Heavy(cands[..i + 1], total) == Heavy(cands[..i], total) + [cands[i]]
    ensures Weight(cands[i].1, total) < MinWeight ==> Heavy(cands[..i + 1], total) == Heavy(cands[..i], total)
  {
    assert cands[..i + 1][..i] == cands[..i];
    assert Heavy(cands[..i], total) + [] == Heavy(cands[..i], total);
  }

  /** What `most_common` gives the activations: distinct convictions, by non-increasing weight. */
  lemma ActivationsRanked(counted: seq<string>, roles: seq<(string, Role)>, total: nat)
    requires total > 0
    ensures var r := Activations(counted, roles, total);
            forall i, j :: 0 <= i < j < |r| ==> r[i].convictionId != r[j].convictionId && r[i].weight >= r[j].weight
  {
    var r := Activations(counted, roles, total);
    var m := Seqs.MostCommon(counted, 7);
    var keys := Seqs.MostCommonKeys(counted, 7);
    Seqs.MostCommonIsTop(counted, 7);
    forall i, j | 0 <= i < j < |r| ensures r[i].convictionId != r[j].convictionId && r[i].weight >= r[j].weight {
      assert keys[i] == r[i].convictionId && keys[j] == r[j].convictionId;
      WeightMonotone(m[j].1, m[i].1, total);
    }
  }

  /** No counted conviction left out of the activations outweighs one kept. */
  lemma ActivationsTop(counted: seq<string>, roles: seq<(string, Role)>, total: nat, c: string)
    requires total > 0 && c in counted
    requires forall i :: 0 <= i < |Activations(counted, roles, total)| ==> Activations(counted, roles, total)[i].convictionId != c
    ensures forall k :: 0 <= k < |Activations(counted, roles, total)| ==>
              Weight(Seqs.Count(counted, c), total) <= Activations(counted, roles, total)[k].weight
  {
    var r := Activations(counted, roles, total);
    var m := Seqs.MostCommon(counted, 7);
    var keys := Seqs.MostCommonKeys(counted, 7);
    Seqs.MostCommonIsTop(counted, 7);
    if c in keys {
      var p :| 0 <= p < |keys| && keys[p] == c;
      assert p >= |r| by {
        forall i | 0 <= i < |r| ensures keys[i] != c {
          assert r[i].convictionId == keys[i];
        }
      }
      assert m[p].1 == Seqs.Count(counted, c);
      assert Weight(m[p].1, total) < MinWeight;
    } else {
      forall k | 0 <= k < |r| ensures Weight(Seqs.Count(counted, c), total) <= r[k].weight {
        WeightMonotone(Seqs.Count(counted, c), m[k].1, total);
      }
    }
  }

  /**
   * The activations as the engine computes them: `conviction_counts` counts every
   * activation, so a trace that activates a conviction twice counts it twice.
   */
  function ActivationsAsWritten(s: Stats): (r: seq<Activation>)
    requires s.traceCount > 0
    ensures forall a :: a in r ==> a.weight >= MinWeight
  {
    Activations(s.activated, s.roles, s.traceCount)
  }

  /**
   * The activations with each conviction counted at most once per trace, so that a
   * weight is the share of the group's traces that activate the conviction.
   */
  function FrameActivations(s: Stats): (r: seq<Activation>)
    requires s.traceCount > 0
    ensures forall a :: a in r ==> a.weight >= MinWeight
  {
    Activations(s.perTrace, s.roles, s.traceCount)
  }

  /** Counted once per trace, every weight is a share: within the model's `[0, 1]` bound. */
  lemma FrameActivationsValid(ts: seq<Trace>)
    requires ts != []
    ensures Analyze(ts).traceCount == |ts|
    ensures forall a :: a in FrameActivations(Analyze(ts)) ==> ValidActivation(a)
  {
    AnalyzeCounts(ts);
    var s := Analyze(ts);
    var r := FrameActivations(s);
    forall a | a in r ensures ValidActivation(a) {
      PerTraceBound(ts, a.convictionId);
      ShareBounds(Seqs.Count(s.perTrace, a.convictionId), |ts|);
    }
  }

  /**
   * Every recorded activation's role comes from the activation itself: a kept conviction
   * was activated, so the `framework` default is never used.
   */
  lemma FrameActivationRoles(ts: seq<Trace>)
    requires ts != []
    ensures Analyze(ts).traceCount == |ts|
    ensures forall a :: a in FrameActivations(Analyze(ts)) ==>
              RolesFor(Analyze(ts).roles, a.convictionId) != []
              && a.role == Some(Seqs.Mode(RolesFor(Analyze(ts).roles, a.convictionId)))
  {
    AnalyzeCounts(ts);
    AnalyzeRolesParallel(ts);
    var s := Analyze(ts);
    forall a | a in FrameActivations(s)
      ensures RolesFor(s.roles, a.convictionId) != []
    {
      PerTraceSame(ts, a.convictionId);
      var k :| 0 <= k < |s.activated| && s.activated[k] == a.convictionId;
      assert s.roles[k].0 == a.convictionId;
    }
  }

  // ---------------------------------------------------------------- the overweight finding

  lemma {:induction false} CountAll(s: seq<string>, c: string)
    requires forall k :: 0 <= k < |s| ==> s[k] == c
    ensures Seqs.Count(s, c) == |s|
    ensures s != [] ==> Seqs.Dedup(s) == [c]
  {
    if s != [] {
      CountAll(s[..|s| - 1], c);
    }
  }

  /** A group whose every trace activates conviction `c` exactly twice. */
  predicate TwiceEach(ts: seq<Trace>, c: string)
  {
    forall k :: 0 <= k < |ts| ==> ActivatedIds(ts[k].activated) == [c, c]
  }

  lemma TwiceEachPrefix(ts: seq<Trace>, c: string)
    requires ts != [] && TwiceEach(ts, c)
    ensures TwiceEach(ts[..|ts| - 1], c)
    ensures ActivatedIds(ts[|ts| - 1].activated) == [c, c]
  {
    var p := ts[..|ts| - 1];
    forall k | 0 <= k < |p| ensures ActivatedIds(p[k].activated) == [c, c] {
      assert p[k] == ts[k];
    }
  }

  lemma {:induction false} TwiceEachActivated(ts: seq<Trace>, c: string)
    requires TwiceEach(ts, c)
    ensures |Analyze(ts).activated| == 2 * |ts| && forall k :: 0 <= k < |Analyze(ts).activated| ==> Analyze(ts).activated[k] == c
  {
    if ts != [] {
      var p := ts[..|ts| - 1];
      TwiceEachPrefix(ts, c);
      TwiceEachActivated(p, c);
      assert Analyze(ts).activated == Analyze(p).activated + [c, c];
    }
  }

  /** One more trace adds its own de-duplicated activations to the per-trace list. */
  lemma PerTraceSnoc(ts: seq<Trace>)
    requires ts != []
    ensures Analyze(ts).perTrace == Analyze(ts[..|ts| - 1]).perTrace + Seqs.Dedup(ActivatedIds(ts[|ts| - 1].activated))
  {
  }

  lemma {:induction false} TwiceEachPerTrace(ts: seq<Trace>, c: string)
    requires TwiceEach(ts, c)
    ensures |Analyze(ts).perTrace| == |ts| && forall k :: 0 <= k < |Analyze(ts).perTrace| ==> Analyze(ts).perTrace[k] == c
  {
    if ts != [] {
      var p := ts[..|ts| - 1];
      TwiceEachPrefix(ts, c);
      TwiceEachPerTrace(p, c);
      var ids := ActivatedIds(ts[|ts| - 1].activated);
      assert forall k :: 0 <= k < |ids| ==> ids[k] == c;
      CountAll(ids, c);
      var r, q := Analyze(ts).perTrace, Analyze(p).perTrace;
      PerTraceSnoc(ts);
      assert r == q + [c];
      AllSnoc(q, c);
    }
  }

  lemma AllSnoc(q: seq<string>, c: string)
    requires forall k :: 0 <= k < |q| ==> q[k] == c
    ensures forall k :: 0 <= k < |q + [c]| ==> (q + [c])[k] == c
  {
  }

  lemma TwiceEachCounted(ts: seq<Trace>, c: string)
    requires TwiceEach(ts, c)
    ensures |Analyze(ts).activated| == 2 * |ts| && forall k :: 0 <= k < |Analyze(ts).activated| ==> Analyze(ts).activated[k] == c
    ensures |Analyze(ts).perTrace| == |ts| && forall k :: 0 <= k < |Analyze(ts).perTrace| ==> Analyze(ts).perTrace[k] == c
  {
    TwiceEachActivated(ts, c);
    TwiceEachPerTrace(ts, c);
  }

  /**
   * The engine's weights break the model's bound: when every trace of a group activates
   * the same conviction twice (the extracted activation list does not forbid it), that
   * conviction gets weight 2.0, which `activation_weight <= 1` refuses; counted once per
   * trace it gets 1.0.
   */
  lemma OverweightActivation(ts: seq<Trace>, c: string)
    requires ts != [] && TwiceEach(ts, c)
    ensures Analyze(ts).traceCount == |ts|
    ensures |ActivationsAsWritten(Analyze(ts))| == 1
    ensures ActivationsAsWritten(Analyze(ts))[0].convictionId == c
    ensures ActivationsAsWritten(Analyze(ts))[0].weight == 2.0
    ensures !ValidActivation(ActivationsAsWritten(Analyze(ts))[0])
    ensures |FrameActivations(Analyze(ts))| == 1 && FrameActivations(Analyze(ts))[0].weight == 1.0
  {
    AnalyzeCounts(ts);
    var s := Analyze(ts);
    var n := |ts|;
    TwiceEachCounted(ts, c);
    SoleTop(s.activated, s.roles, c, n, 2);
    SoleTop(s.perTrace, s.roles, c, n, 1);
  }

  /** A conviction counted `q * n` times in a group of `n` traces, and nothing else, is the only activation. */
  lemma SoleTop(counted: seq<string>, roles: seq<(string, Role)>, c: string, n: nat, q: nat)
    requires n > 0 && 1 <= q && |counted| == q * n
    requires forall k :: 0 <= k < |counted| ==> counted[k] == c
    ensures var r := Activations(counted, roles, n); |r| == 1 && r[0].convictionId == c && r[0].weight == q as real
  {
    CountAll(counted, c);
    var m := Seqs.MostCommon(counted, 7);
    assert |m| == 1;
    assert m[0].0 == c && m[0].1 == q * n;
    WeightMultiple(q, n);
    var r := Activations(counted, roles, n);
    assert |r| >= 1;
  }

  lemma WeightMultiple(q: nat, n: nat)
    requires n > 0 && q >= 1
    ensures Weight(q * n, n) == q as real >= MinWeight
  {
    assert (q * n) as real == q as real * n as real;
  }

  // ================================================================ patterns and effectiveness

  /**
   * `_build_reasoning_patterns`: the most common style (none for no style), the at most
   * five most common step actions, and the first twenty trace ids.
   */
  function FramePatterns(s: Stats): (p: Patterns)
    ensures p.preferredStyle.None? <==> s.styles == []
    ensures p.typicalSteps.Some? && p.historicalTraces.Some?
  {
    Patterns(if s.styles == [] then None else Some(Seqs.Mode(s.styles)),
             Some(Seqs.MostCommonKeys(s.steps, 5)), Some(Seqs.Take(s.traceIds, 20)))
  }

  /**
   * The preferred style is a most used one, the typical steps are distinct steps of the
   * group none of which is used less than a step left out, and the historical traces
   * are the first (at most) twenty.
   */
  lemma FramePatternsFacts(s: Stats)
    ensures var p := FramePatterns(s);
            p.preferredStyle.Some? ==>
              p.preferredStyle.value in s.styles
              && forall y :: y in s.styles ==> Seqs.Count(s.styles, y) <= Seqs.Count(s.styles, p.preferredStyle.value)
    ensures var p := FramePatterns(s);
            |p.typicalSteps.value| == |Seqs.MostCommon(s.steps, 5)| <= 5
            && Seqs.Distinct(p.typicalSteps.value)
            && forall x :: x in p.typicalSteps.value ==> x in s.steps
    ensures var p := FramePatterns(s);
            forall y, x :: y in s.steps && y !in p.typicalSteps.value && x in p.typicalSteps.value
              ==> Seqs.Count(s.steps, y) <= Seqs.Count(s.steps, x)
    ensures var p := FramePatterns(s);
            |p.historicalTraces.value| == (if |s.traceIds| < 20 then |s.traceIds| else 20)
            && p.historicalTraces.value == s.traceIds[..|p.historicalTraces.value|]
  {
    var keys := Seqs.MostCommonKeys(s.steps, 5);
    Seqs.MostCommonIsTop(s.steps, 5);
    assert forall x :: x in keys ==> exists i :: 0 <= i < |keys| && keys[i] == x && x == Seqs.MostCommon(s.steps, 5)[i].0;
  }

  /**
   * `_build_effectiveness`: nothing without a verdict; otherwise the share of positive
   * verdicts, the group size and the positive and negative counts.
   */
  function FrameEffectiveness(s: Stats): (e: Option<Effectiveness>)
    ensures e.None? <==> s.withOutcome == 0
    ensures e.Some? ==>
              e.value.successRate == Some(s.positive as real / s.withOutcome as real)
              && e.value.total == Some(s.traceCount as int)
              && e.value.positive == Some(s.positive as int) && e.value.negative == Some(s.negative as int)
              && e.value.learningNote.None?
  {
    if s.withOutcome == 0 then None
    else Some(Effectiveness(Some(s.positive as real / s.withOutcome as real), Some(s.traceCount),
                            Some(s.positive), Some(s.negative), None))
  }

  lemma {:induction false} NoVerdictCounted(ts: seq<Trace>)
    ensures Analyze(ts).withOutcome == 0 <==> forall k :: 0 <= k < |ts| ==> !HasVerdict(ts[k])
  {
    if ts != [] {
      var p := ts[..|ts| - 1];
      NoVerdictCounted(p);
      assert forall k :: 0 <= k < |p| ==> p[k] == ts[k];
    }
  }

  /**
   * A group has an effectiveness record exactly when one of its traces has a verdict
   * (an outcome whose result is set and not pending), and its success rate is a share.
   */
  lemma EffectivenessFacts(ts: seq<Trace>)
    ensures FrameEffectiveness(Analyze(ts)).None? <==> forall k :: 0 <= k < |ts| ==> !HasVerdict(ts[k])
    ensures FrameEffectiveness(Analyze(ts)).Some? ==>
              0.0 <= FrameEffectiveness(Analyze(ts)).value.successRate.value <= 1.0
  {
    NoVerdictCounted(ts);
    AnalyzeCounts(ts);
    var s := Analyze(ts);
    if s.withOutcome > 0 {
      ShareBounds(s.positive, s.withOutcome);
    }
  }

  // ================================================================ candidates

  /** The parts of a frame a group's statistics give: activations, reasoning patterns, effectiveness. */
  datatype Built = Built(primary: seq<Activation>, patterns: Patterns, effectiveness: Option<Effectiveness>)

  function BuiltOf(s: Stats): Built
    requires s.traceCount > 0
  {
    Built(FrameActivations(s), FramePatterns(s), FrameEffectiveness(s))
  }

  /** A group with enough traces, with its statistics and the frame parts built from them. */
  datatype Candidate = Candidate(context: string, traces: seq<Trace>, stats: Stats, built: Built)

  predicate CandOK(c: Candidate)
  {
    c.traces != [] && c.stats == Analyze(c.traces) && c.stats.traceCount > 0 && c.built == BuiltOf(c.stats)
  }

  /** The candidate for the group `ts` of context `k`. */
  function CandidateOf(k: string, ts: seq<Trace>): (c: Candidate)
    requires ts != []
    ensures CandOK(c) && c.context == k && c.traces == ts
  {
    AnalyzeCounts(ts);
    var s := Analyze(ts);
    Candidate(k, ts, s, BuiltOf(s))
  }

  /** The frame parts of a group, the activations by the activation loop. */
  method BuildParts(s: Stats) returns (b: Built)
    requires s.traceCount > 0
    ensures b == BuiltOf(s)
  {
    var acts := BuildActivations(s.perTrace, s.roles, s.traceCount);
    b := Built(acts, FramePatterns(s), FrameEffectiveness(s));
  }

  /** Every key of a grouping has a non-empty group. */
  lemma GroupsReady(keys: seq<string>, vals: seq<Trace>)
    requires |keys| == |vals|
    ensures forall k :: k in Seqs.Grouped(keys, vals).order ==>
              k in Seqs.Grouped(keys, vals).members && Seqs.Grouped(keys, vals).members[k] != []
  {
    Seqs.GroupedIsPartition(keys, vals);
    forall k | k in Seqs.Grouped(keys, vals).order
      ensures k in Seqs.Grouped(keys, vals).members && Seqs.Grouped(keys, vals).members[k] != []
    {
      Seqs.GroupsNonEmpty(keys, vals, k);
    }
  }

  /** The groups, in key order, that have at least `minTraces` traces. */
  function Pick(order: seq<string>, members: map<string, seq<Trace>>, minTraces: nat): (r: seq<Candidate>)
    requires forall k :: k in order ==> k in members && members[k] != []
    ensures forall c :: c in r ==>
              CandOK(c) && c.context in order && c.traces == members[c.context] && |c.traces| >= minTraces
    ensures r == [] <==> forall k :: k in order ==> |members[k]| < minTraces
  {
    if order == [] then []
    else
      var k := order[|order| - 1];
      var r := Pick(order[..|order| - 1], members, minTraces);
      assert forall x :: x in order <==> x in order[..|order| - 1] || x == k by {
        assert order == order[..|order| - 1] + [k];
      }
      r + (if |members[k]| >= minTraces then [CandidateOf(k, members[k])] else [])
  }

  /** The candidate pass: every group that is large enough is analysed, in key order. */
  method CollectCandidates(order: seq<string>, members: map<string, seq<Trace>>, minTraces: nat)
    returns (cands: seq<Candidate>)
    requires forall k :: k in order ==> k in members && members[k] != []
    ensures cands == Pick(order, members, minTraces)
  {
    cands := [];
    var i := 0;
    while i < |order|
      invariant 0 <= i <= |order|
      invariant cands == Pick(order[..i], members, minTraces)
    {
      assert order[..i + 1][..i] == order[..i];
      var context := order[i];
      var group := members[context];
      if |group| >= minTraces {
        var stats := AnalyzeGroup(group);
        AnalyzeCounts(group);
        var built := BuildParts(stats);
        cands := cands + [Candidate(context, group, stats, built)];
      }
      i := i + 1;
    }
    assert order[..i] == order;
  }

  // ================================================================ the frame index

  /** Some trigger pattern among `tps` lists keyword `kw`. */
  predicate InTriggers(tps: seq<TriggerPattern>, kw: string)
  {
    exists p :: p in tps && p.keywords.Some? && kw in p.keywords.value
  }

  function AddKeywords(m: map<string, nat>, kws: seq<string>, i: nat): (r: map<string, nat>)
    ensures forall k :: k in r <==> k in m || k in kws
    ensures forall k :: k in r ==> r[k] == if k in kws then i else m[k]
  {
    if kws == [] then m
    else
      var kw := kws[|kws| - 1];
      assert forall x :: x in kws <==> x in kws[..|kws| - 1] || x == kw by {
        assert kws == kws[..|kws| - 1] + [kw];
      }
      AddKeywords(m, kws[..|kws| - 1], i)[kw := i]
  }

  function KeywordsOf(p: TriggerPattern): seq<string>
  {
    if p.keywords.Some? then p.keywords.value else []
  }

  function AddTriggers(m: map<string, nat>, tps: seq<TriggerPattern>, i: nat): (r: map<string, nat>)
    ensures forall k :: k in r <==> k in m || InTriggers(tps, k)
    ensures forall k :: k in r ==> r[k] == if InTriggers(tps, k) then i else m[k]
  {
    if tps == [] then m
    else
      var p := tps[|tps| - 1];
      var q := tps[..|tps| - 1];
      assert forall k :: InTriggers(tps, k) <==> InTriggers(q, k) || k in KeywordsOf(p) by {
        assert tps == q + [p];
      }
      AddKeywords(AddTriggers(m, q, i), KeywordsOf(p), i)
  }

  /** The keyword pass: every keyword of every frame's trigger patterns, a later frame winning. */
  function KeywordIndex(fs: seq<Frame>): map<string, nat>
  {
    if fs == [] then map[] else AddTriggers(KeywordIndex(fs[..|fs| - 1]), fs[|fs| - 1].triggers, |fs| - 1)
  }

  /** Each keyword leads to a frame listing it, the last one that does. */
  lemma {:induction false} KeywordIndexFacts(fs: seq<Frame>)
    ensures forall k :: k in KeywordIndex(fs) ==>
              KeywordIndex(fs)[k] < |fs| && InTriggers(fs[KeywordIndex(fs)[k]].triggers, k)
    ensures forall i, k :: 0 <= i < |fs| && InTriggers(fs[i].triggers, k) ==>
              k in KeywordIndex(fs) && i <= KeywordIndex(fs)[k]
  {
    if fs != [] {
      var q := fs[..|fs| - 1];
      KeywordIndexFacts(q);
      var p := KeywordIndex(q);
      var tps := fs[|fs| - 1].triggers;
      var r := KeywordIndex(fs);
      assert r == AddTriggers(p, tps, |fs| - 1);
      forall k | k in r ensures r[k] < |fs| && InTriggers(fs[r[k]].triggers, k) {
        if !InTriggers(tps, k) {
          assert k in p && r[k] == p[k];
          assert fs[p[k]] == q[p[k]];
        }
      }
      forall i, k | 0 <= i < |fs| && InTriggers(fs[i].triggers, k) ensures k in r && i <= r[k] {
        if i < |fs| - 1 && !InTriggers(tps, k) {
          assert fs[i] == q[i];
        }
      }
    }
  }

  /** `frame_id.split("_")[1]`, when there is a second part. */
  function IdPart(f: Frame): (r: Option<string>)
    ensures r.Some? ==> '_' !in r.value
  {
    var parts := Strings.Split(f.frameId, '_');
    if |parts| >= 2 then Some(parts[1]) else None
  }

  /** The id pass over `base`: each frame's id part names it, a later frame winning. */
  function IdIndex(fs: seq<Frame>, base: map<string, nat>): map<string, nat>
  {
    if fs == [] then base
    else
      var m := IdIndex(fs[..|fs| - 1], base);
      var part := IdPart(fs[|fs| - 1]);
      if part.Some? then m[part.value := |fs| - 1] else m
  }

  /**
   * The id pass keeps every key of `base`; a key it changes leads to a frame with that
   * id part, and each frame's id part leads to the last frame with it.
   */
  lemma {:induction false} IdIndexFacts(fs: seq<Frame>, base: map<string, nat>)
    ensures forall k :: k in base ==> k in IdIndex(fs, base)
    ensures forall k :: k in IdIndex(fs, base) ==>
              (k in base && IdIndex(fs, base)[k] == base[k])
              || (IdIndex(fs, base)[k] < |fs| && IdPart(fs[IdIndex(fs, base)[k]]) == Some(k))
    ensures forall i :: 0 <= i < |fs| && IdPart(fs[i]).Some? ==>
              var k := IdPart(fs[i]).value;
              k in IdIndex(fs, base) && i <= IdIndex(fs, base)[k] < |fs| && IdPart(fs[IdIndex(fs, base)[k]]) == Some(k)
  {
    if fs != [] {
      var q := fs[..|fs| - 1];
      IdIndexFacts(q, base);
      var m := IdIndex(q, base);
      var r := IdIndex(fs, base);
      var part := IdPart(fs[|fs| - 1]);
      assert r == if part.Some? then m[part.value := |fs| - 1] else m;
      forall k | k in r
        ensures (k in base && r[k] == base[k]) || (r[k] < |fs| && IdPart(fs[r[k]]) == Some(k))
      {
        if !(part.Some? && k == part.value) {
          assert k in m && r[k] == m[k];
          if !(k in base && m[k] == base[k]) {
            assert fs[m[k]] == q[m[k]];
          }
        }
      }
      forall i | 0 <= i < |fs| && IdPart(fs[i]).Some?
        ensures var k := IdPart(fs[i]).value; k in r && i <= r[k] < |fs| && IdPart(fs[r[k]]) == Some(k)
      {
        var k := IdPart(fs[i]).value;
        if !(part.Some? && k == part.value) {
          assert i < |fs| - 1 && fs[i] == q[i];
          assert fs[m[k]] == q[m[k]];
        }
      }
    }
  }

  /** `existing_by_context`: keywords first, then the id parts, which override them. */
  function FrameIndex(fs: seq<Frame>): (r: map<string, nat>)
    ensures forall k :: k in r ==> r[k] < |fs|
  {
    KeywordIndexFacts(fs);
    IdIndexFacts(fs, KeywordIndex(fs));
    IdIndex(fs, KeywordIndex(fs))
  }

  /**
   * What the index files: every keyword and every id part of every frame is a key;
   * each key leads to a frame that lists it as a keyword or carries it as id part;
   * a key that is some frame's id part leads to the last frame with that id part.
   */
  lemma FrameIndexFacts(fs: seq<Frame>)
    ensures forall k :: k in FrameIndex(fs) ==>
              InTriggers(fs[FrameIndex(fs)[k]].triggers, k) || IdPart(fs[FrameIndex(fs)[k]]) == Some(k)
    ensures forall i, k :: 0 <= i < |fs| && InTriggers(fs[i].triggers, k) ==> k in FrameIndex(fs)
    ensures forall i :: 0 <= i < |fs| && IdPart(fs[i]).Some? ==>
              var k := IdPart(fs[i]).value;
              k in FrameIndex(fs) && i <= FrameIndex(fs)[k] && IdPart(fs[FrameIndex(fs)[k]]) == Some(k)
  {
    KeywordIndexFacts(fs);
    IdIndexFacts(fs, KeywordIndex(fs));
  }

  /** The two passes that fill `existing_by_context`. */
  method BuildIndex(fs: seq<Frame>) returns (index: map<string, nat>)
    ensures index == FrameIndex(fs)
  {
    var keywords := KeywordPass(fs);
    index := IdPass(fs, keywords);
  }

  /** The first pass: every keyword of every frame's triggers, a later frame overriding. */
  method KeywordPass(fs: seq<Frame>) returns (index: map<string, nat>)
    ensures index == KeywordIndex(fs)
  {
    index := map[];
    var i := 0;
    while i < |fs|
      invariant 0 <= i <= |fs|
      invariant index == KeywordIndex(fs[..i])
    {
      assert fs[..i + 1][..i] == fs[..i];
      index := FileTriggers(index, fs[i].triggers, i);
      i := i + 1;
    }
    assert fs[..i] == fs;
  }

  /** The keywords of one frame's trigger patterns filed under frame `i`. */
  method FileTriggers(base: map<string, nat>, tps: seq<TriggerPattern>, i: nat) returns (index: map<string, nat>)
    ensures index == AddTriggers(base, tps, i)
  {
    index := base;
    var j := 0;
    while j < |tps|
      invariant 0 <= j <= |tps|
      invariant index == AddTriggers(base, tps[..j], i)
    {
      AddTriggersSnoc(base, tps, j, i);
      index := FileKeywords(index, KeywordsOf(tps[j]), i);
      j := j + 1;
    }
    assert tps[..j] == tps;
  }

  lemma AddTriggersSnoc(m: map<string, nat>, tps: seq<TriggerPattern>, j: nat, i: nat)
    requires j < |tps|
    ensures AddTriggers(m, tps[..j + 1], i) == AddKeywords(AddTriggers(m, tps[..j], i), KeywordsOf(tps[j]), i)
  {
    assert tps[..j + 1][..j] == tps[..j];
  }

  /** The keywords of one trigger pattern filed under frame `i`. */
  method FileKeywords(before: map<string, nat>, kws: seq<string>, i: nat) returns (index: map<string, nat>)
    ensures index == AddKeywords(before, kws, i)
  {
    index := before;
    var l := 0;
    while l < |kws|
      invariant 0 <= l <= |kws|
      invariant index == AddKeywords(before, kws[..l], i)
    {
      assert kws[..l + 1][..l] == kws[..l];
      index := index[kws[l] := i];
      l := l + 1;
    }
    assert kws[..l] == kws;
  }

  /** The second pass: the context part of every frame's id, overriding the keywords. */
  method IdPass(fs: seq<Frame>, keywords: map<string, nat>) returns (index: map<string, nat>)
    ensures index == IdIndex(fs, keywords)
  {
    index := keywords;
    var i := 0;
    while i < |fs|
      invariant 0 <= i <= |fs|
      invariant index == IdIndex(fs[..i], keywords)
    {
      IdIndexSnoc(fs, keywords, i);
      var parts := Strings.Split(fs[i].frameId, '_');
      if |parts| >= 2 {
        index := index[parts[1] := i];
      }
      i := i + 1;
    }
    assert fs[..i] == fs;
  }

  lemma IdIndexSnoc(fs: seq<Frame>, base: map<string, nat>, i: nat)
    requires i < |fs|
    ensures var part := IdPart(fs[i]); var m := IdIndex(fs[..i], base);
            IdIndex(fs[..i + 1], base) == if part.Some? then m[part.value := i] else m
  {
    assert fs[..i + 1][..i] == fs[..i];
  }

  // ================================================================ refreshing and creating frames

  /** A frame's reasoning patterns, activations and effectiveness recomputed from a group. */
  function Refresh(f: Frame, b: Built, today: Calendar.Day): (r: Frame)
    ensures r.frameId == f.frameId
  {
    f.(patterns := b.patterns,
       profile := f.profile.(primary := b.primary),
       effectiveness := b.effectiveness,
       lifecycle := if f.lifecycle.Some? then Some(f.lifecycle.value.(lastActivated := Some(today))) else None)
  }

  /**
   * `r` is `f` with at most its derived parts replaced: the identity, naming, triggers,
   * voice, suppressed convictions and lifecycle status stay, and a lifecycle now records
   * `today` as last activation.
   */
  predicate RefreshOf(f: Frame, r: Frame, today: Calendar.Day)
  {
    r.ownerId == f.ownerId && r.frameId == f.frameId && r.name == f.name && r.description == f.description
    && r.triggers == f.triggers && r.voice == f.voice && r.profile.suppressed == f.profile.suppressed
    && (f.lifecycle.None? <==> r.lifecycle.None?)
    && (f.lifecycle.Some? ==>
          r.lifecycle.value == f.lifecycle.value.(lastActivated := Some(today)))
  }

  /** A refreshed frame keeps the model's bounds: weights and success rate are shares. */
  lemma RefreshKeepsValid(f: Frame, c: Candidate, today: Calendar.Day)
    requires CandOK(c) && ValidFrame(f)
    ensures RefreshOf(f, Refresh(f, c.built, today), today)
    ensures ValidFrame(Refresh(f, c.built, today))
  {
    FrameActivationsValid(c.traces);
    EffectivenessFacts(c.traces);
  }

  /** One trigger pattern as the model's reply describes it. */
  datatype MetaTrigger = MetaTrigger(pattern: Option<string>, keywords: Option<seq<string>>)

  /**
   * The decoded reply: the keys the engine reads, and how many other keys there are
   * (a reply is only dropped as empty when it has no key at all).
   */
  datatype Metadata = Metadata(
    name: Option<string>, description: Option<string>, triggers: Option<seq<MetaTrigger>>,
    tone: Option<string>, otherKeys: nat)

  predicate EmptyMeta(m: Metadata)
  {
    m.name.None? && m.description.None? && m.triggers.None? && m.tone.None? && m.otherKeys == 0
  }

  /** The trigger patterns of a new frame: the reply's, or one pattern naming the context. */
  function NewTriggers(m: Metadata, context: string): (r: seq<TriggerPattern>)
    ensures r != []
    ensures m.triggers.Some? && m.triggers.value != [] ==>
              |r| == |m.triggers.value|
              && forall k :: 0 <= k < |r| ==>
                   r[k].keywords == m.triggers.value[k].keywords
                   && r[k].pattern == m.triggers.value[k].pattern.GetOr(context)
    ensures m.triggers.None? || m.triggers.value == [] ==> r == [TriggerPattern(context, None, None)]
  {
    var given := if m.triggers.Some? then m.triggers.value else [];
    if given == [] then [TriggerPattern(context, None, None)]
    else seq(|given|, k requires 0 <= k < |given| => TriggerPattern(given[k].pattern.GetOr(context), given[k].keywords, None))
  }

  const FramePrefix: string := "frame_"

  /** `f"frame_{safe_ctx}_{seq:03d}"`, `safe_ctx` being the context with `_` for spaces, cut to 20. */
  function NewFrameId(context: string, n: nat): (id: string)
    ensures Strings.StartsWith(id, FramePrefix)
    ensures Strings.EndsWith(id, "_" + Strings.Pad3(n))
  {
    var safe := Seqs.Take(Strings.ReplaceChar(context, ' ', '_'), 20);
    var id := FramePrefix + safe + "_" + Strings.Pad3(n);
    assert id[|id| - |"_" + Strings.Pad3(n)|..] == "_" + Strings.Pad3(n);
    id
  }

  /** The number of digits at the end of `w`. */
  function TrailingDigits(w: string): (n: nat)
    ensures n <= |w|
  {
    if w == [] || !Strings.IsDigit(w[|w| - 1]) then 0 else 1 + TrailingDigits(w[..|w| - 1])
  }

  lemma {:induction false} TrailingDigitsAfterUnderscore(x: string, d: string)
    requires forall i :: 0 <= i < |d| ==> Strings.IsDigit(d[i])
    ensures TrailingDigits(x + "_" + d) == |d|
  {
    if d != [] {
      var p := d[..|d| - 1];
      TrailingDigitsAfterUnderscore(x, p);
      assert (x + "_" + d)[..|x + "_" + d| - 1] == x + "_" + p;
    }
  }

  /** Two ids that end in `_` and a run of digits end in the same digits. */
  lemma DigitSuffix(x1: string, d1: string, x2: string, d2: string)
    requires forall i :: 0 <= i < |d1| ==> Strings.IsDigit(d1[i])
    requires forall i :: 0 <= i < |d2| ==> Strings.IsDigit(d2[i])
    requires x1 + "_" + d1 == x2 + "_" + d2
    ensures d1 == d2
  {
    var w := x1 + "_" + d1;
    TrailingDigitsAfterUnderscore(x1, d1);
    TrailingDigitsAfterUnderscore(x2, d2);
    assert d1 == w[|w| - |d1|..] == d2;
  }

  /** New frames with different sequence numbers get different ids, whatever their contexts. */
  lemma NewFrameIdsDiffer(c1: string, n1: nat, c2: string, n2: nat)
    requires n1 != n2
    ensures NewFrameId(c1, n1) != NewFrameId(c2, n2)
  {
    if NewFrameId(c1, n1) == NewFrameId(c2, n2) {
      var s1 := Seqs.Take(Strings.ReplaceChar(c1, ' ', '_'), 20);
      var s2 := Seqs.Take(Strings.ReplaceChar(c2, ' ', '_'), 20);
      assert (FramePrefix + s1) + "_" + Strings.Pad3(n1) == (FramePrefix + s2) + "_" + Strings.Pad3(n2);
      DigitSuffix(FramePrefix + s1, Strings.Pad3(n1), FramePrefix + s2, Strings.Pad3(n2));
      Strings.Pad3Injective(n1, n2);
    }
  }

  /** What the clusterer works with: the owner, the frames on file and their index, today, the model. */
  datatype Env = Env(
    owner: string, existing: seq<Frame>, index: map<string, nat>, today: Calendar.Day,
    reply: string -> string, parse: string -> Option<Metadata>)

  predicate EnvOK(e: Env)
  {
    forall k :: k in e.index ==> e.index[k] < |e.existing|
  }

  /** The new frame for a group, numbered `n`. */
  function NewFrame(e: Env, c: Candidate, m: Metadata, n: nat): (f: Frame)
    ensures f.ownerId == e.owner && f.frameId == NewFrameId(c.context, n)
    ensures |f.name| <= 50 && |f.description| <= 300 && f.triggers != []
    ensures f.lifecycle.Some? && f.lifecycle.value.status == FrameActive
            && f.lifecycle.value.lastActivated == Some(e.today) && f.lifecycle.value.firstObserved.Some?
  {
    Frame(e.owner, NewFrameId(c.context, n),
          Seqs.Take(m.name.GetOr(c.context), 50),
          Seqs.Take(m.description.GetOr(""), 300),
          NewTriggers(m, c.context),
          Profile(c.built.primary, None),
          c.built.patterns,
          if m.tone.Some? && m.tone.value != [] then Some(Voice(m.tone, None, None)) else None,
          c.built.effectiveness,
          Some(FrameLifecycle(FrameActive,
                              Some(if c.stats.dateRange.Some? then c.stats.dateRange.value.0 else e.today),
                              Some(e.today), None)))
  }

  /** The cleaned and decoded reply of the model for a context. */
  function MetadataFor(e: Env, context: string): Option<Metadata>
  {
    e.parse(Strings.Unfence(e.reply(context)))
  }

  /** The state of the main loop: the frames on file, the new frames, the refreshed ids. */
  datatype Run = Run(frames: seq<Frame>, created: seq<Frame>, updated: set<string>)

  /** The index of the frame a candidate refreshes, if it refreshes one: matched, not yet refreshed. */
  function RefreshTarget(e: Env, st: Run, c: Candidate): (r: Option<nat>)
    requires EnvOK(e) && |st.frames| == |e.existing|
    ensures r.Some? ==> r.value < |st.frames| && c.context in e.index && r.value == e.index[c.context]
                        && st.frames[r.value].frameId !in st.updated
    ensures r.None? ==> c.context !in e.index || st.frames[e.index[c.context]].frameId in st.updated
  {
    if c.context in e.index && st.frames[e.index[c.context]].frameId !in st.updated
    then Some(e.index[c.context]) else None
  }

  /** One candidate: refresh its matched frame, or create a frame from the model's reply, or skip. */
  function Place(e: Env, st: Run, c: Candidate): (r: Run)
    requires EnvOK(e) && |st.frames| == |e.existing|
    ensures |r.frames| == |e.existing|
  {
    var target := RefreshTarget(e, st, c);
    if target.Some? then
      var f := st.frames[target.value];
      Run(st.frames[target.value := Refresh(f, c.built, e.today)], st.created, st.updated + {f.frameId})
    else
      var m := MetadataFor(e, c.context);
      if m.None? || EmptyMeta(m.value) then st
      else Run(st.frames, st.created + [NewFrame(e, c, m.value, |e.existing| + |st.created| + 1)], st.updated)
  }

  predicate AllOK(cs: seq<Candidate>)
  {
    forall c :: c in cs ==> CandOK(c)
  }

  function PlaceAll(e: Env, cs: seq<Candidate>): (r: Run)
    requires EnvOK(e)
    ensures |r.frames| == |e.existing|
  {
    if cs == [] then Run(e.existing, [], {})
    else Place(e, PlaceAll(e, cs[..|cs| - 1]), cs[|cs| - 1])
  }

  /** The frames each step of the run refreshed, in order. */
  function RefreshLog(e: Env, cs: seq<Candidate>): (log: seq<nat>)
    requires EnvOK(e)
  {
    if cs == [] then []
    else
      var q := cs[..|cs| - 1];
      var t := RefreshTarget(e, PlaceAll(e, q), cs[|cs| - 1]);
      RefreshLog(e, q) + (if t.Some? then [t.value] else [])
  }

  lemma PlaceAllStep(e: Env, cs: seq<Candidate>, j: nat)
    requires EnvOK(e) && j < |cs|
    ensures PlaceAll(e, cs[..j + 1]) == Place(e, PlaceAll(e, cs[..j]), cs[j])
    ensures RefreshLog(e, cs[..j + 1])
              == RefreshLog(e, cs[..j]) + (var t := RefreshTarget(e, PlaceAll(e, cs[..j]), cs[j]);
                                            if t.Some? then [t.value] else [])
  {
    assert cs[..j + 1][..j] == cs[..j];
  }

  lemma AllOKPrefix(cs: seq<Candidate>, j: nat)
    requires AllOK(cs) && j < |cs|
    ensures AllOK(cs[..j]) && CandOK(cs[j])
  {
    assert cs[j] in cs;
    assert forall c :: c in cs[..j] ==> c in cs;
  }

  // ---------------------------------------------------------------- what a run does

  /** Each of `frames` is the frame on file at its place, or a refresh of it. */
  predicate KeptOrRefreshed(existing: seq<Frame>, frames: seq<Frame>, today: Calendar.Day)
  {
    |frames| == |existing|
    && forall i :: 0 <= i < |existing| ==> frames[i] == existing[i] || RefreshOf(existing[i], frames[i], today)
  }

  /** No two of `fs` have the same id. */
  predicate IdsDistinct(fs: seq<Frame>)
  {
    forall k, l :: 0 <= k < l < |fs| ==> fs[k].frameId != fs[l].frameId
  }

  /** Frames on file are only ever refreshed: each keeps its identity, naming and triggers. */
  lemma {:induction false} RunKeepsFrames(e: Env, cs: seq<Candidate>)
    requires EnvOK(e)
    ensures KeptOrRefreshed(e.existing, PlaceAll(e, cs).frames, e.today)
  {
    if cs != [] {
      var j := |cs| - 1;
      PlaceAllStep(e, cs, j);
      assert cs[..j + 1] == cs;
      RunKeepsFrames(e, cs[..j]);
    }
  }

  /** The ids of the frames a log names. */
  function LoggedIds(fs: seq<Frame>, log: seq<nat>): set<string>
    requires forall k :: 0 <= k < |log| ==> log[k] < |fs|
  {
    if log == [] then {} else LoggedIds(fs, log[..|log| - 1]) + {fs[log[|log| - 1]].frameId}
  }

  lemma {:induction false} LoggedIdsHas(fs: seq<Frame>, log: seq<nat>, id: string)
    requires forall k :: 0 <= k < |log| ==> log[k] < |fs|
    ensures id in LoggedIds(fs, log) <==> exists k :: 0 <= k < |log| && fs[log[k]].frameId == id
  {
    if log != [] {
      var q := log[..|log| - 1];
      LoggedIdsHas(fs, q, id);
      assert forall k :: 0 <= k < |q| ==> q[k] == log[k];
      if fs[log[|log| - 1]].frameId == id {
        assert fs[log[|log| - 1]].frameId == id;
      }
    }
  }

  /** A trivial combination of the facts a run step needs about its log. */
  predicate LogFacts(e: Env, st: Run, log: seq<nat>)
    requires |st.frames| == |e.existing|
  {
    (forall k :: 0 <= k < |log| ==> log[k] < |e.existing|)
    && (forall i :: 0 <= i < |e.existing| ==> st.frames[i].frameId == e.existing[i].frameId)
    && st.updated == LoggedIds(e.existing, log)
    && (forall i :: 0 <= i < |e.existing| && i !in log ==> st.frames[i] == e.existing[i])
    && (forall k, l :: 0 <= k < l < |log| ==> e.existing[log[k]].frameId != e.existing[log[l]].frameId)
  }

  /**
   * Each frame on file is refreshed at most once per run: the refreshed frames have
   * pairwise different ids, the refreshed ids are exactly the `updated_ids`, and a
   * frame no step refreshed is left as it was.
   */
  lemma {:induction false} RunRefreshesOnce(e: Env, cs: seq<Candidate>)
    requires EnvOK(e)
    ensures LogFacts(e, PlaceAll(e, cs), RefreshLog(e, cs))
  {
    if cs != [] {
      var j := |cs| - 1;
      PlaceAllStep(e, cs, j);
      assert cs[..j + 1] == cs;
      RunRefreshesOnce(e, cs[..j]);
      PlaceLogs(e, PlaceAll(e, cs[..j]), cs[j], RefreshLog(e, cs[..j]));
    }
  }

  /** One step keeps the log facts, logging the frame it refreshes. */
  lemma PlaceLogs(e: Env, st: Run, c: Candidate, log: seq<nat>)
    requires EnvOK(e) && |st.frames| == |e.existing|
    requires LogFacts(e, st, log)
    ensures var t := RefreshTarget(e, st, c);
            LogFacts(e, Place(e, st, c), log + if t.Some? then [t.value] else [])
  {
    var t := RefreshTarget(e, st, c);
    PlaceFrames(e, st, c);
    if t.Some? {
      LogRefresh(e, st, Place(e, st, c), log, t.value);
    } else {
      assert log + [] == log;
    }
  }

  /** The frames on file after a step: the target refreshed, or all as they were. */
  lemma PlaceFrames(e: Env, st: Run, c: Candidate)
    requires EnvOK(e) && |st.frames| == |e.existing|
    ensures var t := RefreshTarget(e, st, c); var r := Place(e, st, c);
            if t.Some? then
              r.frames == st.frames[t.value := r.frames[t.value]]
              && r.frames[t.value].frameId == st.frames[t.value].frameId
              && r.updated == st.updated + {st.frames[t.value].frameId}
            else r.frames == st.frames && r.updated == st.updated
  {
    var t := RefreshTarget(e, st, c);
    var m := MetadataFor(e, c.context);
    if t.Some? {
      var f := st.frames[t.value];
      assert Place(e, st, c) == Run(st.frames[t.value := Refresh(f, c.built, e.today)], st.created, st.updated + {f.frameId});
    } else if m.None? || EmptyMeta(m.value) {
      assert Place(e, st, c) == st;
    } else {
      assert Place(e, st, c) == Run(st.frames, st.created + [NewFrame(e, c, m.value, |e.existing| + |st.created| + 1)], st.updated);
    }
  }

  lemma LogRefresh(e: Env, st: Run, r: Run, log: seq<nat>, i: nat)
    requires |st.frames| == |e.existing| && |r.frames| == |e.existing| && i < |e.existing|
    requires LogFacts(e, st, log) && st.frames[i].frameId !in st.updated
    requires r.frames == st.frames[i := r.frames[i]] && r.frames[i].frameId == st.frames[i].frameId
    requires r.updated == st.updated + {st.frames[i].frameId}
    ensures LogFacts(e, r, log + [i])
  {
    var log' := log + [i];
    var id := e.existing[i].frameId;
    assert log'[..|log'| - 1] == log;
    LoggedIdsHas(e.existing, log, id);
    assert forall k :: 0 <= k < |log| ==> e.existing[log[k]].frameId != id;
    forall i' | 0 <= i' < |e.existing| && i' !in log' ensures r.frames[i'] == e.existing[i'] {
      assert i' != i && i' !in log;
    }
  }

  /** A new frame numbered `n`: some context's id with that number. */
  ghost predicate Numbered(f: Frame, n: nat)
  {
    exists c: string :: f.frameId == NewFrameId(c, n)
  }

  /** What every new frame satisfies, whatever the model replied. */
  ghost predicate WellMade(owner: string, today: Calendar.Day, f: Frame, n: nat)
  {
    Numbered(f, n) && f.ownerId == owner
    && |f.name| <= 50 && |f.description| <= 300 && f.triggers != []
    && f.lifecycle.Some? && f.lifecycle.value.status == FrameActive
    && f.lifecycle.value.lastActivated == Some(today) && f.lifecycle.value.firstObserved.Some?
    && (forall a :: a in f.profile.primary ==> ValidActivation(a))
    && (f.effectiveness.Some? && f.effectiveness.value.successRate.Some? ==>
          0.0 <= f.effectiveness.value.successRate.value <= 1.0)
  }

  lemma NewFrameWellMade(e: Env, c: Candidate, m: Metadata, n: nat)
    requires CandOK(c)
    ensures WellMade(e.owner, e.today, NewFrame(e, c, m, n), n)
  {
    FrameActivationsValid(c.traces);
    EffectivenessFacts(c.traces);
    assert NewFrame(e, c, m, n).frameId == NewFrameId(c.context, n);
  }

  /** Every frame of `c` is well made, the `k`-th numbered `base + k + 1`. */
  ghost predicate AllWellMade(owner: string, today: Calendar.Day, base: nat, c: seq<Frame>)
  {
    forall k :: 0 <= k < |c| ==> WellMade(owner, today, c[k], base + k + 1)
  }

  /** `now` is `before`, or `before` and one more well-made frame numbered next. */
  ghost predicate GrowsByOne(owner: string, today: Calendar.Day, base: nat, before: seq<Frame>, now: seq<Frame>)
  {
    now == before
    || (|now| == |before| + 1 && now[..|before|] == before
        && WellMade(owner, today, now[|before|], base + |before| + 1))
  }

  /** The frames a step creates: none when it refreshes or the reply is empty, else one. */
  lemma PlaceCreated(e: Env, st: Run, c: Candidate)
    requires EnvOK(e) && |st.frames| == |e.existing|
    ensures var m := MetadataFor(e, c.context);
            Place(e, st, c).created
              == if RefreshTarget(e, st, c).None? && m.Some? && !EmptyMeta(m.value)
                 then st.created + [NewFrame(e, c, m.value, |e.existing| + |st.created| + 1)]
                 else st.created
  {
    var t := RefreshTarget(e, st, c);
    var m := MetadataFor(e, c.context);
    if t.Some? {
      var f := st.frames[t.value];
      assert Place(e, st, c) == Run(st.frames[t.value := Refresh(f, c.built, e.today)], st.created, st.updated + {f.frameId});
    } else if m.None? || EmptyMeta(m.value) {
      assert Place(e, st, c) == st;
    } else {
      assert Place(e, st, c) == Run(st.frames, st.created + [NewFrame(e, c, m.value, |e.existing| + |st.created| + 1)], st.updated);
    }
  }

  /** One step adds at most one frame, well made and numbered after those made before. */
  lemma PlaceCreates(e: Env, st: Run, c: Candidate)
    requires EnvOK(e) && |st.frames| == |e.existing| && CandOK(c)
    ensures GrowsByOne(e.owner, e.today, |e.existing|, st.created, Place(e, st, c).created)
  {
    PlaceCreated(e, st, c);
    var m := MetadataFor(e, c.context);
    if RefreshTarget(e, st, c).None? && m.Some? && !EmptyMeta(m.value) {
      var n := |e.existing| + |st.created| + 1;
      NewFrameWellMade(e, c, m.value, n);
      GrowsWith(e.owner, e.today, |e.existing|, st.created, NewFrame(e, c, m.value, n));
    }
  }

  lemma GrowsWith(owner: string, today: Calendar.Day, base: nat, before: seq<Frame>, f: Frame)
    requires WellMade(owner, today, f, base + |before| + 1)
    ensures GrowsByOne(owner, today, base, before, before + [f])
  {
    assert (before + [f])[..|before|] == before;
  }

  /**
   * The new frames are numbered on from the frames on file: the `k`-th new frame has
   * sequence number `|existing| + k + 1`, and each is well made.
   */
  lemma {:induction false} RunCreates(e: Env, cs: seq<Candidate>)
    requires EnvOK(e) && AllOK(cs)
    ensures AllWellMade(e.owner, e.today, |e.existing|, PlaceAll(e, cs).created)
  {
    if cs != [] {
      var j := |cs| - 1;
      PlaceAllStep(e, cs, j);
      AllOKPrefix(cs, j);
      assert cs[..j + 1] == cs;
      RunCreates(e, cs[..j]);
      var st := PlaceAll(e, cs[..j]);
      PlaceCreates(e, st, cs[j]);
      CreatedExtend(e.owner, e.today, |e.existing|, st.created, PlaceAll(e, cs).created);
    }
  }

  lemma CreatedExtend(owner: string, today: Calendar.Day, base: nat, before: seq<Frame>, now: seq<Frame>)
    requires AllWellMade(owner, today, base, before)
    requires GrowsByOne(owner, today, base, before, now)
    ensures AllWellMade(owner, today, base, now)
  {
    if now != before {
      forall k | 0 <= k < |now| ensures WellMade(owner, today, now[k], base + k + 1) {
        if k < |before| {
          assert now[k] == before[k];
        }
      }
    }
  }

  /** The new frames of a run have pairwise different ids. */
  lemma CreatedDistinct(e: Env, cs: seq<Candidate>)
    requires EnvOK(e) && AllOK(cs)
    ensures IdsDistinct(PlaceAll(e, cs).created)
  {
    RunCreates(e, cs);
    var c := PlaceAll(e, cs).created;
    WellMadeNumbered(e.owner, e.today, |e.existing|, c);
    NumberedDistinct(|e.existing|, c);
  }

  lemma WellMadeNumbered(owner: string, today: Calendar.Day, base: nat, c: seq<Frame>)
    requires AllWellMade(owner, today, base, c)
    ensures forall k :: 0 <= k < |c| ==> Numbered(c[k], base + k + 1)
  {
  }

  lemma NumberedDistinct(base: nat, c: seq<Frame>)
    requires forall k :: 0 <= k < |c| ==> Numbered(c[k], base + k + 1)
    ensures IdsDistinct(c)
  {
    forall k, l | 0 <= k < l < |c| ensures c[k].frameId != c[l].frameId {
      assert Numbered(c[k], base + k + 1) && Numbered(c[l], base + l + 1);
      var x :| c[k].frameId == NewFrameId(x, base + k + 1);
      var y :| c[l].frameId == NewFrameId(y, base + l + 1);
      NewFrameIdsDiffer(x, base + k + 1, y, base + l + 1);
    }
  }

  // ================================================================ the clustering run

  /** The matched frame's derived fields reassigned one by one. */
  method RefreshFields(f0: Frame, b: Built, today: Calendar.Day) returns (f: Frame)
    ensures f == Refresh(f0, b, today)
  {
    f := f0;
    f := f.(patterns := b.patterns);
    f := f.(profile := f.profile.(primary := b.primary));
    f := f.(effectiveness := b.effectiveness);
    if f.lifecycle.Some? {
      f := f.(lifecycle := Some(f.lifecycle.value.(lastActivated := Some(today))));
    }
  }

  /** One candidate placed: its matched frame's fields reassigned in place, or a new frame appended. */
  method PlaceOne(e: Env, st: Run, c: Candidate) returns (r: Run)
    requires EnvOK(e) && |st.frames| == |e.existing|
    ensures r == Place(e, st, c)
  {
    if c.context in e.index && st.frames[e.index[c.context]].frameId !in st.updated {
      r := RefreshMatched(e, st, c);
    } else {
      r := CreateOrSkip(e, st, c);
    }
  }

  /** The matched frame, not yet refreshed in this run, refreshed in place. */
  method RefreshMatched(e: Env, st: Run, c: Candidate) returns (r: Run)
    requires EnvOK(e) && |st.frames| == |e.existing|
    requires c.context in e.index && st.frames[e.index[c.context]].frameId !in st.updated
    ensures r == Place(e, st, c)
  {
    var i := e.index[c.context];
    var f := RefreshFields(st.frames[i], c.built, e.today);
    r := Run(st.frames[i := f], st.created, st.updated + {f.frameId});
  }

  /** No frame to refresh: a new frame from the model's reply, or nothing when it gives none. */
  method CreateOrSkip(e: Env, st: Run, c: Candidate) returns (r: Run)
    requires EnvOK(e) && |st.frames| == |e.existing|
    requires c.context !in e.index || st.frames[e.index[c.context]].frameId in st.updated
    ensures r == Place(e, st, c)
  {
    var m := MetadataFor(e, c.context);
    if m.Some? && !EmptyMeta(m.value) {
      r := Run(st.frames, st.created + [NewFrame(e, c, m.value, |e.existing| + |st.created| + 1)], st.updated);
    } else {
      r := st;
    }
  }

  /** The main loop over the candidates. */
  method PlaceCandidates(e: Env, cs: seq<Candidate>) returns (r: Run)
    requires EnvOK(e)
    ensures r == PlaceAll(e, cs)
  {
    r := Run(e.existing, [], {});
    var j := 0;
    while j < |cs|
      invariant 0 <= j <= |cs|
      invariant r == PlaceAll(e, cs[..j])
    {
      PlaceAllStep(e, cs, j);
      r := PlaceOne(e, r, cs[j]);
      j := j + 1;
    }
    assert cs[..j] == cs;
  }

  /** The candidates of a set of traces: the groups, in first-seen key order, with at least `minTraces` traces. */
  function CandidatesOf(traces: seq<Trace>, minTraces: nat): (cs: seq<Candidate>)
    ensures AllOK(cs)
  {
    var keys := ContextKeys(traces);
    GroupsReady(keys, traces);
    var g := Seqs.Grouped(keys, traces);
    Pick(g.order, g.members, minTraces)
  }

  /** What a clustering run returns (the new frames) and writes (all frames), if it writes. */
  datatype Clustered = Clustered(created: seq<Frame>, saved: Option<seq<Frame>>)

  function ClusterEnv(owner: string, existing: seq<Frame>, today: Calendar.Day,
                      reply: string -> string, parse: string -> Option<Metadata>): (e: Env)
    ensures EnvOK(e)
  {
    Env(owner, existing, FrameIndex(existing), today, reply, parse)
  }

  /** `cluster`: the new frames, and the frames on file followed by them as what is saved. */
  function Clustering(owner: string, traces: seq<Trace>, existing: seq<Frame>, minTraces: nat, today: Calendar.Day,
                      reply: string -> string, parse: string -> Option<Metadata>): (out: Clustered)
    ensures out.saved.None? ==> out.created == []
  {
    if traces == [] then Clustered([], None)
    else
      var cs := CandidatesOf(traces, minTraces);
      if cs == [] then Clustered([], None)
      else
        var st := PlaceAll(ClusterEnv(owner, existing, today, reply, parse), cs);
        Clustered(st.created, Some(st.frames + st.created))
  }

  /** The clustering run: group, pick and analyse, index the frames on file, place every candidate. */
  method Cluster(owner: string, traces: seq<Trace>, existing: seq<Frame>, minTraces: nat, today: Calendar.Day,
                 reply: string -> string, parse: string -> Option<Metadata>) returns (out: Clustered)
    ensures out == Clustering(owner, traces, existing, minTraces, today, reply, parse)
  {
    if traces == [] {
      return Clustered([], None);
    }
    var order, members := GroupByContext(traces);
    GroupsReady(ContextKeys(traces), traces);
    var cands := CollectCandidates(order, members, minTraces);
    if cands == [] {
      return Clustered([], None);
    }
    assert cands == CandidatesOf(traces, minTraces);
    var index := BuildIndex(existing);
    var e := Env(owner, existing, index, today, reply, parse);
    assert e == ClusterEnv(owner, existing, today, reply, parse);
    var st := PlaceCandidates(e, cands);
    out := Clustered(st.created, Some(st.frames + st.created));
  }

  /** The size of the group with key `k`. */
  lemma GroupSize(traces: seq<Trace>, k: string)
    requires k in Seqs.Grouped(ContextKeys(traces), traces).members
    ensures |Seqs.Grouped(ContextKeys(traces), traces).members[k]| == Seqs.Count(ContextKeys(traces), k)
  {
    Seqs.GroupedIsPartition(ContextKeys(traces), traces);
  }

  /**
   * Nothing is written and nothing is returned exactly when there are no traces or no
   * context has at least `minTraces` traces.
   */
  lemma ClusterNothing(owner: string, traces: seq<Trace>, existing: seq<Frame>, minTraces: nat, today: Calendar.Day,
                       reply: string -> string, parse: string -> Option<Metadata>)
    ensures Clustering(owner, traces, existing, minTraces, today, reply, parse).saved.None?
            <==> traces == [] || forall k :: k in ContextKeys(traces) ==> Seqs.Count(ContextKeys(traces), k) < minTraces
  {
    var keys := ContextKeys(traces);
    var g := Seqs.Grouped(keys, traces);
    Seqs.GroupedIsPartition(keys, traces);
    GroupsReady(keys, traces);
    forall k | k in g.order ensures |g.members[k]| == Seqs.Count(keys, k) {
      GroupSize(traces, k);
    }
  }

  /**
   * What a run writes: the frames on file, each as it was or refreshed (never renamed,
   * never re-triggered), followed by the new frames, which are well made, numbered on
   * from the frames on file, and have pairwise different ids.
   */
  ghost predicate Written(owner: string, today: Calendar.Day, existing: seq<Frame>, created: seq<Frame>, saved: seq<Frame>)
  {
    |saved| == |existing| + |created| && saved[|existing|..] == created
    && KeptOrRefreshed(existing, saved[..|existing|], today)
    && AllWellMade(owner, today, |existing|, created)
    && IdsDistinct(created)
  }

  lemma WrittenOf(owner: string, today: Calendar.Day, existing: seq<Frame>, frames: seq<Frame>, created: seq<Frame>)
    requires KeptOrRefreshed(existing, frames, today)
    requires AllWellMade(owner, today, |existing|, created)
    requires IdsDistinct(created)
    ensures Written(owner, today, existing, created, frames + created)
  {
    assert (frames + created)[|existing|..] == created;
    assert (frames + created)[..|existing|] == frames;
  }

  lemma RunWrites(e: Env, cs: seq<Candidate>)
    requires EnvOK(e) && AllOK(cs)
    ensures Written(e.owner, e.today, e.existing, PlaceAll(e, cs).created, PlaceAll(e, cs).frames + PlaceAll(e, cs).created)
  {
    var st := PlaceAll(e, cs);
    RunKeepsFrames(e, cs);
    RunCreates(e, cs);
    CreatedDistinct(e, cs);
    WrittenOf(e.owner, e.today, e.existing, st.frames, st.created);
  }

  /** Whenever a run writes, what it writes is as `Written` describes. */
  lemma ClusterWrites(owner: string, traces: seq<Trace>, existing: seq<Frame>, minTraces: nat, today: Calendar.Day,
                      reply: string -> string, parse: string -> Option<Metadata>)
    requires Clustering(owner, traces, existing, minTraces, today, reply, parse).saved.Some?
    ensures var out := Clustering(owner, traces, existing, minTraces, today, reply, parse);
            Written(owner, today, existing, out.created, out.saved.value)
  {
    RunWrites(ClusterEnv(owner, existing, today, reply, parse), CandidatesOf(traces, minTraces));
  }

  /** The frames the run refreshed, in order (none when it writes nothing). */
  function ClusterLog(owner: string, traces: seq<Trace>, existing: seq<Frame>, minTraces: nat, today: Calendar.Day,
                      reply: string -> string, parse: string -> Option<Metadata>): seq<nat>
  {
    if traces == [] then []
    else RefreshLog(ClusterEnv(owner, existing, today, reply, parse), CandidatesOf(traces, minTraces))
  }

  /**
   * A frame on file is refreshed at most once per run: the refreshed frames have
   * pairwise different ids, and every frame not refreshed is written back unchanged.
   */
  predicate RefreshedOnce(existing: seq<Frame>, log: seq<nat>, saved: seq<Frame>)
  {
    |existing| <= |saved|
    && (forall k :: 0 <= k < |log| ==> log[k] < |existing|)
    && (forall k, l :: 0 <= k < l < |log| ==> existing[log[k]].frameId != existing[log[l]].frameId)
    && (forall i :: 0 <= i < |existing| && i !in log ==> saved[i] == existing[i])
  }

  lemma RunLogWrites(e: Env, cs: seq<Candidate>)
    requires EnvOK(e)
    ensures RefreshedOnce(e.existing, RefreshLog(e, cs), PlaceAll(e, cs).frames + PlaceAll(e, cs).created)
  {
    var st := PlaceAll(e, cs);
    RunRefreshesOnce(e, cs);
    LoggedOnce(e, st, RefreshLog(e, cs));
  }

  lemma LoggedOnce(e: Env, st: Run, log: seq<nat>)
    requires |st.frames| == |e.existing| && LogFacts(e, st, log)
    ensures RefreshedOnce(e.existing, log, st.frames + st.created)
  {
    assert forall i :: 0 <= i < |e.existing| ==> (st.frames + st.created)[i] == st.frames[i];
  }

  lemma ClusterRefreshesOnce(owner: string, traces: seq<Trace>, existing: seq<Frame>, minTraces: nat, today: Calendar.Day,
                             reply: string -> string, parse: string -> Option<Metadata>)
    requires Clustering(owner, traces, existing, minTraces, today, reply, parse).saved.Some?
    ensures RefreshedOnce(existing, ClusterLog(owner, traces, existing, minTraces, today, reply, parse),
                          Clustering(owner, traces, existing, minTraces, today, reply, parse).saved.value)
  {
    RunLogWrites(ClusterEnv(owner, existing, today, reply, parse), CandidatesOf(traces, minTraces));
  }

}

/**
 * Conviction detection: for each cluster of signals, five resonance checks; a cluster
 * that passes enough of them reinforces a matching existing conviction or becomes a
 * new one with a generated statement; afterwards every conviction's strength is
 * recomputed from the signals its evidence names.
 *
 * The clustering (agglomerative, on embeddings) is an input: `labels[i]` is the cluster
 * of `ids[i]`. The cosine similarity between a cluster's mean embedding and an existing
 * conviction's statement embedding is the input `sim(lab, k)`; the language model's
 * reply for a cluster is `reply(lab)`; the random 8-hex-digit id tail of the k-th new
 * conviction is `hexId(k)`.
 */
module ConvictionDetector {
  import opened Wrappers
  import opened Calendar
  import opened Models
  import Seqs
  import Strings

  // ================================================================ the five resonance checks

  function Ids(signals: seq<Signal>): (r: seq<string>)
    ensures |r| == |signals| && forall i :: 0 <= i < |r| ==> r[i] == signals[i].signalId
  {
    seq(|signals|, i requires 0 <= i < |signals| => signals[i].signalId)
  }

  predicate IsInput(s: Signal) { s.direction == Input }
  predicate IsOutput(s: Signal) { s.direction == Output }

  /** Input/output convergence: the first input and the first output, if the cluster has both. */
  function BothDirections(signals: seq<Signal>, today: Day): seq<Convergence>
  {
    var inputs := Seqs.Filter(signals, IsInput);
    var outputs := Seqs.Filter(signals, IsOutput);
    if inputs == [] || outputs == [] then []
    else [Convergence(inputs[0].signalId, outputs[0].signalId, None, today)]
  }

  function Dates(signals: seq<Signal>): (r: seq<Day>)
    ensures |r| == |signals| && forall i :: 0 <= i < |r| ==> r[i] == signals[i].source.date
  {
    seq(|signals|, i requires 0 <= i < |signals| => signals[i].source.date)
  }

  function MinOf(xs: seq<int>): (m: int)
    requires xs != []
    ensures m in xs && forall i :: 0 <= i < |xs| ==> m <= xs[i]
  {
    if |xs| == 1 then xs[0]
    else
      var m := MinOf(xs[1..]);
      if xs[0] < m then xs[0] else m
  }

  function MaxOf(xs: seq<int>): (m: int)
    requires xs != []
    ensures m in xs && forall i :: 0 <= i < |xs| ==> xs[i] <= m
  {
    if |xs| == 1 then xs[0]
    else
      var m := MaxOf(xs[1..]);
      if xs[0] > m then xs[0] else m
  }

  const MinSpanDays: int := 7

  /**
   * Temporal persistence: the distinct dates, sorted; fewer than two of them, or a span
   * below seven days from the first to the last, gives nothing.
   */
  function SpansDays(signals: seq<Signal>): seq<Persistence>
  {
    var dates := Dates(signals);
    if |Seqs.Dedup(dates)| < 2 then []
    else
      var first, last := MinOf(dates), MaxOf(dates);
      if last - first < MinSpanDays then []
      else [Persistence(Ids(signals), last - first, Some(first), Some(last))]
  }

  function Contexts(signals: seq<Signal>): (r: seq<SignalContext>)
    ensures |r| == |signals| && forall i :: 0 <= i < |r| ==> r[i] == signals[i].source.context
  {
    seq(|signals|, i requires 0 <= i < |signals| => signals[i].source.context)
  }

  /** Cross-context consistency: at least two distinct contexts. */
  function SpansContexts(signals: seq<Signal>): seq<CrossContext>
  {
    var contexts := Seqs.Dedup(Contexts(signals));
    if |contexts| < 2 then [] else [CrossContext(Ids(signals), contexts)]
  }

  predicate IsUnprompted(s: Signal)
  {
    s.direction == Output && (s.modality == SpokenSpontaneous || s.modality == WrittenCasual)
  }

  /** Spontaneous mentions: the first three unprompted outputs, each marked not prompted. */
  function UnpromptedOutputs(signals: seq<Signal>): seq<Spontaneous>
  {
    var sp := Seqs.Take(Seqs.Filter(signals, IsUnprompted), 3);
    seq(|sp|, i requires 0 <= i < |sp| => Spontaneous(sp[i].signalId, Some(false)))
  }

  predicate IsAction(s: Signal) { s.modality == Decided || s.modality == Acted }
  predicate IsStatement(s: Signal) { !IsAction(s) }

  /** Action alignment: the first statement paired with the first decision or act, if both exist. */
  function DecidedOrActed(signals: seq<Signal>): seq<Alignment>
  {
    var actions := Seqs.Filter(signals, IsAction);
    var statements := Seqs.Filter(signals, IsStatement);
    if actions == [] || statements == [] then []
    else [Alignment(statements[0].signalId, actions[0].signalId, Some(true))]
  }

  /** `x or None`. */
  function NoneIfEmpty<T>(s: seq<T>): Option<seq<T>>
  {
    if s == [] then None else Some(s)
  }

  function Present<T>(s: Option<seq<T>>): nat
  {
    if s.Some? && s.value != [] then 1 else 0
  }

  /** How many kinds of resonance the evidence holds (`sum(1 for x in [...] if x)`). */
  function EvidenceKinds(e: Evidence): (n: nat)
    ensures n <= 5
  {
    Present(e.convergence) + Present(e.persistence) + Present(e.crossContext)
    + Present(e.spontaneous) + Present(e.alignment)
  }

  /** The evidence of the five checks, each `None` when it found nothing, and how many found something. */
  function BuildResonance(signals: seq<Signal>, today: Day): (Evidence, nat)
  {
    var e := Evidence(
      NoneIfEmpty(BothDirections(signals, today)), NoneIfEmpty(SpansDays(signals)),
      NoneIfEmpty(SpansContexts(signals)), NoneIfEmpty(UnpromptedOutputs(signals)),
      NoneIfEmpty(DecidedOrActed(signals)));
    (e, EvidenceKinds(e))
  }

  /** The resonance count is the number of checks that found something. */
  lemma ResonanceCountsChecks(signals: seq<Signal>, today: Day)
    ensures var r := BuildResonance(signals, today);
            r.1 == (if BothDirections(signals, today) == [] then 0 else 1)
                   + (if SpansDays(signals) == [] then 0 else 1)
                   + (if SpansContexts(signals) == [] then 0 else 1)
                   + (if UnpromptedOutputs(signals) == [] then 0 else 1)
                   + (if DecidedOrActed(signals) == [] then 0 else 1)
    ensures var r := BuildResonance(signals, today);
            (r.0.convergence.None? <==> BothDirections(signals, today) == [])
            && (r.0.persistence.None? <==> SpansDays(signals) == [])
            && (r.0.crossContext.None? <==> SpansContexts(signals) == [])
            && (r.0.spontaneous.None? <==> UnpromptedOutputs(signals) == [])
            && (r.0.alignment.None? <==> DecidedOrActed(signals) == [])
  {
  }

  /** Two distinct dates at least seven days apart are exactly what temporal persistence needs. */
  lemma SpansDaysIff(signals: seq<Signal>)
    requires signals != []
    ensures SpansDays(signals) != [] <==> MaxOf(Dates(signals)) - MinOf(Dates(signals)) >= MinSpanDays
  {
    var dates := Dates(signals);
    var lo, hi := MinOf(dates), MaxOf(dates);
    if hi - lo >= MinSpanDays {
      DistinctPairInDedup(dates, lo, hi);
    }
  }

  lemma DistinctPairInDedup(xs: seq<int>, a: int, b: int)
    requires a in xs && b in xs && a != b
    ensures |Seqs.Dedup(xs)| >= 2
  {
    var d := Seqs.Dedup(xs);
    assert a in d && b in d;
  }

  // ================================================================ statement clean-up

  /** Phrases that mark a reply as the model talking about itself rather than the person. */
  const SelfReferenceBlocklist: seq<string> := [
    "我需要先查看", "我需要先了解", "我無法確定", "我無法判斷",
    "讓我先", "讓我查看", "根據以上", "根據這些",
    "需要更多資訊", "需要更多信息", "需要先查看", "需要先了解",
    "I need to", "I cannot", "Let me", "Based on the above",
    "作為AI", "作為一個AI", "作為語言模型",
    "我需要查看", "無法從這些", "這些文件"]

  /** Some phrase of `phrases`, lower-cased, occurs in `lower`. */
  function AnyPhraseIn(lower: string, phrases: seq<string>): (found: bool)
    ensures found <==> exists i :: 0 <= i < |phrases| && Strings.Contains(lower, Strings.Lower(phrases[i]))
  {
    if phrases == [] then false
    else if Strings.Contains(lower, Strings.Lower(phrases[|phrases| - 1])) then true
    else
      var found := AnyPhraseIn(lower, phrases[..|phrases| - 1]);
      assert found <==> exists i :: 0 <= i < |phrases| && Strings.Contains(lower, Strings.Lower(phrases[i])) by {
        if found {
          var i :| 0 <= i < |phrases| - 1 && Strings.Contains(lower, Strings.Lower(phrases[..|phrases| - 1][i]));
          assert phrases[..|phrases| - 1][i] == phrases[i];
        } else {
          forall i | 0 <= i < |phrases| ensures !Strings.Contains(lower, Strings.Lower(phrases[i])) {
            if i < |phrases| - 1 {
              assert phrases[..|phrases| - 1][i] == phrases[i];
            }
          }
        }
      }
      found
  }

  predicate IsSelfReference(statement: string)
  {
    AnyPhraseIn(Strings.Lower(statement), SelfReferenceBlocklist)
  }

  /** The characters stripped from around a generated statement: corner brackets and quotes. */
  predicate IsQuoteChar(c: char)
  {
    c == '「' || c == '」' || c == '"' || c == '\''
  }

  /**
   * The reply, stripped of whitespace and then of surrounding quotes; `None` when that
   * leaves nothing, when it reads SKIP in any letter case, or when it talks about itself.
   */
  function CleanStatement(reply: string): Option<string>
  {
    var t := Strings.StripBy(Strings.Strip(reply), IsQuoteChar);
    if t == [] || Strings.Upper(t) == "SKIP" then None
    else if IsSelfReference(t) then None
    else Some(t)
  }

  /**
   * An accepted statement is non-empty, not SKIP, free of every blocklisted phrase in any
   * ASCII letter case, and neither starts nor ends with a quote.
   */
  lemma CleanStatementAccepted(reply: string)
    ensures var r := CleanStatement(reply);
            r.Some? ==> r.value != [] && Strings.Upper(r.value) != "SKIP"
                        && !IsQuoteChar(r.value[0]) && !IsQuoteChar(r.value[|r.value| - 1])
                        && forall i :: 0 <= i < |SelfReferenceBlocklist| ==>
                             !Strings.Contains(Strings.Lower(r.value), Strings.Lower(SelfReferenceBlocklist[i]))
  {
  }

  /** A reply that is SKIP in any letter case, with spaces or quotes around it, is rejected. */
  lemma SkipRejected(reply: string)
    requires Strings.Upper(Strings.StripBy(Strings.Strip(reply), IsQuoteChar)) == "SKIP"
    ensures CleanStatement(reply) == None
  {
  }

  // ================================================================ strength

  /**
   * The authority multipliers as the source writes them. Their keys are not authority
   * names, so every signal takes the 0.8 default (lemma `AuthorityWeightIsConstant`).
   */
  const AuthorityWeights: map<string, real> :=
    map["first_person" := 1.0, "second_person" := 0.8, "third_party" := 0.6]

  function WeightOf(s: Signal): real
  {
    if s.authority.Some? && AuthorityName(s.authority.value) in AuthorityWeights
    then AuthorityWeights[AuthorityName(s.authority.value)]
    else 0.8
  }

  function SumWeights(signals: seq<Signal>): real
  {
    if signals == [] then 0.0 else SumWeights(signals[..|signals| - 1]) + WeightOf(signals[|signals| - 1])
  }

  /** The mean weight; 1.0 for no signals. */
  function AuthorityWeight(signals: seq<Signal>): real
  {
    if signals == [] then 1.0 else SumWeights(signals) / (|signals| as real)
  }

  lemma WeightIsDefault(s: Signal)
    ensures WeightOf(s) == 0.8
  {
    if s.authority.Some? {
      var n := AuthorityName(s.authority.value);
      assert n != "first_person" && n != "second_person" && n != "third_party";
    }
  }

  lemma {:induction false} SumWeightsIsDefault(signals: seq<Signal>)
    ensures SumWeights(signals) == 0.8 * (|signals| as real)
  {
    if signals != [] {
      SumWeightsIsDefault(signals[..|signals| - 1]);
      WeightIsDefault(signals[|signals| - 1]);
    }
  }

  /** No authority value is a key of the weight table: the weighting is a flat 0.8. */
  lemma AuthorityWeightIsConstant(signals: seq<Signal>)
    ensures signals != [] ==> AuthorityWeight(signals) == 0.8
  {
    SumWeightsIsDefault(signals);
  }

  predicate HasCrossDirection(signals: seq<Signal>)
  {
    (exists i :: 0 <= i < |signals| && signals[i].direction == Input)
    && (exists i :: 0 <= i < |signals| && signals[i].direction == Output)
  }

  function Min(a: real, b: real): real { if a <= b then a else b }

  /** Level bands: 0.8 core, 0.6 established, 0.4 developing, below that emerging. */
  function LevelOf(score: real): (l: Level)
    ensures l == Core <==> score >= 0.8
    ensures l == Established <==> 0.6 <= score < 0.8
    ensures l == Developing <==> 0.4 <= score < 0.6
    ensures l == Emerging <==> score < 0.4
  {
    if score >= 0.8 then Core
    else if score >= 0.6 then Established
    else if score >= 0.4 then Developing
    else Emerging
  }

  function StrengthScore(resonance: nat, count: nat, signals: seq<Signal>): real
  {
    var base := Min(1.0, (resonance as real) * 0.15 + (count as real) * 0.05);
    var weighted := if signals == [] then base else base * AuthorityWeight(signals);
    var capped := if signals != [] && !HasCrossDirection(signals) then Min(weighted, 0.5) else weighted;
    Min(1.0, capped)
  }

  /** `_compute_strength`: score from resonance and signal counts, level from the score's band. */
  function ComputeStrength(resonance: nat, count: nat, signals: seq<Signal>, today: Day): (s: Strength)
    ensures ValidStrength(s)
    ensures s.level == LevelOf(s.score)
    ensures s.trend == Some(Strengthening) && s.lastComputed == Some(today)
    ensures signals != [] && !HasCrossDirection(signals) ==> s.score <= 0.5
    ensures signals != [] && HasCrossDirection(signals) ==>
              s.score == Min(1.0, 0.8 * Min(1.0, (resonance as real) * 0.15 + (count as real) * 0.05))
    ensures signals != [] && !HasCrossDirection(signals) ==>
              s.score == Min(0.5, 0.8 * Min(1.0, (resonance as real) * 0.15 + (count as real) * 0.05))
  {
    AuthorityWeightIsConstant(signals);
    var score := StrengthScore(resonance, count, signals);
    Strength(score, LevelOf(score), Some(Strengthening), Some(today))
  }

  /** The design's worked example: three kinds of resonance over five signals of both directions. */
  lemma StrengthExample(signals: seq<Signal>, today: Day)
    requires |signals| == 5 && HasCrossDirection(signals)
    ensures ComputeStrength(3, 5, signals, today).score == 0.56
    ensures ComputeStrength(3, 5, signals, today).level == Developing
  {
  }

  /** `_extract_domains`: the three most common topics, or "general" when there are none. */
  function Topics(signals: seq<Signal>): seq<string>
  {
    if signals == [] then []
    else Topics(signals[..|signals| - 1]) + signals[|signals| - 1].topics.GetOr([])
  }

  function ExtractDomains(signals: seq<Signal>): (d: seq<string>)
    ensures 1 <= |d| <= 3
    ensures Topics(signals) == [] ==> d == ["general"]
    ensures Topics(signals) != [] ==> d == Seqs.MostCommonKeys(Topics(signals), 3)
  {
    var all := Topics(signals);
    if all == [] then ["general"]
    else
      assert all[0] in Seqs.Dedup(all);
      Seqs.MostCommonKeys(all, 3)
  }

  // ================================================================ detect

  /** Everything a run reads besides the clusters: the given inputs of the module comment. */
  datatype Env = Env(
    ownerId: string, today: Day, minResonance: int, signalMap: map<string, Signal>,
    sim: (int, nat) -> real, reply: int -> string, hexId: nat -> string)

  /** The state the cluster loop carries: the existing list (updated in place), the new ones, `updated_ids`. */
  datatype State = State(existing: seq<Conviction>, created: seq<Conviction>, updated: set<string>)

  /** `[signal_map[sid] for sid in ids if sid in signal_map]`. */
  function Mapped(ids: seq<string>, m: map<string, Signal>): (r: seq<Signal>)
    ensures |r| <= |ids|
    ensures forall i :: 0 <= i < |r| ==> r[i] in m.Values
    ensures forall v :: v in r ==> exists k :: k in ids && k in m && m[k] == v
  {
    if ids == [] then []
    else Mapped(ids[..|ids| - 1], m) + (if ids[|ids| - 1] in m then [m[ids[|ids| - 1]]] else [])
  }

  const MatchThreshold: real := 0.85

  predicate Matches(env: Env, lab: int, existing: seq<Conviction>, updated: set<string>, k: nat)
    requires k < |existing|
  {
    env.sim(lab, k) > MatchThreshold && existing[k].convictionId !in updated
  }

  /** The first existing conviction, from position `from` on, that matches the cluster and was not updated yet. */
  function FirstMatch(env: Env, lab: int, existing: seq<Conviction>, updated: set<string>, from: nat): (r: Option<nat>)
    requires from <= |existing|
    ensures r.Some? ==> from <= r.value < |existing| && Matches(env, lab, existing, updated, r.value)
    ensures r.Some? ==> forall j :: from <= j < r.value ==> !Matches(env, lab, existing, updated, j)
    ensures r.None? ==> forall j :: from <= j < |existing| ==> !Matches(env, lab, existing, updated, j)
    decreases |existing| - from
  {
    if from == |existing| then None
    else if Matches(env, lab, existing, updated, from) then Some(from)
    else FirstMatch(env, lab, existing, updated, from + 1)
  }

  function Reinforced(c: Conviction, ev: Evidence, kinds: nat, signals: seq<Signal>, today: Day): Conviction
  {
    c.(strength := ComputeStrength(kinds, |signals|, signals, today),
       evidence := ev,
       lifecycle := c.lifecycle.(lastReinforced := Some(today)))
  }

  function NewConviction(env: Env, k: nat, statement: string, ev: Evidence, kinds: nat, signals: seq<Signal>): Conviction
  {
    Conviction(
      env.ownerId, "conv_" + env.hexId(k), statement, None,
      ComputeStrength(kinds, |signals|, signals, env.today), ExtractDomains(signals), ev, None,
      ConvictionLifecycle(Active, env.today, Some(env.today), None, None))
  }

  /**
   * A conviction created today: active, first detected and reinforced today, with a
   * score in [0, 1].
   */
  predicate FreshlyCreated(c: Conviction, today: Day)
  {
    c.lifecycle.status == Active && c.lifecycle.firstDetected == today
    && c.lifecycle.lastReinforced == Some(today) && ValidStrength(c.strength)
  }

  /** What one pass of the cluster loop does with a cluster. */
  datatype Action = Skip | Reinforce(k: nat, c: Conviction) | Create(c: Conviction)

  function Decide(env: Env, st: State, lab: int, ids: seq<string>): (a: Action)
    ensures a.Reinforce? ==> a.k < |st.existing| && st.existing[a.k].convictionId !in st.updated
                              && a.c.convictionId == st.existing[a.k].convictionId
                              && ValidStrength(a.c.strength)
                              && a.c.lifecycle.lastReinforced == Some(env.today)
    ensures a.Create? ==> FreshlyCreated(a.c, env.today) && CleanStatement(env.reply(lab)) == Some(a.c.statement)
  {
    if |ids| < 3 then Skip
    else
      var signals := Mapped(ids, env.signalMap);
      if signals == [] then Skip
      else
        var res := BuildResonance(signals, env.today);
        if res.1 < env.minResonance then Skip
        else Respond(env, st, lab, signals, res.0, res.1)
  }

  /** A cluster with enough resonance: reinforce its match, or create from the reply, or skip. */
  function Respond(env: Env, st: State, lab: int, signals: seq<Signal>, ev: Evidence, kinds: nat): (a: Action)
    ensures a.Reinforce? ==> a.k < |st.existing| && st.existing[a.k].convictionId !in st.updated
                              && a.c.convictionId == st.existing[a.k].convictionId
                              && ValidStrength(a.c.strength)
                              && a.c.lifecycle.lastReinforced == Some(env.today)
    ensures a.Create? ==> FreshlyCreated(a.c, env.today) && CleanStatement(env.reply(lab)) == Some(a.c.statement)
  {
    match FirstMatch(env, lab, st.existing, st.updated, 0)
    case Some(k) => Reinforce(k, Reinforced(st.existing[k], ev, kinds, signals, env.today))
    case None =>
      match CleanStatement(env.reply(lab))
      case None => Skip
      case Some(statement) => Create(NewConviction(env, |st.created|, statement, ev, kinds, signals))
  }

  function Apply(st: State, a: Action): State
  {
    match a
    case Skip => st
    case Reinforce(k, c) =>
      if k < |st.existing|
      then st.(existing := st.existing[k := c], updated := st.updated + {st.existing[k].convictionId})
      else st
    case Create(c) => st.(created := st.created + [c])
  }

  /** One pass of the cluster loop. */
  function Visit(env: Env, st: State, lab: int, ids: seq<string>): State
  {
    Apply(st, Decide(env, st, lab, ids))
  }

  /** The cluster loop over the labels in dict order. */
  function RunClusters(env: Env, st: State, order: seq<int>, groups: map<int, seq<string>>): State
    requires forall l :: l in order ==> l in groups
  {
    if order == [] then st
    else
      var l := order[|order| - 1];
      Visit(env, RunClusters(env, st, order[..|order| - 1], groups), l, groups[l])
  }

  /** Every signal id a conviction's evidence names, in the order the recompute loop visits them. */
  function EvidenceSignalIds(e: Evidence): seq<string>
  {
    var io := e.convergence.GetOr([]);
    var tp := e.persistence.GetOr([]);
    var cc := e.crossContext.GetOr([]);
    var sm := e.spontaneous.GetOr([]);
    var aa := e.alignment.GetOr([]);
    Seqs.Flatten(seq(|io|, i requires 0 <= i < |io| => [io[i].inputSignal, io[i].outputSignal]))
    + Seqs.Flatten(seq(|tp|, i requires 0 <= i < |tp| => tp[i].signalIds))
    + Seqs.Flatten(seq(|cc|, i requires 0 <= i < |cc| => cc[i].signalIds))
    + seq(|sm|, i requires 0 <= i < |sm| => sm[i].signalId)
    + Seqs.Flatten(seq(|aa|, i requires 0 <= i < |aa| => [aa[i].statementSignal, aa[i].actionSignal]))
  }

  /**
   * The recompute of one conviction: strength from the evidence's kinds and the known
   * signals it names, each counted once; unchanged when it names no known signal.
   */
  function Recomputed(c: Conviction, m: map<string, Signal>, today: Day): (r: Conviction)
    ensures r.convictionId == c.convictionId && r.statement == c.statement && r.lifecycle == c.lifecycle
    ensures ValidStrength(c.strength) ==> ValidStrength(r.strength)
  {
    var signals := Mapped(Seqs.Dedup(EvidenceSignalIds(c.evidence)), m);
    if signals == [] then c
    else c.(strength := ComputeStrength(EvidenceKinds(c.evidence), |signals|, signals, today))
  }

  function RecomputeAll(cs: seq<Conviction>, m: map<string, Signal>, today: Day): seq<Conviction>
  {
    Seqs.Map(cs, (c: Conviction) => Recomputed(c, m, today))
  }

  /** `detect` either returns [] without writing, or rewrites the whole file and returns the new convictions. */
  datatype Outcome = Untouched | Saved(saved: seq<Conviction>, created: seq<Conviction>)

  function DetectSpec(env: Env, ids: seq<string>, labels: seq<int>, hasEmbeddings: bool,
                      existing: seq<Conviction>): Outcome
    requires |ids| == |labels|
  {
    if ids == [] || !hasEmbeddings || |ids| < 2 then Untouched
    else
      var g := Seqs.Grouped(labels, ids);
      Seqs.GroupedIsPartition(labels, ids);
      var st := RunClusters(env, State(existing, [], {}), g.order, g.members);
      var all := RecomputeAll(st.existing + st.created, env.signalMap, env.today);
      Saved(all, all[|st.existing|..])
  }

  /** The matching loop: the first existing conviction above the threshold not yet updated. */
  method FindMatch(env: Env, lab: int, existing: seq<Conviction>, updated: set<string>) returns (r: Option<nat>)
    ensures r == FirstMatch(env, lab, existing, updated, 0)
  {
    var k := 0;
    while k < |existing|
      invariant 0 <= k <= |existing|
      invariant FirstMatch(env, lab, existing, updated, k) == FirstMatch(env, lab, existing, updated, 0)
    {
      if env.sim(lab, k) > MatchThreshold && existing[k].convictionId !in updated {
        return Some(k);
      }
      k := k + 1;
    }
    return None;
  }

  /** One pass of the cluster loop's body. */
  method VisitCluster(env: Env, st: State, lab: int, sids: seq<string>) returns (next: State)
    ensures next == Visit(env, st, lab, sids)
  {
    var action := DecideAction(env, st, lab, sids);
    next := st;
    match action {
      case Skip =>
      case Reinforce(k, c) =>
        next := st.(existing := st.existing[k := c], updated := st.updated + {st.existing[k].convictionId});
      case Create(c) =>
        next := st.(created := st.created + [c]);
    }
  }

  /** What the loop body does with a cluster: skip it, reinforce a match or create a conviction. */
  method DecideAction(env: Env, st: State, lab: int, sids: seq<string>) returns (action: Action)
    ensures action == Decide(env, st, lab, sids)
  {
    action := Skip;
    if |sids| >= 3 {
      var signals := Mapped(sids, env.signalMap);
      if signals != [] {
        var res := BuildResonance(signals, env.today);
        if res.1 >= env.minResonance {
          action := RespondTo(env, st, lab, signals, res.0, res.1);
        }
      }
    }
  }

  /** A resonant cluster: look for a match, else ask for a statement. */
  method RespondTo(env: Env, st: State, lab: int, signals: seq<Signal>, ev: Evidence, kinds: nat) returns (action: Action)
    ensures action == Respond(env, st, lab, signals, ev, kinds)
  {
    var matched := FindMatch(env, lab, st.existing, st.updated);
    if matched.Some? {
      action := Reinforce(matched.value, Reinforced(st.existing[matched.value], ev, kinds, signals, env.today));
    } else {
      var statement := CleanStatement(env.reply(lab));
      if statement.Some? {
        action := Create(NewConviction(env, |st.created|, statement.value, ev, kinds, signals));
      } else {
        action := Skip;
      }
    }
  }

  /** The cluster loop. */
  method RunLoop(env: Env, st0: State, order: seq<int>, groups: map<int, seq<string>>) returns (st: State)
    requires forall l :: l in order ==> l in groups
    ensures st == RunClusters(env, st0, order, groups)
  {
    st := st0;
    var i := 0;
    while i < |order|
      invariant 0 <= i <= |order|
      invariant st == RunClusters(env, st0, order[..i], groups)
    {
      assert order[..i + 1][..i] == order[..i];
      st := VisitCluster(env, st, order[i], groups[order[i]]);
      i := i + 1;
    }
    assert order[..i] == order;
  }

  /** The recompute loop over every conviction, existing then new. */
  method RecomputeLoop(all: seq<Conviction>, m: map<string, Signal>, today: Day) returns (saved: seq<Conviction>)
    ensures saved == RecomputeAll(all, m, today)
  {
    saved := [];
    var j := 0;
    while j < |all|
      invariant 0 <= j <= |all|
      invariant saved == RecomputeAll(all[..j], m, today)
    {
      Seqs.MapSnoc(all, j, (c: Conviction) => Recomputed(c, m, today));
      saved := saved + [Recomputed(all[j], m, today)];
      j := j + 1;
    }
    assert all[..j] == all;
  }

  /** `detect`: group the ids by cluster, run the cluster loop, then recompute every strength. */
  method Detect(env: Env, ids: seq<string>, labels: seq<int>, hasEmbeddings: bool,
                existing: seq<Conviction>) returns (out: Outcome)
    requires |ids| == |labels|
    ensures out == DetectSpec(env, ids, labels, hasEmbeddings, existing)
  {
    if ids == [] || !hasEmbeddings || |ids| < 2 {
      return Untouched;
    }
    var order, groups := Seqs.GroupInto(labels, ids);
    Seqs.GroupedIsPartition(labels, ids);
    var st0 := State(existing, [], {});
    var st := RunLoop(env, st0, order, groups);
    RunKeepsIds(env, st0, order, groups);
    var saved := RecomputeLoop(st.existing + st.created, env.signalMap, env.today);
    out := Saved(saved, saved[|existing|..]);
  }

  // ================================================================ what a run promises

  /** Fewer than two signals, or no embeddings: nothing is written and nothing returned. */
  lemma TooFewSignalsChangeNothing(env: Env, ids: seq<string>, labels: seq<int>, hasEmbeddings: bool,
                                   existing: seq<Conviction>)
    requires |ids| == |labels|
    requires |ids| < 2 || !hasEmbeddings
    ensures DetectSpec(env, ids, labels, hasEmbeddings, existing) == Untouched
  {
  }

  /** A cluster below three ids, without known signals, or below the resonance bar changes nothing. */
  lemma WeakClusterChangesNothing(env: Env, st: State, lab: int, ids: seq<string>)
    requires |ids| < 3 || Mapped(ids, env.signalMap) == []
             || BuildResonance(Mapped(ids, env.signalMap), env.today).1 < env.minResonance
    ensures Visit(env, st, lab, ids) == st
  {
  }

  /**
   * A step touches at most one existing conviction, one whose id was not updated before,
   * and records its id; so no conviction id is reinforced twice in a run.
   */
  lemma StepReinforcesOnce(env: Env, st: State, lab: int, ids: seq<string>)
    ensures var st' := Visit(env, st, lab, ids);
            |st'.existing| == |st.existing| && st.updated <= st'.updated
            && (forall k :: 0 <= k < |st.existing| && st.existing[k].convictionId in st.updated
                  ==> st'.existing[k] == st.existing[k])
            && (forall k :: 0 <= k < |st.existing| && st'.existing[k] != st.existing[k]
                  ==> st.existing[k].convictionId in st'.updated)
            && (forall k, j :: 0 <= k < j < |st.existing| && st'.existing[k] != st.existing[k]
                  ==> st'.existing[j] == st.existing[j])
  {
    ApplyReinforcesOnce(st, Decide(env, st, lab, ids));
  }

  lemma ApplyReinforcesOnce(st: State, a: Action)
    requires a.Reinforce? ==> a.k < |st.existing| && st.existing[a.k].convictionId !in st.updated
    ensures var st' := Apply(st, a);
            |st'.existing| == |st.existing| && st.updated <= st'.updated
            && (forall k :: 0 <= k < |st.existing| && st.existing[k].convictionId in st.updated
                  ==> st'.existing[k] == st.existing[k])
            && (forall k :: 0 <= k < |st.existing| && st'.existing[k] != st.existing[k]
                  ==> st.existing[k].convictionId in st'.updated)
            && (forall k, j :: 0 <= k < j < |st.existing| && st'.existing[k] != st.existing[k]
                  ==> st'.existing[j] == st.existing[j])
  {
  }

  /** Conviction ids already counted as updated stay untouched through the rest of the run. */
  lemma {:induction false} RunKeepsUpdated(env: Env, st: State, order: seq<int>, groups: map<int, seq<string>>)
    requires forall l :: l in order ==> l in groups
    ensures var st' := RunClusters(env, st, order, groups);
            |st'.existing| == |st.existing| && st.updated <= st'.updated
            && forall k :: 0 <= k < |st.existing| && st.existing[k].convictionId in st.updated
                 ==> st'.existing[k] == st.existing[k]
  {
    if order != [] {
      var prev := RunClusters(env, st, order[..|order| - 1], groups);
      RunKeepsUpdated(env, st, order[..|order| - 1], groups);
      var l := order[|order| - 1];
      StepReinforcesOnce(env, prev, l, groups[l]);
    }
  }

  /** The cluster loop never changes which conviction sits at which position. */
  lemma StepKeepsIds(env: Env, st: State, lab: int, ids: seq<string>)
    ensures |Visit(env, st, lab, ids).existing| == |st.existing|
    ensures forall i :: 0 <= i < |st.existing| ==>
              Visit(env, st, lab, ids).existing[i].convictionId == st.existing[i].convictionId
  {
    var a := Decide(env, st, lab, ids);
    var r := Apply(st, a);
    if a.Reinforce? {
      assert r.existing == st.existing[a.k := a.c];
    } else {
      assert r.existing == st.existing;
    }
  }

  lemma {:induction false} RunKeepsIds(env: Env, st: State, order: seq<int>, groups: map<int, seq<string>>)
    requires forall l :: l in order ==> l in groups
    ensures |RunClusters(env, st, order, groups).existing| == |st.existing|
    ensures forall i :: 0 <= i < |st.existing| ==>
              RunClusters(env, st, order, groups).existing[i].convictionId == st.existing[i].convictionId
  {
    if order != [] {
      var prev := RunClusters(env, st, order[..|order| - 1], groups);
      RunKeepsIds(env, st, order[..|order| - 1], groups);
      StepKeepsIds(env, prev, order[|order| - 1], groups[order[|order| - 1]]);
    }
  }

  predicate StrengthsValid(cs: seq<Conviction>)
  {
    forall i :: 0 <= i < |cs| ==> ValidStrength(cs[i].strength)
  }

  predicate AllFresh(cs: seq<Conviction>, today: Day)
  {
    forall i :: 0 <= i < |cs| ==> FreshlyCreated(cs[i], today)
  }

  lemma StepKeepsStrengths(env: Env, st: State, lab: int, ids: seq<string>)
    requires StrengthsValid(st.existing)
    ensures StrengthsValid(Visit(env, st, lab, ids).existing)
  {
    var a := Decide(env, st, lab, ids);
    if a.Reinforce? {
      assert Apply(st, a).existing == st.existing[a.k := a.c];
    }
  }

  lemma StepCreatesFresh(env: Env, st: State, lab: int, ids: seq<string>)
    requires AllFresh(st.created, env.today)
    ensures AllFresh(Visit(env, st, lab, ids).created, env.today)
  {
    var a := Decide(env, st, lab, ids);
    if a.Create? {
      AppendFresh(st.created, a.c, env.today);
    }
  }

  lemma AppendFresh(cs: seq<Conviction>, c: Conviction, today: Day)
    requires AllFresh(cs, today) && FreshlyCreated(c, today)
    ensures AllFresh(cs + [c], today)
  {
    forall i | 0 <= i < |cs| + 1 ensures FreshlyCreated((cs + [c])[i], today) {
      if i < |cs| {
        assert (cs + [c])[i] == cs[i];
      }
    }
  }

  /** A new conviction's statement is the cleaned reply for its cluster. */
  lemma StepCreatesFromReply(env: Env, st: State, lab: int, ids: seq<string>)
    ensures var st' := Visit(env, st, lab, ids);
            st'.created == st.created
            || (|st'.created| == |st.created| + 1 && st'.created[..|st.created|] == st.created
                && CleanStatement(env.reply(lab)) == Some(st'.created[|st.created|].statement))
  {
    var a := Decide(env, st, lab, ids);
    if a.Create? {
      var now := Apply(st, a).created;
      assert now == st.created + [a.c];
      assert now[..|st.created|] == st.created && now[|st.created|] == a.c;
    }
  }

  lemma {:induction false} RunKeepsInvariants(env: Env, st: State, order: seq<int>, groups: map<int, seq<string>>)
    requires forall l :: l in order ==> l in groups
    requires StrengthsValid(st.existing) && AllFresh(st.created, env.today)
    ensures StrengthsValid(RunClusters(env, st, order, groups).existing)
    ensures AllFresh(RunClusters(env, st, order, groups).created, env.today)
  {
    if order != [] {
      var prev := RunClusters(env, st, order[..|order| - 1], groups);
      RunKeepsInvariants(env, st, order[..|order| - 1], groups);
      StepKeepsStrengths(env, prev, order[|order| - 1], groups[order[|order| - 1]]);
      StepCreatesFresh(env, prev, order[|order| - 1], groups[order[|order| - 1]]);
    }
  }

  /**
   * What `detect` returns is exactly the new convictions, which are the tail of what it
   * saves; the head is the existing list, in its order; every saved score is in [0, 1]
   * when every existing score was; every new conviction is active and first detected today.
   */
  lemma DetectSavesExistingThenNew(env: Env, ids: seq<string>, labels: seq<int>, hasEmbeddings: bool,
                                   existing: seq<Conviction>)
    requires |ids| == |labels|
    requires StrengthsValid(existing)
    ensures var out := DetectSpec(env, ids, labels, hasEmbeddings, existing);
            out.Saved? ==>
              |out.saved| == |existing| + |out.created| && out.created == out.saved[|existing|..]
              && (forall i :: 0 <= i < |existing| ==> out.saved[i].convictionId == existing[i].convictionId)
              && StrengthsValid(out.saved)
              && (forall i :: 0 <= i < |out.created| ==> out.created[i].lifecycle.status == Active
                                                         && out.created[i].lifecycle.firstDetected == env.today)
  {
    var out := DetectSpec(env, ids, labels, hasEmbeddings, existing);
    if out.Saved? {
      var g := Seqs.Grouped(labels, ids);
      Seqs.GroupedIsPartition(labels, ids);
      var st0 := State(existing, [], {});
      var st := RunClusters(env, st0, g.order, g.members);
      RunKeepsInvariants(env, st0, g.order, g.members);
      RunKeepsIds(env, st0, g.order, g.members);
      SavedAfterRun(st, env.signalMap, env.today);
    }
  }

  lemma SavedAfterRun(st: State, m: map<string, Signal>, today: Day)
    requires StrengthsValid(st.existing) && AllFresh(st.created, today)
    ensures var saved := RecomputeAll(st.existing + st.created, m, today);
            |saved| == |st.existing| + |st.created| && StrengthsValid(saved)
            && (forall i :: 0 <= i < |st.existing| ==> saved[i].convictionId == st.existing[i].convictionId)
            && (forall i :: |st.existing| <= i < |saved| ==> saved[i].lifecycle.status == Active
                                                             && saved[i].lifecycle.firstDetected == today)
  {
    var all := st.existing + st.created;
    assert StrengthsValid(all) by {
      forall i | 0 <= i < |all| ensures ValidStrength(all[i].strength) {
        if i >= |st.existing| {
          assert all[i] == st.created[i - |st.existing|];
        }
      }
    }
    RecomputeAllKeeps(all, m, today);
    forall i | |st.existing| <= i < |all|
      ensures all[i].lifecycle.status == Active && all[i].lifecycle.firstDetected == today
    {
      assert all[i] == st.created[i - |st.existing|];
    }
  }

  /** The recompute changes strengths only, and keeps them in [0, 1]. */
  lemma RecomputeAllKeeps(cs: seq<Conviction>, m: map<string, Signal>, today: Day)
    requires StrengthsValid(cs)
    ensures var r := RecomputeAll(cs, m, today);
            |r| == |cs| && StrengthsValid(r)
            && forall i :: 0 <= i < |cs| ==> r[i].convictionId == cs[i].convictionId
                                             && r[i].lifecycle == cs[i].lifecycle
  {
  }
}

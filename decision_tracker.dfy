/**
 * The decision follow-up queue and the outcome feedback spiral: which reasoning
 * traces are due for a follow-up, and what recording a decision's outcome writes
 * to the trace file and to the activated convictions' strength.
 */
module DecisionTracker {
  import opened Wrappers
  import opened Calendar
  import opened Models
  import Seqs
  import ConvictionDetector

  // ================================================================ the follow-up queue

  /** `tactical_days` when the configuration gives none. */
  const DefaultTacticalDays: int := 14

  /** One entry of the follow-up list. */
  datatype Followup = Followup(
    traceId: string, decision: string, confidence: Certainty, date: Day, daysAgo: int,
    trigger: string, activated: seq<string>)

  /** The ids of the convictions a trace activated, in order. */
  function ActivatedIds(t: Trace): (ids: seq<string>)
    ensures |ids| == |t.activated|
    ensures forall i :: 0 <= i < |ids| ==> ids[i] == t.activated[i].convictionId
  {
    seq(|t.activated|, i requires 0 <= i < |t.activated| => t.activated[i].convictionId)
  }

  /** The trace already has a result other than `pending`. */
  predicate Settled(t: Trace)
  {
    t.outcome.Some? && t.outcome.value.result.Some? && t.outcome.value.result.value != Pending
  }

  /**
   * A trace is due when its conclusion is not uncertain, its outcome is unrecorded or
   * pending, it is not dated before the backfill cutoff, and it is at least
   * `tacticalDays` old.
   */
  predicate Due(t: Trace, today: Day, tacticalDays: int, cutoff: Option<Day>)
  {
    t.conclusion.confidence != Uncertain
    && !Settled(t)
    && !(cutoff.Some? && t.source.date < cutoff.value)
    && today - t.source.date >= tacticalDays
  }

  function DueAt(today: Day, tacticalDays: int, cutoff: Option<Day>): Trace -> bool
  {
    (t: Trace) => Due(t, today, tacticalDays, cutoff)
  }

  function FollowupOf(t: Trace, today: Day): Followup
  {
    Followup(t.traceId, t.conclusion.decision, t.conclusion.confidence, t.source.date,
             today - t.source.date, t.trigger.situation, ActivatedIds(t))
  }

  function FollowupAt(today: Day): Trace -> Followup
  {
    (t: Trace) => FollowupOf(t, today)
  }

  /** `key=lambda x: -x["days_ago"]`. */
  function ByDaysAgoDesc(f: Followup): Seqs.Rank
  {
    Seqs.Rank(-(f.daysAgo as real), 0.0)
  }

  /** `get_pending_followups`: the due traces, oldest first (stable among equal ages). */
  function PendingFollowups(traces: seq<Trace>, today: Day, tacticalDays: int, cutoff: Option<Day>): seq<Followup>
  {
    Seqs.SortBy(Seqs.Keep(traces, DueAt(today, tacticalDays, cutoff), FollowupAt(today)), ByDaysAgoDesc)
  }

  /**
   * The queue holds exactly the follow-ups of the due traces, one per due trace, each
   * at least `tacticalDays` old, sorted by age descending.
   */
  lemma PendingFacts(traces: seq<Trace>, today: Day, tacticalDays: int, cutoff: Option<Day>)
    ensures var r := PendingFollowups(traces, today, tacticalDays, cutoff);
            (forall f :: f in r <==> exists t :: t in traces && Due(t, today, tacticalDays, cutoff) && f == FollowupOf(t, today))
            && multiset(r) == multiset(Seqs.Keep(traces, DueAt(today, tacticalDays, cutoff), FollowupAt(today)))
            && (forall f :: f in r ==> f.daysAgo >= tacticalDays && f.confidence != Uncertain)
            && (forall i, j :: 0 <= i < j < |r| ==> r[i].daysAgo >= r[j].daysAgo)
  {
    var due, at := DueAt(today, tacticalDays, cutoff), FollowupAt(today);
    var kept := Seqs.Keep(traces, due, at);
    var r := PendingFollowups(traces, today, tacticalDays, cutoff);
    Seqs.KeepIff(traces, due, at);
    forall f ensures f in r <==> f in kept {
      Seqs.InMultiset(r, kept, f);
    }
    forall i, j | 0 <= i < j < |r| ensures r[i].daysAgo >= r[j].daysAgo {
      assert !Seqs.Below(ByDaysAgoDesc(r[j]), ByDaysAgoDesc(r[i]));
    }
  }

  /** The loop of `get_pending_followups`, then the sort. */
  method CollectFollowups(traces: seq<Trace>, today: Day, tacticalDays: int, cutoff: Option<Day>)
    returns (pending: seq<Followup>)
    ensures pending == PendingFollowups(traces, today, tacticalDays, cutoff)
  {
    var due, at := DueAt(today, tacticalDays, cutoff), FollowupAt(today);
    var found: seq<Followup> := [];
    var i := 0;
    while i < |traces|
      invariant 0 <= i <= |traces|
      invariant found == Seqs.Keep(traces[..i], due, at)
    {
      Seqs.KeepSnoc(traces, i, due, at);
      var t := traces[i];
      if t.conclusion.confidence != Uncertain && !Settled(t) && !(cutoff.Some? && t.source.date < cutoff.value) {
        var daysAgo := today - t.source.date;
        if daysAgo >= tacticalDays {
          found := found + [Followup(t.traceId, t.conclusion.decision, t.conclusion.confidence, t.source.date,
                                     daysAgo, t.trigger.situation, ActivatedIds(t))];
        }
      }
      i := i + 1;
    }
    assert traces[..i] == traces;
    pending := Seqs.SortBy(found, ByDaysAgoDesc);
  }

  // ================================================================ recording an outcome

  /** `impact_effect`: what a result does to the activated convictions. */
  function EffectOf(r: OutcomeResult): (e: Effect)
    ensures e == Reinforced <==> r == Positive
    ensures e == Weakened <==> r == Negative
    ensures e == Unchanged <==> r != Positive && r != Negative
  {
    match r
    case Positive => Reinforced
    case Negative => Weakened
    case _ => Unchanged
  }

  /** One impact per activated conviction, in activation order. */
  function ImpactsOf(t: Trace, e: Effect): (r: seq<Impact>)
    ensures |r| == |t.activated|
    ensures forall i :: 0 <= i < |r| ==> r[i] == Impact(t.activated[i].convictionId, e)
  {
    seq(|t.activated|, i requires 0 <= i < |t.activated| => Impact(t.activated[i].convictionId, e))
  }

  function OutcomeFor(t: Trace, result: OutcomeResult, note: Option<string>, today: Day): Outcome
  {
    Outcome(Some(result), note, Some(ImpactsOf(t, EffectOf(result))), Some(today))
  }

  /** Where the first trace with id `id` sits, if any. */
  function FirstTrace(traces: seq<Trace>, id: string): (k: Option<nat>)
    ensures k.Some? ==> k.value < |traces| && traces[k.value].traceId == id
                        && forall j :: 0 <= j < k.value ==> traces[j].traceId != id
    ensures k.None? <==> forall j :: 0 <= j < |traces| ==> traces[j].traceId != id
  {
    if traces == [] then None
    else if traces[0].traceId == id then Some(0)
    else
      var k := FirstTrace(traces[1..], id);
      if k.None? then None
      else
        assert forall j :: 1 <= j < k.value + 1 ==> traces[j].traceId == traces[1..][j - 1].traceId;
        Some(k.value + 1)
  }

  /** The search loop, stopping at the first match. */
  method FindTrace(traces: seq<Trace>, id: string) returns (k: Option<nat>)
    ensures k == FirstTrace(traces, id)
  {
    var i := 0;
    while i < |traces|
      invariant 0 <= i <= |traces|
      invariant forall j :: 0 <= j < i ==> traces[j].traceId != id
    {
      if traces[i].traceId == id {
        k := Some(i);
        FirstIsUnique(traces, id, i);
        return;
      }
      i := i + 1;
    }
    k := None;
  }

  lemma FirstIsUnique(traces: seq<Trace>, id: string, i: nat)
    requires i < |traces| && traces[i].traceId == id
    requires forall j :: 0 <= j < i ==> traces[j].traceId != id
    ensures FirstTrace(traces, id) == Some(i)
  {
    var k := FirstTrace(traces, id);
    assert k.Some?;
  }

  /** The ids the feedback touches: `{ac.conviction_id for ac in target.activated_convictions}`. */
  function AffectedIds(t: Trace): (ids: set<string>)
    ensures forall id :: id in ids <==> exists i :: 0 <= i < |t.activated| && t.activated[i].convictionId == id
  {
    set a | a in t.activated :: a.convictionId
  }

  /** A positive result adds 0.05 to the score, a negative one takes 0.05 away. */
  function Delta(result: OutcomeResult): real
  {
    if result == Positive then 0.05 else -0.05
  }

  /** `max(0, min(1, x))`. */
  function Clamp(x: real): (r: real)
    ensures 0.0 <= r <= 1.0
    ensures 0.0 <= x <= 1.0 ==> r == x
    ensures x > 1.0 ==> r == 1.0
    ensures x < 0.0 ==> r == 0.0
  {
    if x > 1.0 then 1.0 else if x < 0.0 then 0.0 else x
  }

  /** The new strength of one activated conviction: score moved and clamped, level recomputed, dates set. */
  function Feedback(c: Conviction, delta: real, today: Day): Conviction
  {
    var s := Clamp(c.strength.score + delta);
    c.(strength := c.strength.(score := s, level := ConvictionDetector.LevelOf(s), lastComputed := Some(today)),
       lifecycle := c.lifecycle.(lastReinforced := Some(today)))
  }

  function AdjustOne(c: Conviction, affected: set<string>, delta: real, today: Day): Conviction
  {
    if c.convictionId in affected then Feedback(c, delta, today) else c
  }

  /** The conviction list after the feedback loop. */
  function Adjusted(cs: seq<Conviction>, affected: set<string>, delta: real, today: Day): (r: seq<Conviction>)
    ensures |r| == |cs|
  {
    seq(|cs|, i requires 0 <= i < |cs| => AdjustOne(cs[i], affected, delta, today))
  }

  function IsAffected(affected: set<string>): Conviction -> bool
  {
    (c: Conviction) => c.convictionId in affected
  }

  /** `changed`: the ids of the affected convictions, in list order. */
  function Changed(cs: seq<Conviction>, affected: set<string>): seq<string>
  {
    Seqs.Keep(cs, IsAffected(affected), ConvictionId)
  }

  /** What `record_outcome` returns. */
  datatype Report = Report(traceId: string, result: OutcomeResult, updated: seq<string>)

  /** The report (or the error), and the trace and conviction files afterwards when they are written. */
  datatype Written = Written(report: Result<Report, string>, traces: Option<seq<Trace>>, convictions: Option<seq<Conviction>>)

  /** `record_outcome`. */
  function Record(traces: seq<Trace>, convs: seq<Conviction>, traceId: string, result: OutcomeResult,
                  note: Option<string>, today: Day): Written
  {
    match FirstTrace(traces, traceId)
    case None => Written(Err("trace " + traceId + " not found"), None, None)
    case Some(k) =>
      var target := traces[k];
      var saved := traces[k := target.(outcome := Some(OutcomeFor(target, result, note, today)))];
      if result == Positive || result == Negative then
        var affected := AffectedIds(target);
        Written(Ok(Report(traceId, result, Changed(convs, affected))), Some(saved),
                Some(Adjusted(convs, affected, Delta(result), today)))
      else
        Written(Ok(Report(traceId, result, [])), Some(saved), None)
  }

  method RecordOutcome(traces: seq<Trace>, convs: seq<Conviction>, traceId: string, result: OutcomeResult,
                       note: Option<string>, today: Day) returns (w: Written)
    ensures w == Record(traces, convs, traceId, result, note, today)
  {
    var k := FindTrace(traces, traceId);
    if k.None? {
      return Written(Err("trace " + traceId + " not found"), None, None);
    }
    var target := traces[k.value];
    var impacts := ImpactsOf(target, EffectOf(result));
    var saved := traces[k.value := target.(outcome := Some(Outcome(Some(result), note, Some(impacts), Some(today))))];
    if result == Positive || result == Negative {
      var delta := if result == Positive then 0.05 else -0.05;
      var out, changed := Reinforce(convs, AffectedIds(target), delta, today);
      return Written(Ok(Report(traceId, result, changed)), Some(saved), Some(out));
    }
    w := Written(Ok(Report(traceId, result, [])), Some(saved), None);
  }

  /** The loop over the convictions, updating the affected ones in place. */
  method Reinforce(convs: seq<Conviction>, affected: set<string>, delta: real, today: Day)
    returns (out: seq<Conviction>, changed: seq<string>)
    ensures out == Adjusted(convs, affected, delta, today)
    ensures changed == Changed(convs, affected)
  {
    out, changed := convs, [];
    var i := 0;
    while i < |convs|
      invariant 0 <= i <= |convs| && |out| == |convs|
      invariant forall j :: 0 <= j < i ==> out[j] == AdjustOne(convs[j], affected, delta, today)
      invariant forall j :: i <= j < |convs| ==> out[j] == convs[j]
      invariant changed == Changed(convs[..i], affected)
    {
      Seqs.KeepSnoc(convs, i, IsAffected(affected), ConvictionId);
      if convs[i].convictionId in affected {
        out := out[i := Feedback(out[i], delta, today)];
        changed := changed + [convs[i].convictionId];
      }
      i := i + 1;
    }
    assert convs[..i] == convs;
  }

  // ================================================================ what recording promises

  /** An unknown trace id is an error, and neither file is written. */
  lemma RecordUnknown(traces: seq<Trace>, convs: seq<Conviction>, traceId: string, result: OutcomeResult,
                      note: Option<string>, today: Day)
    ensures var w := Record(traces, convs, traceId, result, note, today);
            w.report.Err? <==> forall t :: t in traces ==> t.traceId != traceId
    ensures var w := Record(traces, convs, traceId, result, note, today);
            w.report.Err? ==> w.traces.None? && w.convictions.None?
  {
    var k := FirstTrace(traces, traceId);
    if k.Some? {
      assert traces[k.value] in traces;
    } else {
      forall t | t in traces ensures t.traceId != traceId {
        var j :| 0 <= j < |traces| && traces[j] == t;
      }
    }
  }

  /**
   * A known id writes the whole trace file with only the first trace of that id
   * changed: its outcome carries the result, the note, today's date, and one impact
   * per activated conviction with the result's effect.
   */
  lemma RecordWritesTrace(traces: seq<Trace>, convs: seq<Conviction>, traceId: string, result: OutcomeResult,
                          note: Option<string>, today: Day, k: nat)
    requires k < |traces| && traces[k].traceId == traceId
    requires forall j :: 0 <= j < k ==> traces[j].traceId != traceId
    ensures var w := Record(traces, convs, traceId, result, note, today);
            w.report.Ok? && w.report.value.traceId == traceId && w.report.value.result == result
            && w.traces.Some? && |w.traces.value| == |traces|
            && (forall j :: 0 <= j < |traces| && j != k ==> w.traces.value[j] == traces[j])
            && w.traces.value[k] == traces[k].(outcome := w.traces.value[k].outcome)
            && w.traces.value[k].outcome.Some?
            && var o := w.traces.value[k].outcome.value;
               o.result == Some(result) && o.feedbackNote == note && o.recordedAt == Some(today)
               && o.impacts.Some? && |o.impacts.value| == |traces[k].activated|
               && forall i :: 0 <= i < |o.impacts.value| ==>
                    o.impacts.value[i].convictionId == traces[k].activated[i].convictionId
                    && o.impacts.value[i].effect == EffectOf(result)
  {
    FirstIsUnique(traces, traceId, k);
  }

  /** Mixed, unknown and pending results record the outcome and touch no conviction. */
  lemma NeutralResultChangesNothing(traces: seq<Trace>, convs: seq<Conviction>, traceId: string, result: OutcomeResult,
                                    note: Option<string>, today: Day)
    requires result != Positive && result != Negative
    ensures var w := Record(traces, convs, traceId, result, note, today);
            w.convictions.None? && (w.report.Ok? ==> w.report.value.updated == [] && w.traces.Some?)
  {
  }

  /**
   * A positive or negative result moves exactly the activated convictions by 0.05 in its
   * direction, clamped to [0, 1], with the level recomputed from the new score and
   * today recorded; every other conviction is left as it was.
   */
  lemma FeedbackFacts(cs: seq<Conviction>, affected: set<string>, result: OutcomeResult, today: Day)
    requires result == Positive || result == Negative
    ensures var r := Adjusted(cs, affected, Delta(result), today);
            forall i :: 0 <= i < |cs| ==>
              (cs[i].convictionId !in affected ==> r[i] == cs[i])
              && (cs[i].convictionId in affected ==>
                    var s := r[i].strength.score;
                    0.0 <= s <= 1.0
                    && (0.0 <= cs[i].strength.score + Delta(result) <= 1.0 ==> s == cs[i].strength.score + Delta(result))
                    && (result == Positive && cs[i].strength.score <= 1.0 ==> s >= cs[i].strength.score)
                    && (result == Negative && cs[i].strength.score >= 0.0 ==> s <= cs[i].strength.score)
                    && (r[i].strength.level == Core <==> s >= 0.8)
                    && (r[i].strength.level == Established <==> 0.6 <= s < 0.8)
                    && (r[i].strength.level == Developing <==> 0.4 <= s < 0.6)
                    && (r[i].strength.level == Emerging <==> s < 0.4)
                    && r[i].strength.lastComputed == Some(today)
                    && r[i].lifecycle.lastReinforced == Some(today)
                    && r[i] == cs[i].(strength := r[i].strength, lifecycle := r[i].lifecycle)
                    && r[i].strength.trend == cs[i].strength.trend)
  {
    var r := Adjusted(cs, affected, Delta(result), today);
    forall i | 0 <= i < |cs| && cs[i].convictionId in affected
      ensures var s := r[i].strength.score;
              (r[i].strength.level == Core <==> s >= 0.8)
              && (r[i].strength.level == Established <==> 0.6 <= s < 0.8)
              && (r[i].strength.level == Developing <==> 0.4 <= s < 0.6)
              && (r[i].strength.level == Emerging <==> s < 0.4)
    {
      assert r[i] == Feedback(cs[i], Delta(result), today);
    }
  }

  /** The feedback keeps every conviction's score within [0, 1]. */
  lemma FeedbackKeepsValid(cs: seq<Conviction>, affected: set<string>, delta: real, today: Day)
    requires forall c :: c in cs ==> ValidStrength(c.strength)
    ensures forall c :: c in Adjusted(cs, affected, delta, today) ==> ValidStrength(c.strength)
  {
    var r := Adjusted(cs, affected, delta, today);
    forall c | c in r ensures ValidStrength(c.strength) {
      var i :| 0 <= i < |r| && r[i] == c;
      assert cs[i] in cs;
    }
  }

  /** The report lists exactly the ids of the affected convictions present in the list, in list order. */
  lemma ChangedIff(cs: seq<Conviction>, affected: set<string>)
    ensures forall id :: id in Changed(cs, affected) <==> id in affected && exists c :: c in cs && c.convictionId == id
  {
    Seqs.KeepIff(cs, IsAffected(affected), ConvictionId);
  }
}

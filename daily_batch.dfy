/**
 * The daily and weekly batches: the follow-up scan over decided signals, the sections of
 * the morning digest and when the digest is saved, and the classification behind the
 * weekly report. The batch steps that run other engines (conviction detection, trace
 * extraction, the contradiction scan, the follow-up queue), the clock and the language
 * model's reply are inputs here; the rendering of sections into prompt text is left out,
 * so a section is modelled as the items it lists.
 */
module DailyBatch {
  import opened Wrappers
  import opened Calendar
  import opened Models
  import Seqs
  import Strings
  import ContradictionAlert
  import DecisionTracker

  // ================================================================ decision follow-ups

  /** The longest decision text a follow-up entry carries. */
  const DecisionTextLimit: nat := 100

  /** One entry of `_check_decision_followups`' list. */
  datatype DecisionEntry = DecisionEntry(signalId: string, decision: string, decidedDate: Day, daysAgo: int)

  /**
   * A signal needs a follow-up when it records a decision made at least `days` days ago
   * (`days` is `tactical_days`, `DecisionTracker.DefaultTacticalDays` when unset). The
   * clock's time of day never reaches a full day, so the age in whole days is the
   * difference of the day numbers.
   */
  predicate DecisionDue(s: Signal, today: Day, days: int)
  {
    s.modality == Decided && today - s.source.date >= days
  }

  function DecisionDueOn(today: Day, days: int): Signal -> bool
  {
    (s: Signal) => DecisionDue(s, today, days)
  }

  /** The entry of a due signal: its decision text cut to its first 100 characters. */
  function DecisionEntryOf(s: Signal, today: Day): (e: DecisionEntry)
    ensures e.signalId == s.signalId && e.decidedDate == s.source.date
    ensures e.daysAgo == today - s.source.date
    ensures |e.decision| == if |s.content.text| < DecisionTextLimit then |s.content.text| else DecisionTextLimit
    ensures e.decision == s.content.text[..|e.decision|]
  {
    DecisionEntry(s.signalId, Seqs.Take(s.content.text, DecisionTextLimit), s.source.date, today - s.source.date)
  }

  function DecisionEntryAt(today: Day): Signal -> DecisionEntry
  {
    (s: Signal) => DecisionEntryOf(s, today)
  }

  /** `_check_decision_followups`: one entry per due decision, in store order. */
  function DecisionFollowups(signals: seq<Signal>, today: Day, days: int): seq<DecisionEntry>
  {
    Seqs.Keep(signals, DecisionDueOn(today, days), DecisionEntryAt(today))
  }

  /**
   * The list holds exactly the entries of the decided signals at least `days` old: every
   * entry is that old, carries at most 100 characters of decision text, and there is at
   * most one entry per signal.
   */
  lemma DecisionFollowupsFacts(signals: seq<Signal>, today: Day, days: int, r: seq<DecisionEntry>)
    requires r == DecisionFollowups(signals, today, days)
    ensures |r| <= |signals|
    ensures forall e :: e in r <==> exists s :: s in signals && DecisionDue(s, today, days) && e == DecisionEntryOf(s, today)
    ensures forall e :: e in r ==> e.daysAgo >= days && e.daysAgo == today - e.decidedDate
                                   && |e.decision| <= DecisionTextLimit
  {
    Seqs.KeepIff(signals, DecisionDueOn(today, days), DecisionEntryAt(today));
    forall e | e in r
      ensures e.daysAgo >= days && e.daysAgo == today - e.decidedDate && |e.decision| <= DecisionTextLimit
    {
      var s :| s in signals && DecisionDue(s, today, days) && e == DecisionEntryOf(s, today);
    }
  }

  /** The loop of `_check_decision_followups`. */
  method CheckDecisionFollowups(signals: seq<Signal>, today: Day, days: int) returns (pending: seq<DecisionEntry>)
    ensures pending == DecisionFollowups(signals, today, days)
  {
    pending := [];
    var i := 0;
    while i < |signals|
      invariant 0 <= i <= |signals|
      invariant pending == Seqs.Keep(signals[..i], DecisionDueOn(today, days), DecisionEntryAt(today))
    {
      Seqs.KeepSnoc(signals, i, DecisionDueOn(today, days), DecisionEntryAt(today));
      var s := signals[i];
      if s.modality == Decided {
        var daysAgo := today - s.source.date;
        if daysAgo >= days {
          pending := pending + [DecisionEntry(s.signalId, Seqs.Take(s.content.text, DecisionTextLimit),
                                              s.source.date, daysAgo)];
        }
      }
      i := i + 1;
    }
    assert signals[..i] == signals;
  }

  // ================================================================ the daily digest

  /** How many new convictions, contradictions and follow-ups the digest lists at most. */
  const DigestConvictions: nat := 5
  const DigestContradictions: nat := 3
  const DigestFollowups: nat := 3

  /** A digest section, as the items it lists, in the order `_generate_digest` adds them. */
  datatype DailySection =
    | Discovered(statements: seq<string>)
    | Opposed(pairs: seq<(string, string, string)>)
    | Tracked(decisions: seq<(string, int)>)

  function Statements(cs: seq<Conviction>): (r: seq<string>)
    ensures |r| == |cs| && forall i :: 0 <= i < |r| ==> r[i] == cs[i].statement
  {
    seq(|cs|, i requires 0 <= i < |cs| => cs[i].statement)
  }

  /** `statement_a vs statement_b (relationship)` for each alert. */
  function Pairs(alerts: seq<ContradictionAlert.Alert>): (r: seq<(string, string, string)>)
    ensures |r| == |alerts|
    ensures forall i :: 0 <= i < |r| ==> r[i] == (alerts[i].statementA, alerts[i].statementB, alerts[i].relationship)
  {
    seq(|alerts|, i requires 0 <= i < |alerts| => (alerts[i].statementA, alerts[i].statementB, alerts[i].relationship))
  }

  /** `decision (days_ago days ago)` for each follow-up. */
  function Decisions(fs: seq<DecisionTracker.Followup>): (r: seq<(string, int)>)
    ensures |r| == |fs| && forall i :: 0 <= i < |r| ==> r[i] == (fs[i].decision, fs[i].daysAgo)
  {
    seq(|fs|, i requires 0 <= i < |fs| => (fs[i].decision, fs[i].daysAgo))
  }

  /** The sections of `_generate_digest`: one per non-empty input, each listing its first few items. */
  function DailySections(convs: seq<Conviction>, alerts: seq<ContradictionAlert.Alert>,
                         followups: seq<DecisionTracker.Followup>): seq<DailySection>
  {
    (if convs != [] then [Discovered(Statements(Seqs.Take(convs, DigestConvictions)))] else [])
    + (if alerts != [] then [Opposed(Pairs(Seqs.Take(alerts, DigestContradictions)))] else [])
    + (if followups != [] then [Tracked(Decisions(Seqs.Take(followups, DigestFollowups)))] else [])
  }

  /** Where each kind of section goes: new convictions first, contradictions next, follow-ups last. */
  function Place(s: DailySection): nat
  {
    match s
    case Discovered(_) => 0
    case Opposed(_) => 1
    case Tracked(_) => 2
  }

  /** Taking the first `n` items and then rendering them is rendering all and keeping the first `n`. */
  lemma StatementsTake(cs: seq<Conviction>, n: nat)
    ensures Statements(Seqs.Take(cs, n)) == Seqs.Take(Statements(cs), n)
  {
  }

  lemma PairsTake(alerts: seq<ContradictionAlert.Alert>, n: nat)
    ensures Pairs(Seqs.Take(alerts, n)) == Seqs.Take(Pairs(alerts), n)
  {
  }

  lemma DecisionsTake(fs: seq<DecisionTracker.Followup>, n: nat)
    ensures Decisions(Seqs.Take(fs, n)) == Seqs.Take(Decisions(fs), n)
  {
  }

  /**
   * There are no sections exactly when all three inputs are empty, and each kind of
   * section is listed exactly when its input is non-empty, with the first five
   * statements, three contradictions or three follow-ups.
   */
  lemma DailySectionsPresent(convs: seq<Conviction>, alerts: seq<ContradictionAlert.Alert>,
                             followups: seq<DecisionTracker.Followup>, r: seq<DailySection>)
    requires r == DailySections(convs, alerts, followups)
    ensures r == [] <==> convs == [] && alerts == [] && followups == []
    ensures Discovered(Seqs.Take(Statements(convs), DigestConvictions)) in r <==> convs != []
    ensures Opposed(Seqs.Take(Pairs(alerts), DigestContradictions)) in r <==> alerts != []
    ensures Tracked(Seqs.Take(Decisions(followups), DigestFollowups)) in r <==> followups != []
  {
    StatementsTake(convs, DigestConvictions);
    PairsTake(alerts, DigestContradictions);
    DecisionsTake(followups, DigestFollowups);
  }

  /**
   * Each kind of section appears at most once, new convictions first, contradictions
   * next and follow-ups last; none of them is empty or lists more than its quota.
   */
  lemma DailySectionsShape(convs: seq<Conviction>, alerts: seq<ContradictionAlert.Alert>,
                           followups: seq<DecisionTracker.Followup>, r: seq<DailySection>)
    requires r == DailySections(convs, alerts, followups)
    ensures |r| <= 3
    ensures forall i, j :: 0 <= i < j < |r| ==> Place(r[i]) < Place(r[j])
    ensures forall i :: 0 <= i < |r| ==> match r[i]
                                        case Discovered(items) => 1 <= |items| <= DigestConvictions
                                        case Opposed(items) => 1 <= |items| <= DigestContradictions
                                        case Tracked(items) => 1 <= |items| <= DigestFollowups
  {
  }

  /** `_generate_digest` grows its section list one `if` at a time. */
  method BuildDailySections(convs: seq<Conviction>, alerts: seq<ContradictionAlert.Alert>,
                            followups: seq<DecisionTracker.Followup>) returns (sections: seq<DailySection>)
    ensures sections == DailySections(convs, alerts, followups)
  {
    sections := [];
    if convs != [] {
      sections := sections + [Discovered(Statements(Seqs.Take(convs, DigestConvictions)))];
    }
    if alerts != [] {
      sections := sections + [Opposed(Pairs(Seqs.Take(alerts, DigestContradictions)))];
    }
    if followups != [] {
      sections := sections + [Tracked(Decisions(Seqs.Take(followups, DigestFollowups)))];
    }
  }

  predicate ConvictionIsActive(c: Conviction)
  {
    c.lifecycle.status == ConvictionStatus.Active
  }

  /** `[c for c in convictions if c.lifecycle.status == "active"]`. */
  function ActiveConvictions(convs: seq<Conviction>): (r: seq<Conviction>)
    ensures |r| <= |convs|
    ensures forall c :: c in r <==> c in convs && ConvictionIsActive(c)
  {
    Seqs.Filter(convs, (c: Conviction) => ConvictionIsActive(c))
  }

  /** What `_generate_digest` does: return "" at once, or ask the model with these sections. */
  datatype DigestPlan = Silent | Ask(sections: seq<DailySection>, activeCount: nat)

  /**
   * The model is asked only when some section exists, and then with all the sections and
   * the number of active convictions among the stored ones.
   */
  function PlanDigest(stored: seq<Conviction>, convs: seq<Conviction>, alerts: seq<ContradictionAlert.Alert>,
                      followups: seq<DecisionTracker.Followup>): (p: DigestPlan)
    ensures p.Silent? <==> convs == [] && alerts == [] && followups == []
    ensures p.Ask? ==> p.sections != [] && p.activeCount <= |stored|
  {
    var sections := DailySections(convs, alerts, followups);
    DailySectionsPresent(convs, alerts, followups, sections);
    if sections == [] then Silent
    else Ask(sections, |ActiveConvictions(stored)|)
  }

  /** The digest text: "" without a call, otherwise the model's `reply` stripped of surrounding blanks. */
  function DigestText(p: DigestPlan, reply: string): (d: string)
    ensures p.Silent? ==> d == []
    ensures d == [] || (!Strings.IsSpace(d[0]) && !Strings.IsSpace(d[|d| - 1]))
  {
    if p.Silent? then [] else Strings.Strip(reply)
  }

  // ================================================================ run_daily

  datatype DailyResult = DailyResult(
    date: Day, ownerId: string, newConvictions: nat, newTraces: nat, contradictions: nat,
    followups: nat, digest: string)

  /** What `run_daily` returns, and the digest file it writes, if any. */
  datatype DailyRun = DailyRun(result: DailyResult, written: Option<DailyResult>)

  /**
   * `run_daily` after its steps have run: their outputs, the stored convictions, today and
   * the model's reply are the inputs.
   */
  function RunDaily(ownerId: string, today: Day, stored: seq<Conviction>, convs: seq<Conviction>,
                    traces: seq<Trace>, alerts: seq<ContradictionAlert.Alert>,
                    followups: seq<DecisionTracker.Followup>, reply: string): (run: DailyRun)
    ensures run.written.Some? <==> run.result.digest != []
    ensures run.written.Some? ==> run.written.value == run.result
  {
    var result := DailyResult(today, ownerId, |convs|, |traces|, |alerts|, |followups|,
                              DigestText(PlanDigest(stored, convs, alerts, followups), reply));
    DailyRun(result, if result.digest != [] then Some(result) else None)
  }

  /**
   * A day with no new convictions, contradictions or follow-ups has an empty digest and
   * writes no file; otherwise the digest is the model's stripped reply, written exactly
   * when it is not blank. The counts are those of the step outputs.
   */
  lemma RunDailyFacts(ownerId: string, today: Day, stored: seq<Conviction>, convs: seq<Conviction>,
                      traces: seq<Trace>, alerts: seq<ContradictionAlert.Alert>,
                      followups: seq<DecisionTracker.Followup>, reply: string, run: DailyRun)
    requires run == RunDaily(ownerId, today, stored, convs, traces, alerts, followups, reply)
    ensures run.result == DailyResult(today, ownerId, |convs|, |traces|, |alerts|, |followups|, run.result.digest)
    ensures convs == [] && alerts == [] && followups == [] ==> run.result.digest == [] && run.written.None?
    ensures !(convs == [] && alerts == [] && followups == []) ==> run.result.digest == Strings.Strip(reply)
  {
  }

  // ================================================================ run_weekly

  /** The report looks back this many days. */
  const WeekDays: int := 7

  /** How many items each weekly section lists at most. */
  const WeeklyNew: nat := 5
  const WeeklyReinforced: nat := 5
  const WeeklyWeakening: nat := 3
  const WeeklyTensions: nat := 3

  predicate DetectedSince(c: Conviction, weekAgo: Day)
  {
    c.lifecycle.firstDetected >= weekAgo
  }

  predicate ReinforcedSince(c: Conviction, weekAgo: Day)
  {
    c.lifecycle.lastReinforced.Some? && c.lifecycle.lastReinforced.value >= weekAgo
  }

  /** `c.tensions` is neither None nor empty. */
  predicate HasTensions(c: Conviction)
  {
    c.tensions.Some? && c.tensions.value != []
  }

  predicate IsWeakening(c: Conviction)
  {
    c.strength.trend == Some(Trend.Weakening)
  }

  /** `new_this_week`. */
  function NewThisWeek(active: seq<Conviction>, weekAgo: Day): (r: seq<Conviction>)
    ensures |r| <= |active|
    ensures forall c :: c in r <==> c in active && DetectedSince(c, weekAgo)
  {
    Seqs.Filter(active, (c: Conviction) => DetectedSince(c, weekAgo))
  }

  /** `recently_reinforced`: reinforced this week and not already listed as new. */
  function RecentlyReinforced(active: seq<Conviction>, weekAgo: Day): (r: seq<Conviction>)
    ensures |r| <= |active|
    ensures forall c :: c in r ==> c in active && ReinforcedSince(c, weekAgo)
  {
    var news := NewThisWeek(active, weekAgo);
    Seqs.Filter(active, (c: Conviction) => ReinforcedSince(c, weekAgo) && c !in news)
  }

  /** `with_tensions`. */
  function WithTensions(active: seq<Conviction>): (r: seq<Conviction>)
    ensures |r| <= |active|
    ensures forall c :: c in r <==> c in active && HasTensions(c)
  {
    Seqs.Filter(active, (c: Conviction) => HasTensions(c))
  }

  /** `weakening`. */
  function WeakeningOf(active: seq<Conviction>): (r: seq<Conviction>)
    ensures |r| <= |active|
    ensures forall c :: c in r <==> c in active && IsWeakening(c)
  {
    Seqs.Filter(active, (c: Conviction) => IsWeakening(c))
  }

  /** `new_traces`: the traces dated on or after `weekAgo`. */
  function NewTraces(traces: seq<Trace>, weekAgo: Day): (r: seq<Trace>)
    ensures |r| <= |traces|
    ensures forall t :: t in r <==> t in traces && t.source.date >= weekAgo
  {
    Seqs.Filter(traces, (t: Trace) => t.source.date >= weekAgo)
  }

  /**
   * The weekly classes, stated against the whole conviction list: new this week and
   * recently reinforced are both active, they never share a conviction, and a reinforced
   * one is exactly an active conviction reinforced this week but first detected earlier.
   */
  lemma WeeklyClassification(convs: seq<Conviction>, weekAgo: Day, active: seq<Conviction>)
    requires active == ActiveConvictions(convs)
    ensures forall c :: c in NewThisWeek(active, weekAgo) <==>
                          c in convs && ConvictionIsActive(c) && DetectedSince(c, weekAgo)
    ensures forall c :: c in RecentlyReinforced(active, weekAgo) <==>
                          c in convs && ConvictionIsActive(c) && ReinforcedSince(c, weekAgo) && !DetectedSince(c, weekAgo)
    ensures forall c :: !(c in NewThisWeek(active, weekAgo) && c in RecentlyReinforced(active, weekAgo))
    ensures forall c :: c in WeakeningOf(active) <==> c in convs && ConvictionIsActive(c) && IsWeakening(c)
    ensures forall c :: c in WithTensions(active) <==> c in convs && ConvictionIsActive(c) && HasTensions(c)
  {
    var news := NewThisWeek(active, weekAgo);
    var p := (c: Conviction) => ReinforcedSince(c, weekAgo) && c !in news;
    assert RecentlyReinforced(active, weekAgo) == Seqs.Filter(active, p);
  }

  /** `key=lambda x: -x.strength.score`. */
  function ByScoreDesc(c: Conviction): Seqs.Rank
  {
    Seqs.Rank(-c.strength.score, 0.0)
  }

  /** The first tension of a conviction, as a `(statement, relationship)` item (none when it has none). */
  function FirstTension(c: Conviction): (r: seq<(string, Relation)>)
    ensures |r| <= 1 && (r != [] <==> TensionsOf(c) != [])
    ensures r != [] ==> r[0] == (c.statement, TensionsOf(c)[0].relationship)
  {
    var ts := Seqs.Take(TensionsOf(c), 1);
    seq(|ts|, i requires 0 <= i < |ts| => (c.statement, ts[i].relationship))
  }

  /** The items of the tensions section: each conviction's first tension, in order. */
  function TensionItems(cs: seq<Conviction>): (r: seq<(string, Relation)>)
    ensures |r| <= |cs|
  {
    if cs == [] then []
    else TensionItems(cs[..|cs| - 1]) + FirstTension(cs[|cs| - 1])
  }

  /**
   * Convictions that all have tensions give one item each. So the `if items` test of the
   * tensions section never fails once `with_tensions` is non-empty.
   */
  lemma {:induction false} TensionItemsAll(cs: seq<Conviction>)
    requires forall i :: 0 <= i < |cs| ==> HasTensions(cs[i])
    ensures |TensionItems(cs)| == |cs|
  {
    if cs != [] {
      var n := |cs| - 1;
      TensionItemsAll(cs[..n]);
      assert TensionsOf(cs[n]) == cs[n].tensions.value;
    }
  }

  /** The nested loop that collects the tension items. */
  method CollectTensionItems(cs: seq<Conviction>) returns (items: seq<(string, Relation)>)
    ensures items == TensionItems(cs)
  {
    items := [];
    var i := 0;
    while i < |cs|
      invariant 0 <= i <= |cs|
      invariant items == TensionItems(cs[..i])
    {
      var c := cs[i];
      assert cs[..i + 1][..i] == cs[..i];
      var ts := Seqs.Take(TensionsOf(c), 1);
      var j := 0;
      while j < |ts|
        invariant 0 <= j <= |ts|
        invariant items == TensionItems(cs[..i]) + FirstTension(c)[..j]
      {
        assert FirstTension(c)[..j + 1] == FirstTension(c)[..j] + [(c.statement, ts[j].relationship)];
        items := items + [(c.statement, ts[j].relationship)];
        j := j + 1;
      }
      assert FirstTension(c)[..j] == FirstTension(c);
      i := i + 1;
    }
    assert cs[..i] == cs;
  }

  /** A section of the weekly report, as the items it lists. */
  datatype WeeklySection =
    | Emerged(found: seq<(string, Level)>)
    | Gaining(scores: seq<(string, real)>)
    | Fading(fades: seq<(string, real)>)
    | Strained(strains: seq<(string, Relation)>)
    | Figures(activeCount: nat, traceCount: nat)

  function Leveled(cs: seq<Conviction>): (r: seq<(string, Level)>)
    ensures |r| == |cs| && forall i :: 0 <= i < |r| ==> r[i] == (cs[i].statement, cs[i].strength.level)
  {
    seq(|cs|, i requires 0 <= i < |cs| => (cs[i].statement, cs[i].strength.level))
  }

  function Scored(cs: seq<Conviction>): (r: seq<(string, real)>)
    ensures |r| == |cs| && forall i :: 0 <= i < |r| ==> r[i] == (cs[i].statement, cs[i].strength.score)
  {
    seq(|cs|, i requires 0 <= i < |cs| => (cs[i].statement, cs[i].strength.score))
  }

  /** The five most strongly scored of the recently reinforced convictions, best first. */
  function TopReinforced(re: seq<Conviction>): seq<Conviction>
  {
    Seqs.Take(Seqs.SortBy(re, ByScoreDesc), WeeklyReinforced)
  }

  /** The new-this-week section: statement and level of the first five, if there are any. */
  function EmergedPart(news: seq<Conviction>): (r: seq<WeeklySection>)
    ensures |r| <= 1 && (r != [] <==> news != [])
    ensures forall s :: s in r ==> s.Emerged? && 1 <= |s.found| <= WeeklyNew
  {
    if news != [] then [Emerged(Leveled(Seqs.Take(news, WeeklyNew)))] else []
  }

  /** The reinforced section: statement and score of the five best scored. */
  function GainingPart(re: seq<Conviction>): (r: seq<WeeklySection>)
    ensures |r| <= 1 && (r != [] <==> re != [])
    ensures forall s :: s in r ==> s.Gaining? && 1 <= |s.scores| <= WeeklyReinforced
  {
    if re != [] then [Gaining(Scored(TopReinforced(re)))] else []
  }

  /** The weakening section: statement and score of the first three. */
  function FadingPart(weak: seq<Conviction>): (r: seq<WeeklySection>)
    ensures |r| <= 1 && (r != [] <==> weak != [])
    ensures forall s :: s in r ==> s.Fading? && 1 <= |s.fades| <= WeeklyWeakening
  {
    if weak != [] then [Fading(Scored(Seqs.Take(weak, WeeklyWeakening)))] else []
  }

  /** The tensions section: the first tension of each of the first three convictions with tensions. */
  function StrainedPart(tense: seq<Conviction>): (r: seq<WeeklySection>)
    ensures |r| <= 1 && (r != [] ==> tense != [])
    ensures forall s :: s in r ==> s.Strained? && 1 <= |s.strains| <= WeeklyTensions
  {
    var strains := TensionItems(Seqs.Take(tense, WeeklyTensions));
    if tense != [] && strains != [] then [Strained(strains)] else []
  }

  /** The data section: the number of active convictions and of this week's traces. */
  function FiguresOf(active: seq<Conviction>, traces: seq<Trace>, weekAgo: Day): WeeklySection
  {
    Figures(|active|, |NewTraces(traces, weekAgo)|)
  }

  /** The sections of `run_weekly`, from the active convictions and the traces. */
  function WeeklySections(active: seq<Conviction>, traces: seq<Trace>, weekAgo: Day): seq<WeeklySection>
  {
    EmergedPart(NewThisWeek(active, weekAgo)) + GainingPart(RecentlyReinforced(active, weekAgo))
    + FadingPart(WeakeningOf(active)) + StrainedPart(WithTensions(active)) + [FiguresOf(active, traces, weekAgo)]
  }

  /** `run_weekly` grows its section list step by step, the tension items by a nested loop. */
  method BuildWeeklySections(active: seq<Conviction>, traces: seq<Trace>, weekAgo: Day)
    returns (sections: seq<WeeklySection>)
    ensures sections == WeeklySections(active, traces, weekAgo)
  {
    var news := NewThisWeek(active, weekAgo);
    var re := RecentlyReinforced(active, weekAgo);
    sections := [];
    if news != [] {
      sections := sections + [Emerged(Leveled(Seqs.Take(news, WeeklyNew)))];
    }
    ghost var first := sections;
    if re != [] {
      sections := sections + [Gaining(Scored(TopReinforced(re)))];
    }
    ghost var second := sections;
    var weak := WeakeningOf(active);
    if weak != [] {
      sections := sections + [Fading(Scored(Seqs.Take(weak, WeeklyWeakening)))];
    }
    ghost var third := sections;
    var strained := StrainedSection(WithTensions(active));
    sections := sections + strained;
    assert first == EmergedPart(news) && second == first + GainingPart(re) && third == second + FadingPart(weak);
    sections := sections + [Figures(|active|, |NewTraces(traces, weekAgo)|)];
  }

  /** The tensions step of `run_weekly`: collect the items, and add the section only if there are some. */
  method StrainedSection(tense: seq<Conviction>) returns (part: seq<WeeklySection>)
    ensures part == StrainedPart(tense)
  {
    part := [];
    if tense != [] {
      var items := CollectTensionItems(Seqs.Take(tense, WeeklyTensions));
      if items != [] {
        part := [Strained(items)];
      }
    }
  }

  /**
   * The report always has sections and ends with the figures (the active count and this
   * week's traces), so the empty-report branch of `run_weekly` is never taken; the
   * tensions section appears exactly when some active conviction has tensions.
   */
  lemma WeeklySectionsPresent(active: seq<Conviction>, traces: seq<Trace>, weekAgo: Day, r: seq<WeeklySection>)
    requires r == WeeklySections(active, traces, weekAgo)
    ensures r != [] && r[|r| - 1] == Figures(|active|, |NewTraces(traces, weekAgo)|)
    ensures 1 <= |r| <= 5
    ensures StrainedPart(WithTensions(active)) != [] <==> WithTensions(active) != []
  {
    var tense := WithTensions(active);
    var firsts := Seqs.Take(tense, WeeklyTensions);
    forall i | 0 <= i < |firsts| ensures HasTensions(firsts[i]) {
      assert firsts[i] == tense[i];
    }
    TensionItemsAll(firsts);
  }

  /** Every listed section holds at least one item and at most its quota. */
  lemma WeeklySectionsItems(active: seq<Conviction>, traces: seq<Trace>, weekAgo: Day, r: seq<WeeklySection>)
    requires r == WeeklySections(active, traces, weekAgo)
    ensures forall s :: s in r ==> match s
                                  case Emerged(items) => 1 <= |items| <= WeeklyNew
                                  case Gaining(items) => 1 <= |items| <= WeeklyReinforced
                                  case Fading(items) => 1 <= |items| <= WeeklyWeakening
                                  case Strained(items) => 1 <= |items| <= WeeklyTensions
                                  case Figures(_, _) => true
  {
    assert r == EmergedPart(NewThisWeek(active, weekAgo)) + GainingPart(RecentlyReinforced(active, weekAgo))
                + FadingPart(WeakeningOf(active)) + StrainedPart(WithTensions(active)) + [FiguresOf(active, traces, weekAgo)];
  }

  /**
   * The reinforced section lists only recently reinforced convictions, by score from high
   * to low, and nothing it leaves out scores above one it lists.
   */
  lemma TopReinforcedFacts(re: seq<Conviction>)
    ensures |TopReinforced(re)| == if |re| < WeeklyReinforced then |re| else WeeklyReinforced
    ensures forall c :: c in TopReinforced(re) ==> c in re
    ensures forall i, j :: 0 <= i < j < |TopReinforced(re)| ==>
              TopReinforced(re)[i].strength.score >= TopReinforced(re)[j].strength.score
    ensures forall c, d :: c in re && c !in TopReinforced(re) && d in TopReinforced(re) ==>
              c.strength.score <= d.strength.score
  {
    var t := TopReinforced(re);
    var sorted := Seqs.SortBy(re, ByScoreDesc);
    Seqs.TopOf(re, ByScoreDesc, WeeklyReinforced);
    forall i, j | 0 <= i < j < |t| ensures t[i].strength.score >= t[j].strength.score {
      assert t[i] == sorted[i] && t[j] == sorted[j];
      assert !Seqs.Below(ByScoreDesc(sorted[j]), ByScoreDesc(sorted[i]));
    }
    forall c, d | c in re && c !in t && d in t ensures c.strength.score <= d.strength.score {
      assert !Seqs.Below(ByScoreDesc(c), ByScoreDesc(d));
    }
  }

  datatype WeeklyResult = WeeklyResult(
    date: Day, weekStart: Day, ownerId: string, newConvictions: nat, reinforced: nat,
    newTraces: nat, tensions: nat, report: string)

  /** What `run_weekly` returns: the bare record of its empty-sections branch, or the report it saves. */
  datatype WeeklyOutcome = Blank(date: Day, ownerId: string) | Saved(result: WeeklyResult)

  /**
   * `run_weekly` with the stored convictions and traces, today and the model's reply as
   * inputs. The empty-sections branch is kept as written and never taken: whenever the
   * model's reply is given, the report is saved, starting a week back, with the counts of
   * the weekly classes. (Whether the call to the model succeeds is outside the model.)
   */
  function RunWeekly(ownerId: string, today: Day, convs: seq<Conviction>, traces: seq<Trace>, reply: string)
    : (o: WeeklyOutcome)
    ensures o.Saved?
    ensures o.result.date == today && o.result.weekStart == today - WeekDays && o.result.ownerId == ownerId
    ensures o.result.newConvictions <= |convs| && o.result.reinforced <= |convs| && o.result.tensions <= |convs|
    ensures o.result.newConvictions + o.result.reinforced <= |ActiveConvictions(convs)|
    ensures o.result.newTraces <= |traces|
    ensures o.result.report == Strings.Strip(reply)
  {
    var weekAgo := today - WeekDays;
    var active := ActiveConvictions(convs);
    var sections := WeeklySections(active, traces, weekAgo);
    WeeklySectionsPresent(active, traces, weekAgo, sections);
    if sections == [] then Blank(today, ownerId)
    else
      var news := NewThisWeek(active, weekAgo);
      var re := RecentlyReinforced(active, weekAgo);
      DisjointCount(active, weekAgo);
      Saved(WeeklyResult(today, weekAgo, ownerId, |news|, |re|,
                         |NewTraces(traces, weekAgo)|, |WithTensions(active)|, Strings.Strip(reply)))
  }

  /** New this week and recently reinforced split off disjoint parts of the active list. */
  lemma {:induction false} DisjointCount(active: seq<Conviction>, weekAgo: Day)
    ensures |NewThisWeek(active, weekAgo)| + |RecentlyReinforced(active, weekAgo)| <= |active|
  {
    var news := NewThisWeek(active, weekAgo);
    var p := (c: Conviction) => DetectedSince(c, weekAgo);
    var q := (c: Conviction) => ReinforcedSince(c, weekAgo) && c !in news;
    assert news == Seqs.Filter(active, p);
    assert RecentlyReinforced(active, weekAgo) == Seqs.Filter(active, q);
    forall i | 0 <= i < |active| ensures !(p(active[i]) && q(active[i])) {
      if p(active[i]) {
        assert active[i] in news;
      }
    }
    FilterDisjoint(active, p, q);
  }

  /** Two filters whose tests never both pass take at most the whole list between them. */
  lemma {:induction false} FilterDisjoint<T(!new)>(s: seq<T>, p: T -> bool, q: T -> bool)
    requires forall i :: 0 <= i < |s| ==> !(p(s[i]) && q(s[i]))
    ensures |Seqs.Filter(s, p)| + |Seqs.Filter(s, q)| <= |s|
  {
    if s != [] {
      FilterDisjoint(s[..|s| - 1], p, q);
    }
  }
}

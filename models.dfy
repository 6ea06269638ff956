/**
 * The five layers of the thinking model as records: Signal, Conviction, Reasoning
 * Trace, Context Frame and Identity Core, with the value ranges their validators
 * enforce (`Valid…` predicates) and the string keys that link the layers.
 *
 * Literal-typed fields whose values the engine branches on are datatypes; literal
 * fields it only copies or counts are strings, checked against the allowed names.
 * Cross-layer references are plain id strings, never embedded records.
 */
module Models {
  import opened Wrappers
  import opened Calendar
  import Seqs

  // ================================================================ Layer 1: Signal

  datatype Direction = Input | Output

  datatype Modality =
    | SpokenSpontaneous | SpokenScripted | SpokenInterview
    | WrittenCasual | WrittenDeliberate | WrittenStructured
    | Highlighted | Consumed | Received | Decided | Acted

  datatype Authority = OwnVoice | Endorsed | Referenced | Received

  function AuthorityName(a: Authority): string
  {
    match a
    case OwnVoice => "own_voice"
    case Endorsed => "endorsed"
    case Referenced => "referenced"
    case Received => "received"
  }

  function AuthorityFromName(s: string): (r: Option<Authority>)
    ensures r.Some? ==> AuthorityName(r.value) == s
  {
    if s == "own_voice" then Some(OwnVoice)
    else if s == "endorsed" then Some(Endorsed)
    else if s == "referenced" then Some(Referenced)
    else if s == "received" then Some(Authority.Received)
    else None
  }

  lemma AuthorityNameRoundTrip(a: Authority)
    ensures AuthorityFromName(AuthorityName(a)) == Some(a)
  {
  }

  /** Where a signal was produced (`SignalSource.context`). */
  datatype SignalContext =
    | SoloThinking | TeamMeeting | OneOnOne | PhoneCall | Brainstorm | ClientMeeting
    | Presentation | CasualChat | Commute | ShortVideo | SocialPost | InterviewGuest
    | HostInterview | LinePrivate | LineGroup | Email | BookReading | ArticleReading
    | PodcastListening | CourseLearning | OtherContext

  function ContextName(c: SignalContext): string
  {
    match c
    case SoloThinking => "solo_thinking"
    case TeamMeeting => "team_meeting"
    case OneOnOne => "one_on_one"
    case PhoneCall => "phone_call"
    case Brainstorm => "brainstorm"
    case ClientMeeting => "client_meeting"
    case Presentation => "presentation"
    case CasualChat => "casual_chat"
    case Commute => "commute"
    case ShortVideo => "short_video"
    case SocialPost => "social_post"
    case InterviewGuest => "interview_guest"
    case HostInterview => "host_interview"
    case LinePrivate => "line_private"
    case LineGroup => "line_group"
    case Email => "email"
    case BookReading => "book_reading"
    case ArticleReading => "article_reading"
    case PodcastListening => "podcast_listening"
    case CourseLearning => "course_learning"
    case OtherContext => "other"
  }

  const AllContexts: seq<SignalContext> := [
    SoloThinking, TeamMeeting, OneOnOne, PhoneCall, Brainstorm, ClientMeeting,
    Presentation, CasualChat, Commute, ShortVideo, SocialPost, InterviewGuest,
    HostInterview, LinePrivate, LineGroup, Email, BookReading, ArticleReading,
    PodcastListening, CourseLearning, OtherContext]

  /**
   * The only context whose name could be `s`: the allowed names differ already in
   * their first two letters, or else in their length.
   */
  function Candidate(s: string): SignalContext
  {
    if |s| < 2 then OtherContext
    else
      match (s[0], s[1])
      case ('s', 'o') => if |s| == 13 then SoloThinking else SocialPost
      case ('t', 'e') => TeamMeeting
      case ('o', 'n') => OneOnOne
      case ('p', 'h') => PhoneCall
      case ('b', 'r') => Brainstorm
      case ('c', 'l') => ClientMeeting
      case ('p', 'r') => Presentation
      case ('c', 'a') => CasualChat
      case ('c', 'o') => if |s| == 7 then Commute else CourseLearning
      case ('s', 'h') => ShortVideo
      case ('i', 'n') => InterviewGuest
      case ('h', 'o') => HostInterview
      case ('l', 'i') => if |s| == 12 then LinePrivate else LineGroup
      case ('e', 'm') => Email
      case ('b', 'o') => BookReading
      case ('a', 'r') => ArticleReading
      case ('p', 'o') => PodcastListening
      case _ => OtherContext
  }

  /** The context a name stands for, if it is one of the 21 allowed names. */
  function ContextFromName(s: string): (r: Option<SignalContext>)
    ensures r.Some? ==> ContextName(r.value) == s
  {
    var c := Candidate(s);
    if ContextName(c) == s then Some(c) else None
  }

  lemma ContextNameRoundTrip(c: SignalContext)
    ensures ContextFromName(ContextName(c)) == Some(c)
  {
    if c.SoloThinking? || c.TeamMeeting? || c.OneOnOne? || c.PhoneCall? {
      CandidateOf1(c);
    } else if c.Brainstorm? || c.ClientMeeting? || c.Presentation? || c.CasualChat? {
      CandidateOf2(c);
    } else if c.Commute? || c.ShortVideo? || c.SocialPost? || c.InterviewGuest? {
      CandidateOf3(c);
    } else if c.HostInterview? || c.LinePrivate? || c.LineGroup? || c.Email? {
      CandidateOf4(c);
    } else {
      CandidateOf5(c);
    }
  }

  lemma CandidateOf1(c: SignalContext)
    requires c.SoloThinking? || c.TeamMeeting? || c.OneOnOne? || c.PhoneCall?
    ensures Candidate(ContextName(c)) == c
  {
    match c
    case SoloThinking => assert Candidate(ContextName(SoloThinking)) == SoloThinking;
    case TeamMeeting => assert Candidate(ContextName(TeamMeeting)) == TeamMeeting;
    case OneOnOne => assert Candidate(ContextName(OneOnOne)) == OneOnOne;
    case PhoneCall => assert Candidate(ContextName(PhoneCall)) == PhoneCall;
    case _ =>
  }

  lemma CandidateOf2(c: SignalContext)
    requires c.Brainstorm? || c.ClientMeeting? || c.Presentation? || c.CasualChat?
    ensures Candidate(ContextName(c)) == c
  {
    match c
    case Brainstorm => assert Candidate(ContextName(Brainstorm)) == Brainstorm;
    case ClientMeeting => assert Candidate(ContextName(ClientMeeting)) == ClientMeeting;
    case Presentation => assert Candidate(ContextName(Presentation)) == Presentation;
    case CasualChat => assert Candidate(ContextName(CasualChat)) == CasualChat;
    case _ =>
  }

  lemma CandidateOf3(c: SignalContext)
    requires c.Commute? || c.ShortVideo? || c.SocialPost? || c.InterviewGuest?
    ensures Candidate(ContextName(c)) == c
  {
    match c
    case Commute => assert Candidate(ContextName(Commute)) == Commute;
    case ShortVideo => assert Candidate(ContextName(ShortVideo)) == ShortVideo;
    case SocialPost => assert Candidate(ContextName(SocialPost)) == SocialPost;
    case InterviewGuest => assert Candidate(ContextName(InterviewGuest)) == InterviewGuest;
    case _ =>
  }

  lemma CandidateOf4(c: SignalContext)
    requires c.HostInterview? || c.LinePrivate? || c.LineGroup? || c.Email?
    ensures Candidate(ContextName(c)) == c
  {
    match c
    case HostInterview => assert Candidate(ContextName(HostInterview)) == HostInterview;
    case LinePrivate => assert Candidate(ContextName(LinePrivate)) == LinePrivate;
    case LineGroup => assert Candidate(ContextName(LineGroup)) == LineGroup;
    case Email => assert Candidate(ContextName(Email)) == Email;
    case _ =>
  }

  lemma CandidateOf5(c: SignalContext)
    requires c.BookReading? || c.ArticleReading? || c.PodcastListening? || c.CourseLearning? || c.OtherContext?
    ensures Candidate(ContextName(c)) == c
  {
    match c
    case BookReading => assert Candidate(ContextName(BookReading)) == BookReading;
    case ArticleReading => assert Candidate(ContextName(ArticleReading)) == ArticleReading;
    case PodcastListening => assert Candidate(ContextName(PodcastListening)) == PodcastListening;
    case CourseLearning => assert Candidate(ContextName(CourseLearning)) == CourseLearning;
    case OtherContext => assert Candidate(ContextName(OtherContext)) == OtherContext;
    case _ =>
  }

  const ContentTypes: set<string> := {
    "idea", "belief", "decision", "action", "framework", "story", "quote", "question",
    "observation", "reaction", "instruction", "hook_pattern", "narrative_pattern", "key_message"}

  datatype ContentConfidence = StrongOpinion | Exploring | Tentative | QuotingOthers

  function ContentConfidenceFromName(s: string): Option<ContentConfidence>
  {
    if s == "strong_opinion" then Some(StrongOpinion)
    else if s == "exploring" then Some(Exploring)
    else if s == "tentative" then Some(Tentative)
    else if s == "quoting_others" then Some(QuotingOthers)
    else None
  }

  const Visibilities: set<string> := {
    "public", "team_internal", "management_only", "one_on_one_private", "self_only"}

  const RelationshipContexts: set<string> := {
    "boss_to_team", "peer_to_peer", "to_client", "to_investor", "to_partner",
    "self_reflection", "public_facing", "content_creator", "teacher_to_student"}

  datatype SignalContent = SignalContent(text: string, kind: string, confidence: Option<ContentConfidence>)

  datatype SignalSource = SignalSource(
    date: Day, context: SignalContext, participants: Option<seq<string>>,
    sourceFile: Option<string>, bookTitle: Option<string>, bookAuthor: Option<string>,
    chapter: Option<string>)

  datatype SignalAudience = SignalAudience(
    directedTo: Option<seq<string>>, visibility: Option<string>, relationship: Option<string>)

  datatype SignalLifecycle = SignalLifecycle(active: bool, createdAt: Option<string>)

  datatype Signal = Signal(
    ownerId: string, signalId: string, direction: Direction, modality: Modality,
    authority: Option<Authority>, content: SignalContent, source: SignalSource,
    audience: Option<SignalAudience>, topics: Option<seq<string>>, lifecycle: SignalLifecycle)

  predicate ValidAudience(a: SignalAudience)
  {
    (a.visibility.Some? ==> a.visibility.value in Visibilities)
    && (a.relationship.Some? ==> a.relationship.value in RelationshipContexts)
  }

  predicate ValidSignal(s: Signal)
  {
    |s.content.text| <= 300 && s.content.kind in ContentTypes
    && (s.audience.Some? ==> ValidAudience(s.audience.value))
  }

  // ================================================================ Layer 2: Conviction

  datatype Level = Emerging | Developing | Established | Core

  datatype Trend = Strengthening | Stable | Weakening | Fluctuating

  datatype StatementVariant = StatementVariant(text: string, context: string, signalId: Option<string>)

  datatype Strength = Strength(score: real, level: Level, trend: Option<Trend>, lastComputed: Option<Day>)

  datatype Convergence = Convergence(
    inputSignal: string, outputSignal: string, similarity: Option<real>, detectedAt: Day)

  datatype Persistence = Persistence(
    signalIds: seq<string>, spanDays: int, firstDate: Option<Day>, lastDate: Option<Day>)

  datatype CrossContext = CrossContext(signalIds: seq<string>, contexts: seq<SignalContext>)

  datatype Spontaneous = Spontaneous(signalId: string, wasPrompted: Option<bool>)

  datatype Alignment = Alignment(statementSignal: string, actionSignal: string, aligned: Option<bool>)

  /** The five kinds of resonance; each is an optional list, and an absent kind is `None`. */
  datatype Evidence = Evidence(
    convergence: Option<seq<Convergence>>,
    persistence: Option<seq<Persistence>>,
    crossContext: Option<seq<CrossContext>>,
    spontaneous: Option<seq<Spontaneous>>,
    alignment: Option<seq<Alignment>>)

  const NoEvidence: Evidence := Evidence(None, None, None, None, None)

  datatype Relation = Contradiction | CreativeTension | ContextDependent | Evolving

  datatype Tension = Tension(opposing: string, relationship: Relation, note: Option<string>)

  datatype ConvictionStatus = Active | Weakening | Superseded | Dormant

  datatype ConvictionLifecycle = ConvictionLifecycle(
    status: ConvictionStatus, firstDetected: Day, lastReinforced: Option<Day>,
    supersededBy: Option<string>, evolutionChain: Option<seq<string>>)

  datatype Conviction = Conviction(
    ownerId: string, convictionId: string, statement: string,
    variants: Option<seq<StatementVariant>>, strength: Strength, domains: seq<string>,
    evidence: Evidence, tensions: Option<seq<Tension>>, lifecycle: ConvictionLifecycle)

  predicate ValidStrength(s: Strength)
  {
    0.0 <= s.score <= 1.0
  }

  predicate ValidConviction(c: Conviction)
  {
    |c.statement| <= 200 && ValidStrength(c.strength)
    && (c.variants.Some? ==> forall v :: v in c.variants.value ==> |v.text| <= 200 && |v.context| <= 50)
    && (c.tensions.Some? ==> forall t :: t in c.tensions.value ==> t.note.Some? ==> |t.note.value| <= 100)
  }

  /** The tensions as a list, `c.tensions or []`. */
  function TensionsOf(c: Conviction): seq<Tension>
  {
    c.tensions.GetOr([])
  }

  // ================================================================ Layer 3: Reasoning Trace

  const StimulusTypes: set<string> := {
    "question_received", "problem_encountered", "decision_required", "opinion_challenged",
    "opportunity_spotted", "conflict_to_resolve", "teaching_moment", "self_reflection"}

  const StepActions: set<string> := {
    "empathize", "reframe", "analyze", "compare", "recall_experience", "apply_framework",
    "challenge_assumption", "weigh_tradeoff", "synthesize", "decide"}

  datatype Role = Premise | Framework | EvidenceRole | Constraint | ValueAnchor | Counterpoint

  function RoleName(r: Role): string
  {
    match r
    case Premise => "premise"
    case Framework => "framework"
    case EvidenceRole => "evidence"
    case Constraint => "constraint"
    case ValueAnchor => "value_anchor"
    case Counterpoint => "counterpoint"
  }

  function RoleFromName(s: string): (r: Option<Role>)
    ensures r.Some? ==> RoleName(r.value) == s
  {
    if s == "premise" then Some(Premise)
    else if s == "framework" then Some(Framework)
    else if s == "evidence" then Some(EvidenceRole)
    else if s == "constraint" then Some(Constraint)
    else if s == "value_anchor" then Some(ValueAnchor)
    else if s == "counterpoint" then Some(Counterpoint)
    else None
  }

  lemma RoleNameRoundTrip(r: Role)
    ensures RoleFromName(RoleName(r)) == Some(r)
  {
  }

  datatype Style =
    | Analytical | Intuitive | Storytelling | Socratic | FirstPrinciples | PatternMatching | EmpathyDriven

  function StyleName(s: Style): string
  {
    match s
    case Analytical => "analytical"
    case Intuitive => "intuitive"
    case Storytelling => "storytelling"
    case Socratic => "socratic"
    case FirstPrinciples => "first_principles"
    case PatternMatching => "pattern_matching"
    case EmpathyDriven => "empathy_driven"
  }

  function StyleFromName(s: string): (r: Option<Style>)
    ensures r.Some? ==> StyleName(r.value) == s
  {
    if s == "analytical" then Some(Analytical)
    else if s == "intuitive" then Some(Intuitive)
    else if s == "storytelling" then Some(Storytelling)
    else if s == "socratic" then Some(Socratic)
    else if s == "first_principles" then Some(FirstPrinciples)
    else if s == "pattern_matching" then Some(PatternMatching)
    else if s == "empathy_driven" then Some(EmpathyDriven)
    else None
  }

  lemma StyleNameRoundTrip(s: Style)
    ensures StyleFromName(StyleName(s)) == Some(s)
  {
  }

  /** `TraceConclusion.confidence`. */
  datatype Certainty = High | Medium | Low | Uncertain

  function CertaintyFromName(s: string): Option<Certainty>
  {
    if s == "high" then Some(High)
    else if s == "medium" then Some(Medium)
    else if s == "low" then Some(Low)
    else if s == "uncertain" then Some(Uncertain)
    else None
  }

  datatype Effect = Reinforced | Weakened | Unchanged

  datatype OutcomeResult = Positive | Negative | Mixed | Unknown | Pending

  datatype Trigger = Trigger(situation: string, stimulus: string, fromSignal: Option<string>)

  datatype Activated = Activated(convictionId: string, role: Role, note: Option<string>)

  datatype Step = Step(action: string, description: string, usesConviction: Option<string>)

  datatype Path = Path(steps: seq<Step>, style: Style)

  datatype Conclusion = Conclusion(
    decision: string, confidence: Certainty, alternative: Option<string>, outputSignal: Option<string>)

  datatype Impact = Impact(convictionId: string, effect: Effect)

  datatype Outcome = Outcome(
    result: Option<OutcomeResult>, feedbackNote: Option<string>, impacts: Option<seq<Impact>>,
    recordedAt: Option<Day>)

  datatype TraceSource = TraceSource(
    date: Day, context: Option<string>, sourceFile: Option<string>, participants: Option<seq<string>>)

  datatype Trace = Trace(
    ownerId: string, traceId: string, trigger: Trigger, activated: seq<Activated>, path: Path,
    conclusion: Conclusion, outcome: Option<Outcome>, frameId: Option<string>, source: TraceSource)

  predicate OptLen(s: Option<string>, n: nat)
  {
    s.Some? ==> |s.value| <= n
  }

  predicate ValidTrigger(t: Trigger)
  {
    |t.situation| <= 200 && t.stimulus in StimulusTypes
  }

  predicate ValidActivated(a: Activated)
  {
    OptLen(a.note, 100)
  }

  predicate ValidStep(s: Step)
  {
    s.action in StepActions && |s.description| <= 150
  }

  predicate ValidConclusion(c: Conclusion)
  {
    |c.decision| <= 200 && OptLen(c.alternative, 200)
  }

  predicate ValidTrace(t: Trace)
  {
    ValidTrigger(t.trigger)
    && (forall a :: a in t.activated ==> ValidActivated(a))
    && (forall s :: s in t.path.steps ==> ValidStep(s))
    && ValidConclusion(t.conclusion)
    && (t.outcome.Some? ==> OptLen(t.outcome.value.feedbackNote, 200))
  }

  // ================================================================ Layer 4: Context Frame

  const Tones: set<string> := {
    "professional", "warm", "direct", "patient", "passionate", "casual", "authoritative"}

  datatype TriggerPattern = TriggerPattern(
    pattern: string, keywords: Option<seq<string>>, audienceType: Option<seq<string>>)

  datatype Activation = Activation(convictionId: string, weight: real, role: Option<Role>)

  datatype Suppressed = Suppressed(convictionId: string, reason: string)

  datatype Profile = Profile(primary: seq<Activation>, suppressed: Option<seq<Suppressed>>)

  datatype Patterns = Patterns(
    preferredStyle: Option<Style>, typicalSteps: Option<seq<string>>, historicalTraces: Option<seq<string>>)

  datatype Voice = Voice(tone: Option<string>, phrases: Option<seq<string>>, avoids: Option<seq<string>>)

  datatype Effectiveness = Effectiveness(
    successRate: Option<real>, total: Option<int>, positive: Option<int>, negative: Option<int>,
    learningNote: Option<string>)

  datatype FrameStatus = FrameActive | FrameEvolving | FrameDeprecated

  datatype FrameLifecycle = FrameLifecycle(
    status: FrameStatus, firstObserved: Option<Day>, lastActivated: Option<Day>, evolvedFrom: Option<string>)

  datatype Frame = Frame(
    ownerId: string, frameId: string, name: string, description: string,
    triggers: seq<TriggerPattern>, profile: Profile, patterns: Patterns, voice: Option<Voice>,
    effectiveness: Option<Effectiveness>, lifecycle: Option<FrameLifecycle>)

  predicate ValidActivation(a: Activation)
  {
    0.0 <= a.weight <= 1.0
  }

  predicate ValidFrame(f: Frame)
  {
    |f.name| <= 50 && |f.description| <= 300
    && (forall p :: p in f.triggers ==> |p.pattern| <= 100)
    && (forall a :: a in f.profile.primary ==> ValidActivation(a))
    && (f.profile.suppressed.Some? ==> forall s :: s in f.profile.suppressed.value ==> |s.reason| <= 100)
    && (f.voice.Some? && f.voice.value.tone.Some? ==> f.voice.value.tone.value in Tones)
    && (f.effectiveness.Some? && f.effectiveness.value.successRate.Some? ==>
          0.0 <= f.effectiveness.value.successRate.value <= 1.0)
  }

  /** `f.lifecycle and f.lifecycle.status == "active"`. */
  predicate FrameIsActive(f: Frame)
  {
    f.lifecycle.Some? && f.lifecycle.value.status == FrameActive
  }

  // ================================================================ Layer 5: Identity Core

  datatype Universality = Universality(activeIn: seq<string>, totalActive: int, coverage: real)

  datatype Expression = Expression(frameId: string, how: string)

  datatype Stability = Stability(heldSince: Day, consistency: real)

  datatype Identity = Identity(
    ownerId: string, identityId: string, coreBelief: string, convictionId: string,
    universality: Universality, expressions: seq<Expression>, nonNegotiable: Option<bool>,
    stability: Option<Stability>)

  predicate ValidIdentity(i: Identity)
  {
    |i.coreBelief| <= 150 && 0.0 <= i.universality.coverage <= 1.0
    && (forall e :: e in i.expressions ==> |e.how| <= 200)
    && (i.stability.Some? ==> 0.0 <= i.stability.value.consistency <= 1.0)
  }

  // ================================================================ cross-layer references

  /** Every conviction id a trace mentions: activations, reasoning steps and outcome impacts. */
  function TraceRefs(t: Trace): seq<string>
  {
    Seqs.Flatten(seq(|t.activated|, i requires 0 <= i < |t.activated| => [t.activated[i].convictionId]))
    + Seqs.Flatten(seq(|t.path.steps|, i requires 0 <= i < |t.path.steps| =>
        if t.path.steps[i].usesConviction.Some? then [t.path.steps[i].usesConviction.value] else []))
    + (if t.outcome.Some? && t.outcome.value.impacts.Some?
       then var im := t.outcome.value.impacts.value;
            seq(|im|, i requires 0 <= i < |im| => im[i].convictionId)
       else [])
  }

  /** Every conviction id a frame mentions: its primary and suppressed convictions. */
  function FrameRefs(f: Frame): seq<string>
  {
    seq(|f.profile.primary|, i requires 0 <= i < |f.profile.primary| => f.profile.primary[i].convictionId)
    + (if f.profile.suppressed.Some?
       then var s := f.profile.suppressed.value;
            seq(|s|, i requires 0 <= i < |s| => s[i].convictionId)
       else [])
  }

  // ================================================================ dicts keyed by id

  /** `{key(x): x for x in items}`: a later item replaces an earlier one with the same key. */
  function KeyedBy<V>(items: seq<V>, key: V -> string): (m: map<string, V>)
    ensures forall k :: k in m <==> exists i :: 0 <= i < |items| && key(items[i]) == k
    ensures forall k :: k in m ==> key(m[k]) == k
  {
    if items == [] then map[]
    else
      var m := KeyedBy(items[..|items| - 1], key);
      var x := items[|items| - 1];
      var r := m[key(x) := x];
      assert forall k :: k in r <==> exists i :: 0 <= i < |items| && key(items[i]) == k by {
        forall k | k in r ensures exists i :: 0 <= i < |items| && key(items[i]) == k {
          if k != key(x) {
            var i :| 0 <= i < |items| - 1 && key(items[..|items| - 1][i]) == k;
            assert key(items[i]) == k;
          }
        }
        forall k | exists i :: 0 <= i < |items| && key(items[i]) == k ensures k in r {
          var i :| 0 <= i < |items| && key(items[i]) == k;
          if i < |items| - 1 {
            assert key(items[..|items| - 1][i]) == k;
          }
        }
      }
      r
  }

  /** A value of `{key(x): x for x in items}` is one of the items. */
  lemma {:induction false} KeyedByIn<V>(items: seq<V>, key: V -> string, k: string)
    requires k in KeyedBy(items, key)
    ensures KeyedBy(items, key)[k] in items
  {
    var n := |items| - 1;
    if key(items[n]) != k {
      KeyedByIn(items[..n], key, k);
    }
  }

  /** The keys of `{key(x): x for x in items}` in dict order (first insertion). */
  function KeyOrder<V>(items: seq<V>, key: V -> string): seq<string>
  {
    Seqs.Dedup(seq(|items|, i requires 0 <= i < |items| => key(items[i])))
  }

  /** `list({key(x): x for x in items}.values())`. */
  function DictValues<V>(items: seq<V>, key: V -> string): (r: seq<V>)
    ensures |r| == |KeyOrder(items, key)|
    ensures forall i :: 0 <= i < |r| ==> key(r[i]) == KeyOrder(items, key)[i]
    ensures forall i :: 0 <= i < |r| ==>
              KeyOrder(items, key)[i] in KeyedBy(items, key) && r[i] == KeyedBy(items, key)[KeyOrder(items, key)[i]]
  {
    var ks := KeyOrder(items, key);
    var m := KeyedBy(items, key);
    assert forall i :: 0 <= i < |ks| ==> ks[i] in m by {
      forall i | 0 <= i < |ks| ensures ks[i] in m {
        var all := seq(|items|, j requires 0 <= j < |items| => key(items[j]));
        assert ks[i] in all;
        var j :| 0 <= j < |all| && all[j] == ks[i];
        assert key(items[j]) == ks[i];
      }
    }
    seq(|ks|, i requires 0 <= i < |ks| && ks[i] in m => m[ks[i]])
  }

  /** Every value of the dictionary is one of the items it was built from. */
  lemma DictValuesIn<V>(items: seq<V>, key: V -> string)
    ensures forall v :: v in DictValues(items, key) ==> v in items
  {
    var vals := DictValues(items, key);
    forall v | v in vals ensures v in items {
      var i :| 0 <= i < |vals| && vals[i] == v;
      KeyedByIn(items, key, KeyOrder(items, key)[i]);
    }
  }

  function ConvictionId(c: Conviction): string { c.convictionId }
  function TraceId(t: Trace): string { t.traceId }
  function FrameId(f: Frame): string { f.frameId }
  function SignalId(s: Signal): string { s.signalId }

  /** No two signals share an id: what the signal store's de-duplicating ingest keeps. */
  predicate DistinctSignalIds(signals: seq<Signal>)
  {
    forall i, j :: 0 <= i < j < |signals| ==> signals[i].signalId != signals[j].signalId
  }
}

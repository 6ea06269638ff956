/**
 * The atom migration: how a knowledge-base atom (a JSON object from `atoms.jsonl`)
 * becomes a Signal. An atom is modelled as a record of optional fields, `None` standing
 * for an absent key; the values are taken to have the JSON types the migration expects.
 */
module MigrateAtoms {
  import opened Wrappers
  import opened Calendar
  import opened Models
  import Seqs

  // ================================================================ atoms

  datatype DirectedTo = Name(name: string) | Names(names: seq<string>)

  /** `source` of an atom. */
  datatype AtomSource = AtomSource(
    inputModality: Option<string>, context: Option<string>, date: Option<Day>,
    participants: Option<seq<string>>, sourceFile: Option<string>, bookTitle: Option<string>,
    bookAuthor: Option<string>, chapter: Option<string>)

  /** `audience` of an atom. */
  datatype AtomAudience = AtomAudience(
    directedTo: Option<DirectedTo>, visibility: Option<string>, relationship: Option<string>)

  datatype AtomLifecycle = AtomLifecycle(active: Option<bool>, createdAt: Option<string>)

  /**
   * An atom. `source` and `lifecycle` fall back to `{}` when absent; `audience` is `None`
   * when it is absent or an empty object, the two cases in which the migration skips it.
   */
  datatype Atom = Atom(
    atomId: Option<string>, kind: Option<string>, content: Option<string>, confidence: Option<string>,
    authority: Option<string>, source: Option<AtomSource>, audience: Option<AtomAudience>,
    topics: Option<seq<string>>, lifecycle: Option<AtomLifecycle>)

  const EmptySource := AtomSource(None, None, None, None, None, None, None, None)

  function SourceOf(a: Atom): AtomSource
  {
    a.source.GetOr(EmptySource)
  }

  // ================================================================ direction and modality

  function ModalityName(m: Modality): string
  {
    match m
    case SpokenSpontaneous => "spoken_spontaneous"
    case SpokenScripted => "spoken_scripted"
    case SpokenInterview => "spoken_interview"
    case WrittenCasual => "written_casual"
    case WrittenDeliberate => "written_deliberate"
    case WrittenStructured => "written_structured"
    case Highlighted => "highlighted"
    case Consumed => "consumed"
    case Received => "received"
    case Decided => "decided"
    case Acted => "acted"
  }

  /** What a modality says about direction: what the owner takes in, or what the owner produces. */
  function ModalityDirection(m: Modality): Direction
  {
    match m
    case Highlighted => Input
    case Consumed => Input
    case Received => Input
    case _ => Output
  }

  /** `MODALITY_MAP`: the (direction, modality) pair of each input-modality name. */
  function ModalityMap(name: string): Option<(Direction, Modality)>
  {
    if name == "spoken_spontaneous" then Some((Output, SpokenSpontaneous))
    else if name == "spoken_scripted" then Some((Output, SpokenScripted))
    else if name == "spoken_interview" then Some((Output, SpokenInterview))
    else if name == "written_casual" then Some((Output, WrittenCasual))
    else if name == "written_deliberate" then Some((Output, WrittenDeliberate))
    else if name == "written_structured" then Some((Output, WrittenStructured))
    else if name == "highlighted" then Some((Input, Highlighted))
    else if name == "consumed" then Some((Input, Consumed))
    else if name == "received" then Some((Input, Modality.Received))
    else if name == "decided" then Some((Output, Decided))
    else if name == "acted" then Some((Output, Acted))
    else None
  }

  /** Every modality is in the table under its own name, with its own direction. */
  lemma ModalityMapHas(m: Modality)
    ensures ModalityMap(ModalityName(m)) == Some((ModalityDirection(m), m))
  {
    match m
    case SpokenSpontaneous =>
    case SpokenScripted =>
    case SpokenInterview =>
    case WrittenCasual =>
    case WrittenDeliberate =>
    case WrittenStructured =>
    case Highlighted =>
    case Consumed =>
    case Received =>
    case Decided =>
    case Acted =>
  }

  /** The table maps a name only to the modality of that name. */
  lemma ModalityMapOnly(name: string)
    requires ModalityMap(name).Some?
    ensures name == ModalityName(ModalityMap(name).value.1)
    ensures ModalityMap(name).value.0 == ModalityDirection(ModalityMap(name).value.1)
  {
    if name == "spoken_spontaneous" {
    } else if name == "spoken_scripted" {
    } else if name == "spoken_interview" {
    } else if name == "written_casual" {
    } else if name == "written_deliberate" {
    } else if name == "written_structured" {
    } else if name == "highlighted" {
    } else if name == "consumed" {
    } else if name == "received" {
    } else if name == "decided" {
    } else if name == "acted" {
    }
  }

  /**
   * The table holds one entry per modality, under the modality's own name, and its
   * direction is the modality's direction.
   */
  lemma ModalityMapIff(name: string, d: Direction, m: Modality)
    ensures ModalityMap(name) == Some((d, m)) <==> name == ModalityName(m) && d == ModalityDirection(m)
  {
    ModalityMapHas(m);
    if ModalityMap(name).Some? {
      ModalityMapOnly(name);
    }
  }

  /** `AUTHORITY_DIRECTION.get(authority, "input")`. */
  function AuthorityDirection(authority: string): (d: Direction)
    ensures d == Output <==> authority == "own_voice"
  {
    if authority == "own_voice" then Output
    else if authority == "endorsed" then Input
    else if authority == "referenced" then Input
    else if authority == "received" then Input
    else Input
  }

  /** The modality guessed for a produced atom from its context. */
  function OutputModality(context: string): (m: Modality)
    ensures ModalityDirection(m) == Output
  {
    if context == "solo_thinking" || context == "commute" then SpokenSpontaneous
    else if context == "short_video" || context == "social_post" then WrittenDeliberate
    else if context == "line_private" || context == "line_group" then WrittenCasual
    else SpokenSpontaneous
  }

  /** The modality guessed for a received atom from its context and authority. */
  function InputModality(context: string, authority: string): (m: Modality)
    ensures ModalityDirection(m) == Input
    ensures m == Highlighted <==> context == "book_reading" && authority == "endorsed"
  {
    if context == "book_reading" then (if authority == "endorsed" then Highlighted else Consumed)
    else if context == "article_reading" || context == "podcast_listening" || context == "course_learning" then Consumed
    else Modality.Received
  }

  /** `determine_direction_and_modality`. */
  function DirectionAndModality(a: Atom): (r: (Direction, Modality))
    ensures r.0 == ModalityDirection(r.1)
  {
    var im := SourceOf(a).inputModality.GetOr("");
    match ModalityMap(im)
    case Some(pair) =>
      ModalityMapIff(im, pair.0, pair.1);
      pair
    case None =>
      var authority := a.authority.GetOr("");
      var direction := AuthorityDirection(authority);
      var context := SourceOf(a).context.GetOr("");
      if direction == Output then (direction, OutputModality(context))
      else (direction, InputModality(context, authority))
  }

  /**
   * A known input modality decides the pair by itself; otherwise the direction is output
   * exactly for an own-voice atom and the modality is guessed from the context, a
   * highlight only for an endorsed book-reading atom.
   */
  lemma DirectionAndModalityFacts(a: Atom, r: (Direction, Modality))
    requires r == DirectionAndModality(a)
    ensures forall m :: SourceOf(a).inputModality == Some(ModalityName(m)) ==> r == (ModalityDirection(m), m)
    ensures ModalityMap(SourceOf(a).inputModality.GetOr("")).None? ==>
              (r.0 == Output <==> a.authority == Some("own_voice"))
              && (r.1 == Highlighted <==> SourceOf(a).context == Some("book_reading") && a.authority == Some("endorsed"))
  {
    var im := SourceOf(a).inputModality.GetOr("");
    forall m | SourceOf(a).inputModality == Some(ModalityName(m)) ensures r == (ModalityDirection(m), m) {
      ModalityMapIff(im, ModalityDirection(m), m);
    }
  }

  // ================================================================ atom to signal

  /** The longest content text a signal keeps. */
  const TextLimit: nat := 300

  /** The default date of an atom without one: 2026-01-01. */
  const DefaultDate: Day := DefaultAtomDate

  /** `type_map.get(raw_type, raw_type)` with `raw_type` defaulting to `observation`. */
  function ContentTypeOf(raw: Option<string>): (t: string)
    ensures raw.None? ==> t == "observation"
    ensures raw.Some? && raw.value !in {"open_question", "action_item", "cta_pattern"} ==> t == raw.value
  {
    var r := raw.GetOr("observation");
    if r == "open_question" then "question"
    else if r == "action_item" then "action"
    else if r == "cta_pattern" then "instruction"
    else r
  }

  /** An invalid or absent context becomes `other`. */
  function ContextOf(raw: Option<string>): (c: SignalContext)
    ensures raw.Some? && ContextFromName(raw.value).Some? ==> ContextName(c) == raw.value
    ensures (raw.None? || ContextFromName(raw.value).None?) ==> c == OtherContext
  {
    if raw.Some? && ContextFromName(raw.value).Some? then ContextFromName(raw.value).value else OtherContext
  }

  /** `x or None` for a list. */
  function NonEmpty<T>(xs: Option<seq<T>>): (r: Option<seq<T>>)
    ensures r.Some? <==> xs.Some? && xs.value != []
    ensures r.Some? ==> r == xs
  {
    if xs.Some? && xs.value != [] then xs else None
  }

  /** A single recipient becomes a one-element list; an empty list becomes None. */
  function DirectedList(raw: Option<DirectedTo>): (r: Option<seq<string>>)
    ensures raw.Some? && raw.value.Name? ==> r == Some([raw.value.name])
    ensures raw.Some? && raw.value.Names? ==> r == NonEmpty(Some(raw.value.names))
    ensures raw.None? ==> r.None?
  {
    match raw
    case None => None
    case Some(Name(n)) => Some([n])
    case Some(Names(ns)) => NonEmpty(Some(ns))
  }

  /** A value kept only when it is one of the allowed names. */
  function Allowed(raw: Option<string>, names: set<string>): (r: Option<string>)
    ensures r.Some? <==> raw.Some? && raw.value in names
    ensures r.Some? ==> r == raw
  {
    if raw.Some? && raw.value in names then raw else None
  }

  function AudienceOf(raw: Option<AtomAudience>): (r: Option<SignalAudience>)
    ensures r.Some? <==> raw.Some?
    ensures r.Some? ==> ValidAudience(r.value)
  {
    match raw
    case None => None
    case Some(aud) =>
      Some(SignalAudience(DirectedList(aud.directedTo), Allowed(aud.visibility, Visibilities),
                          Allowed(aud.relationship, RelationshipContexts)))
  }

  function SignalSourceOf(src: AtomSource): (r: SignalSource)
    ensures r.date == src.date.GetOr(DefaultDate) && r.context == ContextOf(src.context)
    ensures r.participants == NonEmpty(src.participants) && r.sourceFile == src.sourceFile
  {
    SignalSource(src.date.GetOr(DefaultDate), ContextOf(src.context), NonEmpty(src.participants),
                 src.sourceFile, src.bookTitle, src.bookAuthor, src.chapter)
  }

  function LifecycleOf(raw: Option<AtomLifecycle>): (r: SignalLifecycle)
    ensures r.active <==> raw.None? || raw.value.active != Some(false)
  {
    var lc := raw.GetOr(AtomLifecycle(None, None));
    SignalLifecycle(lc.active.GetOr(true), lc.createdAt)
  }

  /**
   * `atom_to_signal`. The Signal validator refuses a content type outside the allowed
   * names; the migration records such an atom as an error, here `Err` with the type.
   */
  function AtomToSignal(a: Atom, ownerId: string): (r: Result<Signal, string>)
    ensures r.Ok? <==> ContentTypeOf(a.kind) in ContentTypes
    ensures r.Err? ==> r.error == ContentTypeOf(a.kind)
  {
    var (direction, modality) := DirectionAndModality(a);
    var kind := ContentTypeOf(a.kind);
    if kind !in ContentTypes then Err(kind)
    else
      var text := Seqs.Take(a.content.GetOr(""), TextLimit);
      var confidence := if a.confidence.Some? then ContentConfidenceFromName(a.confidence.value) else None;
      var authority := if a.authority.Some? then AuthorityFromName(a.authority.value) else None;
      Ok(Signal(ownerId, "sig_" + a.atomId.GetOr("unknown"), direction, modality, authority,
                SignalContent(text, kind, confidence), SignalSourceOf(SourceOf(a)),
                AudienceOf(a.audience), NonEmpty(a.topics), LifecycleOf(a.lifecycle)))
  }

  /**
   * A migrated signal passes the Signal validator, is keyed `sig_` + the atom id (or
   * `unknown`), keeps its direction and modality in agreement, keeps the first 300
   * characters of the content, keeps a confidence or authority only under an allowed name
   * and falls back to `other` and 2026-01-01 for a missing context or date.
   */
  lemma AtomToSignalFacts(a: Atom, ownerId: string, s: Signal)
    requires AtomToSignal(a, ownerId) == Ok(s)
    ensures ValidSignal(s)
    ensures s.ownerId == ownerId && s.signalId == "sig_" + a.atomId.GetOr("unknown")
    ensures (s.direction, s.modality) == DirectionAndModality(a) && s.direction == ModalityDirection(s.modality)
    ensures s.content.text == a.content.GetOr("")[..|s.content.text|]
    ensures |s.content.text| == if |a.content.GetOr("")| < TextLimit then |a.content.GetOr("")| else TextLimit
    ensures s.content.kind == ContentTypeOf(a.kind)
    ensures s.content.confidence.Some? <==>
              a.confidence.Some? && a.confidence.value in {"strong_opinion", "exploring", "tentative", "quoting_others"}
    ensures s.authority.Some? <==> a.authority.Some? && a.authority.value in {"own_voice", "endorsed", "referenced", "received"}
    ensures s.authority.Some? ==> AuthorityName(s.authority.value) == a.authority.value
    ensures s.source.date == SourceOf(a).date.GetOr(DefaultDate)
    ensures s.source.context == ContextOf(SourceOf(a).context)
    ensures s.audience.Some? <==> a.audience.Some?
  {
  }
}

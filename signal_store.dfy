/**
 * The signal store: Layer 1 kept twice, as an append-only JSON-lines file of signal
 * records and as a vector collection whose entries carry each signal's text and a few
 * metadata fields for filtering.
 *
 * The file is the sequence `stored`, one signal per non-blank line in file order. The
 * collection is the sequence `index` of its entries in insertion order; embeddings,
 * the similarity ranking and the collection's own storage are not modelled, so a query
 * hands its request to `collection`, a given function from request to the ids the
 * collection answers with.
 */
module SignalStore {
  import opened Wrappers
  import opened Calendar
  import opened Models
  import Seqs
  import ConvictionDetector

  // ================================================================ keys

  /*
   * Ingest de-duplicates by id. The facts about it are stated for any element type and
   * key function, and used with `SignalId`.
   */

  /** The keys of a sequence, as a set. */
  function Keys<T>(s: seq<T>, key: T -> string): set<string>
  {
    set i | 0 <= i < |s| :: key(s[i])
  }

  lemma KeysSnoc<T>(s: seq<T>, x: T, key: T -> string)
    ensures Keys(s + [x], key) == Keys(s, key) + {key(x)}
  {
    var t := s + [x];
    forall k | k in Keys(t, key) ensures k in Keys(s, key) + {key(x)} {
      var i :| 0 <= i < |t| && key(t[i]) == k;
      if i < |s| {
        assert t[i] == s[i];
      }
    }
    forall k | k in Keys(s, key) + {key(x)} ensures k in Keys(t, key) {
      if k in Keys(s, key) {
        var i :| 0 <= i < |s| && key(s[i]) == k;
        assert t[i] == s[i];
      } else {
        assert key(t[|s|]) == k;
      }
    }
  }

  predicate DistinctKeys<T>(s: seq<T>, key: T -> string)
  {
    forall i, j :: 0 <= i < j < |s| ==> key(s[i]) != key(s[j])
  }

  function IdSet(signals: seq<Signal>): set<string>
  {
    Keys(signals, SignalId)
  }

  lemma DistinctIdsAre(signals: seq<Signal>)
    ensures DistinctSignalIds(signals) <==> DistinctKeys(signals, SignalId)
  {
  }

  // ================================================================ ingest

  /**
   * The elements of `batch` that an ingest writes: those whose key is neither `known`
   * nor taken by an earlier element of the batch, in batch order.
   */
  function Admitted<T>(batch: seq<T>, key: T -> string, known: set<string>): (r: seq<T>)
    ensures DistinctKeys(r, key)
    ensures |r| <= |batch|
  {
    if batch == [] then []
    else
      var n := |batch| - 1;
      var d := Admitted(batch[..n], key, known);
      var s := batch[n];
      if key(s) in known || key(s) in Keys(d, key) then d
      else
        assert forall i :: 0 <= i < |d| ==> key(d[i]) in Keys(d, key);
        d + [s]
  }

  /** Everything admitted comes from the batch and has an unknown key. */
  lemma {:induction false} AdmittedFrom<T>(batch: seq<T>, key: T -> string, known: set<string>)
    ensures forall x :: x in Admitted(batch, key, known) ==> x in batch && key(x) !in known
  {
    if batch != [] {
      var n := |batch| - 1;
      AdmittedFrom(batch[..n], key, known);
      assert forall x :: x in batch[..n] ==> x in batch;
    }
  }

  /** Every key of the batch is known or admitted. */
  lemma {:induction false} AdmittedCovers<T>(batch: seq<T>, key: T -> string, known: set<string>)
    ensures forall x :: x in batch ==> key(x) in known || key(x) in Keys(Admitted(batch, key, known), key)
  {
    if batch != [] {
      var n := |batch| - 1;
      var b := batch[..n];
      var d := Admitted(b, key, known);
      AdmittedCovers(b, key, known);
      var r := Admitted(batch, key, known);
      assert r == d || r == d + [batch[n]];
      KeysSnoc(d, batch[n], key);
      forall x | x in batch ensures key(x) in known || key(x) in Keys(r, key) {
        var i :| 0 <= i < |batch| && batch[i] == x;
        if i < n {
          assert b[i] == x;
        }
      }
    }
  }

  lemma AdmittedSnoc<T>(batch: seq<T>, i: nat, key: T -> string, known: set<string>)
    requires i < |batch|
    ensures Admitted(batch[..i + 1], key, known) ==
              var d := Admitted(batch[..i], key, known);
              if key(batch[i]) in known || key(batch[i]) in Keys(d, key) then d else d + [batch[i]]
  {
    assert batch[..i + 1][..i] == batch[..i];
  }

  /** The `seen`-set loop of ingest. */
  method Admit<T>(batch: seq<T>, key: T -> string, known: set<string>) returns (added: seq<T>)
    ensures added == Admitted(batch, key, known)
  {
    var seen := known;
    added := [];
    var i := 0;
    while i < |batch|
      invariant i <= |batch|
      invariant added == Admitted(batch[..i], key, known)
      invariant seen == known + Keys(added, key)
    {
      AdmittedSnoc(batch, i, key, known);
      if key(batch[i]) !in seen {
        KeysSnoc(added, batch[i], key);
        seen := seen + {key(batch[i])};
        added := added + [batch[i]];
      }
      i := i + 1;
    }
    assert batch[..i] == batch;
  }

  /** The i-th element of the batch is the first with its key. */
  predicate FirstWithKey<T>(batch: seq<T>, key: T -> string, i: nat)
    requires i < |batch|
  {
    forall j :: 0 <= j < i ==> key(batch[j]) != key(batch[i])
  }

  /** Where in the batch the admitted elements sit. */
  function Positions<T>(batch: seq<T>, key: T -> string, known: set<string>): (pos: seq<nat>)
    ensures |pos| == |Admitted(batch, key, known)|
    ensures forall k :: 0 <= k < |pos| ==> pos[k] < |batch|
  {
    if batch == [] then []
    else
      var n := |batch| - 1;
      var d := Admitted(batch[..n], key, known);
      if key(batch[n]) in known || key(batch[n]) in Keys(d, key) then Positions(batch[..n], key, known)
      else Positions(batch[..n], key, known) + [n]
  }

  lemma {:induction false} PositionsPick<T>(batch: seq<T>, key: T -> string, known: set<string>)
    ensures forall k :: 0 <= k < |Positions(batch, key, known)| ==>
              batch[Positions(batch, key, known)[k]] == Admitted(batch, key, known)[k]
  {
    if batch != [] {
      var n := |batch| - 1;
      PositionsPick(batch[..n], key, known);
      assert forall i :: 0 <= i < n ==> batch[..n][i] == batch[i];
    }
  }

  lemma {:induction false} PositionsIncrease<T>(batch: seq<T>, key: T -> string, known: set<string>)
    ensures forall k, l :: 0 <= k < l < |Positions(batch, key, known)| ==>
              Positions(batch, key, known)[k] < Positions(batch, key, known)[l]
  {
    if batch != [] {
      var n := |batch| - 1;
      var p := Positions(batch[..n], key, known);
      PositionsIncrease(batch[..n], key, known);
      assert forall k :: 0 <= k < |p| ==> p[k] < n;
      assert Positions(batch, key, known) == p || Positions(batch, key, known) == p + [n];
    }
  }

  lemma {:induction false} PositionsFirst<T>(batch: seq<T>, key: T -> string, known: set<string>)
    ensures forall k :: 0 <= k < |Positions(batch, key, known)| ==> FirstWithKey(batch, key, Positions(batch, key, known)[k])
  {
    if batch != [] {
      var n := |batch| - 1;
      var b := batch[..n];
      PositionsFirst(b, key, known);
      EarlierFirst(batch, key);
      var d := Admitted(b, key, known);
      if !(key(batch[n]) in known || key(batch[n]) in Keys(d, key)) {
        AdmittedCovers(b, key, known);
        forall j | 0 <= j < n ensures key(batch[j]) != key(batch[n]) {
          assert b[j] in b;
        }
      }
    }
  }

  lemma {:induction false} PositionsComplete<T>(batch: seq<T>, key: T -> string, known: set<string>)
    ensures forall i :: 0 <= i < |batch| && key(batch[i]) !in known && FirstWithKey(batch, key, i)
              ==> i in Positions(batch, key, known)
  {
    if batch != [] {
      var n := |batch| - 1;
      var b := batch[..n];
      PositionsComplete(b, key, known);
      var d := Admitted(b, key, known);
      var p := Positions(b, key, known);
      var skip := key(batch[n]) in known || key(batch[n]) in Keys(d, key);
      assert Positions(batch, key, known) == if skip then p else p + [n];
      forall i | 0 <= i < |batch| && key(batch[i]) !in known && FirstWithKey(batch, key, i)
        ensures i in Positions(batch, key, known)
      {
        if i < n {
          assert forall j :: 0 <= j <= i ==> b[j] == batch[j];
          assert FirstWithKey(b, key, i);
        } else if skip {
          NotFirst(batch, key, known, d);
        }
      }
    }
  }

  /**
   * "Keeping first occurrences in order": the admitted elements sit at increasing
   * positions of the batch, each the first with its key, and every first occurrence of
   * an unknown key is among them.
   */
  lemma AdmittedPositions<T>(batch: seq<T>, key: T -> string, known: set<string>)
    ensures var pos := Positions(batch, key, known);
            && (forall k :: 0 <= k < |pos| ==> batch[pos[k]] == Admitted(batch, key, known)[k])
            && (forall k :: 0 <= k < |pos| ==> FirstWithKey(batch, key, pos[k]))
            && (forall k, l :: 0 <= k < l < |pos| ==> pos[k] < pos[l])
            && (forall i :: 0 <= i < |batch| && key(batch[i]) !in known && FirstWithKey(batch, key, i) ==> i in pos)
  {
    PositionsPick(batch, key, known);
    PositionsFirst(batch, key, known);
    PositionsIncrease(batch, key, known);
    PositionsComplete(batch, key, known);
  }

  /** Being first with a key in a prefix of the batch is being first in the batch. */
  lemma EarlierFirst<T>(batch: seq<T>, key: T -> string)
    requires |batch| > 0
    ensures forall i :: 0 <= i < |batch| - 1 ==> batch[..|batch| - 1][i] == batch[i]
    ensures forall i :: 0 <= i < |batch| - 1 ==>
              (FirstWithKey(batch[..|batch| - 1], key, i) <==> FirstWithKey(batch, key, i))
  {
  }

  /** A last element whose key is known or already admitted is not a first occurrence of an unknown key. */
  lemma NotFirst<T>(batch: seq<T>, key: T -> string, known: set<string>, d: seq<T>)
    requires |batch| > 0 && d == Admitted(batch[..|batch| - 1], key, known)
    requires key(batch[|batch| - 1]) in known || key(batch[|batch| - 1]) in Keys(d, key)
    ensures key(batch[|batch| - 1]) in known || !FirstWithKey(batch, key, |batch| - 1)
  {
    var n := |batch| - 1;
    AdmittedFrom(batch[..n], key, known);
    if key(batch[n]) !in known {
      var k :| 0 <= k < |d| && key(d[k]) == key(batch[n]);
      assert d[k] in d;
      var j :| 0 <= j < n && batch[..n][j] == d[k];
      assert key(batch[j]) == key(batch[n]);
    }
  }

  /** Appending admitted elements to a sequence of distinct keys keeps the keys distinct. */
  lemma AppendKeepsDistinct<T>(stored: seq<T>, added: seq<T>, key: T -> string)
    requires DistinctKeys(stored, key) && DistinctKeys(added, key)
    requires forall x :: x in added ==> key(x) !in Keys(stored, key)
    ensures DistinctKeys(stored + added, key)
  {
    var s := stored + added;
    forall i, j | 0 <= i < j < |s| ensures key(s[i]) != key(s[j]) {
      if i < |stored| && j >= |stored| {
        assert s[j] == added[j - |stored|];
        assert added[j - |stored|] in added;
        assert s[i] == stored[i];
      }
    }
  }

  /**
   * Ingesting keeps every earlier record where it was, adds only elements of the
   * batch with new keys, and afterwards every key of the batch is stored.
   */
  lemma IngestAppends<T>(stored: seq<T>, batch: seq<T>, key: T -> string)
    ensures var after := stored + Admitted(batch, key, Keys(stored, key));
            after[..|stored|] == stored
            && (forall k :: |stored| <= k < |after| ==> after[k] in batch && key(after[k]) !in Keys(stored, key))
            && (forall x :: x in batch ==> key(x) in Keys(after, key))
  {
    var added := Admitted(batch, key, Keys(stored, key));
    var after := stored + added;
    AdmittedFrom(batch, key, Keys(stored, key));
    AdmittedCovers(batch, key, Keys(stored, key));
    forall k | |stored| <= k < |after| ensures after[k] in batch && key(after[k]) !in Keys(stored, key) {
      assert after[k] == added[k - |stored|];
      assert added[k - |stored|] in added;
    }
    forall x | x in batch ensures key(x) in Keys(after, key) {
      if key(x) in Keys(added, key) {
        var k :| 0 <= k < |added| && key(added[k]) == key(x);
        assert after[|stored| + k] == added[k];
      } else {
        var k :| 0 <= k < |stored| && key(stored[k]) == key(x);
        assert after[k] == stored[k];
      }
    }
  }

  /** Ingesting an empty batch, or the same batch a second time, writes nothing. */
  lemma IngestIdempotent<T>(stored: seq<T>, batch: seq<T>, key: T -> string)
    ensures Admitted([], key, Keys(stored, key)) == []
    ensures Admitted(batch, key, Keys(stored + Admitted(batch, key, Keys(stored, key)), key)) == []
  {
    IngestAppends(stored, batch, key);
    AdmittedNone(batch, key, Keys(stored + Admitted(batch, key, Keys(stored, key)), key));
  }

  /** A batch whose keys are all known admits nothing. */
  lemma {:induction false} AdmittedNone<T>(batch: seq<T>, key: T -> string, known: set<string>)
    requires forall x :: x in batch ==> key(x) in known
    ensures Admitted(batch, key, known) == []
  {
    if batch != [] {
      var n := |batch| - 1;
      assert forall x :: x in batch[..n] ==> x in batch;
      AdmittedNone(batch[..n], key, known);
      assert batch[n] in batch;
    }
  }

  // ================================================================ the vector collection

  /** The metadata an entry carries: the filterable fields of its signal. */
  datatype Meta = Meta(
    direction: string, modality: Modality, authority: string, contentType: string,
    date: Day, context: SignalContext)

  /** An entry of the collection: the signal's id, its text as the document, and its metadata. */
  datatype Entry = Entry(id: string, document: string, meta: Meta)

  function DirectionName(d: Direction): string
  {
    match d
    case Input => "input"
    case Output => "output"
  }

  /** The metadata of a signal; a missing authority is stored as the empty string. */
  function MetaOf(s: Signal): (m: Meta)
    ensures m.date == s.source.date && m.context == s.source.context
    ensures m.authority == if s.authority.Some? then AuthorityName(s.authority.value) else ""
    ensures m.direction == DirectionName(s.direction)
  {
    Meta(DirectionName(s.direction), s.modality,
         if s.authority.Some? then AuthorityName(s.authority.value) else "",
         s.content.kind, s.source.date, s.source.context)
  }

  function EntryOf(s: Signal): Entry
  {
    Entry(s.signalId, s.content.text, MetaOf(s))
  }

  function EntriesOf(signals: seq<Signal>): (r: seq<Entry>)
    ensures |r| == |signals| && forall i :: 0 <= i < |r| ==> r[i] == EntryOf(signals[i])
  {
    seq(|signals|, i requires 0 <= i < |signals| => EntryOf(signals[i]))
  }

  /** The collection holds one entry per stored signal, in the same order. */
  predicate Mirrors(stored: seq<Signal>, index: seq<Entry>)
  {
    |index| == |stored| && forall i :: 0 <= i < |stored| ==> index[i] == EntryOf(stored[i])
  }

  // ================================================================ query

  /** The metadata filter: an equality on direction and an inclusive range on date. */
  datatype Where = Where(direction: Option<string>, dates: Option<(Day, Day)>)

  /** A request to the collection: a similarity search for a text, or a plain listing. */
  datatype Request =
    | Search(text: string, nResults: int, where: Option<Where>)
    | Listing(where: Option<Where>, limit: int)

  /** Python truthiness of an optional string. */
  predicate Given(s: Option<string>) { s.Some? && s.value != "" }

  /** The filter `query` builds; no filter at all when neither argument is given. */
  function WhereOf(direction: Option<string>, dates: Option<(Day, Day)>): (w: Option<Where>)
    ensures w.None? <==> !Given(direction) && dates.None?
  {
    var d := if Given(direction) then direction else None;
    if d.None? && dates.None? then None else Some(Where(d, dates))
  }

  /** Whether the collection's filter lets an entry with metadata `m` through. */
  predicate Admits(w: Option<Where>, m: Meta)
  {
    w.None?
    || ((w.value.direction.Some? ==> m.direction == w.value.direction.value)
        && (w.value.dates.Some? ==> w.value.dates.value.0 <= m.date && m.date <= w.value.dates.value.1))
  }

  /** The filter means: the direction, when given, matches; the date, when a range is given, lies in it at both ends. */
  lemma AdmitsIff(direction: Option<string>, dates: Option<(Day, Day)>, m: Meta)
    ensures Admits(WhereOf(direction, dates), m) <==>
              (Given(direction) ==> m.direction == direction.value)
              && (dates.Some? ==> dates.value.0 <= m.date <= dates.value.1)
  {
  }

  /** A text searches by similarity for the closest `n`; without one the filter lists up to `n` entries. */
  function RequestOf(text: Option<string>, dates: Option<(Day, Day)>, direction: Option<string>, n: int): (r: Request)
    ensures r.Search? <==> Given(text)
    ensures r.Search? ==> r.text == text.value && r.nResults == n
    ensures r.Listing? ==> r.limit == n
    ensures r.where == WhereOf(direction, dates)
  {
    if Given(text) then Search(text.value, n, WhereOf(direction, dates))
    else Listing(WhereOf(direction, dates), n)
  }

  function IdIn(ids: set<string>): Signal -> bool
  {
    (s: Signal) => s.signalId in ids
  }

  /** The stored signals whose id is one of `ids`, in file order. */
  function Loaded(stored: seq<Signal>, ids: seq<string>): seq<Signal>
  {
    Seqs.Filter(stored, IdIn(set id | id in ids))
  }

  /** What `query` returns for a request that the collection answers with `answer`. */
  function Queried(stored: seq<Signal>, answer: seq<string>): seq<Signal>
  {
    Loaded(stored, answer)
  }

  lemma LoadedIff(stored: seq<Signal>, ids: seq<string>, x: Signal)
    ensures x in Loaded(stored, ids) <==> x in stored && x.signalId in ids
  {
    assert IdIn(set id | id in ids)(x) <==> x.signalId in ids;
  }

  lemma {:induction false} FilterKeepsDistinct<T(!new)>(s: seq<T>, key: T -> string, p: T -> bool)
    requires DistinctKeys(s, key)
    ensures DistinctKeys(Seqs.Filter(s, p), key)
  {
    if s != [] {
      var n := |s| - 1;
      var b := s[..n];
      FilterKeepsDistinct(b, key, p);
      var f := Seqs.Filter(b, p);
      if p(s[n]) {
        forall k | 0 <= k < |f| ensures key(f[k]) != key(s[n]) {
          assert f[k] in f;
          var j :| 0 <= j < n && b[j] == f[k];
          assert s[j] == b[j];
        }
      }
    }
  }

  lemma {:induction false} DistinctKeysCount<T>(s: seq<T>, key: T -> string)
    requires DistinctKeys(s, key)
    ensures |Keys(s, key)| == |s|
  {
    if s != [] {
      var n := |s| - 1;
      var b := s[..n];
      assert DistinctKeys(b, key) by {
        forall i, j | 0 <= i < j < |b| ensures key(b[i]) != key(b[j]) {
          assert b[i] == s[i] && b[j] == s[j];
        }
      }
      DistinctKeysCount(b, key);
      assert s == b + [s[n]];
      KeysSnoc(b, s[n], key);
      forall j | 0 <= j < n ensures key(b[j]) != key(s[n]) {
        assert b[j] == s[j];
      }
      assert key(s[n]) !in Keys(b, key);
    }
  }

  lemma SubsetAtMost(a: set<string>, b: set<string>)
    requires a <= b
    ensures |a| <= |b|
    decreases |a|
  {
    if a != {} {
      var x :| x in a;
      SubsetAtMost(a - {x}, b - {x});
    }
  }

  lemma {:induction false} ElementsAtMost(ids: seq<string>)
    ensures |set id | id in ids| <= |ids|
  {
    if ids != [] {
      var n := |ids| - 1;
      ElementsAtMost(ids[..n]);
      assert (set id | id in ids) == (set id | id in ids[..n]) + {ids[n]} by {
        assert ids == ids[..n] + [ids[n]];
      }
    }
  }

  /**
   * What a query returns, in a store whose collection mirrors its file: stored signals
   * only, each with an id the collection answered, none twice, so no more of them than
   * the answer has ids; and when the collection only answers ids of entries its filter
   * lets through, every returned signal has the requested direction and a date in the
   * requested range.
   */
  lemma QueryFacts(stored: seq<Signal>, text: Option<string>, dates: Option<(Day, Day)>,
                   direction: Option<string>, n: int, collection: Request -> seq<string>)
    requires DistinctSignalIds(stored)
    ensures var r := Queried(stored, collection(RequestOf(text, dates, direction, n)));
            (forall x :: x in r <==> x in stored && x.signalId in collection(RequestOf(text, dates, direction, n)))
            && DistinctSignalIds(r)
            && |r| <= |collection(RequestOf(text, dates, direction, n))|
  {
    var answer := collection(RequestOf(text, dates, direction, n));
    var r := Queried(stored, answer);
    forall x ensures x in r <==> x in stored && x.signalId in answer {
      LoadedIff(stored, answer, x);
    }
    DistinctIdsAre(stored);
    FilterKeepsDistinct(stored, SignalId, IdIn(set id | id in answer));
    DistinctIdsAre(r);
    DistinctKeysCount(r, SignalId);
    assert IdSet(r) <= set id | id in answer by {
      forall id | id in IdSet(r) ensures id in answer {
        var k :| 0 <= k < |r| && r[k].signalId == id;
        assert r[k] in r;
      }
    }
    SubsetAtMost(IdSet(r), set id | id in answer);
    ElementsAtMost(answer);
  }

  /** When the collection honours the filter, so does every returned signal. */
  lemma QueryFiltered(stored: seq<Signal>, index: seq<Entry>, text: Option<string>, dates: Option<(Day, Day)>,
                      direction: Option<string>, n: int, collection: Request -> seq<string>)
    requires Mirrors(stored, index) && DistinctSignalIds(stored)
    requires forall id :: id in collection(RequestOf(text, dates, direction, n)) ==>
               exists k :: 0 <= k < |index| && index[k].id == id && Admits(WhereOf(direction, dates), index[k].meta)
    ensures forall x :: x in Queried(stored, collection(RequestOf(text, dates, direction, n))) ==>
              (Given(direction) ==> DirectionName(x.direction) == direction.value)
              && (dates.Some? ==> dates.value.0 <= x.source.date <= dates.value.1)
  {
    var answer := collection(RequestOf(text, dates, direction, n));
    forall x | x in Queried(stored, answer)
      ensures (Given(direction) ==> DirectionName(x.direction) == direction.value)
              && (dates.Some? ==> dates.value.0 <= x.source.date <= dates.value.1)
    {
      LoadedIff(stored, answer, x);
      var i :| 0 <= i < |stored| && stored[i] == x;
      var k :| 0 <= k < |index| && index[k].id == x.signalId && Admits(WhereOf(direction, dates), index[k].meta);
      assert stored[k].signalId == x.signalId;
      assert k == i;
      AdmitsIff(direction, dates, MetaOf(x));
    }
  }

  // ================================================================ stats

  function DirectionsOf(signals: seq<Signal>): (r: seq<Direction>)
    ensures |r| == |signals| && forall i :: 0 <= i < |r| ==> r[i] == signals[i].direction
  {
    seq(|signals|, i requires 0 <= i < |signals| => signals[i].direction)
  }

  function ModalitiesOf(signals: seq<Signal>): (r: seq<Modality>)
    ensures |r| == |signals| && forall i :: 0 <= i < |r| ==> r[i] == signals[i].modality
  {
    seq(|signals|, i requires 0 <= i < |signals| => signals[i].modality)
  }

  /** The authority's name, "unknown" when there is none. */
  function AuthorityLabel(s: Signal): string
  {
    if s.authority.Some? then AuthorityName(s.authority.value) else "unknown"
  }

  function AuthoritiesOf(signals: seq<Signal>): (r: seq<string>)
    ensures |r| == |signals| && forall i :: 0 <= i < |r| ==> r[i] == AuthorityLabel(signals[i])
  {
    seq(|signals|, i requires 0 <= i < |signals| => AuthorityLabel(signals[i]))
  }

  function KindsOf(signals: seq<Signal>): (r: seq<string>)
    ensures |r| == |signals| && forall i :: 0 <= i < |r| ==> r[i] == signals[i].content.kind
  {
    seq(|signals|, i requires 0 <= i < |signals| => signals[i].content.kind)
  }

  const TopTopicCount: nat := 20

  /** The statistics `stats` reports; an empty store reports only a total of zero. */
  datatype Stats =
    | NoSignals
    | Stats(
        total: nat, direction: seq<(Direction, nat)>, modality: seq<(Modality, nat)>,
        authority: seq<(string, nat)>, contentType: seq<(string, nat)>,
        context: seq<(SignalContext, nat)>, earliest: Day, latest: Day,
        topTopics: seq<(string, nat)>, indexed: nat)

  function StatsOf(stored: seq<Signal>, indexed: nat): Stats
  {
    if stored == [] then NoSignals
    else
      Stats(|stored|, Seqs.CounterOf(DirectionsOf(stored)), Seqs.CounterOf(ModalitiesOf(stored)),
            Seqs.CounterOf(AuthoritiesOf(stored)), Seqs.CounterOf(KindsOf(stored)),
            Seqs.CounterOf(ConvictionDetector.Contexts(stored)),
            Earliest(stored), Latest(stored), TopTopics(stored), indexed)
  }

  /** `min(dates)`: a date that occurs, and no date is earlier. */
  function Earliest(stored: seq<Signal>): (d: Day)
    requires stored != []
    ensures forall i :: 0 <= i < |stored| ==> d <= stored[i].source.date
    ensures exists i :: 0 <= i < |stored| && stored[i].source.date == d
  {
    var dates := ConvictionDetector.Dates(stored);
    var d := ConvictionDetector.MinOf(dates);
    assert d in dates;
    d
  }

  /** `max(dates)`: a date that occurs, and no date is later. */
  function Latest(stored: seq<Signal>): (d: Day)
    requires stored != []
    ensures forall i :: 0 <= i < |stored| ==> stored[i].source.date <= d
    ensures exists i :: 0 <= i < |stored| && stored[i].source.date == d
  {
    var dates := ConvictionDetector.Dates(stored);
    var d := ConvictionDetector.MaxOf(dates);
    assert d in dates;
    d
  }

  /** Some signal lists topic `t`. */
  predicate Lists(signals: seq<Signal>, t: string)
  {
    exists i :: 0 <= i < |signals| && signals[i].topics.Some? && t in signals[i].topics.value
  }

  /**
   * `Counter(topics_all).most_common(20)`: at most twenty topics, each one some signal
   * lists, with its number of mentions, the most mentioned first.
   */
  function TopTopics(stored: seq<Signal>): (r: seq<(string, nat)>)
    ensures |r| <= TopTopicCount
    ensures forall k :: 0 <= k < |r| ==>
              Lists(stored, r[k].0)
    ensures forall k :: 0 <= k < |r| ==> r[k].1 == Seqs.Count(ConvictionDetector.Topics(stored), r[k].0)
    ensures forall k, l :: 0 <= k < l < |r| ==> r[k].1 >= r[l].1
  {
    var r := Seqs.MostCommon(ConvictionDetector.Topics(stored), TopTopicCount);
    TopTopicsListed(stored, r);
    r
  }

  lemma TopTopicsListed(stored: seq<Signal>, r: seq<(string, nat)>)
    requires r == Seqs.MostCommon(ConvictionDetector.Topics(stored), TopTopicCount)
    ensures forall k :: 0 <= k < |r| ==>
              Lists(stored, r[k].0)
  {
    forall k | 0 <= k < |r|
      ensures Lists(stored, r[k].0)
    {
      TopicsIff(stored, r[k].0);
    }
  }

  /** A topic is mentioned exactly when some signal lists it. */
  lemma {:induction false} TopicsIff(signals: seq<Signal>, t: string)
    ensures t in ConvictionDetector.Topics(signals) <==>
              Lists(signals, t)
  {
    if signals != [] {
      var n := |signals| - 1;
      var b := signals[..n];
      TopicsIff(b, t);
      if t in ConvictionDetector.Topics(b) {
        var i :| 0 <= i < n && b[i].topics.Some? && t in b[i].topics.value;
        assert signals[i] == b[i];
      }
      forall i | 0 <= i < n && signals[i].topics.Some? && t in signals[i].topics.value
        ensures t in ConvictionDetector.Topics(b)
      {
        assert b[i] == signals[i];
      }
    }
  }

  /** `stats` reports nothing but a zero total exactly when the store is empty, and otherwise the number of signals. */
  lemma StatsTotal(stored: seq<Signal>, indexed: nat)
    ensures StatsOf(stored, indexed).NoSignals? <==> stored == []
    ensures stored != [] ==> StatsOf(stored, indexed).total == |stored| && StatsOf(stored, indexed).indexed == indexed
  {
  }

  /** `c` is a tally of `s`: an entry for exactly the values of `s`, each with its number of occurrences, none twice. */
  predicate Tallies<T(==,!new)>(c: seq<(T, nat)>, s: seq<T>)
  {
    && (forall i :: 0 <= i < |s| ==> exists k :: 0 <= k < |c| && c[k].0 == s[i])
    && (forall k :: 0 <= k < |c| ==> c[k].0 in s && c[k].1 == Seqs.Count(s, c[k].0))
    && (forall k, l :: 0 <= k < l < |c| ==> c[k].0 != c[l].0)
  }

  /**
   * Each per-dimension count of `stats` tallies that dimension over the stored
   * signals; a signal without authority counts as "unknown".
   */
  lemma StatsCounts(stored: seq<Signal>, indexed: nat)
    requires stored != []
    ensures Tallies(StatsOf(stored, indexed).direction, DirectionsOf(stored))
    ensures Tallies(StatsOf(stored, indexed).modality, ModalitiesOf(stored))
    ensures Tallies(StatsOf(stored, indexed).authority, AuthoritiesOf(stored))
    ensures Tallies(StatsOf(stored, indexed).contentType, KindsOf(stored))
    ensures Tallies(StatsOf(stored, indexed).context, ConvictionDetector.Contexts(stored))
  {
    CounterTallies(DirectionsOf(stored));
    CounterTallies(ModalitiesOf(stored));
    CounterTallies(AuthoritiesOf(stored));
    CounterTallies(KindsOf(stored));
    CounterTallies(ConvictionDetector.Contexts(stored));
  }

  /** `Counter(s)` tallies `s`. */
  lemma CounterTallies<T(!new)>(s: seq<T>)
    ensures Tallies(Seqs.CounterOf(s), s)
  {
    var c := Seqs.CounterOf(s);
    var d := Seqs.Dedup(s);
    forall i | 0 <= i < |s| ensures exists k :: 0 <= k < |c| && c[k].0 == s[i] {
      assert s[i] in d;
      var k :| 0 <= k < |d| && d[k] == s[i];
      assert c[k].0 == s[i];
    }
    forall k | 0 <= k < |c| ensures c[k].0 in s {
      assert d[k] in d;
    }
    forall k, l | 0 <= k < l < |c| ensures c[k].0 != c[l].0 {
      assert c[k].0 == d[k] && c[l].0 == d[l];
    }
  }

  // ================================================================ the store

  class Store {
    const ownerId: string
    /** The records of `signals.jsonl`, in file order. */
    var stored: seq<Signal>
    /** The vector collection's entries, in insertion order. */
    var index: seq<Entry>

    /** The two copies agree and no id is stored twice: what ingesting keeps. */
    ghost predicate Valid()
      reads this
    {
      Mirrors(stored, index) && DistinctSignalIds(stored)
    }

    /**
     * A store over the file and the collection as they are; it starts valid when the two
     * copies agree and no id is stored twice.
     */
    constructor(ownerId: string, file: seq<Signal>, collection: seq<Entry>)
      ensures this.ownerId == ownerId && stored == file && index == collection
      ensures Mirrors(file, collection) && DistinctSignalIds(file) ==> Valid()
    {
      this.ownerId := ownerId;
      stored := file;
      index := collection;
    }

    /** The ids already in the file. */
    method StoredIds() returns (ids: set<string>)
      ensures ids == IdSet(stored)
    {
      ids := {};
      var i := 0;
      while i < |stored|
        invariant i <= |stored|
        invariant ids == IdSet(stored[..i])
      {
        KeysSnoc(stored[..i], stored[i], SignalId);
        assert stored[..i + 1] == stored[..i] + [stored[i]];
        ids := ids + {stored[i].signalId};
        i := i + 1;
      }
      assert stored[..i] == stored;
    }

    /**
     * Write the batch's new signals to the end of the file and of the collection and
     * return how many there were; an empty batch, or one with nothing new, writes nothing.
     */
    method Ingest(batch: seq<Signal>) returns (n: nat)
      modifies this
      ensures stored == old(stored) + Admitted(batch, SignalId, IdSet(old(stored)))
      ensures index == old(index) + EntriesOf(Admitted(batch, SignalId, IdSet(old(stored))))
      ensures n == |Admitted(batch, SignalId, IdSet(old(stored)))|
      ensures old(Valid()) ==> Valid()
    {
      if batch == [] {
        return 0;
      }
      var existing := StoredIds();
      var added := Admit(batch, SignalId, existing);
      if added == [] {
        assert stored + added == stored;
        assert index + EntriesOf(added) == index;
        return 0;
      }
      if Mirrors(stored, index) && DistinctSignalIds(stored) {
        DistinctIdsAre(stored);
        AdmittedFrom(batch, SignalId, existing);
        AppendKeepsDistinct(stored, added, SignalId);
        DistinctIdsAre(stored + added);
      }
      stored := stored + added;
      index := index + EntriesOf(added);
      n := |added|;
    }

    /** The stored signals whose id is in `ids`, in file order. */
    method LoadByIds(ids: seq<string>) returns (r: seq<Signal>)
      ensures r == Loaded(stored, ids)
    {
      var wanted := set id | id in ids;
      r := [];
      var i := 0;
      while i < |stored|
        invariant i <= |stored|
        invariant r == Seqs.Filter(stored[..i], IdIn(wanted))
      {
        Seqs.FilterSnoc(stored, i, IdIn(wanted));
        if stored[i].signalId in wanted {
          r := r + [stored[i]];
        }
        i := i + 1;
      }
      assert stored[..i] == stored;
    }

    /** Build the request, let the collection answer it, and load the answered signals. */
    method Query(text: Option<string>, dates: Option<(Day, Day)>, direction: Option<string>, n: int,
                 collection: Request -> seq<string>) returns (r: seq<Signal>)
      ensures r == Queried(stored, collection(RequestOf(text, dates, direction, n)))
    {
      var req := RequestOf(text, dates, direction, n);
      var answer := collection(req);
      r := LoadByIds(answer);
    }

    /** Every topic mention in file order: the `extend` loop of `stats`. */
    method AllTopics() returns (all: seq<string>)
      ensures all == ConvictionDetector.Topics(stored)
    {
      all := [];
      var i := 0;
      while i < |stored|
        invariant i <= |stored|
        invariant all == ConvictionDetector.Topics(stored[..i])
      {
        assert stored[..i + 1][..i] == stored[..i];
        if stored[i].topics.Some? {
          all := all + stored[i].topics.value;
        }
        i := i + 1;
      }
      assert stored[..i] == stored;
    }

    method Statistics() returns (st: Stats)
      ensures st == StatsOf(stored, |index|)
    {
      if stored == [] {
        return NoSignals;
      }
      var topics := AllTopics();
      var dates := ConvictionDetector.Dates(stored);
      st := Stats(|stored|, Seqs.CounterOf(DirectionsOf(stored)), Seqs.CounterOf(ModalitiesOf(stored)),
                  Seqs.CounterOf(AuthoritiesOf(stored)), Seqs.CounterOf(KindsOf(stored)),
                  Seqs.CounterOf(ConvictionDetector.Contexts(stored)),
                  ConvictionDetector.MinOf(dates), ConvictionDetector.MaxOf(dates),
                  Seqs.MostCommon(topics, TopTopicCount), |index|);
      assert st.earliest == Earliest(stored) && st.latest == Latest(stored) && st.topTopics == TopTopics(stored);
    }
  }

}

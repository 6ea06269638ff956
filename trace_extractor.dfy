/**
 * The trace extractor (Layer 3): output signals worth mining are grouped by
 * (date, context), big groups are cut into chunks of at most thirty signals, and
 * each chunk's language-model reply is decoded into reasoning traces.  Entries the
 * reply gets wrong (a missing key, a value outside its allowed set or length) are
 * skipped one by one; the good ones become traces dated with the group's date.
 *
 * The model's reply and its JSON decoding are inputs: `reply(chunk)` is the raw text
 * returned for a chunk, and `decode` turns the cleaned text into the list under
 * "traces" (empty when the key is missing) or fails.  Trace ids, random in the
 * engine, come from `mint(group, entry)`.
 */
module TraceExtractor {
  import opened Wrappers
  import opened Models
  import Seqs
  import Strings
  import Calendar
  import FrameClusterer

  // ================================================================ grouping into chunks

  const MaxSignalsPerChunk: nat := 30

  /** A group key: the signal's source date and context. */
  datatype GroupKey = GroupKey(date: Calendar.Day, context: SignalContext)

  function KeyOf(s: Signal): GroupKey
  {
    GroupKey(s.source.date, s.source.context)
  }

  function KeysOf(ss: seq<Signal>): (ks: seq<GroupKey>)
    ensures |ks| == |ss| && forall i :: 0 <= i < |ss| ==> ks[i] == KeyOf(ss[i])
  {
    seq(|ss|, i requires 0 <= i < |ss| => KeyOf(ss[i]))
  }

  /**
   * Python's order on `(date, context)` tuples: ISO dates compare as their day
   * numbers, contexts as their names.
   */
  predicate KeyBelow(a: GroupKey, b: GroupKey)
  {
    a.date < b.date || (a.date == b.date && Strings.LexLess(ContextName(a.context), ContextName(b.context)))
  }

  lemma ContextNameInjective(a: SignalContext, b: SignalContext)
    requires ContextName(a) == ContextName(b)
    ensures a == b
  {
    ContextNameRoundTrip(a);
    ContextNameRoundTrip(b);
  }

  lemma KeyTotal(a: GroupKey, b: GroupKey)
    requires a != b
    ensures KeyBelow(a, b) || KeyBelow(b, a)
  {
    if a.date == b.date {
      if ContextName(a.context) == ContextName(b.context) {
        ContextNameInjective(a.context, b.context);
      }
      Strings.LexTotal(ContextName(a.context), ContextName(b.context));
    }
  }

  lemma KeyIrreflexive(a: GroupKey)
    ensures !KeyBelow(a, a)
  {
    Strings.LexIrreflexive(ContextName(a.context));
  }

  lemma KeyTransitive(a: GroupKey, b: GroupKey, c: GroupKey)
    requires KeyBelow(a, b) && KeyBelow(b, c)
    ensures KeyBelow(a, c)
  {
    if a.date == b.date == c.date {
      Strings.LexTransitive(ContextName(a.context), ContextName(b.context), ContextName(c.context));
    }
  }

  predicate KeysSorted(s: seq<GroupKey>)
  {
    forall i, j :: 0 <= i < j < |s| ==> !KeyBelow(s[j], s[i])
  }

  function InsertKey(s: seq<GroupKey>, x: GroupKey): (r: seq<GroupKey>)
    requires KeysSorted(s)
    ensures KeysSorted(r)
    ensures multiset(r) == multiset(s) + multiset{x}
  {
    if s == [] then [x]
    else if KeyBelow(x, s[0]) then
      BelowHead(s, x);
      PrependSorted(x, s);
      [x] + s
    else
      var t := InsertKey(s[1..], x);
      assert s == [s[0]] + s[1..];
      InsertedNotBelow(s, x, t);
      PrependSorted(s[0], t);
      [s[0]] + t
  }

  /** A key below the head of a sorted list is below none of it. */
  lemma BelowHead(s: seq<GroupKey>, x: GroupKey)
    requires KeysSorted(s) && s != [] && KeyBelow(x, s[0])
    ensures forall i :: 0 <= i < |s| ==> !KeyBelow(s[i], x)
  {
    forall i | 0 <= i < |s| ensures !KeyBelow(s[i], x) {
      if KeyBelow(s[i], x) {
        KeyTransitive(s[i], x, s[0]);
        KeyIrreflexive(s[0]);
        assert false;
      }
    }
  }

  /** Nothing that came from the tail of a sorted list, or a key not below its head, is below its head. */
  lemma InsertedNotBelow(s: seq<GroupKey>, x: GroupKey, t: seq<GroupKey>)
    requires KeysSorted(s) && s != [] && !KeyBelow(x, s[0])
    requires multiset(t) == multiset(s[1..]) + multiset{x}
    ensures forall i :: 0 <= i < |t| ==> !KeyBelow(t[i], s[0])
  {
    forall i | 0 <= i < |t| ensures !KeyBelow(t[i], s[0]) {
      assert t[i] in multiset(t);
      if t[i] != x {
        assert t[i] in multiset(s[1..]);
        var k :| 0 <= k < |s[1..]| && s[1..][k] == t[i];
        assert s[k + 1] == t[i];
      }
    }
  }

  lemma PrependSorted(h: GroupKey, t: seq<GroupKey>)
    requires KeysSorted(t)
    requires forall i :: 0 <= i < |t| ==> !KeyBelow(t[i], h)
    ensures KeysSorted([h] + t)
  {
    var r := [h] + t;
    forall i, j | 0 <= i < j < |r| ensures !KeyBelow(r[j], r[i]) {
      assert r[j] == t[j - 1];
      if i > 0 {
        assert r[i] == t[i - 1];
      }
    }
  }

  /** `sorted(groups)`: the group keys in ascending `(date, context)` order. */
  function SortKeys(s: seq<GroupKey>): (r: seq<GroupKey>)
    ensures KeysSorted(r)
    ensures multiset(r) == multiset(s)
  {
    if s == [] then []
    else
      assert s == s[..|s| - 1] + [s[|s| - 1]];
      InsertKey(SortKeys(s[..|s| - 1]), s[|s| - 1])
  }

  /** Sorting distinct keys gives each once, in strictly ascending order. */
  lemma SortedDistinct(s: seq<GroupKey>)
    requires Seqs.Distinct(s)
    ensures Seqs.Distinct(SortKeys(s))
    ensures forall i, j :: 0 <= i < j < |SortKeys(s)| ==> KeyBelow(SortKeys(s)[i], SortKeys(s)[j])
    ensures forall k :: k in SortKeys(s) <==> k in s
  {
    var r := SortKeys(s);
    Seqs.DistinctOnce(s);
    forall i, j | 0 <= i < j < |r| ensures r[i] != r[j] {
      if r[i] == r[j] {
        Seqs.MultisetTwoPositions(r, i, j);
        assert false;
      }
    }
    forall i, j | 0 <= i < j < |r| ensures KeyBelow(r[i], r[j]) {
      KeyTotal(r[i], r[j]);
    }
    forall k ensures k in r <==> k in s {
      Seqs.InMultiset(r, s, k);
    }
  }

  /** One chunk of a group: its key and up to thirty of its signals. */
  datatype Chunk = Chunk(date: Calendar.Day, context: SignalContext, signals: seq<Signal>)

  function ChunkKey(c: Chunk): GroupKey
  {
    GroupKey(c.date, c.context)
  }

  /** `sigs[i:i + 30]` for `i` in `range(0, len(sigs), 30)`. */
  function ChunksFor(k: GroupKey, sigs: seq<Signal>): (r: seq<Chunk>)
    ensures forall c :: c in r ==> ChunkKey(c) == k && 0 < |c.signals| <= MaxSignalsPerChunk
    decreases |sigs|
  {
    if sigs == [] then []
    else if |sigs| <= MaxSignalsPerChunk then [Chunk(k.date, k.context, sigs)]
    else [Chunk(k.date, k.context, sigs[..MaxSignalsPerChunk])] + ChunksFor(k, sigs[MaxSignalsPerChunk..])
  }

  /** The chunks of the groups `ks`, in that order. */
  function AllChunks(ks: seq<GroupKey>, members: map<GroupKey, seq<Signal>>): (r: seq<Chunk>)
    requires forall k :: k in ks ==> k in members
    ensures forall c :: c in r ==> ChunkKey(c) in ks && 0 < |c.signals| <= MaxSignalsPerChunk
  {
    if ks == [] then []
    else
      var r := ChunksFor(ks[0], members[ks[0]]) + AllChunks(ks[1..], members);
      assert forall c :: c in r ==> ChunkKey(c) in ks by {
        forall c | c in r ensures ChunkKey(c) in ks {
          if c !in ChunksFor(ks[0], members[ks[0]]) {
            assert ChunkKey(c) in ks[1..];
          }
        }
      }
      r
  }

  /** `_group_signals`. */
  function Chunked(signals: seq<Signal>): seq<Chunk>
  {
    var keys := KeysOf(signals);
    var g := Seqs.Grouped(keys, signals);
    Seqs.GroupedIsPartition(keys, signals);
    SortedDistinct(g.order);
    AllChunks(SortKeys(g.order), g.members)
  }

  /** One turn of the chunking loop: the chunk starting at `i`, then the rest. */
  lemma ChunksForStep(k: GroupKey, sigs: seq<Signal>, i: nat, end: nat)
    requires i < |sigs| && end == (if i + MaxSignalsPerChunk <= |sigs| then i + MaxSignalsPerChunk else |sigs|)
    ensures ChunksFor(k, sigs[i..]) == [Chunk(k.date, k.context, sigs[i..end])] + ChunksFor(k, sigs[end..])
  {
    if |sigs[i..]| <= MaxSignalsPerChunk {
      assert sigs[i..end] == sigs[i..] && sigs[end..] == [];
    } else {
      assert sigs[i..][..MaxSignalsPerChunk] == sigs[i..end];
      assert sigs[i..][MaxSignalsPerChunk..] == sigs[end..];
    }
  }

  lemma ShiftOne(done: seq<Chunk>, c: Chunk, rest: seq<Chunk>, whole: seq<Chunk>)
    requires done + ([c] + rest) == whole
    ensures (done + [c]) + rest == whole
  {
    assert done + ([c] + rest) == (done + [c]) + rest;
  }

  /** The chunking loop for one group. */
  method ChunkGroup(k: GroupKey, sigs: seq<Signal>) returns (out: seq<Chunk>)
    ensures out == ChunksFor(k, sigs)
  {
    out := [];
    var i := 0;
    assert sigs[0..] == sigs;
    while i < |sigs|
      invariant 0 <= i <= |sigs|
      invariant out + ChunksFor(k, sigs[i..]) == ChunksFor(k, sigs)
      decreases |sigs| - i
    {
      var end := if i + MaxSignalsPerChunk <= |sigs| then i + MaxSignalsPerChunk else |sigs|;
      var c := Chunk(k.date, k.context, sigs[i..end]);
      ChunksForStep(k, sigs, i, end);
      ShiftOne(out, c, ChunksFor(k, sigs[end..]), ChunksFor(k, sigs));
      out := out + [c];
      i := end;
    }
    assert sigs[i..] == [];
  }

  method GroupSignals(signals: seq<Signal>) returns (out: seq<Chunk>)
    ensures out == Chunked(signals)
  {
    var keys := KeysOf(signals);
    var order, members := Seqs.GroupInto(keys, signals);
    Seqs.GroupedIsPartition(keys, signals);
    SortedDistinct(order);
    out := ChunkAll(SortKeys(order), members);
  }

  /** The chunking loop over the sorted keys, each group cut into chunks. */
  method ChunkAll(sorted: seq<GroupKey>, members: map<GroupKey, seq<Signal>>) returns (out: seq<Chunk>)
    requires forall k :: k in sorted ==> k in members
    ensures out == AllChunks(sorted, members)
  {
    out := [];
    var j := 0;
    while j < |sorted|
      invariant 0 <= j <= |sorted|
      invariant out + AllChunks(sorted[j..], members) == AllChunks(sorted, members)
    {
      var k := sorted[j];
      assert k in sorted;
      var more := ChunkGroup(k, members[k]);
      AllChunksStep(sorted, members, j);
      out := out + more;
      j := j + 1;
    }
  }

  lemma AllChunksStep(sorted: seq<GroupKey>, members: map<GroupKey, seq<Signal>>, j: nat)
    requires forall k :: k in sorted ==> k in members
    requires j < |sorted|
    ensures AllChunks(sorted[j..], members) == ChunksFor(sorted[j], members[sorted[j]]) + AllChunks(sorted[j + 1..], members)
  {
    assert sorted[j..][1..] == sorted[j + 1..];
  }

  // ---------------------------------------------------------------- what the chunks are

  /** The signals of `cs`, chunk after chunk. */
  function Concat(cs: seq<Chunk>): seq<Signal>
  {
    if cs == [] then [] else cs[0].signals + Concat(cs[1..])
  }

  /** The chunks carrying key `k`. */
  function OfKey(cs: seq<Chunk>, k: GroupKey): (r: seq<Chunk>)
    ensures forall c :: c in r ==> c in cs && ChunkKey(c) == k
  {
    if cs == [] then []
    else (if ChunkKey(cs[0]) == k then [cs[0]] else []) + OfKey(cs[1..], k)
  }

  lemma {:induction false} ConcatAppend(a: seq<Chunk>, b: seq<Chunk>)
    ensures Concat(a + b) == Concat(a) + Concat(b)
  {
    if a == [] {
      assert a + b == b;
    } else {
      assert (a + b)[0] == a[0] && (a + b)[1..] == a[1..] + b;
      ConcatAppend(a[1..], b);
    }
  }

  lemma {:induction false} OfKeyAppend(a: seq<Chunk>, b: seq<Chunk>, k: GroupKey)
    ensures OfKey(a + b, k) == OfKey(a, k) + OfKey(b, k)
  {
    if a == [] {
      assert a + b == b;
    } else {
      assert (a + b)[0] == a[0] && (a + b)[1..] == a[1..] + b;
      OfKeyAppend(a[1..], b, k);
    }
  }

  lemma {:induction false} ChunksRejoin(k: GroupKey, sigs: seq<Signal>)
    ensures Concat(ChunksFor(k, sigs)) == sigs
    ensures OfKey(ChunksFor(k, sigs), k) == ChunksFor(k, sigs)
    decreases |sigs|
  {
    if |sigs| > MaxSignalsPerChunk {
      var rest := sigs[MaxSignalsPerChunk..];
      ChunksRejoin(k, rest);
      var head := [Chunk(k.date, k.context, sigs[..MaxSignalsPerChunk])];
      ConcatAppend(head, ChunksFor(k, rest));
      OfKeyAppend(head, ChunksFor(k, rest), k);
      assert sigs == sigs[..MaxSignalsPerChunk] + rest;
    } else if sigs != [] {
      assert [Chunk(k.date, k.context, sigs)][1..] == [];
    }
  }

  lemma {:induction false} OfKeyNone(cs: seq<Chunk>, k: GroupKey)
    requires forall c :: c in cs ==> ChunkKey(c) != k
    ensures OfKey(cs, k) == []
  {
    if cs != [] {
      OfKeyNone(cs[1..], k);
    }
  }

  /** Within distinct groups, the chunks of group `k` are exactly group `k`'s chunks. */
  lemma {:induction false} AllChunksOfKey(ks: seq<GroupKey>, members: map<GroupKey, seq<Signal>>, k: GroupKey)
    requires Seqs.Distinct(ks) && k in ks && forall x :: x in ks ==> x in members
    ensures Concat(OfKey(AllChunks(ks, members), k)) == members[k]
  {
    var first := ChunksFor(ks[0], members[ks[0]]);
    var rest := AllChunks(ks[1..], members);
    OfKeyAppend(first, rest, k);
    ConcatAppend(OfKey(first, k), OfKey(rest, k));
    ChunksRejoin(ks[0], members[ks[0]]);
    if ks[0] == k {
      assert k !in ks[1..];
      OfKeyNone(rest, k);
    } else {
      OfKeyNone(first, k);
      assert Concat([]) == [];
      AllChunksOfKey(ks[1..], members, k);
    }
  }

  /**
   * Every chunk holds one to thirty signals of a single group; chunks come in
   * ascending `(date, context)` order; and a group's chunks, put back together,
   * give the group in input order.
   */
  lemma ChunkedFacts(signals: seq<Signal>)
    ensures forall c :: c in Chunked(signals) ==>
              0 < |c.signals| <= MaxSignalsPerChunk && forall s :: s in c.signals ==> KeyOf(s) == ChunkKey(c)
    ensures forall i, j :: 0 <= i < j < |Chunked(signals)| ==>
              !KeyBelow(ChunkKey(Chunked(signals)[j]), ChunkKey(Chunked(signals)[i]))
    ensures forall k :: k in KeysOf(signals) ==>
              Concat(OfKey(Chunked(signals), k)) == Seqs.Select(KeysOf(signals), signals, k)
  {
    var keys := KeysOf(signals);
    var g := Seqs.Grouped(keys, signals);
    Seqs.GroupedIsPartition(keys, signals);
    SortedDistinct(g.order);
    var ks := SortKeys(g.order);
    forall k | k in keys ensures Concat(OfKey(Chunked(signals), k)) == Seqs.Select(keys, signals, k) {
      AllChunksOfKey(ks, g.members, k);
    }
    ChunksCarryKeys(ks, g.members, keys, signals);
    AllChunksOrdered(ks, g.members);
  }

  lemma ChunksCarryKeys(ks: seq<GroupKey>, members: map<GroupKey, seq<Signal>>, keys: seq<GroupKey>, signals: seq<Signal>)
    requires keys == KeysOf(signals)
    requires forall k :: k in ks ==> k in members && members[k] == Seqs.Select(keys, signals, k)
    ensures forall c :: c in AllChunks(ks, members) ==> forall s :: s in c.signals ==> KeyOf(s) == ChunkKey(c)
  {
    forall c, s | c in AllChunks(ks, members) && s in c.signals ensures KeyOf(s) == ChunkKey(c) {
      var k := ChunkKey(c);
      ChunkInGroup(ks, members, c);
      SelectCarriesKey(signals, k, s);
    }
  }

  lemma {:induction false} ChunkInGroup(ks: seq<GroupKey>, members: map<GroupKey, seq<Signal>>, c: Chunk)
    requires forall k :: k in ks ==> k in members
    requires c in AllChunks(ks, members)
    ensures forall s :: s in c.signals ==> s in members[ChunkKey(c)]
  {
    if c in ChunksFor(ks[0], members[ks[0]]) {
      ChunkOfGroup(ks[0], members[ks[0]], c);
    } else {
      ChunkInGroup(ks[1..], members, c);
    }
  }

  lemma {:induction false} ChunkOfGroup(k: GroupKey, sigs: seq<Signal>, c: Chunk)
    requires c in ChunksFor(k, sigs)
    ensures forall s :: s in c.signals ==> s in sigs
    decreases |sigs|
  {
    if |sigs| > MaxSignalsPerChunk && c != Chunk(k.date, k.context, sigs[..MaxSignalsPerChunk]) {
      ChunkOfGroup(k, sigs[MaxSignalsPerChunk..], c);
    }
  }

  lemma {:induction false} SelectCarriesKey(signals: seq<Signal>, k: GroupKey, s: Signal)
    requires s in Seqs.Select(KeysOf(signals), signals, k)
    ensures KeyOf(s) == k
  {
    var q := signals[..|signals| - 1];
    assert KeysOf(signals)[..|signals| - 1] == KeysOf(q);
    if s !in Seqs.Select(KeysOf(q), q, k) {
      assert s == signals[|signals| - 1];
    } else {
      SelectCarriesKey(q, k, s);
    }
  }

  /** No chunk of `cs` sorts before an earlier one. */
  predicate ChunksOrdered(cs: seq<Chunk>)
  {
    forall i, j :: 0 <= i < j < |cs| ==> !KeyBelow(ChunkKey(cs[j]), ChunkKey(cs[i]))
  }

  lemma ConcatOrdered(a: seq<Chunk>, b: seq<Chunk>)
    requires ChunksOrdered(a) && ChunksOrdered(b)
    requires forall x, y :: x in a && y in b ==> !KeyBelow(ChunkKey(y), ChunkKey(x))
    ensures ChunksOrdered(a + b)
  {
    var r := a + b;
    forall i, j | 0 <= i < j < |r| ensures !KeyBelow(ChunkKey(r[j]), ChunkKey(r[i])) {
      if j < |a| {
        assert r[i] == a[i] && r[j] == a[j];
      } else if i < |a| {
        assert r[i] in a && r[j] in b;
      } else {
        assert r[i] == b[i - |a|] && r[j] == b[j - |a|];
      }
    }
  }

  /** The chunks of one group all carry its key, so none sorts before another. */
  lemma ChunksForOrdered(k: GroupKey, sigs: seq<Signal>)
    ensures ChunksOrdered(ChunksFor(k, sigs))
  {
    var cs := ChunksFor(k, sigs);
    forall i, j | 0 <= i < j < |cs| ensures !KeyBelow(ChunkKey(cs[j]), ChunkKey(cs[i])) {
      assert cs[i] in cs && cs[j] in cs;
      KeyIrreflexive(k);
    }
  }

  lemma {:induction false} AllChunksOrdered(ks: seq<GroupKey>, members: map<GroupKey, seq<Signal>>)
    requires forall k :: k in ks ==> k in members
    requires forall i, j :: 0 <= i < j < |ks| ==> KeyBelow(ks[i], ks[j])
    ensures ChunksOrdered(AllChunks(ks, members))
  {
    if ks != [] {
      var first := ChunksFor(ks[0], members[ks[0]]);
      var rest := AllChunks(ks[1..], members);
      AllChunksOrdered(ks[1..], members);
      ChunksForOrdered(ks[0], members[ks[0]]);
      forall x, y | x in first && y in rest ensures !KeyBelow(ChunkKey(y), ChunkKey(x)) {
        HeadBeforeRest(ks, members, x, y);
      }
      ConcatOrdered(first, rest);
    }
  }

  /** A chunk of the first group never sorts after a chunk of a later one. */
  lemma HeadBeforeRest(ks: seq<GroupKey>, members: map<GroupKey, seq<Signal>>, a: Chunk, b: Chunk)
    requires ks != [] && forall k :: k in ks ==> k in members
    requires forall i, j :: 0 <= i < j < |ks| ==> KeyBelow(ks[i], ks[j])
    requires a in ChunksFor(ks[0], members[ks[0]]) && b in AllChunks(ks[1..], members)
    ensures !KeyBelow(ChunkKey(b), ChunkKey(a))
  {
    var m :| 0 <= m < |ks[1..]| && ks[1..][m] == ChunkKey(b);
    assert KeyBelow(ks[0], ks[m + 1]);
    if KeyBelow(ks[m + 1], ks[0]) {
      KeyTransitive(ks[0], ks[m + 1], ks[0]);
      KeyIrreflexive(ks[0]);
    }
  }

  // ---------------------------------------------------------------- every signal exactly once

  /** The groups `ks` of `(keys, vals)`, one after another. */
  function Regrouped<V>(ks: seq<GroupKey>, keys: seq<GroupKey>, vals: seq<V>): seq<V>
    requires |keys| == |vals|
  {
    if ks == [] then [] else Seqs.Select(keys, vals, ks[0]) + Regrouped(ks[1..], keys, vals)
  }

  lemma {:induction false} RegroupedSnoc<V>(ks: seq<GroupKey>, keys: seq<GroupKey>, vals: seq<V>, k: GroupKey, v: V)
    requires |keys| == |vals| && Seqs.Distinct(ks)
    ensures multiset(Regrouped(ks, keys + [k], vals + [v]))
            == multiset(Regrouped(ks, keys, vals)) + (if k in ks then multiset{v} else multiset{})
  {
    if ks != [] {
      assert (keys + [k])[..|keys|] == keys && (vals + [v])[..|vals|] == vals;
      assert Seqs.Distinct(ks[1..]) by {
        forall i, j | 0 <= i < j < |ks[1..]| ensures ks[1..][i] != ks[1..][j] {
          assert ks[1..][i] == ks[i + 1] && ks[1..][j] == ks[j + 1];
        }
      }
      RegroupedSnoc(ks[1..], keys, vals, k, v);
      assert k == ks[0] ==> k !in ks[1..];
    }
  }

  /** With every key among the distinct `ks`, regrouping loses and repeats nothing. */
  lemma {:induction false} RegroupedPermutes<V>(ks: seq<GroupKey>, keys: seq<GroupKey>, vals: seq<V>)
    requires |keys| == |vals| && Seqs.Distinct(ks) && forall k :: k in keys ==> k in ks
    ensures multiset(Regrouped(ks, keys, vals)) == multiset(vals)
  {
    if keys == [] {
      RegroupedEmpty(ks, vals);
    } else {
      var n := |keys| - 1;
      assert keys == keys[..n] + [keys[n]] && vals == vals[..n] + [vals[n]];
      RegroupedPermutes(ks, keys[..n], vals[..n]);
      RegroupedSnoc(ks, keys[..n], vals[..n], keys[n], vals[n]);
    }
  }

  lemma {:induction false} RegroupedEmpty<V>(ks: seq<GroupKey>, vals: seq<V>)
    requires |vals| == 0
    ensures Regrouped(ks, [], vals) == []
  {
    if ks != [] {
      RegroupedEmpty(ks[1..], vals);
    }
  }

  lemma {:induction false} AllChunksRegrouped(ks: seq<GroupKey>, members: map<GroupKey, seq<Signal>>,
                                              keys: seq<GroupKey>, signals: seq<Signal>)
    requires |keys| == |signals|
    requires forall k :: k in ks ==> k in members && members[k] == Seqs.Select(keys, signals, k)
    ensures Concat(AllChunks(ks, members)) == Regrouped(ks, keys, signals)
  {
    if ks != [] {
      AllChunksRegrouped(ks[1..], members, keys, signals);
      ConcatAppend(ChunksFor(ks[0], members[ks[0]]), AllChunks(ks[1..], members));
      ChunksRejoin(ks[0], members[ks[0]]);
    }
  }

  /** Every signal lies in exactly one chunk: the chunks hold the input, each signal once. */
  lemma ChunkedPermutes(signals: seq<Signal>)
    ensures multiset(Concat(Chunked(signals))) == multiset(signals)
  {
    var keys := KeysOf(signals);
    var g := Seqs.Grouped(keys, signals);
    Seqs.GroupedIsPartition(keys, signals);
    SortedDistinct(g.order);
    var ks := SortKeys(g.order);
    AllChunksRegrouped(ks, g.members, keys, signals);
    RegroupedPermutes(ks, keys, signals);
  }

  // ================================================================ decoding one chunk's reply

  /**
   * An entry of the reply's "traces" list as JSON gives it: `None` is a key that is
   * missing (or `null` where the trace model allows that), `fromSignals` and
   * `activated` are empty when their key is missing, `steps` is `None` when
   * `reasoning_path` or its `steps` is missing.
   */
  datatype RawActivation = RawActivation(convictionId: Option<string>, role: Option<string>, note: Option<string>)

  datatype RawStep = RawStep(action: Option<string>, description: Option<string>, usesConviction: Option<string>)

  datatype RawEntry = RawEntry(
    fromSignals: seq<int>, activated: seq<RawActivation>, steps: Option<seq<RawStep>>, style: Option<string>,
    situation: Option<string>, stimulus: Option<string>,
    decision: Option<string>, confidence: Option<string>, alternative: Option<string>)

  /** The signal ids the 1-based `idx` point at, indices out of range dropped. */
  function FromIds(idx: seq<int>, sigs: seq<Signal>): (r: seq<string>)
    ensures |r| <= |idx|
    ensures forall id :: id in r ==> exists j :: 0 <= j < |sigs| && sigs[j].signalId == id
  {
    if idx == [] then []
    else
      var n := |idx| - 1;
      var r := FromIds(idx[..n], sigs) + (if 1 <= idx[n] <= |sigs| then [sigs[idx[n] - 1].signalId] else []);
      assert forall id :: id in r ==> exists j :: 0 <= j < |sigs| && sigs[j].signalId == id by {
        forall id | id in r ensures exists j :: 0 <= j < |sigs| && sigs[j].signalId == id {
          if id !in FromIds(idx[..n], sigs) {
            assert sigs[idx[n] - 1].signalId == id;
          }
        }
      }
      r
  }

  /** With every index in range, the ids are those of the signals pointed at, in order. */
  lemma {:induction false} FromIdsInRange(idx: seq<int>, sigs: seq<Signal>)
    requires forall i :: 0 <= i < |idx| ==> 1 <= idx[i] <= |sigs|
    ensures |FromIds(idx, sigs)| == |idx|
    ensures forall i :: 0 <= i < |idx| ==> FromIds(idx, sigs)[i] == sigs[idx[i] - 1].signalId
  {
    if idx != [] {
      var n := |idx| - 1;
      var q := idx[..n];
      assert forall i :: 0 <= i < |q| ==> q[i] == idx[i];
      FromIdsInRange(q, sigs);
      var r := FromIds(idx, sigs);
      assert r == FromIds(q, sigs) + [sigs[idx[n] - 1].signalId];
      forall i | 0 <= i < |idx| ensures r[i] == sigs[idx[i] - 1].signalId {
        if i < n {
          assert r[i] == FromIds(q, sigs)[i];
        }
      }
    }
  }

  /** With no index in range, there are no ids. */
  lemma {:induction false} FromIdsOutOfRange(idx: seq<int>, sigs: seq<Signal>)
    requires forall i :: 0 <= i < |idx| ==> !(1 <= idx[i] <= |sigs|)
    ensures FromIds(idx, sigs) == []
  {
    if idx != [] {
      FromIdsOutOfRange(idx[..|idx| - 1], sigs);
    }
  }

  method MapIndices(idx: seq<int>, sigs: seq<Signal>) returns (r: seq<string>)
    ensures r == FromIds(idx, sigs)
  {
    r := [];
    var i := 0;
    while i < |idx|
      invariant 0 <= i <= |idx|
      invariant r == FromIds(idx[..i], sigs)
    {
      assert idx[..i + 1][..i] == idx[..i];
      if 1 <= idx[i] <= |sigs| {
        r := r + [sigs[idx[i] - 1].signalId];
      }
      i := i + 1;
    }
    assert idx[..i] == idx;
  }

  /** `ActivatedConviction(...)`: fails on a missing key, an unknown role or a note over 100 characters. */
  function ActivationOf(a: RawActivation): (r: Option<Activated>)
    ensures r.Some? <==> a.convictionId.Some? && a.role.Some? && RoleFromName(a.role.value).Some? && OptLen(a.note, 100)
    ensures r.Some? ==> ValidActivated(r.value) && r.value.convictionId == a.convictionId.value
                        && RoleName(r.value.role) == a.role.value && r.value.note == a.note
  {
    if a.convictionId.None? || a.role.None? then None
    else match RoleFromName(a.role.value)
      case None => None
      case Some(role) => if OptLen(a.note, 100) then Some(Activated(a.convictionId.value, role, a.note)) else None
  }

  /** `ReasoningStep(...)`: fails on a missing key, an unknown action or a description over 150 characters. */
  function StepOf(s: RawStep): (r: Option<Step>)
    ensures r.Some? <==> s.action.Some? && s.action.value in StepActions && s.description.Some? && |s.description.value| <= 150
    ensures r.Some? ==> ValidStep(r.value) && r.value == Step(s.action.value, s.description.value, s.usesConviction)
  {
    if s.action.Some? && s.action.value in StepActions && s.description.Some? && |s.description.value| <= 150
    then Some(Step(s.action.value, s.description.value, s.usesConviction))
    else None
  }

  /** All of `raw` converted, or `None` as soon as one fails (the whole entry is then skipped). */
  function ActivationsOf(raw: seq<RawActivation>): (r: Option<seq<Activated>>)
    ensures r.Some? <==> forall i :: 0 <= i < |raw| ==> ActivationOf(raw[i]).Some?
    ensures r.Some? ==> |r.value| == |raw| && forall i :: 0 <= i < |raw| ==> ActivationOf(raw[i]) == Some(r.value[i])
  {
    if raw == [] then Some([])
    else
      var n := |raw| - 1;
      match ActivationsOf(raw[..n])
      case None =>
        assert !ActivationOf(raw[..n][0]).Some? || exists i :: 0 <= i < n && !ActivationOf(raw[..n][i]).Some?;
        None
      case Some(front) =>
        match ActivationOf(raw[n])
        case None => None
        case Some(a) => Some(front + [a])
  }

  function StepsOf(raw: seq<RawStep>): (r: Option<seq<Step>>)
    ensures r.Some? <==> forall i :: 0 <= i < |raw| ==> StepOf(raw[i]).Some?
    ensures r.Some? ==> |r.value| == |raw| && forall i :: 0 <= i < |raw| ==> StepOf(raw[i]) == Some(r.value[i])
  {
    if raw == [] then Some([])
    else
      var n := |raw| - 1;
      match StepsOf(raw[..n])
      case None =>
        assert exists i :: 0 <= i < n && !StepOf(raw[..n][i]).Some?;
        None
      case Some(front) =>
        match StepOf(raw[n])
        case None => None
        case Some(st) => Some(front + [st])
  }

  method CollectActivations(raw: seq<RawActivation>) returns (r: Option<seq<Activated>>)
    ensures r == ActivationsOf(raw)
  {
    var acc: seq<Activated> := [];
    var i := 0;
    while i < |raw|
      invariant 0 <= i <= |raw|
      invariant ActivationsOf(raw[..i]) == Some(acc)
    {
      assert raw[..i + 1][..i] == raw[..i];
      var a := ActivationOf(raw[i]);
      if a.None? {
        ActivationsFail(raw, i);
        return None;
      }
      acc := acc + [a.value];
      i := i + 1;
    }
    assert raw[..i] == raw;
    r := Some(acc);
  }

  lemma ActivationsFail(raw: seq<RawActivation>, i: nat)
    requires i < |raw| && ActivationOf(raw[i]).None?
    ensures ActivationsOf(raw).None?
  {
  }

  method CollectSteps(raw: seq<RawStep>) returns (r: Option<seq<Step>>)
    ensures r == StepsOf(raw)
  {
    var acc: seq<Step> := [];
    var i := 0;
    while i < |raw|
      invariant 0 <= i <= |raw|
      invariant StepsOf(raw[..i]) == Some(acc)
    {
      assert raw[..i + 1][..i] == raw[..i];
      var st := StepOf(raw[i]);
      if st.None? {
        assert StepsOf(raw).None?;
        return None;
      }
      acc := acc + [st.value];
      i := i + 1;
    }
    assert raw[..i] == raw;
    r := Some(acc);
  }

  /** What a kept entry needs: every required key, every value in its set and within its length. */
  predicate WellFormed(e: RawEntry)
  {
    ActivationsOf(e.activated).Some? && e.steps.Some? && StepsOf(e.steps.value).Some?
    && e.style.Some? && StyleFromName(e.style.value).Some?
    && e.situation.Some? && |e.situation.value| <= 200 && e.stimulus.Some? && e.stimulus.value in StimulusTypes
    && e.decision.Some? && |e.decision.value| <= 200 && e.confidence.Some? && CertaintyFromName(e.confidence.value).Some?
    && OptLen(e.alternative, 200)
  }

  function FirstOf(ids: seq<string>): (r: Option<string>)
    ensures r.Some? <==> ids != []
    ensures r.Some? ==> r.value == ids[0]
  {
    if ids == [] then None else Some(ids[0])
  }

  /**
   * The trace built from one entry, or `None` when the entry is skipped.  The owner,
   * source file and participants come from the chunk's first signal, which a chunk
   * without signals does not have; `ctx` is the source context recorded.
   */
  function TraceFrom(e: RawEntry, sigs: seq<Signal>, date: Calendar.Day, ctx: Option<string>, id: string): (r: Option<Trace>)
    ensures r.Some? <==> sigs != [] && WellFormed(e)
  {
    if sigs == [] || !WellFormed(e) then None
    else
      var from := FromIds(e.fromSignals, sigs);
      Some(Trace(
        sigs[0].ownerId, id,
        Trigger(e.situation.value, e.stimulus.value, FirstOf(from)),
        ActivationsOf(e.activated).value,
        Path(StepsOf(e.steps.value).value, StyleFromName(e.style.value).value),
        Conclusion(e.decision.value, CertaintyFromName(e.confidence.value).value, e.alternative, FirstOf(from)),
        None, None,
        TraceSource(date, ctx, sigs[0].source.sourceFile, sigs[0].source.participants)))
  }

  /** The id of the trace built from entry `j` of chunk `g`: "trace_" and a minted suffix. */
  function TraceIdFor(mint: (nat, nat) -> string, g: nat, j: nat): (id: string)
    ensures Strings.StartsWith(id, "trace_")
  {
    "trace_" + mint(g, j)
  }

  /** The traces of entries `es` in order, skipped entries left out. */
  function TracesOf(es: seq<RawEntry>, sigs: seq<Signal>, date: Calendar.Day, ctx: Option<string>,
                    mint: (nat, nat) -> string, g: nat): (r: seq<Trace>)
    ensures |r| <= |es|
  {
    if es == [] then []
    else
      var n := |es| - 1;
      TracesOf(es[..n], sigs, date, ctx, mint, g)
      + match TraceFrom(es[n], sigs, date, ctx, TraceIdFor(mint, g, n)) case Some(t) => [t] case None => []
  }

  lemma TracesOfSnoc(es: seq<RawEntry>, j: nat, sigs: seq<Signal>, date: Calendar.Day, ctx: Option<string>,
                     mint: (nat, nat) -> string, g: nat)
    requires j < |es|
    ensures TracesOf(es[..j + 1], sigs, date, ctx, mint, g)
            == TracesOf(es[..j], sigs, date, ctx, mint, g)
               + match TraceFrom(es[j], sigs, date, ctx, TraceIdFor(mint, g, j)) case Some(t) => [t] case None => []
  {
    assert es[..j + 1][..j] == es[..j];
  }

  /** `_parse_group_response` as written: the group's context is passed in but not recorded. */
  function ParsedAsWritten(raw: string, c: Chunk, decode: string -> Option<seq<RawEntry>>,
                           mint: (nat, nat) -> string, g: nat): (r: seq<Trace>)
    ensures forall t :: t in r ==> t.source.context.None?
  {
    match decode(Strings.Unfence(raw))
    case None => []
    case Some(es) =>
      var r := TracesOf(es, c.signals, c.date, None, mint, g);
      TracesFacts(es, c.signals, c.date, None, mint, g);
      r
  }

  /** `_parse_group_response` keeping the group's context in each trace's source. */
  function Parsed(raw: string, c: Chunk, decode: string -> Option<seq<RawEntry>>,
                  mint: (nat, nat) -> string, g: nat): seq<Trace>
  {
    match decode(Strings.Unfence(raw))
    case None => []
    case Some(es) => TracesOf(es, c.signals, c.date, Some(ContextName(c.context)), mint, g)
  }

  /** A trace that is kept: built from entry `j` of `es`, which is well formed. */
  predicate BuiltFrom(t: Trace, es: seq<RawEntry>, sigs: seq<Signal>, date: Calendar.Day, ctx: Option<string>,
                      mint: (nat, nat) -> string, g: nat)
  {
    exists j :: 0 <= j < |es| && WellFormed(es[j]) && TraceFrom(es[j], sigs, date, ctx, TraceIdFor(mint, g, j)) == Some(t)
  }

  /** What every kept trace is: valid, owned, dated and sourced from the chunk, with consistent links. */
  predicate Shaped(t: Trace, sigs: seq<Signal>, date: Calendar.Day, ctx: Option<string>)
  {
    sigs != [] && ValidTrace(t) && t.ownerId == sigs[0].ownerId && Strings.StartsWith(t.traceId, "trace_")
    && t.source == TraceSource(date, ctx, sigs[0].source.sourceFile, sigs[0].source.participants)
    && t.conclusion.outputSignal == t.trigger.fromSignal
    && (t.trigger.fromSignal.Some? ==> exists j :: 0 <= j < |sigs| && sigs[j].signalId == t.trigger.fromSignal.value)
    && t.outcome.None? && t.frameId.None?
  }

  lemma TraceFromShaped(e: RawEntry, sigs: seq<Signal>, date: Calendar.Day, ctx: Option<string>,
                        mint: (nat, nat) -> string, g: nat, j: nat)
    requires TraceFrom(e, sigs, date, ctx, TraceIdFor(mint, g, j)).Some?
    ensures Shaped(TraceFrom(e, sigs, date, ctx, TraceIdFor(mint, g, j)).value, sigs, date, ctx)
  {
    var t := TraceFrom(e, sigs, date, ctx, TraceIdFor(mint, g, j)).value;
    var from := FromIds(e.fromSignals, sigs);
    if from != [] {
      assert from[0] in from;
    }
    var acts := ActivationsOf(e.activated).value;
    forall a | a in acts ensures ValidActivated(a) {
      var i :| 0 <= i < |acts| && acts[i] == a;
      assert ActivationOf(e.activated[i]) == Some(a);
    }
    var steps := StepsOf(e.steps.value).value;
    forall st | st in steps ensures ValidStep(st) {
      var i :| 0 <= i < |steps| && steps[i] == st;
      assert StepOf(e.steps.value[i]) == Some(st);
    }
  }

  /** Every kept trace is shaped by the chunk and comes from a well-formed entry. */
  lemma TracesFacts(es: seq<RawEntry>, sigs: seq<Signal>, date: Calendar.Day, ctx: Option<string>,
                    mint: (nat, nat) -> string, g: nat)
    ensures forall t :: t in TracesOf(es, sigs, date, ctx, mint, g) ==>
              Shaped(t, sigs, date, ctx) && BuiltFrom(t, es, sigs, date, ctx, mint, g)
  {
    TracesShaped(es, sigs, date, ctx, mint, g);
    TracesBuilt(es, sigs, date, ctx, mint, g);
  }

  lemma {:induction false} TracesShaped(es: seq<RawEntry>, sigs: seq<Signal>, date: Calendar.Day, ctx: Option<string>,
                                        mint: (nat, nat) -> string, g: nat)
    ensures forall t :: t in TracesOf(es, sigs, date, ctx, mint, g) ==> Shaped(t, sigs, date, ctx)
  {
    if es != [] {
      var n := |es| - 1;
      TracesShaped(es[..n], sigs, date, ctx, mint, g);
      if TraceFrom(es[n], sigs, date, ctx, TraceIdFor(mint, g, n)).Some? {
        TraceFromShaped(es[n], sigs, date, ctx, mint, g, n);
      }
    }
  }

  lemma {:induction false} TracesBuilt(es: seq<RawEntry>, sigs: seq<Signal>, date: Calendar.Day, ctx: Option<string>,
                                       mint: (nat, nat) -> string, g: nat)
    ensures forall t :: t in TracesOf(es, sigs, date, ctx, mint, g) ==> BuiltFrom(t, es, sigs, date, ctx, mint, g)
  {
    if es != [] {
      var n := |es| - 1;
      TracesBuilt(es[..n], sigs, date, ctx, mint, g);
      forall t | t in TracesOf(es, sigs, date, ctx, mint, g) ensures BuiltFrom(t, es, sigs, date, ctx, mint, g) {
        if t in TracesOf(es[..n], sigs, date, ctx, mint, g) {
          var j :| 0 <= j < n && WellFormed(es[..n][j])
                   && TraceFrom(es[..n][j], sigs, date, ctx, TraceIdFor(mint, g, j)) == Some(t);
          assert es[..n][j] == es[j];
        } else {
          assert TraceFrom(es[n], sigs, date, ctx, TraceIdFor(mint, g, n)) == Some(t);
        }
      }
    }
  }

  /** A chunk with signals keeps exactly its well-formed entries, one trace each. */
  lemma {:induction false} TracesCount(es: seq<RawEntry>, sigs: seq<Signal>, date: Calendar.Day, ctx: Option<string>,
                                       mint: (nat, nat) -> string, g: nat)
    ensures |TracesOf(es, sigs, date, ctx, mint, g)| == if sigs == [] then 0 else Seqs.Count(KeptFlags(es), true)
  {
    if es != [] {
      var n := |es| - 1;
      TracesCount(es[..n], sigs, date, ctx, mint, g);
      var flags := KeptFlags(es);
      assert flags[..n] == KeptFlags(es[..n]);
      assert Seqs.Count(flags, true) == Seqs.Count(flags[..n], true) + (if WellFormed(es[n]) then 1 else 0);
      var last := TraceFrom(es[n], sigs, date, ctx, TraceIdFor(mint, g, n));
      assert last.Some? <==> sigs != [] && WellFormed(es[n]);
    } else {
      assert KeptFlags(es) == [];
    }
  }

  /** Which entries are well formed. */
  function KeptFlags(es: seq<RawEntry>): (r: seq<bool>)
    ensures |r| == |es| && forall j :: 0 <= j < |es| ==> r[j] == WellFormed(es[j])
  {
    seq(|es|, j requires 0 <= j < |es| => WellFormed(es[j]))
  }

  // ---------------------------------------------------------------- the loops

  method BuildEntry(e: RawEntry, sigs: seq<Signal>, date: Calendar.Day, ctx: Option<string>, id: string)
    returns (r: Option<Trace>)
    ensures r == TraceFrom(e, sigs, date, ctx, id)
  {
    var from := MapIndices(e.fromSignals, sigs);
    var acts := CollectActivations(e.activated);
    if acts.None? || e.steps.None? {
      return None;
    }
    var steps := CollectSteps(e.steps.value);
    if steps.None? || e.style.None? || StyleFromName(e.style.value).None?
       || e.situation.None? || |e.situation.value| > 200 || e.stimulus.None? || e.stimulus.value !in StimulusTypes
       || e.decision.None? || |e.decision.value| > 200 || e.confidence.None? || CertaintyFromName(e.confidence.value).None?
       || !OptLen(e.alternative, 200) {
      return None;
    }
    if sigs == [] {
      return None;
    }
    var first := if from == [] then None else Some(from[0]);
    r := Some(Trace(
      sigs[0].ownerId, id,
      Trigger(e.situation.value, e.stimulus.value, first),
      acts.value,
      Path(steps.value, StyleFromName(e.style.value).value),
      Conclusion(e.decision.value, CertaintyFromName(e.confidence.value).value, e.alternative, first),
      None, None,
      TraceSource(date, ctx, sigs[0].source.sourceFile, sigs[0].source.participants)));
  }

  /** The entries loop of `_parse_group_response`, recording the group's context. */
  method ParseGroup(raw: string, c: Chunk, decode: string -> Option<seq<RawEntry>>,
                    mint: (nat, nat) -> string, g: nat) returns (r: seq<Trace>)
    ensures r == Parsed(raw, c, decode, mint, g)
  {
    var data := decode(Strings.Unfence(raw));
    if data.None? {
      return [];
    }
    var es := data.value;
    var ctx := Some(ContextName(c.context));
    r := [];
    var j := 0;
    while j < |es|
      invariant 0 <= j <= |es|
      invariant r == TracesOf(es[..j], c.signals, c.date, ctx, mint, g)
    {
      TracesOfSnoc(es, j, c.signals, c.date, ctx, mint, g);
      var t := BuildEntry(es[j], c.signals, c.date, ctx, TraceIdFor(mint, g, j));
      if t.Some? {
        r := r + [t.value];
      }
      j := j + 1;
    }
    assert es[..j] == es;
  }

  // ---------------------------------------------------------------- what a parse yields

  lemma ContextNameNonEmpty(c: SignalContext)
    ensures ContextName(c) != []
  {
    ContextNameRoundTrip(c);
  }

  /**
   * A reply that does not decode yields nothing; one that does yields one trace per
   * well-formed entry (none for a chunk without signals), each shaped by the chunk
   * and carrying the group's context, which the frame clusterer then groups by.
   */
  lemma ParsedFacts(raw: string, c: Chunk, decode: string -> Option<seq<RawEntry>>, mint: (nat, nat) -> string, g: nat)
    ensures decode(Strings.Unfence(raw)).None? ==> Parsed(raw, c, decode, mint, g) == []
    ensures decode(Strings.Unfence(raw)).Some? ==>
              |Parsed(raw, c, decode, mint, g)|
              == if c.signals == [] then 0 else Seqs.Count(KeptFlags(decode(Strings.Unfence(raw)).value), true)
    ensures forall t :: t in Parsed(raw, c, decode, mint, g) ==>
              Shaped(t, c.signals, c.date, Some(ContextName(c.context)))
              && FrameClusterer.ContextKey(t) == ContextName(c.context)
  {
    var ctx := Some(ContextName(c.context));
    ContextNameNonEmpty(c.context);
    match decode(Strings.Unfence(raw))
    case None =>
    case Some(es) =>
      TracesFacts(es, c.signals, c.date, ctx, mint, g);
      TracesCount(es, c.signals, c.date, ctx, mint, g);
  }

  /** As written, every extracted trace lands in the clusterer's "other" group. */
  lemma ContextDropped(raw: string, c: Chunk, decode: string -> Option<seq<RawEntry>>, mint: (nat, nat) -> string, g: nat)
    ensures forall t :: t in ParsedAsWritten(raw, c, decode, mint, g) ==> FrameClusterer.ContextKey(t) == "other"
    ensures c.context != OtherContext && c.signals != [] && decode(Strings.Unfence(raw)).Some?
            && |decode(Strings.Unfence(raw)).value| > 0 && WellFormed(decode(Strings.Unfence(raw)).value[0])
            ==> (ParsedAsWritten(raw, c, decode, mint, g) != []
                 && FrameClusterer.ContextKey(ParsedAsWritten(raw, c, decode, mint, g)[0]) != ContextName(c.context))
  {
    ContextNameNonEmpty(c.context);
    match decode(Strings.Unfence(raw))
    case None =>
    case Some(es) =>
      TracesCount(es, c.signals, c.date, None, mint, g);
      if c.context != OtherContext && c.signals != [] && |es| > 0 && WellFormed(es[0]) {
        assert KeptFlags(es)[0];
        assert Seqs.Count(KeptFlags(es), true) > 0;
        OtherName(c.context);
      }
  }

  /** Only the `other` context is named "other". */
  lemma OtherName(c: SignalContext)
    ensures ContextName(c) == "other" <==> c == OtherContext
  {
    ContextNameRoundTrip(c);
  }

  /** The two versions differ in the recorded context only. */
  lemma {:induction false} OnlyContextDiffers(es: seq<RawEntry>, sigs: seq<Signal>, date: Calendar.Day, ctx: Option<string>,
                                              mint: (nat, nat) -> string, g: nat)
    ensures |TracesOf(es, sigs, date, None, mint, g)| == |TracesOf(es, sigs, date, ctx, mint, g)|
    ensures forall i :: 0 <= i < |TracesOf(es, sigs, date, ctx, mint, g)| ==>
              TracesOf(es, sigs, date, ctx, mint, g)[i]
              == var t := TracesOf(es, sigs, date, None, mint, g)[i]; t.(source := t.source.(context := ctx))
  {
    if es != [] {
      OnlyContextDiffers(es[..|es| - 1], sigs, date, ctx, mint, g);
    }
  }

  // ================================================================ extract

  const ExtractableModalities: set<Modality> :=
    {SpokenSpontaneous, SpokenScripted, SpokenInterview, WrittenDeliberate, WrittenStructured, Decided}

  /** An output signal whose modality is worth mining for reasoning. */
  predicate Extractable(s: Signal)
  {
    s.direction == Output && s.modality in ExtractableModalities
  }

  /** The signals existing traces were triggered by (a missing or empty id does not count). */
  function Mined(existing: seq<Trace>): (r: set<string>)
    ensures forall id :: id in r <==> id != [] && exists t :: t in existing && t.trigger.fromSignal == Some(id)
  {
    set t | t in existing && t.trigger.fromSignal.Some? && t.trigger.fromSignal.value != [] :: t.trigger.fromSignal.value
  }

  /** The signals to mine, in store order: extractable and not among `mined`. */
  function Unmined(signals: seq<Signal>, mined: set<string>): (r: seq<Signal>)
    ensures forall s :: s in r <==> s in signals && Extractable(s) && s.signalId !in mined
  {
    if signals == [] then []
    else
      var n := |signals| - 1;
      Unmined(signals[..n], mined) + (if Extractable(signals[n]) && signals[n].signalId !in mined then [signals[n]] else [])
  }

  function Candidates(signals: seq<Signal>, existing: seq<Trace>): (r: seq<Signal>)
    ensures forall s :: s in r <==> s in signals && Extractable(s) && s.signalId !in Mined(existing)
  {
    Unmined(signals, Mined(existing))
  }

  /** Nothing to mine when every extractable signal has been mined already. */
  lemma {:induction false} UnminedNone(signals: seq<Signal>, mined: set<string>)
    requires forall s :: s in signals && Extractable(s) ==> s.signalId in mined
    ensures Unmined(signals, mined) == []
  {
    if signals != [] {
      var n := |signals| - 1;
      assert signals[n] in signals;
      UnminedNone(signals[..n], mined);
    }
  }

  /** `if limit: groups = groups[:limit]` (`None` and 0 mean all; a negative limit drops from the end). */
  function Limited(cs: seq<Chunk>, limit: Option<int>): (r: seq<Chunk>)
    ensures |r| <= |cs| && r == cs[..|r|]
    ensures limit.Some? && limit.value > 0 ==> |r| == if limit.value < |cs| then limit.value else |cs|
    ensures limit.None? || limit.value == 0 ==> r == cs
  {
    if limit.Some? && limit.value != 0 then Seqs.PyPrefix(cs, limit.value) else cs
  }

  /** The traces parsed from the chunks `cs`, chunk after chunk; `reply(c)` is the model's reply for `c`. */
  function NewTraces(cs: seq<Chunk>, reply: Chunk -> string, decode: string -> Option<seq<RawEntry>>,
                     mint: (nat, nat) -> string): seq<Trace>
  {
    if cs == [] then []
    else
      var n := |cs| - 1;
      NewTraces(cs[..n], reply, decode, mint) + Parsed(reply(cs[n]), cs[n], decode, mint, n)
  }

  lemma NewTracesSnoc(cs: seq<Chunk>, g: nat, reply: Chunk -> string, decode: string -> Option<seq<RawEntry>>,
                      mint: (nat, nat) -> string)
    requires g < |cs|
    ensures NewTraces(cs[..g + 1], reply, decode, mint)
            == NewTraces(cs[..g], reply, decode, mint) + Parsed(reply(cs[g]), cs[g], decode, mint, g)
  {
    assert cs[..g + 1][..g] == cs[..g];
  }

  /** What `extract` returns, and what it writes back to `traces.jsonl` (`None`: nothing written). */
  datatype Extracted = Extracted(traces: seq<Trace>, written: Option<seq<Trace>>)

  function Extraction(signals: seq<Signal>, existing: seq<Trace>, limit: Option<int>, reply: Chunk -> string,
                      decode: string -> Option<seq<RawEntry>>, mint: (nat, nat) -> string): Extracted
  {
    var cands := Candidates(signals, existing);
    if cands == [] then Extracted([], None)
    else
      var found := NewTraces(Limited(Chunked(cands), limit), reply, decode, mint);
      if found == [] then Extracted([], None) else Extracted(found, Some(existing + found))
  }

  method Extract(signals: seq<Signal>, existing: seq<Trace>, limit: Option<int>, reply: Chunk -> string,
                 decode: string -> Option<seq<RawEntry>>, mint: (nat, nat) -> string) returns (r: Extracted)
    ensures r == Extraction(signals, existing, limit, reply, decode, mint)
  {
    var cands := Candidates(signals, existing);
    if cands == [] {
      return Extracted([], None);
    }
    var groups := GroupSignals(cands);
    groups := Limited(groups, limit);
    var found: seq<Trace> := [];
    var g := 0;
    while g < |groups|
      invariant 0 <= g <= |groups|
      invariant found == NewTraces(groups[..g], reply, decode, mint)
    {
      NewTracesSnoc(groups, g, reply, decode, mint);
      var ts := ParseGroup(reply(groups[g]), groups[g], decode, mint, g);
      found := found + ts;
      g := g + 1;
    }
    assert groups[..g] == groups;
    if found == [] {
      return Extracted([], None);
    }
    r := Extracted(found, Some(existing + found));
  }

  // ---------------------------------------------------------------- what extract promises

  /** Existing traces are kept as they are; new ones are appended, and only when there are some. */
  lemma ExtractWrites(signals: seq<Signal>, existing: seq<Trace>, limit: Option<int>, reply: Chunk -> string,
                      decode: string -> Option<seq<RawEntry>>, mint: (nat, nat) -> string)
    ensures var x := Extraction(signals, existing, limit, reply, decode, mint);
            (x.written.Some? <==> x.traces != [])
            && (x.written.Some? ==> x.written.value == existing + x.traces && x.written.value[..|existing|] == existing)
  {
  }

  /** A trace drawn from candidate `s`'s group: same owner-independent date and context. */
  predicate SameGroup(t: Trace, s: Signal)
  {
    t.source.date == s.source.date && t.source.context == Some(ContextName(s.source.context))
  }

  /**
   * What a new trace is grounded in: it is valid; its owner, date and context are those
   * of a signal being mined; and the signal it was triggered by, if any, is one being
   * mined, from the same group, and not one an existing trace already came from.
   */
  predicate Grounded(t: Trace, cands: seq<Signal>, existing: seq<Trace>)
  {
    ValidTrace(t) && Strings.StartsWith(t.traceId, "trace_")
    && (exists s :: s in cands && t.ownerId == s.ownerId && SameGroup(t, s))
    && (t.trigger.fromSignal.Some? ==>
          t.trigger.fromSignal.value !in Mined(existing)
          && exists s :: s in cands && s.signalId == t.trigger.fromSignal.value && SameGroup(t, s))
  }

  lemma {:induction false} InConcat(cs: seq<Chunk>, c: Chunk, s: Signal)
    requires c in cs && s in c.signals
    ensures s in Concat(cs)
  {
    if c != cs[0] {
      InConcat(cs[1..], c, s);
    }
  }

  lemma {:induction false} NewTracesFrom(cs: seq<Chunk>, reply: Chunk -> string, decode: string -> Option<seq<RawEntry>>,
                                         mint: (nat, nat) -> string, t: Trace) returns (g: nat)
    requires t in NewTraces(cs, reply, decode, mint)
    ensures g < |cs| && t in Parsed(reply(cs[g]), cs[g], decode, mint, g)
  {
    var n := |cs| - 1;
    if t in Parsed(reply(cs[n]), cs[n], decode, mint, n) {
      g := n;
    } else {
      g := NewTracesFrom(cs[..n], reply, decode, mint, t);
      assert cs[..n][g] == cs[g];
    }
  }

  /** A chunk's signals are input signals of the chunk's group. */
  lemma ChunkMembers(signals: seq<Signal>, c: Chunk)
    requires c in Chunked(signals)
    ensures forall s :: s in c.signals ==> s in signals && KeyOf(s) == ChunkKey(c)
  {
    ChunkedFacts(signals);
    ChunkedPermutes(signals);
    forall s | s in c.signals ensures s in signals {
      InConcat(Chunked(signals), c, s);
      Seqs.InMultiset(Concat(Chunked(signals)), signals, s);
    }
  }

  /** A trace parsed from a chunk of the candidates is grounded in them. */
  lemma ParsedGrounded(cands: seq<Signal>, existing: seq<Trace>, c: Chunk, raw: string,
                       decode: string -> Option<seq<RawEntry>>, mint: (nat, nat) -> string, g: nat, t: Trace)
    requires forall s :: s in cands ==> s.signalId !in Mined(existing)
    requires c in Chunked(cands) && t in Parsed(raw, c, decode, mint, g)
    ensures Grounded(t, cands, existing)
  {
    ParsedFacts(raw, c, decode, mint, g);
    ChunkMembers(cands, c);
    ShapedGrounded(t, c, cands, existing);
  }

  lemma ShapedGrounded(t: Trace, c: Chunk, cands: seq<Signal>, existing: seq<Trace>)
    requires Shaped(t, c.signals, c.date, Some(ContextName(c.context)))
    requires forall s :: s in c.signals ==> s in cands && KeyOf(s) == ChunkKey(c)
    requires forall s :: s in cands ==> s.signalId !in Mined(existing)
    ensures Grounded(t, cands, existing)
  {
    var sigs := c.signals;
    var s0 := sigs[0];
    assert s0 in sigs;
    if t.trigger.fromSignal.Some? {
      var j :| 0 <= j < |sigs| && sigs[j].signalId == t.trigger.fromSignal.value;
      var s := sigs[j];
      assert s in sigs;
    }
  }

  /** Every new trace is grounded in the signals mined, none of which an existing trace came from. */
  lemma ExtractGrounded(signals: seq<Signal>, existing: seq<Trace>, limit: Option<int>, reply: Chunk -> string,
                        decode: string -> Option<seq<RawEntry>>, mint: (nat, nat) -> string)
    ensures forall t :: t in Extraction(signals, existing, limit, reply, decode, mint).traces ==>
              Grounded(t, Candidates(signals, existing), existing)
  {
    var cands := Candidates(signals, existing);
    if cands != [] {
      var cs := Limited(Chunked(cands), limit);
      forall t | t in NewTraces(cs, reply, decode, mint) ensures Grounded(t, cands, existing) {
        var g := NewTracesFrom(cs, reply, decode, mint, t);
        assert cs[g] == Chunked(cands)[g];
        ParsedGrounded(cands, existing, cs[g], reply(cs[g]), decode, mint, g, t);
      }
    }
  }

  /** Without candidates nothing is asked, returned or written. */
  lemma ExtractNothing(signals: seq<Signal>, existing: seq<Trace>, limit: Option<int>, reply: Chunk -> string,
                       decode: string -> Option<seq<RawEntry>>, mint: (nat, nat) -> string)
    requires forall s :: s in signals && Extractable(s) ==> s.signalId in Mined(existing)
    ensures Extraction(signals, existing, limit, reply, decode, mint) == Extracted([], None)
  {
    UnminedNone(signals, Mined(existing));
  }
}

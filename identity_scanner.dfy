/**
 * The identity scanner (Layer 5): a conviction that is a primary activation in
 * enough of the active context frames is promoted to an identity core.  Coverage is
 * the share of active frames listing the conviction; convictions at or above the
 * threshold are promoted, and when none is, up to three convictions seen in at least
 * two frames are taken instead, highest coverage (then strength) first.
 *
 * The language model's per-conviction expressions, already decoded, are an input:
 * `generated(c)` is the list of expressions the model produced for conviction `c`
 * (empty when the call or the decoding failed).
 */
module IdentityScanner {
  import opened Wrappers
  import opened Models
  import Seqs
  import Strings

  // ================================================================ reply cleaning

  /** `call_llm_single`: the fence-stripped reply, or nothing when that is empty. */
  function CleanReply(reply: string): (r: Option<string>)
    ensures r.Some? ==> r.value != []
  {
    var t := Strings.Unfence(reply);
    if t == [] then None else Some(t)
  }

  /** A fenced block gives back its stripped body, or nothing when the body is blank. */
  lemma CleanReplyWrapped(tag: string, body: string)
    requires '\n' !in tag
    ensures CleanReply(Strings.Fence + tag + "\n" + body + Strings.Fence)
            == if Strings.Strip(body) == [] then None else Some(Strings.Strip(body))
  {
    Strings.UnfenceWrapped(tag, body);
  }

  /** A reply without fences is only stripped. */
  lemma CleanReplyPlain(reply: string)
    requires !Strings.StartsWith(Strings.Strip(reply), Strings.Fence)
    requires !Strings.EndsWith(Strings.Strip(reply), Strings.Fence)
    ensures CleanReply(reply) == if Strings.Strip(reply) == [] then None else Some(Strings.Strip(reply))
  {
    Strings.UnfencePlain(reply);
  }

  // ================================================================ frame coverage

  /** The conviction ids a frame lists as primary activations, in order. */
  function CidsOf(f: Frame): (ks: seq<string>)
    ensures |ks| == |f.profile.primary|
    ensures forall i :: 0 <= i < |ks| ==> ks[i] == f.profile.primary[i].convictionId
  {
    seq(|f.profile.primary|, i requires 0 <= i < |f.profile.primary| => f.profile.primary[i].convictionId)
  }

  /** The frame's id once per primary activation: the values the coverage loop appends. */
  function FidsOf(f: Frame): (vs: seq<string>)
    ensures |vs| == |f.profile.primary|
    ensures forall i :: 0 <= i < |vs| ==> vs[i] == f.frameId
  {
    seq(|f.profile.primary|, i requires 0 <= i < |f.profile.primary| => f.frameId)
  }

  /** Every (conviction id, frame id) visit of the coverage loop: the keys ... */
  function Keys(fs: seq<Frame>): seq<string>
  {
    if fs == [] then [] else Keys(fs[..|fs| - 1]) + CidsOf(fs[|fs| - 1])
  }

  /** ... and the values, in the same order. */
  function Vals(fs: seq<Frame>): (vs: seq<string>)
    ensures |vs| == |Keys(fs)|
  {
    if fs == [] then [] else Vals(fs[..|fs| - 1]) + FidsOf(fs[|fs| - 1])
  }

  lemma KeysVals(fs: seq<Frame>, i: nat)
    requires i < |fs|
    ensures Keys(fs[..i + 1]) == Keys(fs[..i]) + CidsOf(fs[i])
    ensures Vals(fs[..i + 1]) == Vals(fs[..i]) + FidsOf(fs[i])
  {
    assert fs[..i + 1][..i] == fs[..i];
  }

  /** `conviction_frame_map`: for each conviction id, the frames listing it, one entry per listing. */
  method BuildFrameMap(active: seq<Frame>) returns (order: seq<string>, fmap: map<string, seq<string>>)
    ensures Seqs.Groups(order, fmap) == Seqs.Grouped(Keys(active), Vals(active))
  {
    order, fmap := [], map[];
    var i := 0;
    while i < |active|
      invariant 0 <= i <= |active|
      invariant Seqs.Groups(order, fmap) == Seqs.Grouped(Keys(active[..i]), Vals(active[..i]))
    {
      KeysVals(active, i);
      order, fmap := AddFrame(order, fmap, Keys(active[..i]), Vals(active[..i]), active[i]);
      i := i + 1;
    }
    assert active[..i] == active;
  }

  /** The inner loop: file the frame's id under each conviction it lists. */
  method AddFrame(order0: seq<string>, fmap0: map<string, seq<string>>, keys: seq<string>, vals: seq<string>, f: Frame)
    returns (order: seq<string>, fmap: map<string, seq<string>>)
    requires |keys| == |vals| && Seqs.Groups(order0, fmap0) == Seqs.Grouped(keys, vals)
    ensures Seqs.Groups(order, fmap) == Seqs.Grouped(keys + CidsOf(f), vals + FidsOf(f))
  {
    order, fmap := order0, fmap0;
    ghost var ks, vs := keys, vals;
    var j := 0;
    while j < |f.profile.primary|
      invariant 0 <= j <= |f.profile.primary|
      invariant ks == keys + CidsOf(f)[..j] && vs == vals + FidsOf(f)[..j]
      invariant Seqs.Groups(order, fmap) == Seqs.Grouped(ks, vs)
    {
      var cid := f.profile.primary[j].convictionId;
      PrimaryStep(f, j);
      order, fmap := Seqs.GroupAdd(order, fmap, ks, vs, cid, f.frameId);
      ks, vs := ks + [cid], vs + [f.frameId];
      j := j + 1;
    }
    assert CidsOf(f)[..j] == CidsOf(f) && FidsOf(f)[..j] == FidsOf(f);
  }

  lemma PrimaryStep(f: Frame, j: nat)
    requires j < |f.profile.primary|
    ensures CidsOf(f)[..j + 1] == CidsOf(f)[..j] + [f.profile.primary[j].convictionId]
    ensures FidsOf(f)[..j + 1] == FidsOf(f)[..j] + [f.frameId]
  {
    assert CidsOf(f)[..j + 1] == CidsOf(f)[..j] + [CidsOf(f)[j]];
    assert FidsOf(f)[..j + 1] == FidsOf(f)[..j] + [FidsOf(f)[j]];
  }

  /** How many of `fs` list `k` among their primary activations. */
  function Listing(fs: seq<Frame>, k: string): (n: nat)
    ensures n <= |fs|
  {
    if fs == [] then 0 else Listing(fs[..|fs| - 1], k) + (if k in CidsOf(fs[|fs| - 1]) then 1 else 0)
  }

  /** No frame lists the same conviction twice (the clusterer's activations have distinct ids). */
  predicate DistinctPrimaries(fs: seq<Frame>)
  {
    forall i :: 0 <= i < |fs| ==> Seqs.Distinct(CidsOf(fs[i]))
  }

  lemma CountDistinct(s: seq<string>, k: string)
    requires Seqs.Distinct(s)
    ensures Seqs.Count(s, k) == if k in s then 1 else 0
  {
    Seqs.DistinctOnce(s);
    CountIsMultiplicity(s, k);
  }

  lemma {:induction false} CountIsMultiplicity(s: seq<string>, k: string)
    ensures Seqs.Count(s, k) == multiset(s)[k]
  {
    if s != [] {
      CountIsMultiplicity(s[..|s| - 1], k);
      assert s == s[..|s| - 1] + [s[|s| - 1]];
    }
  }

  /**
   * When no frame lists a conviction twice, the number of entries the coverage loop
   * files under a conviction is the number of frames listing it, so coverage is at most 1.
   */
  lemma {:induction false} CountIsListing(fs: seq<Frame>, k: string)
    requires DistinctPrimaries(fs)
    ensures Seqs.Count(Keys(fs), k) == Listing(fs, k) <= |fs|
  {
    if fs != [] {
      var q := fs[..|fs| - 1];
      assert DistinctPrimaries(q) by {
        forall i | 0 <= i < |q| ensures Seqs.Distinct(CidsOf(q[i])) {
          assert q[i] == fs[i];
        }
      }
      CountIsListing(q, k);
      Seqs.CountAppend(Keys(q), CidsOf(fs[|fs| - 1]), k);
      CountDistinct(CidsOf(fs[|fs| - 1]), k);
    }
  }

  /** `len(frame_ids) / total_frames`. */
  function Coverage(n: nat, total: nat): (r: real)
    requires total > 0
    ensures 0.0 <= r && (n <= total ==> r <= 1.0)
  {
    CoverageBounds(n, total);
    n as real / total as real
  }

  lemma CoverageBounds(n: nat, total: nat)
    requires total > 0
    ensures 0.0 <= n as real / total as real
    ensures n <= total ==> n as real / total as real <= 1.0
  {
    var q := n as real / total as real;
    assert q * total as real == n as real;
  }

  // ================================================================ candidates

  /** `(cid, frame_ids, coverage)`. */
  datatype Candidate = Candidate(convictionId: string, frameIds: seq<string>, coverage: real)

  function CandidatesOf(ks: seq<string>, fmap: map<string, seq<string>>, total: nat): (r: seq<Candidate>)
    requires total > 0 && forall k :: k in ks ==> k in fmap
    ensures |r| == |ks|
    ensures forall i :: 0 <= i < |r| ==> r[i] == Candidate(ks[i], fmap[ks[i]], Coverage(|fmap[ks[i]]|, total))
  {
    seq(|ks|, i requires 0 <= i < |ks| => Candidate(ks[i], fmap[ks[i]], Coverage(|fmap[ks[i]]|, total)))
  }

  lemma CandidatesSnoc(ks: seq<string>, k: string, fmap: map<string, seq<string>>, total: nat)
    requires total > 0 && k in fmap && forall k :: k in ks ==> k in fmap
    ensures CandidatesOf(ks + [k], fmap, total)
            == CandidatesOf(ks, fmap, total) + [Candidate(k, fmap[k], Coverage(|fmap[k]|, total))]
  {
  }

  /** Coverage at or above the threshold, and the conviction is on file. */
  predicate Qualifies(fmap: map<string, seq<string>>, total: nat, threshold: real, known: map<string, Conviction>, k: string)
    requires total > 0
  {
    k in fmap && Coverage(|fmap[k]|, total) >= threshold && k in known
  }

  /** Listed in at least two frames, and on file. */
  predicate Recurring(fmap: map<string, seq<string>>, known: map<string, Conviction>, k: string)
  {
    k in fmap && |fmap[k]| >= 2 && k in known
  }

  function Promoted(order: seq<string>, fmap: map<string, seq<string>>, total: nat, threshold: real,
                    known: map<string, Conviction>): seq<Candidate>
    requires total > 0
  {
    CandidatesOf(Seqs.Filter(order, k => Qualifies(fmap, total, threshold, known, k)), fmap, total)
  }

  function Eligible(order: seq<string>, fmap: map<string, seq<string>>, total: nat,
                    known: map<string, Conviction>): seq<Candidate>
    requires total > 0
  {
    CandidatesOf(Seqs.Filter(order, k => Recurring(fmap, known, k)), fmap, total)
  }

  /** The candidates loop: the conviction ids in map order that pass `keep`, as candidates. */
  method CollectCandidates(order: seq<string>, fmap: map<string, seq<string>>, total: nat, keep: string -> bool)
    returns (cands: seq<Candidate>)
    requires total > 0 && forall k :: keep(k) ==> k in fmap
    ensures cands == CandidatesOf(Seqs.Filter(order, keep), fmap, total)
  {
    cands := [];
    ghost var ks: seq<string> := [];
    var i := 0;
    while i < |order|
      invariant 0 <= i <= |order|
      invariant ks == Seqs.Filter(order[..i], keep)
      invariant forall k :: k in ks ==> k in fmap
      invariant cands == CandidatesOf(ks, fmap, total)
    {
      var cid := order[i];
      Seqs.FilterSnoc(order, i, keep);
      if keep(cid) {
        CandidatesSnoc(ks, cid, fmap, total);
        var frameIds := fmap[cid];
        cands := cands + [Candidate(cid, frameIds, Coverage(|frameIds|, total))];
        ks := ks + [cid];
      }
      i := i + 1;
    }
    assert order[..i] == order;
  }

  /** `key=lambda x: (-x[2], -conviction_map[x[0]].strength.score)`. */
  function FallbackKey(known: map<string, Conviction>): Candidate -> Seqs.Rank
  {
    (c: Candidate) => Seqs.Rank(-c.coverage, if c.convictionId in known then -known[c.convictionId].strength.score else 0.0)
  }

  /** The fallback: recurring convictions, highest coverage then strength first, at most three. */
  function Fallback(order: seq<string>, fmap: map<string, seq<string>>, total: nat,
                    known: map<string, Conviction>): seq<Candidate>
    requires total > 0
  {
    Seqs.Take(Seqs.SortBy(Eligible(order, fmap, total, known), FallbackKey(known)), 3)
  }

  /** Each picked candidate passed `keep` and carries its id's frames and coverage. */
  lemma PickedEntries(order: seq<string>, fmap: map<string, seq<string>>, total: nat, keep: string -> bool)
    requires total > 0 && forall k :: keep(k) ==> k in fmap
    ensures forall c :: c in CandidatesOf(Seqs.Filter(order, keep), fmap, total) ==>
              keep(c.convictionId) && c.convictionId in order
              && c == Candidate(c.convictionId, fmap[c.convictionId], Coverage(|fmap[c.convictionId]|, total))
  {
    var ks := Seqs.Filter(order, keep);
    var p := CandidatesOf(ks, fmap, total);
    forall c | c in p
      ensures keep(c.convictionId) && c.convictionId in order
              && c == Candidate(c.convictionId, fmap[c.convictionId], Coverage(|fmap[c.convictionId]|, total))
    {
      var i :| 0 <= i < |p| && p[i] == c;
      assert ks[i] in ks;
    }
  }

  /** Every id of `order` that passes `keep` is picked. */
  lemma PickedAll(order: seq<string>, fmap: map<string, seq<string>>, total: nat, keep: string -> bool, k: string)
    requires total > 0 && forall k :: keep(k) ==> k in fmap
    requires k in order && keep(k)
    ensures exists c :: c in CandidatesOf(Seqs.Filter(order, keep), fmap, total) && c.convictionId == k
  {
    var ks := Seqs.Filter(order, keep);
    var p := CandidatesOf(ks, fmap, total);
    assert k in ks;
    var i :| 0 <= i < |ks| && ks[i] == k;
    assert p[i] in p && p[i].convictionId == k;
  }

  /**
   * Exactly the convictions on file whose coverage (entries filed under them over the
   * number of active frames) reaches the threshold are promoted.
   */
  lemma PromotedExactly(active: seq<Frame>, threshold: real, known: map<string, Conviction>, k: string)
    requires |active| > 0
    ensures var g := Seqs.Grouped(Keys(active), Vals(active));
            (exists c :: c in Promoted(g.order, g.members, |active|, threshold, known) && c.convictionId == k)
            <==> k in Keys(active) && Coverage(Seqs.Count(Keys(active), k), |active|) >= threshold && k in known
  {
    var g := Seqs.Grouped(Keys(active), Vals(active));
    Seqs.GroupedIsPartition(Keys(active), Vals(active));
    var keep := k => Qualifies(g.members, |active|, threshold, known, k);
    PickedEntries(g.order, g.members, |active|, keep);
    if k in Keys(active) && Coverage(Seqs.Count(Keys(active), k), |active|) >= threshold && k in known {
      PickedAll(g.order, g.members, |active|, keep, k);
    }
  }

  /** A promoted conviction carries every frame listing it, in frame order, once per listing. */
  lemma PromotedFrames(active: seq<Frame>, threshold: real, known: map<string, Conviction>)
    requires |active| > 0
    ensures var g := Seqs.Grouped(Keys(active), Vals(active));
            forall c :: c in Promoted(g.order, g.members, |active|, threshold, known) ==>
              c.frameIds == Seqs.Select(Keys(active), Vals(active), c.convictionId)
              && c.coverage == Coverage(Seqs.Count(Keys(active), c.convictionId), |active|)
  {
    var g := Seqs.Grouped(Keys(active), Vals(active));
    Seqs.GroupedIsPartition(Keys(active), Vals(active));
    PickedEntries(g.order, g.members, |active|, k => Qualifies(g.members, |active|, threshold, known, k));
  }

  /**
   * The fallback takes at most three convictions, each recurring, in descending
   * (coverage, strength) order, and none it leaves out ranks above one it takes.
   */
  lemma FallbackFacts(order: seq<string>, fmap: map<string, seq<string>>, total: nat, known: map<string, Conviction>)
    requires total > 0
    ensures var r := Fallback(order, fmap, total, known);
            |r| <= 3
            && (forall c :: c in r ==> Recurring(fmap, known, c.convictionId) && c.frameIds == fmap[c.convictionId])
            && Seqs.SortedBy(r, FallbackKey(known))
            && forall c, d :: c in Eligible(order, fmap, total, known) && c !in r && d in r
                 ==> !Seqs.Below(FallbackKey(known)(c), FallbackKey(known)(d))
  {
    var e := Eligible(order, fmap, total, known);
    var s := Seqs.SortBy(e, FallbackKey(known));
    var r := Seqs.Take(s, 3);
    assert r == s[..|r|];
    PickedEntries(order, fmap, total, k => Recurring(fmap, known, k));
    Seqs.TopOf(e, FallbackKey(known), 3);
  }

  // ================================================================ identities

  /** The templated expression used when the model gives none. */
  function Template(statement: string): (r: string)
    ensures |r| <= 39
  {
    "在此情境下體現「" + Seqs.Take(statement, 30) + "」"
  }

  /** The model's expressions, each cut to 200 characters; else one template per frame, first five frames. */
  function ExpressionsFor(generated: seq<Expression>, frameIds: seq<string>, statement: string): (r: seq<Expression>)
    ensures forall e :: e in r ==> |e.how| <= 200
  {
    if generated == [] then
      var fids := Seqs.Take(frameIds, 5);
      var t := Template(statement);
      var r := seq(|fids|, i requires 0 <= i < |fids| => Expression(fids[i], t));
      assert forall i :: 0 <= i < |r| ==> r[i].how == t;
      r
    else
      var r := seq(|generated|, i requires 0 <= i < |generated| => Expression(generated[i].frameId, Seqs.Take(generated[i].how, 200)));
      assert forall i :: 0 <= i < |r| ==> |r[i].how| <= 200;
      r
  }

  /** `id_001`, `id_002`, ... */
  function IdentityId(n: nat): string
  {
    "id_" + Strings.Pad3(n)
  }

  lemma IdentityIdsDiffer(m: nat, n: nat)
    requires m != n
    ensures IdentityId(m) != IdentityId(n)
  {
    if IdentityId(m) == IdentityId(n) {
      assert Strings.Pad3(m) == IdentityId(m)[3..] == IdentityId(n)[3..] == Strings.Pad3(n);
      Strings.Pad3Injective(m, n);
    }
  }

  function MakeIdentity(owner: string, conv: Conviction, c: Candidate, total: nat, n: nat,
                        generated: seq<Expression>): Identity
  {
    Identity(owner, IdentityId(n), Seqs.Take(conv.statement, 150), c.convictionId,
             Universality(c.frameIds, total, c.coverage),
             ExpressionsFor(generated, c.frameIds, conv.statement),
             Some(conv.strength.score >= 0.9),
             Some(Stability(conv.lifecycle.firstDetected, conv.strength.score)))
  }

  /** A new identity satisfies the record's bounds when its conviction does and its coverage is a share. */
  lemma MakeIdentityValid(owner: string, conv: Conviction, c: Candidate, total: nat, n: nat, generated: seq<Expression>)
    requires ValidConviction(conv) && 0.0 <= c.coverage <= 1.0
    ensures ValidIdentity(MakeIdentity(owner, conv, c, total, n, generated))
  {
  }

  predicate Known(cands: seq<Candidate>, known: map<string, Conviction>)
  {
    forall c :: c in cands ==> c.convictionId in known
  }

  function Identities(owner: string, cands: seq<Candidate>, known: map<string, Conviction>, total: nat,
                      generated: Conviction -> seq<Expression>): (r: seq<Identity>)
    requires Known(cands, known)
    ensures |r| == |cands|
    ensures forall k :: 0 <= k < |r| ==> r[k].identityId == IdentityId(k + 1) && r[k].convictionId == cands[k].convictionId
  {
    seq(|cands|, k requires 0 <= k < |cands| => IdentityAt(owner, cands, known, total, generated, k))
  }

  /** The identity made for candidate `k`, numbered `k + 1`. */
  function IdentityAt(owner: string, cands: seq<Candidate>, known: map<string, Conviction>, total: nat,
                      generated: Conviction -> seq<Expression>, k: nat): Identity
    requires Known(cands, known) && k < |cands|
  {
    assert cands[k] in cands;
    var conv := known[cands[k].convictionId];
    MakeIdentity(owner, conv, cands[k], total, k + 1, generated(conv))
  }

  /** The identity loop: one identity per candidate, numbered by how many came before. */
  method BuildIdentities(owner: string, cands: seq<Candidate>, known: map<string, Conviction>, total: nat,
                         generated: Conviction -> seq<Expression>) returns (ids: seq<Identity>)
    requires Known(cands, known)
    ensures ids == Identities(owner, cands, known, total, generated)
  {
    ids := [];
    var i := 0;
    while i < |cands|
      invariant 0 <= i <= |cands| && |ids| == i
      invariant forall k :: 0 <= k < i ==> ids[k] == IdentityAt(owner, cands, known, total, generated, k)
    {
      assert cands[i] in cands;
      var conv := known[cands[i].convictionId];
      var identity := BuildIdentity(owner, conv, cands[i], total, |ids| + 1, generated(conv));
      ids := ids + [identity];
      i := i + 1;
    }
  }

  /** The body of the identity loop. */
  method BuildIdentity(owner: string, conv: Conviction, c: Candidate, total: nat, n: nat,
                       generated: seq<Expression>) returns (identity: Identity)
    ensures identity == MakeIdentity(owner, conv, c, total, n, generated)
  {
    var expressions := ExpressionsFor(generated, c.frameIds, conv.statement);
    identity := Identity(owner, IdentityId(n), Seqs.Take(conv.statement, 150), c.convictionId,
                         Universality(c.frameIds, total, c.coverage), expressions,
                         Some(conv.strength.score >= 0.9),
                         Some(Stability(conv.lifecycle.firstDetected, conv.strength.score)));
  }

  // ================================================================ the scan

  /** What a scan returns, and what it writes to the identity file (the whole file), if it writes. */
  datatype Scanned = Scanned(identities: seq<Identity>, written: Option<seq<Identity>>)

  function ActiveFrames(frames: seq<Frame>): seq<Frame>
  {
    Seqs.Filter(frames, FrameIsActive)
  }

  /** Promoted convictions, or the fallback when none is promoted. */
  function Chosen(active: seq<Frame>, threshold: real, known: map<string, Conviction>): (r: seq<Candidate>)
    requires |active| > 0
    ensures Known(r, known)
  {
    var g := Seqs.Grouped(Keys(active), Vals(active));
    Seqs.GroupedIsPartition(Keys(active), Vals(active));
    var p := Promoted(g.order, g.members, |active|, threshold, known);
    PickedEntries(g.order, g.members, |active|, k => Qualifies(g.members, |active|, threshold, known, k));
    if p != [] then
      p
    else
      FallbackFacts(g.order, g.members, |active|, known);
      Fallback(g.order, g.members, |active|, known)
  }

  /** `scan`. */
  function Scanning(owner: string, frames: seq<Frame>, convictions: seq<Conviction>, threshold: real,
                    generated: Conviction -> seq<Expression>): (out: Scanned)
    ensures out.written.None? ==> out.identities == []
  {
    var active := ActiveFrames(frames);
    if |active| < 2 then Scanned([], None)
    else
      var known := KeyedBy(convictions, ConvictionId);
      var cands := Chosen(active, threshold, known);
      if cands == [] then Scanned([], None)
      else
        var ids := Identities(owner, cands, known, |active|, generated);
        Scanned(ids, Some(ids))
  }

  method Scan(owner: string, frames: seq<Frame>, convictions: seq<Conviction>, threshold: real,
              generated: Conviction -> seq<Expression>) returns (out: Scanned)
    ensures out == Scanning(owner, frames, convictions, threshold, generated)
  {
    var active := ActiveFrames(frames);
    if |active| < 2 {
      return Scanned([], None);
    }
    var known := KeyedBy(convictions, ConvictionId);
    var order, fmap := BuildFrameMap(active);
    Seqs.GroupedIsPartition(Keys(active), Vals(active));
    var total := |active|;
    var cands := CollectCandidates(order, fmap, total, k => Qualifies(fmap, total, threshold, known, k));
    if cands == [] {
      var fallback := CollectCandidates(order, fmap, total, k => Recurring(fmap, known, k));
      cands := Seqs.Take(Seqs.SortBy(fallback, FallbackKey(known)), 3);
    }
    assert cands == Chosen(active, threshold, known);
    if cands == [] {
      return Scanned([], None);
    }
    var ids := BuildIdentities(owner, cands, known, total, generated);
    out := Scanned(ids, Some(ids));
  }

  /**
   * A scan writes exactly when it finds an identity, and then the identity file is
   * replaced by the new list; with fewer than two active frames it finds none.
   */
  lemma ScanWrites(owner: string, frames: seq<Frame>, convictions: seq<Conviction>, threshold: real,
                   generated: Conviction -> seq<Expression>)
    ensures var out := Scanning(owner, frames, convictions, threshold, generated);
            (out.written.Some? <==> out.identities != []) && (out.written.Some? ==> out.written.value == out.identities)
    ensures |ActiveFrames(frames)| < 2 ==> Scanning(owner, frames, convictions, threshold, generated).identities == []
  {
  }

  /**
   * The `k`-th identity is `id_` and `k + 1` in three digits, the ids differ, and each
   * identity belongs to a conviction on file: its core belief is that conviction's
   * statement cut to 150 characters, and it is non-negotiable exactly when the
   * conviction's strength is at least 0.9.
   */
  lemma ScanIdentities(owner: string, frames: seq<Frame>, convictions: seq<Conviction>, threshold: real,
                       generated: Conviction -> seq<Expression>)
    ensures var ids := Scanning(owner, frames, convictions, threshold, generated).identities;
            var known := KeyedBy(convictions, ConvictionId);
            (forall k :: 0 <= k < |ids| ==> ids[k].identityId == IdentityId(k + 1))
            && (forall k, l :: 0 <= k < l < |ids| ==> ids[k].identityId != ids[l].identityId)
            && forall i :: i in ids ==>
                 i.ownerId == owner && i.convictionId in known
                 && i.coreBelief == Seqs.Take(known[i.convictionId].statement, 150)
                 && i.nonNegotiable == Some(known[i.convictionId].strength.score >= 0.9)
  {
    var active := ActiveFrames(frames);
    if |active| >= 2 {
      var known := KeyedBy(convictions, ConvictionId);
      var cands := Chosen(active, threshold, known);
      IdentitiesFacts(owner, cands, known, |active|, generated);
    }
  }

  lemma IdentitiesFacts(owner: string, cands: seq<Candidate>, known: map<string, Conviction>, total: nat,
                        generated: Conviction -> seq<Expression>)
    requires Known(cands, known)
    ensures var ids := Identities(owner, cands, known, total, generated);
            (forall k :: 0 <= k < |ids| ==> ids[k].identityId == IdentityId(k + 1))
            && (forall k, l :: 0 <= k < l < |ids| ==> ids[k].identityId != ids[l].identityId)
            && forall i :: i in ids ==>
                 i.ownerId == owner && i.convictionId in known
                 && i.coreBelief == Seqs.Take(known[i.convictionId].statement, 150)
                 && i.nonNegotiable == Some(known[i.convictionId].strength.score >= 0.9)
  {
    var ids := Identities(owner, cands, known, total, generated);
    forall k, l | 0 <= k < l < |ids| ensures ids[k].identityId != ids[l].identityId {
      IdentityIdsDiffer(k + 1, l + 1);
    }
    forall i | i in ids
      ensures i.ownerId == owner && i.convictionId in known
              && i.coreBelief == Seqs.Take(known[i.convictionId].statement, 150)
              && i.nonNegotiable == Some(known[i.convictionId].strength.score >= 0.9)
    {
      var k :| 0 <= k < |ids| && ids[k] == i;
      assert cands[k] in cands;
    }
  }

  /**
   * When every conviction on file is valid and no active frame lists a conviction twice,
   * every identity satisfies the record's bounds (core belief at most 150 characters,
   * coverage in [0, 1], expressions at most 200 characters, consistency in [0, 1]).
   */
  lemma ScanValid(owner: string, frames: seq<Frame>, convictions: seq<Conviction>, threshold: real,
                  generated: Conviction -> seq<Expression>)
    requires forall c :: c in convictions ==> ValidConviction(c)
    requires DistinctPrimaries(ActiveFrames(frames))
    ensures forall i :: i in Scanning(owner, frames, convictions, threshold, generated).identities ==> ValidIdentity(i)
  {
    var active := ActiveFrames(frames);
    if |active| >= 2 {
      var known := KeyedBy(convictions, ConvictionId);
      ChosenShares(active, threshold, known);
      forall k | k in known ensures ValidConviction(known[k]) {
        KnownValid(convictions, k);
      }
      IdentitiesValid(owner, Chosen(active, threshold, known), known, |active|, generated);
    }
  }

  lemma IdentitiesValid(owner: string, cands: seq<Candidate>, known: map<string, Conviction>, total: nat,
                        generated: Conviction -> seq<Expression>)
    requires Known(cands, known)
    requires forall k :: k in known ==> ValidConviction(known[k])
    requires forall c :: c in cands ==> 0.0 <= c.coverage <= 1.0
    ensures forall i :: i in Identities(owner, cands, known, total, generated) ==> ValidIdentity(i)
  {
    var ids := Identities(owner, cands, known, total, generated);
    forall i | i in ids ensures ValidIdentity(i) {
      var k :| 0 <= k < |ids| && ids[k] == i;
      assert cands[k] in cands;
      var conv := known[cands[k].convictionId];
      MakeIdentityValid(owner, conv, cands[k], total, k + 1, generated(conv));
    }
  }

  lemma KnownValid(convictions: seq<Conviction>, k: string)
    requires forall c :: c in convictions ==> ValidConviction(c)
    requires k in KeyedBy(convictions, ConvictionId)
    ensures ValidConviction(KeyedBy(convictions, ConvictionId)[k])
  {
    KeyedByFrom(convictions, k);
  }

  lemma {:induction false} KeyedByFrom(convictions: seq<Conviction>, k: string)
    requires k in KeyedBy(convictions, ConvictionId)
    ensures KeyedBy(convictions, ConvictionId)[k] in convictions
  {
    var q := convictions[..|convictions| - 1];
    if convictions[|convictions| - 1].convictionId != k {
      KeyedByFrom(q, k);
    }
  }

  /** Every chosen candidate's coverage is a share when no frame lists a conviction twice. */
  lemma ChosenShares(active: seq<Frame>, threshold: real, known: map<string, Conviction>)
    requires |active| > 0 && DistinctPrimaries(active)
    ensures forall c :: c in Chosen(active, threshold, known) ==> 0.0 <= c.coverage <= 1.0
  {
    var g := Seqs.Grouped(Keys(active), Vals(active));
    Seqs.GroupedIsPartition(Keys(active), Vals(active));
    FramesWithin(active, g.members);
    var p := Promoted(g.order, g.members, |active|, threshold, known);
    PickedEntries(g.order, g.members, |active|, k => Qualifies(g.members, |active|, threshold, known, k));
    if p == [] {
      var e := Eligible(g.order, g.members, |active|, known);
      PickedEntries(g.order, g.members, |active|, k => Recurring(g.members, known, k));
      var s := Seqs.SortBy(e, FallbackKey(known));
      forall c | c in Fallback(g.order, g.members, |active|, known) ensures c in e {
        assert c in s;
        Seqs.InMultiset(s, e, c);
      }
    }
  }

  lemma FramesWithin(active: seq<Frame>, fmap: map<string, seq<string>>)
    requires DistinctPrimaries(active)
    requires forall k :: k in fmap ==> k in Keys(active) && fmap[k] == Seqs.Select(Keys(active), Vals(active), k)
    ensures forall k :: k in fmap ==> |fmap[k]| <= |active|
  {
    forall k | k in fmap ensures |fmap[k]| <= |active| {
      CountIsListing(active, k);
    }
  }

  /** When the model gives no expressions, each of the conviction's first five frames gets the template. */
  lemma TemplatedExpressions(generated: seq<Expression>, frameIds: seq<string>, statement: string)
    requires generated == []
    ensures var r := ExpressionsFor(generated, frameIds, statement);
            |r| == (if |frameIds| < 5 then |frameIds| else 5)
            && forall i :: 0 <= i < |r| ==> r[i] == Expression(frameIds[i], Template(statement))
  {
  }
}

/**
 * Conviction de-duplication: candidate pairs by statement similarity, confirmation by
 * the language model, a merge of each confirmed pair into the stronger conviction, and
 * the repair of every reference to a merged-away conviction.
 *
 * The similarity matrix is the input `sim(i, j)` over positions in the conviction list;
 * the model's replies to the confirmation prompts are the input `replies`, one per pair.
 * Convictions are values held by position: a merge updates the primary's position.
 */
module ConvictionDeduper {
  import opened Wrappers
  import opened Models
  import Seqs
  import Strings
  import Detector = ConvictionDetector

  // ================================================================ evidence merge

  /** `_merge_list`: None when both lists are missing or empty, otherwise the concatenation. */
  function MergeList<T>(a: Option<seq<T>>, b: Option<seq<T>>): (r: Option<seq<T>>)
    ensures r.None? <==> a.GetOr([]) == [] && b.GetOr([]) == []
    ensures r.Some? ==> |r.value| == |a.GetOr([])| + |b.GetOr([])|
                        && r.value[..|a.GetOr([])|] == a.GetOr([]) && r.value[|a.GetOr([])|..] == b.GetOr([])
  {
    if a.GetOr([]) == [] && b.GetOr([]) == [] then None else Some(a.GetOr([]) + b.GetOr([]))
  }

  function MergeEvidence(p: Evidence, s: Evidence): Evidence
  {
    Evidence(
      MergeList(p.convergence, s.convergence), MergeList(p.persistence, s.persistence),
      MergeList(p.crossContext, s.crossContext), MergeList(p.spontaneous, s.spontaneous),
      MergeList(p.alignment, s.alignment))
  }

  /** A kind of resonance is present in the merge iff it is present in either side. */
  lemma MergeEvidenceKinds(p: Evidence, s: Evidence)
    ensures var m := MergeEvidence(p, s);
            (Detector.Present(m.convergence) == 1 <==> Detector.Present(p.convergence) == 1 || Detector.Present(s.convergence) == 1)
            && (Detector.Present(m.persistence) == 1 <==> Detector.Present(p.persistence) == 1 || Detector.Present(s.persistence) == 1)
            && (Detector.Present(m.crossContext) == 1 <==> Detector.Present(p.crossContext) == 1 || Detector.Present(s.crossContext) == 1)
            && (Detector.Present(m.spontaneous) == 1 <==> Detector.Present(p.spontaneous) == 1 || Detector.Present(s.spontaneous) == 1)
            && (Detector.Present(m.alignment) == 1 <==> Detector.Present(p.alignment) == 1 || Detector.Present(s.alignment) == 1)
    ensures Detector.EvidenceKinds(MergeEvidence(p, s)) >= Detector.EvidenceKinds(p)
    ensures Detector.EvidenceKinds(MergeEvidence(p, s)) >= Detector.EvidenceKinds(s)
  {
  }

  // ================================================================ candidate pairs

  /** A candidate pair: two positions in the conviction list and their similarity. */
  datatype Pair = Pair(a: nat, b: nat, sim: real)

  function Key(ids: seq<string>, i: nat, j: nat): set<string>
    requires i < |ids| && j < |ids|
  {
    {ids[i], ids[j]}
  }

  predicate InRange(ids: seq<string>, l: seq<(nat, nat)>)
  {
    forall k :: 0 <= k < |l| ==> l[k].0 < |ids| && l[k].1 < |ids|
  }

  datatype Scan = Scan(pairs: seq<Pair>, seen: set<set<string>>)

  /** One visit of the inner loop: keep a pair above the threshold whose unordered id pair is new. */
  function ScanStep(st: Scan, ids: seq<string>, sim: (nat, nat) -> real, threshold: real, i: nat, j: nat): Scan
    requires i < |ids| && j < |ids|
  {
    if sim(i, j) > threshold && Key(ids, i, j) !in st.seen
    then Scan(st.pairs + [Pair(i, j, sim(i, j))], st.seen + {Key(ids, i, j)})
    else st
  }

  function ScanAll(ids: seq<string>, sim: (nat, nat) -> real, threshold: real, l: seq<(nat, nat)>): Scan
    requires InRange(ids, l)
  {
    if l == [] then Scan([], {})
    else
      var ij := l[|l| - 1];
      ScanStep(ScanAll(ids, sim, threshold, l[..|l| - 1]), ids, sim, threshold, ij.0, ij.1)
  }

  function BySimDesc(p: Pair): Seqs.Rank { Seqs.Rank(-p.sim, 0.0) }

  /** `_find_duplicate_pairs` over a given similarity matrix. */
  function DuplicatePairs(ids: seq<string>, sim: (nat, nat) -> real, threshold: real): seq<Pair>
  {
    if |ids| < 2 then []
    else
      Seqs.SortBy(ScanAll(ids, sim, threshold, Seqs.Rows(|ids|, |ids|)).pairs, BySimDesc)
  }

  predicate PairOK(ids: seq<string>, sim: (nat, nat) -> real, threshold: real, p: Pair)
  {
    p.a < p.b < |ids| && p.sim == sim(p.a, p.b) && p.sim > threshold
  }

  lemma ScanAllSnoc(ids: seq<string>, sim: (nat, nat) -> real, threshold: real, l: seq<(nat, nat)>, i: nat, j: nat)
    requires InRange(ids, l) && i < |ids| && j < |ids|
    ensures InRange(ids, l + [(i, j)])
    ensures ScanAll(ids, sim, threshold, l + [(i, j)]) == ScanStep(ScanAll(ids, sim, threshold, l), ids, sim, threshold, i, j)
  {
    assert (l + [(i, j)])[..|l|] == l;
  }

  /** Every kept pair is a valid pair above the threshold. */
  lemma {:induction false} ScanValid(ids: seq<string>, sim: (nat, nat) -> real, threshold: real, l: seq<(nat, nat)>)
    requires InRange(ids, l)
    requires forall k :: 0 <= k < |l| ==> l[k].0 < l[k].1
    ensures forall q :: 0 <= q < |ScanAll(ids, sim, threshold, l).pairs| ==>
              PairOK(ids, sim, threshold, ScanAll(ids, sim, threshold, l).pairs[q])
  {
    if l != [] {
      var prefix := l[..|l| - 1];
      assert forall k :: 0 <= k < |prefix| ==> prefix[k] == l[k];
      ScanValid(ids, sim, threshold, prefix);
      var prev := ScanAll(ids, sim, threshold, prefix);
      var ij := l[|l| - 1];
      var sc := ScanAll(ids, sim, threshold, l);
      assert sc == ScanStep(prev, ids, sim, threshold, ij.0, ij.1);
      forall q | 0 <= q < |sc.pairs| ensures PairOK(ids, sim, threshold, sc.pairs[q]) {
        if q < |prev.pairs| {
          assert sc.pairs[q] == prev.pairs[q];
          assert PairOK(ids, sim, threshold, prev.pairs[q]);
        } else {
          assert sc.pairs[q] == Pair(ij.0, ij.1, sim(ij.0, ij.1));
        }
      }
    }
  }

  predicate KeysValid(ids: seq<string>, ps: seq<Pair>)
  {
    forall q :: 0 <= q < |ps| ==> ps[q].a < |ids| && ps[q].b < |ids|
  }

  /** `seen` holds exactly the id pairs of the kept pairs. */
  ghost predicate SeenMatches(ids: seq<string>, sc: Scan)
  {
    KeysValid(ids, sc.pairs)
    && forall key :: key in sc.seen <==> exists q :: 0 <= q < |sc.pairs| && Key(ids, sc.pairs[q].a, sc.pairs[q].b) == key
  }

  /** No two pairs name the same two ids. */
  predicate KeysDistinct(ids: seq<string>, ps: seq<Pair>)
  {
    KeysValid(ids, ps)
    && forall q, r :: 0 <= q < r < |ps| ==> Key(ids, ps[q].a, ps[q].b) != Key(ids, ps[r].a, ps[r].b)
  }

  lemma {:induction false} ScanSeen(ids: seq<string>, sim: (nat, nat) -> real, threshold: real, l: seq<(nat, nat)>)
    requires InRange(ids, l)
    ensures SeenMatches(ids, ScanAll(ids, sim, threshold, l))
  {
    if l != [] {
      ScanSeen(ids, sim, threshold, l[..|l| - 1]);
      var prev := ScanAll(ids, sim, threshold, l[..|l| - 1]);
      var sc := ScanAll(ids, sim, threshold, l);
      var ij := l[|l| - 1];
      assert sc == ScanStep(prev, ids, sim, threshold, ij.0, ij.1);
      if sc != prev {
        var added := Pair(ij.0, ij.1, sim(ij.0, ij.1));
        assert sc.pairs == prev.pairs + [added];
        assert sc.seen == prev.seen + {Key(ids, ij.0, ij.1)};
        forall key ensures key in sc.seen <==>
            exists q :: 0 <= q < |sc.pairs| && Key(ids, sc.pairs[q].a, sc.pairs[q].b) == key {
          if key in prev.seen {
            var q :| 0 <= q < |prev.pairs| && Key(ids, prev.pairs[q].a, prev.pairs[q].b) == key;
            assert sc.pairs[q] == prev.pairs[q];
          } else if key == Key(ids, ij.0, ij.1) {
            assert sc.pairs[|prev.pairs|] == added;
          }
          if exists q :: 0 <= q < |sc.pairs| && Key(ids, sc.pairs[q].a, sc.pairs[q].b) == key {
            var q :| 0 <= q < |sc.pairs| && Key(ids, sc.pairs[q].a, sc.pairs[q].b) == key;
            if q < |prev.pairs| {
              assert sc.pairs[q] == prev.pairs[q];
            } else {
              assert sc.pairs[q] == added;
            }
          }
        }
      }
    }
  }

  lemma {:induction false} ScanDistinct(ids: seq<string>, sim: (nat, nat) -> real, threshold: real, l: seq<(nat, nat)>)
    requires InRange(ids, l)
    ensures KeysDistinct(ids, ScanAll(ids, sim, threshold, l).pairs)
  {
    ScanSeen(ids, sim, threshold, l);
    if l != [] {
      ScanDistinct(ids, sim, threshold, l[..|l| - 1]);
      ScanSeen(ids, sim, threshold, l[..|l| - 1]);
      var prev := ScanAll(ids, sim, threshold, l[..|l| - 1]);
      var sc := ScanAll(ids, sim, threshold, l);
      if sc != prev {
        forall q, r | 0 <= q < r < |sc.pairs|
          ensures Key(ids, sc.pairs[q].a, sc.pairs[q].b) != Key(ids, sc.pairs[r].a, sc.pairs[r].b)
        {
          assert sc.pairs[q] == prev.pairs[q];
          if r < |prev.pairs| {
            assert sc.pairs[r] == prev.pairs[r];
          }
        }
      }
    }
  }

  /** Every visited pair above the threshold has its id pair in `seen`. */
  lemma {:induction false} ScanComplete(ids: seq<string>, sim: (nat, nat) -> real, threshold: real, l: seq<(nat, nat)>)
    requires InRange(ids, l)
    ensures forall k :: 0 <= k < |l| && sim(l[k].0, l[k].1) > threshold ==>
              Key(ids, l[k].0, l[k].1) in ScanAll(ids, sim, threshold, l).seen
  {
    if l != [] {
      var prefix := l[..|l| - 1];
      ScanComplete(ids, sim, threshold, prefix);
      assert forall k :: 0 <= k < |prefix| ==> prefix[k] == l[k];
    }
  }

  /**
   * The candidate pairs: each has `a < b`, a similarity strictly above the threshold and
   * read off the matrix; no two name the same two ids; the list runs from the most
   * similar down.
   */
  lemma DuplicatePairsValid(ids: seq<string>, sim: (nat, nat) -> real, threshold: real)
    ensures |ids| < 2 ==> DuplicatePairs(ids, sim, threshold) == []
    ensures forall q :: 0 <= q < |DuplicatePairs(ids, sim, threshold)| ==>
              PairOK(ids, sim, threshold, DuplicatePairs(ids, sim, threshold)[q])
    ensures KeysDistinct(ids, DuplicatePairs(ids, sim, threshold))
    ensures forall q, r :: 0 <= q < r < |DuplicatePairs(ids, sim, threshold)| ==>
              DuplicatePairs(ids, sim, threshold)[q].sim >= DuplicatePairs(ids, sim, threshold)[r].sim
  {
    if |ids| >= 2 {
      var l := Seqs.Rows(|ids|, |ids|);
      ScanValid(ids, sim, threshold, l);
      ScanDistinct(ids, sim, threshold, l);
      var sc := ScanAll(ids, sim, threshold, l);
      var ps := DuplicatePairs(ids, sim, threshold);
      assert ps == Seqs.SortBy(sc.pairs, BySimDesc);
      forall q | 0 <= q < |ps| ensures PairOK(ids, sim, threshold, ps[q]) {
        Seqs.InMultiset(ps, sc.pairs, ps[q]);
      }
      PermutedKeysDistinct(ids, sc.pairs, ps);
    }
  }

  /** Some pair of `ps` names the same two ids as positions `i` and `j`. */
  predicate Represented(ids: seq<string>, ps: seq<Pair>, i: nat, j: nat)
    requires i < |ids| && j < |ids|
  {
    exists q :: 0 <= q < |ps| && ps[q].a < |ids| && ps[q].b < |ids| && Key(ids, ps[q].a, ps[q].b) == Key(ids, i, j)
  }

  /** A visited pair above the threshold is represented among the kept pairs. */
  lemma ScanKeeps(ids: seq<string>, sim: (nat, nat) -> real, threshold: real, l: seq<(nat, nat)>, k: nat)
    requires InRange(ids, l) && k < |l| && sim(l[k].0, l[k].1) > threshold
    ensures Represented(ids, ScanAll(ids, sim, threshold, l).pairs, l[k].0, l[k].1)
  {
    ScanSeen(ids, sim, threshold, l);
    ScanComplete(ids, sim, threshold, l);
  }

  lemma RepresentedPermuted(ids: seq<string>, s: seq<Pair>, t: seq<Pair>, i: nat, j: nat)
    requires i < |ids| && j < |ids| && multiset(s) == multiset(t) && Represented(ids, s, i, j)
    ensures Represented(ids, t, i, j)
  {
    var q :| 0 <= q < |s| && s[q].a < |ids| && s[q].b < |ids| && Key(ids, s[q].a, s[q].b) == Key(ids, i, j);
    Seqs.InMultiset(s, t, s[q]);
    var r :| 0 <= r < |t| && t[r] == s[q];
  }

  /** Every pair of positions above the threshold is represented by a candidate with the same two ids. */
  lemma DuplicatePairsComplete(ids: seq<string>, sim: (nat, nat) -> real, threshold: real, i: nat, j: nat)
    requires i < j < |ids| && sim(i, j) > threshold
    ensures Represented(ids, DuplicatePairs(ids, sim, threshold), i, j)
  {
    var n := |ids|;
    var l := Seqs.Rows(n, n);
    var sc := ScanAll(ids, sim, threshold, l);
    Seqs.RowsAre(n, n);
    assert (i, j) in l;
    var k :| 0 <= k < |l| && l[k] == (i, j);
    ScanKeeps(ids, sim, threshold, l, k);
    RepresentedPermuted(ids, sc.pairs, Seqs.SortBy(sc.pairs, BySimDesc), i, j);
  }

  /** A permutation of a list of pairs with pairwise distinct id pairs keeps them distinct. */
  lemma PermutedKeysDistinct(ids: seq<string>, s: seq<Pair>, t: seq<Pair>)
    requires multiset(t) == multiset(s)
    requires KeysDistinct(ids, s)
    ensures KeysDistinct(ids, t)
  {
    assert Seqs.Distinct(s);
    Seqs.DistinctOnce(s);
    forall q | 0 <= q < |t| ensures t[q] in s {
      Seqs.InMultiset(t, s, t[q]);
    }
    forall q, r | 0 <= q < r < |t| ensures t[q] != t[r] {
      if t[q] == t[r] {
        Seqs.MultisetTwoPositions(t, q, r);
      }
    }
    forall q, r | 0 <= q < r < |t| ensures Key(ids, t[q].a, t[q].b) != Key(ids, t[r].a, t[r].b) {
      var x :| 0 <= x < |s| && s[x] == t[q];
      var y :| 0 <= y < |s| && s[y] == t[r];
      assert x != y;
    }
  }

  /** `_find_duplicate_pairs`: the nested loops, then the sort by similarity, highest first. */
  method FindDuplicatePairs(ids: seq<string>, sim: (nat, nat) -> real, threshold: real) returns (pairs: seq<Pair>)
    ensures pairs == DuplicatePairs(ids, sim, threshold)
  {
    if |ids| < 2 {
      return [];
    }
    var st := ScanTriangle(ids, sim, threshold);
    pairs := Seqs.SortBy(st.pairs, BySimDesc);
  }

  /** The outer loop over the rows of the upper triangle. */
  method ScanTriangle(ids: seq<string>, sim: (nat, nat) -> real, threshold: real) returns (st: Scan)
    ensures st == ScanAll(ids, sim, threshold, Seqs.Rows(|ids|, |ids|))
  {
    var n := |ids|;
    st := Scan([], {});
    var i := 0;
    while i < n
      invariant 0 <= i <= n
      invariant st == ScanAll(ids, sim, threshold, Seqs.Rows(i, n))
    {
      st := ScanRow(ids, sim, threshold, i, st, Seqs.Rows(i, n));
      i := i + 1;
    }
  }

  /** The inner loop: row `i` of the upper triangle, after the rows `done` before it. */
  method ScanRow(ids: seq<string>, sim: (nat, nat) -> real, threshold: real, i: nat, st0: Scan, ghost done: seq<(nat, nat)>)
    returns (st: Scan)
    requires i < |ids| && InRange(ids, done) && st0 == ScanAll(ids, sim, threshold, done)
    ensures InRange(ids, done + Seqs.Row(i, |ids|)) && st == ScanAll(ids, sim, threshold, done + Seqs.Row(i, |ids|))
  {
    var n := |ids|;
    var found, seen := st0.pairs, st0.seen;
    ghost var l := done;
    var j := i + 1;
    while j < n
      invariant i + 1 <= j <= n
      invariant l == done + Seqs.Row(i, n)[..j - i - 1] && InRange(ids, l)
      invariant Scan(found, seen) == ScanAll(ids, sim, threshold, l)
    {
      ScanAllSnoc(ids, sim, threshold, l, i, j);
      assert Seqs.Row(i, n)[..j - i] == Seqs.Row(i, n)[..j - i - 1] + [(i, j)];
      if sim(i, j) > threshold {
        var key := {ids[i], ids[j]};
        if key !in seen {
          seen := seen + {key};
          found := found + [Pair(i, j, sim(i, j))];
        }
      }
      l := l + [(i, j)];
      j := j + 1;
    }
    assert Seqs.Row(i, n)[..j - i - 1] == Seqs.Row(i, n);
    st := Scan(found, seen);
  }

  // ================================================================ confirmation

  /** The reply, trimmed and upper-cased, begins with YES. */
  predicate IsYes(reply: string)
  {
    Strings.StartsWith(Strings.Upper(Strings.Strip(reply)), "YES")
  }

  /** The verdict `ok` gives each reply. */
  function Verdicts(replies: seq<string>, ok: string -> bool): (r: seq<bool>)
    ensures |r| == |replies|
  {
    seq(|replies|, i requires 0 <= i < |replies| => ok(replies[i]))
  }

  /** The verdict on each reply. */
  function Answers(replies: seq<string>): (r: seq<bool>)
    ensures |r| == |replies|
  {
    Verdicts(replies, IsYes)
  }

  /** The first `k` pairs, zipped with their verdicts, keeping those answered YES. */
  function ConfirmedUpTo(pairs: seq<Pair>, yes: seq<bool>, k: nat): seq<Pair>
    requires k <= |pairs| && k <= |yes|
  {
    if k == 0 then []
    else ConfirmedUpTo(pairs, yes, k - 1) + (if yes[k - 1] then [pairs[k - 1]] else [])
  }

  /** `zip(pairs, verdicts)` stops at the shorter list. */
  function Zipped<A, B>(xs: seq<A>, ys: seq<B>): (n: nat)
    ensures n <= |xs| && n <= |ys| && (n == |xs| || n == |ys|)
  {
    if |xs| <= |ys| then |xs| else |ys|
  }

  function Confirmed(pairs: seq<Pair>, yes: seq<bool>): seq<Pair>
  {
    ConfirmedUpTo(pairs, yes, Zipped(pairs, yes))
  }

  /** Exactly the pairs answered YES are confirmed, in their order. */
  lemma {:induction false} ConfirmedExactly(pairs: seq<Pair>, yes: seq<bool>, k: nat)
    requires k <= |pairs| && k <= |yes|
    ensures |ConfirmedUpTo(pairs, yes, k)| <= k
    ensures forall p :: p in ConfirmedUpTo(pairs, yes, k) <==> exists i :: 0 <= i < k && pairs[i] == p && yes[i]
    ensures (forall i :: 0 <= i < k ==> yes[i]) ==> ConfirmedUpTo(pairs, yes, k) == pairs[..k]
    ensures (forall i :: 0 <= i < k ==> !yes[i]) ==> ConfirmedUpTo(pairs, yes, k) == []
  {
    if k > 0 {
      ConfirmedExactly(pairs, yes, k - 1);
      var prev := ConfirmedUpTo(pairs, yes, k - 1);
      var add := if yes[k - 1] then [pairs[k - 1]] else [];
      assert ConfirmedUpTo(pairs, yes, k) == prev + add;
      forall p | p in prev + add ensures exists i :: 0 <= i < k && pairs[i] == p && yes[i] {
        if p in prev {
          var i :| 0 <= i < k - 1 && pairs[i] == p && yes[i];
        } else {
          assert p == pairs[k - 1] && yes[k - 1];
        }
      }
      forall p | exists i :: 0 <= i < k && pairs[i] == p && yes[i] ensures p in prev + add {
        var i :| 0 <= i < k && pairs[i] == p && yes[i];
        if i < k - 1 {
          assert p in prev;
        } else {
          assert p in add;
        }
      }
      assert pairs[..k] == pairs[..k - 1] + [pairs[k - 1]];
    }
  }

  /** A pair is confirmed iff it is among the first `min(|pairs|, |replies|)` and its reply says YES. */
  lemma ConfirmedIff(pairs: seq<Pair>, replies: seq<string>, p: Pair)
    ensures p in Confirmed(pairs, Answers(replies)) <==>
              exists i :: 0 <= i < |pairs| && i < |replies| && pairs[i] == p && IsYes(replies[i])
    ensures |Confirmed(pairs, Answers(replies))| <= |pairs|
  {
    ConfirmedIffBy(pairs, replies, IsYes, p);
  }

  lemma ConfirmedIffBy(pairs: seq<Pair>, replies: seq<string>, ok: string -> bool, p: Pair)
    ensures p in Confirmed(pairs, Verdicts(replies, ok)) <==>
              exists i :: 0 <= i < |pairs| && i < |replies| && pairs[i] == p && ok(replies[i])
    ensures |Confirmed(pairs, Verdicts(replies, ok))| <= |pairs|
  {
    var yes := Verdicts(replies, ok);
    ConfirmedExactly(pairs, yes, Zipped(pairs, yes));
    if p in Confirmed(pairs, yes) {
      var i :| 0 <= i < Zipped(pairs, yes) && pairs[i] == p && yes[i];
      assert yes[i] == ok(replies[i]);
    }
    if exists i :: 0 <= i < |pairs| && i < |replies| && pairs[i] == p && ok(replies[i]) {
      var i :| 0 <= i < |pairs| && i < |replies| && pairs[i] == p && ok(replies[i]);
      assert yes[i] == ok(replies[i]);
    }
  }

  /** Each reply's verdict, one reply at a time. */
  method ReadVerdicts(replies: seq<string>, ok: string -> bool) returns (yes: seq<bool>)
    ensures yes == Verdicts(replies, ok)
  {
    yes := [];
    var k := 0;
    while k < |replies|
      invariant 0 <= k <= |replies|
      invariant |yes| == k
      invariant forall j :: 0 <= j < k ==> yes[j] == ok(replies[j])
    {
      yes := yes + [ok(replies[k])];
      k := k + 1;
    }
  }

  /** `_llm_confirm_duplicates`: the verdicts on the replies, zipped with the pairs. */
  method ConfirmDuplicates(pairs: seq<Pair>, replies: seq<string>) returns (confirmed: seq<Pair>)
    ensures confirmed == Confirmed(pairs, Answers(replies))
  {
    var yes := ReadVerdicts(replies, IsYes);
    confirmed := KeepAnswered(pairs, yes);
  }

  /** The pairs, zipped with their verdicts, that were answered YES. */
  method KeepAnswered(pairs: seq<Pair>, yes: seq<bool>) returns (confirmed: seq<Pair>)
    ensures confirmed == Confirmed(pairs, yes)
  {
    var n := Zipped(pairs, yes);
    confirmed := [];
    var k := 0;
    while k < n
      invariant 0 <= k <= n
      invariant confirmed == ConfirmedUpTo(pairs, yes, k)
    {
      if yes[k] {
        confirmed := confirmed + [pairs[k]];
      }
      k := k + 1;
    }
  }

  // ================================================================ merge

  /** `_choose_primary` on two positions: the higher score, the first one on a tie. */
  function ChoosePrimary(convs: seq<Conviction>, i: nat, j: nat): (r: (nat, nat))
    requires i < |convs| && j < |convs|
    ensures r == (i, j) || r == (j, i)
    ensures convs[r.0].strength.score >= convs[r.1].strength.score
    ensures convs[i].strength.score == convs[j].strength.score ==> r == (i, j)
  {
    if convs[i].strength.score >= convs[j].strength.score then (i, j) else (j, i)
  }

  const MergedContext: string := "merged_duplicate"

  /** The primary after absorbing the secondary. */
  function MergeInto(p: Conviction, s: Conviction): Conviction
  {
    var kept := Seqs.Filter(s.tensions.GetOr([]), (t: Tension) => t.opposing != p.convictionId);
    var tensions := p.tensions.GetOr([]) + kept;
    p.(evidence := MergeEvidence(p.evidence, s.evidence),
       domains := Seqs.Dedup(p.domains + s.domains),
       variants := Some(p.variants.GetOr([]) + s.variants.GetOr([])
                        + [StatementVariant(s.statement, MergedContext, None)]),
       tensions := if tensions == [] then None else Some(tensions))
  }

  /**
   * The merged primary keeps its id, statement, strength and lifecycle; its domains are
   * the union of both without repeats; its variants are its own, the secondary's, then
   * the secondary's statement; its tensions are its own followed by the secondary's that
   * do not oppose the primary.
   */
  lemma MergeIntoFacts(p: Conviction, s: Conviction)
    ensures var m := MergeInto(p, s);
            m.convictionId == p.convictionId && m.statement == p.statement
            && m.strength == p.strength && m.lifecycle == p.lifecycle
            && Seqs.Distinct(m.domains) && (forall d :: d in m.domains <==> d in p.domains || d in s.domains)
            && m.variants == Some(p.variants.GetOr([]) + s.variants.GetOr([])
                                  + [StatementVariant(s.statement, MergedContext, None)])
            && (forall t :: t in m.tensions.GetOr([]) <==>
                  t in p.tensions.GetOr([]) || (t in s.tensions.GetOr([]) && t.opposing != p.convictionId))
            && (m.tensions.None? <==> p.tensions.GetOr([]) == [] && forall t :: t in s.tensions.GetOr([]) ==> t.opposing == p.convictionId)
  {
    var kept := Seqs.Filter(s.tensions.GetOr([]), (t: Tension) => t.opposing != p.convictionId);
    if kept != [] {
      assert kept[0] in kept;
    }
  }

  /** A line of the report: who absorbed whom. `confirmed` is present only in a dry run. */
  datatype Detail = Detail(
    primary: string, secondary: string, primaryStatement: string, secondaryStatement: string,
    similarity: real, confirmed: Option<bool>)

  /** The merge loop's state: the list (primaries updated in place), `id_map`, `remove_ids`, the details. */
  datatype Merge = Merge(convs: seq<Conviction>, idMap: map<string, string>, removed: set<string>, details: seq<Detail>)

  predicate PairsIn(pairs: seq<Pair>, n: nat)
  {
    forall k :: 0 <= k < |pairs| ==> pairs[k].a < n && pairs[k].b < n
  }

  /** `id_map` with every entry that pointed at `from` pointed at `to` instead. */
  function Repoint(m: map<string, string>, from: string, to: string): map<string, string>
  {
    map k | k in m :: if m[k] == from then to else m[k]
  }

  /**
   * One merge of the loop, with the repair the rewrite needs: when `sec` is absorbed, the
   * entries that already pointed at `sec` are pointed at `prim`, so `id_map` stays one hop.
   */
  function MergeStep(st: Merge, p: Pair): Merge
    requires p.a < |st.convs| && p.b < |st.convs|
  {
    var r := ChoosePrimary(st.convs, p.a, p.b);
    var prim, sec := st.convs[r.0], st.convs[r.1];
    if prim.convictionId in st.removed || sec.convictionId in st.removed then st
    else Merge(st.convs[r.0 := MergeInto(prim, sec)],
               Repoint(st.idMap, sec.convictionId, prim.convictionId)[sec.convictionId := prim.convictionId],
               st.removed + {sec.convictionId},
               st.details + [Detail(prim.convictionId, sec.convictionId, prim.statement, sec.statement, p.sim, None)])
  }

  /** One merge of the loop as the source writes it: `id_map[secondary] = primary` and nothing else. */
  function MergeStepAsWritten(st: Merge, p: Pair): Merge
    requires p.a < |st.convs| && p.b < |st.convs|
  {
    var r := ChoosePrimary(st.convs, p.a, p.b);
    var prim, sec := st.convs[r.0], st.convs[r.1];
    if prim.convictionId in st.removed || sec.convictionId in st.removed then st
    else Merge(st.convs[r.0 := MergeInto(prim, sec)],
               st.idMap[sec.convictionId := prim.convictionId],
               st.removed + {sec.convictionId},
               st.details + [Detail(prim.convictionId, sec.convictionId, prim.statement, sec.statement, p.sim, None)])
  }

  function MergeAllAsWritten(st: Merge, pairs: seq<Pair>): (r: Merge)
    requires PairsIn(pairs, |st.convs|)
    ensures |r.convs| == |st.convs|
  {
    if pairs == [] then st
    else
      var prev := MergeAllAsWritten(st, pairs[..|pairs| - 1]);
      MergeStepAsWritten(prev, pairs[|pairs| - 1])
  }

  function MergeAll(st: Merge, pairs: seq<Pair>): (r: Merge)
    requires PairsIn(pairs, |st.convs|)
    ensures |r.convs| == |st.convs|
  {
    if pairs == [] then st
    else
      var prev := MergeAll(st, pairs[..|pairs| - 1]);
      MergeStep(prev, pairs[|pairs| - 1])
  }

  /** Every merged-away id is a key of `id_map` and back: the merged count is `|id_map|`. */
  lemma {:induction false} MergeAllRemovedAreKeys(st: Merge, pairs: seq<Pair>)
    requires PairsIn(pairs, |st.convs|)
    requires st.removed == st.idMap.Keys
    ensures MergeAll(st, pairs).removed == MergeAll(st, pairs).idMap.Keys
    ensures st.removed <= MergeAll(st, pairs).removed
  {
    if pairs != [] {
      MergeAllRemovedAreKeys(st, pairs[..|pairs| - 1]);
    }
  }

  /** Merging never changes which id sits at which position. */
  lemma {:induction false} MergeAllKeepsIds(st: Merge, pairs: seq<Pair>)
    requires PairsIn(pairs, |st.convs|)
    ensures forall k :: 0 <= k < |st.convs| ==> MergeAll(st, pairs).convs[k].convictionId == st.convs[k].convictionId
  {
    if pairs != [] {
      MergeAllKeepsIds(st, pairs[..|pairs| - 1]);
      var prev := MergeAll(st, pairs[..|pairs| - 1]);
      var p := pairs[|pairs| - 1];
      var r := ChoosePrimary(prev.convs, p.a, p.b);
      MergeIntoFacts(prev.convs[r.0], prev.convs[r.1]);
    }
  }

  /** `x` is the id of some conviction of the list. */
  predicate IsIdOf(convs: seq<Conviction>, x: string)
  {
    exists i :: 0 <= i < |convs| && convs[i].convictionId == x
  }

  /** `id_map` only ever maps an id of the list to an id of the list. */
  lemma {:induction false} MergeAllMapsListIds(st: Merge, pairs: seq<Pair>)
    requires PairsIn(pairs, |st.convs|)
    requires forall k :: k in st.idMap ==> IsIdOf(st.convs, k) && IsIdOf(st.convs, st.idMap[k])
    ensures var m := MergeAll(st, pairs).idMap;
            forall k :: k in m ==> IsIdOf(st.convs, k) && IsIdOf(st.convs, m[k])
  {
    if pairs != [] {
      MergeAllMapsListIds(st, pairs[..|pairs| - 1]);
      MergeAllKeepsIds(st, pairs[..|pairs| - 1]);
      var prev := MergeAll(st, pairs[..|pairs| - 1]);
      var p := pairs[|pairs| - 1];
      var r := ChoosePrimary(prev.convs, p.a, p.b);
      var prim, sec := prev.convs[r.0].convictionId, prev.convs[r.1].convictionId;
      assert prim == st.convs[r.0].convictionId && IsIdOf(st.convs, prim);
      assert sec == st.convs[r.1].convictionId && IsIdOf(st.convs, sec);
      if prim !in prev.removed && sec !in prev.removed {
        RepointValues(prev.idMap, sec, prim);
        var m := Repoint(prev.idMap, sec, prim)[sec := prim];
        assert MergeAll(st, pairs).idMap == m;
        forall k | k in m ensures IsIdOf(st.convs, k) && IsIdOf(st.convs, m[k]) {
          if k != sec && m[k] != prim {
            assert k in prev.idMap && m[k] == prev.idMap[k];
          }
        }
      }
    }
  }

  /** Re-pointing keeps the keys, and each value is either the old one or the new target. */
  lemma RepointValues(m: map<string, string>, from: string, to: string)
    ensures var r := Repoint(m, from, to)[from := to];
            r.Keys == m.Keys + {from} && r[from] == to
            && forall k :: k in r && k != from ==> r[k] == to || r[k] == m[k]
  {
  }

  /** The two convictions of every pair carry different ids. */
  predicate PairIdsDiffer(convs: seq<Conviction>, pairs: seq<Pair>)
    requires PairsIn(pairs, |convs|)
  {
    forall k :: 0 <= k < |pairs| ==> convs[pairs[k].a].convictionId != convs[pairs[k].b].convictionId
  }

  /** Re-pointing before adding `sec -> prim` keeps a one-hop map one hop, when `prim` is not merged away. */
  lemma RepointNoChains(m: map<string, string>, sec: string, prim: string)
    requires NoChains(m) && prim !in m && prim != sec
    ensures NoChains(Repoint(m, sec, prim)[sec := prim])
  {
    var m' := Repoint(m, sec, prim)[sec := prim];
    forall k | k in m' ensures m'[k] !in m' {
      if k != sec && m[k] != sec {
        assert m'[k] == m[k] && m[k] !in m;
      }
    }
  }

  /** The repaired loop never builds a chain: every `id_map` value is a conviction that survives. */
  lemma {:induction false} MergeAllNoChains(st: Merge, pairs: seq<Pair>)
    requires PairsIn(pairs, |st.convs|) && PairIdsDiffer(st.convs, pairs)
    requires st.removed == st.idMap.Keys && NoChains(st.idMap)
    ensures NoChains(MergeAll(st, pairs).idMap)
  {
    if pairs != [] {
      var init := pairs[..|pairs| - 1];
      MergeAllNoChains(st, init);
      MergeAllRemovedAreKeys(st, init);
      MergeAllKeepsIds(st, init);
      var prev := MergeAll(st, init);
      var p := pairs[|pairs| - 1];
      var r := ChoosePrimary(prev.convs, p.a, p.b);
      var prim, sec := prev.convs[r.0], prev.convs[r.1];
      if prim.convictionId !in prev.removed && sec.convictionId !in prev.removed {
        assert st.convs[p.a].convictionId != st.convs[p.b].convictionId;
        RepointNoChains(prev.idMap, sec.convictionId, prim.convictionId);
      }
    }
  }

  /** The merge loop of `dedupe`. */
  method MergeConfirmed(convs: seq<Conviction>, confirmed: seq<Pair>) returns (st: Merge)
    requires PairsIn(confirmed, |convs|)
    ensures st == MergeAll(Merge(convs, map[], {}, []), confirmed)
  {
    var st0 := Merge(convs, map[], {}, []);
    st := st0;
    var k := 0;
    while k < |confirmed|
      invariant 0 <= k <= |confirmed|
      invariant st == MergeAll(st0, confirmed[..k])
    {
      assert confirmed[..k + 1][..k] == confirmed[..k];
      var p := confirmed[k];
      var r := ChoosePrimary(st.convs, p.a, p.b);
      var prim, sec := st.convs[r.0], st.convs[r.1];
      if prim.convictionId !in st.removed && sec.convictionId !in st.removed {
        st := Merge(st.convs[r.0 := MergeInto(prim, sec)],
                    Repoint(st.idMap, sec.convictionId, prim.convictionId)[sec.convictionId := prim.convictionId],
                    st.removed + {sec.convictionId},
                    st.details + [Detail(prim.convictionId, sec.convictionId, prim.statement, sec.statement, p.sim, None)]);
      }
      k := k + 1;
    }
    assert confirmed[..k] == confirmed;
  }

  // ================================================================ the reference rewrite

  /** One hop through `id_map`. */
  function Redirect(m: map<string, string>, x: string): string
  {
    if x in m then m[x] else x
  }

  function RedirectTensions(c: Conviction, m: map<string, string>): Conviction
  {
    if c.tensions.Some? then
      var ts := c.tensions.value;
      c.(tensions := Some(seq(|ts|, i requires 0 <= i < |ts| => ts[i].(opposing := Redirect(m, ts[i].opposing)))))
    else c
  }

  /** The convictions that were not merged away, in order, with their tensions redirected. */
  function Survivors(convs: seq<Conviction>, removed: set<string>, m: map<string, string>): seq<Conviction>
  {
    if convs == [] then []
    else
      var c := convs[|convs| - 1];
      Survivors(convs[..|convs| - 1], removed, m)
      + (if c.convictionId in removed then [] else [RedirectTensions(c, m)])
  }

  /** No survivor is a merged-away conviction, and every unremoved conviction survives. */
  lemma {:induction false} SurvivorsAreUnremoved(convs: seq<Conviction>, removed: set<string>, m: map<string, string>)
    ensures forall c :: c in Survivors(convs, removed, m) ==> c.convictionId !in removed
    ensures forall i :: 0 <= i < |convs| && convs[i].convictionId !in removed ==>
              RedirectTensions(convs[i], m) in Survivors(convs, removed, m)
    ensures |Survivors(convs, removed, m)| <= |convs|
  {
    if convs != [] {
      SurvivorsAreUnremoved(convs[..|convs| - 1], removed, m);
      forall i | 0 <= i < |convs| - 1 ensures convs[..|convs| - 1][i] == convs[i] { }
    }
  }

  /** The filter loop of `dedupe`. */
  method KeepSurvivors(convs: seq<Conviction>, removed: set<string>, m: map<string, string>) returns (kept: seq<Conviction>)
    ensures kept == Survivors(convs, removed, m)
  {
    kept := [];
    var k := 0;
    while k < |convs|
      invariant 0 <= k <= |convs|
      invariant kept == Survivors(convs[..k], removed, m)
    {
      assert convs[..k + 1][..k] == convs[..k];
      var c := convs[k];
      if c.convictionId !in removed {
        kept := kept + [RedirectTensions(c, m)];
      }
      k := k + 1;
    }
    assert convs[..k] == convs;
  }

  // ---------------------------------------------------------------- downstream files

  function RedirectTrace(t: Trace, m: map<string, string>): Trace
  {
    var ac := t.activated;
    var st := t.path.steps;
    t.(activated := seq(|ac|, i requires 0 <= i < |ac| => ac[i].(convictionId := Redirect(m, ac[i].convictionId))),
       path := t.path.(steps := seq(|st|, i requires 0 <= i < |st| =>
                 if st[i].usesConviction.Some? then st[i].(usesConviction := Some(Redirect(m, st[i].usesConviction.value)))
                 else st[i])),
       outcome := if t.outcome.Some? && t.outcome.value.impacts.Some?
                  then var im := t.outcome.value.impacts.value;
                       Some(t.outcome.value.(impacts := Some(seq(|im|, i requires 0 <= i < |im| =>
                         im[i].(convictionId := Redirect(m, im[i].convictionId))))))
                  else t.outcome)
  }

  /** Some id the trace mentions is a key of `id_map` (the line counts as updated). */
  predicate TraceMentions(t: Trace, m: map<string, string>)
  {
    (exists i :: 0 <= i < |t.activated| && t.activated[i].convictionId in m)
    || (exists i :: 0 <= i < |t.path.steps| && t.path.steps[i].usesConviction.Some?
                    && t.path.steps[i].usesConviction.value in m)
    || (t.outcome.Some? && t.outcome.value.impacts.Some?
        && exists i :: 0 <= i < |t.outcome.value.impacts.value| && t.outcome.value.impacts.value[i].convictionId in m)
  }

  function RedirectFrame(f: Frame, m: map<string, string>): Frame
  {
    var pr := f.profile.primary;
    f.(profile := f.profile.(
         primary := seq(|pr|, i requires 0 <= i < |pr| => pr[i].(convictionId := Redirect(m, pr[i].convictionId))),
         suppressed := if f.profile.suppressed.Some?
                       then var su := f.profile.suppressed.value;
                            Some(seq(|su|, i requires 0 <= i < |su| => su[i].(convictionId := Redirect(m, su[i].convictionId))))
                       else None))
  }

  predicate FrameMentions(f: Frame, m: map<string, string>)
  {
    (exists i :: 0 <= i < |f.profile.primary| && f.profile.primary[i].convictionId in m)
    || (f.profile.suppressed.Some?
        && exists i :: 0 <= i < |f.profile.suppressed.value| && f.profile.suppressed.value[i].convictionId in m)
  }

  /** `identity.json` holds a list, or something else that is left alone. */
  datatype IdentityDoc = IdentityList(items: seq<Identity>) | NotAList

  /** The four downstream files; `None` for a file that does not exist. */
  datatype Files = Files(
    traces: Option<seq<Trace>>, frames: Option<seq<Frame>>, identity: Option<IdentityDoc>,
    checked: Option<seq<seq<string>>>)

  /** How many records each existing file had updated (or, for checked pairs, removed). */
  datatype Stats = Stats(traces: Option<nat>, frames: Option<nat>, identity: Option<nat>, checkedRemoved: Option<nat>)

  const NoStats := Stats(None, None, None, None)

  function RedirectTraces(ts: seq<Trace>, m: map<string, string>): (r: (seq<Trace>, nat))
    ensures |r.0| == |ts| && r.1 <= |ts|
  {
    if ts == [] then ([], 0)
    else
      var prev := RedirectTraces(ts[..|ts| - 1], m);
      var t := ts[|ts| - 1];
      (prev.0 + [RedirectTrace(t, m)], prev.1 + if TraceMentions(t, m) then 1 else 0)
  }

  method RedirectTraceFile(ts: seq<Trace>, m: map<string, string>) returns (out: seq<Trace>, updated: nat)
    ensures (out, updated) == RedirectTraces(ts, m)
  {
    out, updated := [], 0;
    var k := 0;
    while k < |ts|
      invariant 0 <= k <= |ts|
      invariant (out, updated) == RedirectTraces(ts[..k], m)
    {
      assert ts[..k + 1][..k] == ts[..k];
      out := out + [RedirectTrace(ts[k], m)];
      if TraceMentions(ts[k], m) {
        updated := updated + 1;
      }
      k := k + 1;
    }
    assert ts[..k] == ts;
  }

  function RedirectFrames(fs: seq<Frame>, m: map<string, string>): (r: (seq<Frame>, nat))
    ensures |r.0| == |fs| && r.1 <= |fs|
  {
    if fs == [] then ([], 0)
    else
      var prev := RedirectFrames(fs[..|fs| - 1], m);
      var f := fs[|fs| - 1];
      (prev.0 + [RedirectFrame(f, m)], prev.1 + if FrameMentions(f, m) then 1 else 0)
  }

  method RedirectFrameFile(fs: seq<Frame>, m: map<string, string>) returns (out: seq<Frame>, updated: nat)
    ensures (out, updated) == RedirectFrames(fs, m)
  {
    out, updated := [], 0;
    var k := 0;
    while k < |fs|
      invariant 0 <= k <= |fs|
      invariant (out, updated) == RedirectFrames(fs[..k], m)
    {
      assert fs[..k + 1][..k] == fs[..k];
      out := out + [RedirectFrame(fs[k], m)];
      if FrameMentions(fs[k], m) {
        updated := updated + 1;
      }
      k := k + 1;
    }
    assert fs[..k] == fs;
  }

  function RedirectIdentities(ids: seq<Identity>, m: map<string, string>): (r: (seq<Identity>, nat))
    ensures |r.0| == |ids| && r.1 <= |ids|
  {
    if ids == [] then ([], 0)
    else
      var prev := RedirectIdentities(ids[..|ids| - 1], m);
      var d := ids[|ids| - 1];
      if d.convictionId in m then (prev.0 + [d.(convictionId := m[d.convictionId])], prev.1 + 1)
      else (prev.0 + [d], prev.1)
  }

  method RedirectIdentityFile(ids: seq<Identity>, m: map<string, string>) returns (out: seq<Identity>, updated: nat)
    ensures (out, updated) == RedirectIdentities(ids, m)
  {
    out, updated := [], 0;
    var k := 0;
    while k < |ids|
      invariant 0 <= k <= |ids|
      invariant (out, updated) == RedirectIdentities(ids[..k], m)
    {
      assert ids[..k + 1][..k] == ids[..k];
      var d := ids[k];
      if d.convictionId in m {
        out := out + [d.(convictionId := m[d.convictionId])];
        updated := updated + 1;
      } else {
        out := out + [d];
      }
      k := k + 1;
    }
    assert ids[..k] == ids;
  }

  predicate MentionsAny(pair: seq<string>, m: map<string, string>)
  {
    exists i :: 0 <= i < |pair| && pair[i] in m
  }

  /** The checked pairs that mention no merged-away id, in order, and how many were dropped. */
  function DropChecked(ps: seq<seq<string>>, m: map<string, string>): (r: (seq<seq<string>>, nat))
    ensures |r.0| + r.1 == |ps|
  {
    if ps == [] then ([], 0)
    else
      var prev := DropChecked(ps[..|ps| - 1], m);
      if MentionsAny(ps[|ps| - 1], m) then (prev.0, prev.1 + 1) else (prev.0 + [ps[|ps| - 1]], prev.1)
  }

  method DropCheckedFile(ps: seq<seq<string>>, m: map<string, string>) returns (kept: seq<seq<string>>, removed: nat)
    ensures (kept, removed) == DropChecked(ps, m)
  {
    kept, removed := [], 0;
    var k := 0;
    while k < |ps|
      invariant 0 <= k <= |ps|
      invariant (kept, removed) == DropChecked(ps[..k], m)
    {
      assert ps[..k + 1][..k] == ps[..k];
      if MentionsAny(ps[k], m) {
        removed := removed + 1;
      } else {
        kept := kept + [ps[k]];
      }
      k := k + 1;
    }
    assert ps[..k] == ps;
  }

  /** `_update_downstream_references` over the four files as records. */
  function Downstream(files: Files, m: map<string, string>): (Files, Stats)
  {
    var tr := if files.traces.Some? then Some(RedirectTraces(files.traces.value, m)) else None;
    var fr := if files.frames.Some? then Some(RedirectFrames(files.frames.value, m)) else None;
    var id := if files.identity.Some? then
                (match files.identity.value
                 case IdentityList(items) => Some((Some(IdentityList(RedirectIdentities(items, m).0)), RedirectIdentities(items, m).1))
                 case NotAList => Some((Some(NotAList), 0)))
              else None;
    var ck := if files.checked.Some? then Some(DropChecked(files.checked.value, m)) else None;
    (Files(if tr.Some? then Some(tr.value.0) else None,
           if fr.Some? then Some(fr.value.0) else None,
           if id.Some? then id.value.0 else None,
           if ck.Some? then Some(ck.value.0) else None),
     Stats(if tr.Some? then Some(tr.value.1) else None,
           if fr.Some? then Some(fr.value.1) else None,
           if id.Some? then Some(id.value.1) else None,
           if ck.Some? then Some(ck.value.1) else None))
  }

  method UpdateDownstream(files: Files, m: map<string, string>) returns (out: Files, stats: Stats)
    ensures (out, stats) == Downstream(files, m)
  {
    out, stats := files, NoStats;
    if files.traces.Some? {
      var ts, n := RedirectTraceFile(files.traces.value, m);
      out, stats := out.(traces := Some(ts)), stats.(traces := Some(n));
    }
    if files.frames.Some? {
      var fs, n := RedirectFrameFile(files.frames.value, m);
      out, stats := out.(frames := Some(fs)), stats.(frames := Some(n));
    }
    if files.identity.Some? {
      match files.identity.value {
        case IdentityList(items) =>
          var ds, n := RedirectIdentityFile(items, m);
          out, stats := out.(identity := Some(IdentityList(ds))), stats.(identity := Some(n));
        case NotAList =>
          stats := stats.(identity := Some(0));
      }
    }
    if files.checked.Some? {
      var ps, n := DropCheckedFile(files.checked.value, m);
      out, stats := out.(checked := Some(ps)), stats.(checkedRemoved := Some(n));
    }
  }

  // ---------------------------------------------------------------- what the rewrite promises

  /** No value of `id_map` is itself a key: the map needs one hop only. */
  predicate NoChains(m: map<string, string>)
  {
    forall k :: k in m ==> m[k] !in m
  }

  lemma RedirectLeavesMap(m: map<string, string>, x: string)
    requires NoChains(m)
    ensures Redirect(m, x) !in m
  {
  }

  /** After the rewrite, no trace, frame, identity or tension refers to a key of a chain-free `id_map`. */
  predicate TraceAvoids(t: Trace, m: map<string, string>)
  {
    (forall i :: 0 <= i < |t.activated| ==> t.activated[i].convictionId !in m)
    && (forall i :: 0 <= i < |t.path.steps| && t.path.steps[i].usesConviction.Some? ==> t.path.steps[i].usesConviction.value !in m)
    && (t.outcome.Some? && t.outcome.value.impacts.Some? ==>
          forall i :: 0 <= i < |t.outcome.value.impacts.value| ==> t.outcome.value.impacts.value[i].convictionId !in m)
  }

  predicate FrameAvoids(f: Frame, m: map<string, string>)
  {
    (forall i :: 0 <= i < |f.profile.primary| ==> f.profile.primary[i].convictionId !in m)
    && (f.profile.suppressed.Some? ==>
          forall i :: 0 <= i < |f.profile.suppressed.value| ==> f.profile.suppressed.value[i].convictionId !in m)
  }

  predicate TensionsAvoid(c: Conviction, m: map<string, string>)
  {
    forall t :: t in c.tensions.GetOr([]) ==> t.opposing !in m
  }

  lemma RedirectTraceAvoids(t: Trace, m: map<string, string>)
    requires NoChains(m)
    ensures TraceAvoids(RedirectTrace(t, m), m)
    ensures !TraceMentions(t, m) ==> RedirectTrace(t, m) == t
  {
    var r := RedirectTrace(t, m);
    if !TraceMentions(t, m) {
      assert r.activated == t.activated;
      assert r.path.steps == t.path.steps;
      if t.outcome.Some? && t.outcome.value.impacts.Some? {
        assert r.outcome.value.impacts.value == t.outcome.value.impacts.value;
      }
    }
  }

  lemma RedirectFrameAvoids(f: Frame, m: map<string, string>)
    requires NoChains(m)
    ensures FrameAvoids(RedirectFrame(f, m), m)
    ensures !FrameMentions(f, m) ==> RedirectFrame(f, m) == f
  {
    var r := RedirectFrame(f, m);
    if !FrameMentions(f, m) {
      assert r.profile.primary == f.profile.primary;
      if f.profile.suppressed.Some? {
        assert r.profile.suppressed.value == f.profile.suppressed.value;
      }
    }
  }

  lemma RedirectTensionsAvoid(c: Conviction, m: map<string, string>)
    requires NoChains(m)
    ensures TensionsAvoid(RedirectTensions(c, m), m)
    ensures RedirectTensions(c, m).convictionId == c.convictionId
  {
  }

  lemma {:induction false} RedirectTracesAvoid(ts: seq<Trace>, m: map<string, string>)
    requires NoChains(m)
    ensures forall i :: 0 <= i < |ts| ==> RedirectTraces(ts, m).0[i] == RedirectTrace(ts[i], m)
    ensures forall t :: t in RedirectTraces(ts, m).0 ==> TraceAvoids(t, m)
    ensures RedirectTraces(ts, m).1 == |Seqs.Filter(ts, (t: Trace) => TraceMentions(t, m))|
  {
    if ts != [] {
      RedirectTracesAvoid(ts[..|ts| - 1], m);
      RedirectTraceAvoids(ts[|ts| - 1], m);
      assert ts == ts[..|ts| - 1] + [ts[|ts| - 1]];
      Seqs.FilterAppend(ts[..|ts| - 1], [ts[|ts| - 1]], (t: Trace) => TraceMentions(t, m));
    }
  }

  lemma {:induction false} RedirectFramesAvoid(fs: seq<Frame>, m: map<string, string>)
    requires NoChains(m)
    ensures forall i :: 0 <= i < |fs| ==> RedirectFrames(fs, m).0[i] == RedirectFrame(fs[i], m)
    ensures forall f :: f in RedirectFrames(fs, m).0 ==> FrameAvoids(f, m)
    ensures RedirectFrames(fs, m).1 == |Seqs.Filter(fs, (f: Frame) => FrameMentions(f, m))|
  {
    if fs != [] {
      RedirectFramesAvoid(fs[..|fs| - 1], m);
      RedirectFrameAvoids(fs[|fs| - 1], m);
      assert fs == fs[..|fs| - 1] + [fs[|fs| - 1]];
      Seqs.FilterAppend(fs[..|fs| - 1], [fs[|fs| - 1]], (f: Frame) => FrameMentions(f, m));
    }
  }

  lemma {:induction false} RedirectIdentitiesAvoid(ds: seq<Identity>, m: map<string, string>)
    requires NoChains(m)
    ensures forall d :: d in RedirectIdentities(ds, m).0 ==> d.convictionId !in m
    ensures forall i :: 0 <= i < |ds| ==>
              RedirectIdentities(ds, m).0[i] == ds[i].(convictionId := Redirect(m, ds[i].convictionId))
  {
    if ds != [] {
      RedirectIdentitiesAvoid(ds[..|ds| - 1], m);
    }
  }

  lemma {:induction false} DropCheckedKeepsOthers(ps: seq<seq<string>>, m: map<string, string>)
    ensures DropChecked(ps, m).0 == Seqs.Filter(ps, (p: seq<string>) => !MentionsAny(p, m))
    ensures forall p :: p in DropChecked(ps, m).0 ==> forall x :: x in p ==> x !in m
  {
    if ps != [] {
      DropCheckedKeepsOthers(ps[..|ps| - 1], m);
      assert ps == ps[..|ps| - 1] + [ps[|ps| - 1]];
      Seqs.FilterAppend(ps[..|ps| - 1], [ps[|ps| - 1]], (p: seq<string>) => !MentionsAny(p, m));
      forall p | p in DropChecked(ps, m).0 ensures forall x :: x in p ==> x !in m {
        if p !in DropChecked(ps[..|ps| - 1], m).0 {
          assert p == ps[|ps| - 1] && !MentionsAny(p, m);
          forall x | x in p ensures x !in m {
            var i :| 0 <= i < |p| && p[i] == x;
          }
        }
      }
    }
  }

  /**
   * Referential closure, under the precondition that `id_map` has no chains: after the
   * rewrite no downstream record refers to a merged-away id; unaffected records are
   * unchanged; each count is the number of records that mentioned a merged-away id.
   */
  lemma DownstreamClosed(files: Files, m: map<string, string>)
    requires NoChains(m)
    ensures var res := Downstream(files, m); var out, stats := res.0, res.1;
            (out.traces.Some? <==> files.traces.Some?)
            && (out.traces.Some? ==> (forall t :: t in out.traces.value ==> TraceAvoids(t, m))
                                     && stats.traces == Some(|Seqs.Filter(files.traces.value, (t: Trace) => TraceMentions(t, m))|))
            && (out.frames.Some? <==> files.frames.Some?)
            && (out.frames.Some? ==> (forall f :: f in out.frames.value ==> FrameAvoids(f, m))
                                     && stats.frames == Some(|Seqs.Filter(files.frames.value, (f: Frame) => FrameMentions(f, m))|))
            && (out.identity.Some? <==> files.identity.Some?)
            && (out.identity.Some? && out.identity.value.IdentityList? ==>
                  forall d :: d in out.identity.value.items ==> d.convictionId !in m)
            && (out.checked.Some? <==> files.checked.Some?)
            && (out.checked.Some? ==> forall p :: p in out.checked.value ==> forall x :: x in p ==> x !in m)
  {
    if files.traces.Some? { RedirectTracesAvoid(files.traces.value, m); }
    if files.frames.Some? { RedirectFramesAvoid(files.frames.value, m); }
    if files.identity.Some? && files.identity.value.IdentityList? {
      RedirectIdentitiesAvoid(files.identity.value.items, m);
    }
    if files.checked.Some? { DropCheckedKeepsOthers(files.checked.value, m); }
  }

  // ================================================================ dedupe

  /** The summary `dedupe` returns, and the list it saves (`None`: nothing was written). */
  datatype Report = Report(
    pairsFound: nat, pairsConfirmed: nat, merged: nat, idMap: map<string, string>,
    details: seq<Detail>, stats: Stats, saved: Option<seq<Conviction>>)

  function ConvictionIds(convs: seq<Conviction>): (r: seq<string>)
    ensures |r| == |convs| && forall i :: 0 <= i < |r| ==> r[i] == convs[i].convictionId
  {
    seq(|convs|, i requires 0 <= i < |convs| => convs[i].convictionId)
  }

  /** The report line of a pair in a dry run: `confirmed` is whether anything was confirmed at all. */
  function DryDetail(convs: seq<Conviction>, p: Pair, anyConfirmed: bool): Detail
    requires p.a < |convs| && p.b < |convs|
  {
    var r := ChoosePrimary(convs, p.a, p.b);
    Detail(convs[r.0].convictionId, convs[r.1].convictionId, convs[r.0].statement, convs[r.1].statement,
           p.sim, Some(anyConfirmed))
  }

  function DryDetails(convs: seq<Conviction>, ps: seq<Pair>, anyConfirmed: bool): (r: seq<Detail>)
    requires PairsIn(ps, |convs|)
    ensures |r| == |ps|
  {
    seq(|ps|, i requires 0 <= i < |ps| => DryDetail(convs, ps[i], anyConfirmed))
  }

  function NothingDone(): Report { Report(0, 0, 0, map[], [], NoStats, None) }

  /** What a dry run, or a run with nothing confirmed, reports: the confirmed pairs, else all candidates. */
  function DryRun(convs: seq<Conviction>, found: nat, pairs: seq<Pair>, confirmed: seq<Pair>): Report
    requires PairsIn(pairs, |convs|) && PairsIn(confirmed, |convs|)
  {
    Report(found, |confirmed|, 0, map[],
           DryDetails(convs, if confirmed != [] then confirmed else pairs, confirmed != []), NoStats, None)
  }

  /** Merge the confirmed pairs, keep the survivors and repair the downstream files. */
  function MergeRun(convs: seq<Conviction>, found: nat, confirmed: seq<Pair>, files: Files): (Report, Files)
    requires PairsIn(confirmed, |convs|)
  {
    var st := MergeAll(Merge(convs, map[], {}, []), confirmed);
    var kept := Survivors(st.convs, st.removed, st.idMap);
    var down := Downstream(files, st.idMap);
    (Report(found, |confirmed|, |st.removed|, st.idMap, st.details, down.1, Some(kept)), down.0)
  }

  lemma DuplicatePairsInRange(ids: seq<string>, sim: (nat, nat) -> real, threshold: real)
    ensures PairsIn(DuplicatePairs(ids, sim, threshold), |ids|)
  {
    DuplicatePairsValid(ids, sim, threshold);
  }

  lemma ConfirmedIn(pairs: seq<Pair>, replies: seq<string>, n: nat)
    requires PairsIn(pairs, n)
    ensures PairsIn(Confirmed(pairs, Answers(replies)), n)
  {
    var yes := Answers(replies);
    ConfirmedExactly(pairs, yes, Zipped(pairs, yes));
    forall q | 0 <= q < |Confirmed(pairs, Answers(replies))|
      ensures Confirmed(pairs, Answers(replies))[q].a < n && Confirmed(pairs, Answers(replies))[q].b < n
    {
      assert Confirmed(pairs, Answers(replies))[q] in Confirmed(pairs, Answers(replies));
    }
  }

  /** `dedupe`, given the similarity matrix and the model's replies. */
  function DedupeSpec(convs: seq<Conviction>, sim: (nat, nat) -> real, threshold: real,
                      replies: seq<string>, dryRun: bool, files: Files): (Report, Files)
  {
    if |convs| < 2 then (NothingDone(), files)
    else
      var ids := ConvictionIds(convs);
      var pairs := DuplicatePairs(ids, sim, threshold);
      DuplicatePairsInRange(ids, sim, threshold);
      if pairs == [] then (NothingDone(), files)
      else
        var confirmed := Confirmed(pairs, Answers(replies));
        ConfirmedIn(pairs, replies, |convs|);
        if dryRun || confirmed == [] then (DryRun(convs, |pairs|, pairs, confirmed), files)
        else MergeRun(convs, |pairs|, confirmed, files)
  }

  method DryRunReport(convs: seq<Conviction>, found: nat, pairs: seq<Pair>, confirmed: seq<Pair>) returns (report: Report)
    requires PairsIn(pairs, |convs|) && PairsIn(confirmed, |convs|)
    ensures report == DryRun(convs, found, pairs, confirmed)
  {
    var shown := if confirmed != [] then confirmed else pairs;
    var details: seq<Detail> := [];
    var k := 0;
    while k < |shown|
      invariant 0 <= k <= |shown|
      invariant details == DryDetails(convs, shown[..k], confirmed != [])
    {
      details := details + [DryDetail(convs, shown[k], confirmed != [])];
      k := k + 1;
    }
    assert shown[..k] == shown;
    report := Report(found, |confirmed|, 0, map[], details, NoStats, None);
  }

  method ApplyMerges(convs: seq<Conviction>, found: nat, confirmed: seq<Pair>, files: Files) returns (report: Report, out: Files)
    requires PairsIn(confirmed, |convs|)
    ensures (report, out) == MergeRun(convs, found, confirmed, files)
  {
    var st := MergeConfirmed(convs, confirmed);
    var kept := KeepSurvivors(st.convs, st.removed, st.idMap);
    var stats;
    out, stats := UpdateDownstream(files, st.idMap);
    report := Report(found, |confirmed|, |st.removed|, st.idMap, st.details, stats, Some(kept));
  }

  /** `dedupe`. */
  method Dedupe(convs: seq<Conviction>, sim: (nat, nat) -> real, threshold: real,
                replies: seq<string>, dryRun: bool, files: Files) returns (report: Report, out: Files)
    ensures (report, out) == DedupeSpec(convs, sim, threshold, replies, dryRun, files)
  {
    if |convs| < 2 {
      return NothingDone(), files;
    }
    var ids := ConvictionIds(convs);
    var pairs := FindDuplicatePairs(ids, sim, threshold);
    DuplicatePairsInRange(ids, sim, threshold);
    if pairs == [] {
      return NothingDone(), files;
    }
    var confirmed := ConfirmDuplicates(pairs, replies);
    ConfirmedIn(pairs, replies, |convs|);
    if dryRun || confirmed == [] {
      report := DryRunReport(convs, |pairs|, pairs, confirmed);
      out := files;
    } else {
      report, out := ApplyMerges(convs, |pairs|, confirmed, files);
    }
  }

  // ================================================================ what a run promises

  /** Fewer than two convictions, no candidates, a dry run or nothing confirmed: nothing is written. */
  lemma QuietRunsWriteNothing(convs: seq<Conviction>, sim: (nat, nat) -> real, threshold: real,
                              replies: seq<string>, dryRun: bool, files: Files)
    requires |convs| < 2 || DuplicatePairs(ConvictionIds(convs), sim, threshold) == [] || dryRun
             || Confirmed(DuplicatePairs(ConvictionIds(convs), sim, threshold), Answers(replies)) == []
    ensures var res := DedupeSpec(convs, sim, threshold, replies, dryRun, files);
            res.0.saved.None? && res.1 == files && res.0.merged == 0 && res.0.idMap == map[]
  {
  }

  /** A run that merges goes through `MergeRun` with the confirmed pairs. */
  lemma MergingRun(convs: seq<Conviction>, sim: (nat, nat) -> real, threshold: real,
                   replies: seq<string>, files: Files)
    ensures var res := DedupeSpec(convs, sim, threshold, replies, false, files);
            res.0.saved.Some? ==>
              |convs| >= 2
              && var pairs := DuplicatePairs(ConvictionIds(convs), sim, threshold);
                 PairsIn(Confirmed(pairs, Answers(replies)), |convs|)
                 && res == MergeRun(convs, |pairs|, Confirmed(pairs, Answers(replies)), files)
  {
    if |convs| >= 2 {
      DuplicatePairsInRange(ConvictionIds(convs), sim, threshold);
      ConfirmedIn(DuplicatePairs(ConvictionIds(convs), sim, threshold), replies, |convs|);
    }
  }

  /**
   * After merging any list of pairs: the number merged is the number of `id_map` entries;
   * the saved list holds no merged-away conviction; every conviction not merged away is
   * saved; each `id_map` entry maps an id of the list to an id of the list.
   */
  lemma MergeRunFacts(convs: seq<Conviction>, found: nat, confirmed: seq<Pair>, files: Files)
    requires PairsIn(confirmed, |convs|)
    ensures var report := MergeRun(convs, found, confirmed, files).0;
            report.saved.Some?
            && report.merged == |report.idMap.Keys|
            && (forall c :: c in report.saved.value ==> c.convictionId !in report.idMap)
            && (forall i :: 0 <= i < |convs| && convs[i].convictionId !in report.idMap ==>
                  exists c :: c in report.saved.value && c.convictionId == convs[i].convictionId)
            && (forall k :: k in report.idMap ==> IsIdOf(convs, k) && IsIdOf(convs, report.idMap[k]))
  {
    var st0 := Merge(convs, map[], {}, []);
    var st := MergeAll(st0, confirmed);
    MergeAllRemovedAreKeys(st0, confirmed);
    MergeAllKeepsIds(st0, confirmed);
    MergeAllMapsListIds(st0, confirmed);
    SurvivorsAreUnremoved(st.convs, st.removed, st.idMap);
    var report := MergeRun(convs, found, confirmed, files).0;
    forall i | 0 <= i < |convs| && convs[i].convictionId !in report.idMap
      ensures exists c :: c in report.saved.value && c.convictionId == convs[i].convictionId
    {
      assert RedirectTensions(st.convs[i], st.idMap) in report.saved.value;
    }
  }

  /**
   * A merge run is referentially closed: `id_map` has no chains, and no saved tension and
   * no downstream trace, frame, identity or checked pair names a merged-away conviction.
   */
  lemma MergeRunClosed(convs: seq<Conviction>, found: nat, confirmed: seq<Pair>, files: Files)
    requires PairsIn(confirmed, |convs|) && PairIdsDiffer(convs, confirmed)
    ensures var res := MergeRun(convs, found, confirmed, files);
            var m := res.0.idMap;
            NoChains(m)
            && (forall c :: c in res.0.saved.value ==> TensionsAvoid(c, m))
            && (res.1.traces.Some? ==> forall t :: t in res.1.traces.value ==> TraceAvoids(t, m))
            && (res.1.frames.Some? ==> forall f :: f in res.1.frames.value ==> FrameAvoids(f, m))
            && (res.1.identity.Some? && res.1.identity.value.IdentityList? ==>
                  forall d :: d in res.1.identity.value.items ==> d.convictionId !in m)
            && (res.1.checked.Some? ==> forall p :: p in res.1.checked.value ==> forall x :: x in p ==> x !in m)
  {
    var st := MergeAll(Merge(convs, map[], {}, []), confirmed);
    MergeAllNoChains(Merge(convs, map[], {}, []), confirmed);
    SurvivorsTensionsAvoid(st.convs, st.removed, st.idMap);
    DownstreamClosed(files, st.idMap);
  }

  lemma {:induction false} SurvivorsTensionsAvoid(convs: seq<Conviction>, removed: set<string>, m: map<string, string>)
    requires NoChains(m)
    ensures forall c :: c in Survivors(convs, removed, m) ==> TensionsAvoid(c, m)
  {
    if convs != [] {
      SurvivorsTensionsAvoid(convs[..|convs| - 1], removed, m);
      RedirectTensionsAvoid(convs[|convs| - 1], m);
    }
  }

  // ---------------------------------------------------------------- the chain the source leaves

  function Stub(id: string, score: real): Conviction
  {
    Conviction("o", id, id, None, Strength(score, Emerging, None, None), [], NoEvidence, None,
               ConvictionLifecycle(Active, 0, None, None, None))
  }

  /** The first merge of the chain below, as the source writes it: A (0.9) absorbs B (0.5). */
  lemma ChainFirstMerge()
    ensures var convs := [Stub("A", 0.9), Stub("B", 0.5), Stub("C", 0.95)];
            var st1 := MergeStepAsWritten(Merge(convs, map[], {}, []), Pair(0, 1, 0.97));
            |st1.convs| == 3 && st1.idMap == map["B" := "A"] && st1.removed == {"B"}
            && st1.convs[0].convictionId == "A" && st1.convs[0].strength.score == 0.9 && st1.convs[2] == convs[2]
  {
    var convs := [Stub("A", 0.9), Stub("B", 0.5), Stub("C", 0.95)];
    assert ChoosePrimary(convs, 0, 1) == (0, 1);
  }

  /**
   * A chain, as the source writes the loop: A (0.9) absorbs B (0.5), then C (0.95) absorbs A.
   * `id_map` is {B: A, A: C}, so a reference to B is rewritten to A, which was merged away too.
   */
  lemma ChainedMergeLeavesDanglingReference()
    ensures var st := MergeAllAsWritten(Merge([Stub("A", 0.9), Stub("B", 0.5), Stub("C", 0.95)], map[], {}, []),
                               [Pair(0, 1, 0.97), Pair(0, 2, 0.93)]);
            st.idMap == map["B" := "A", "A" := "C"] && st.removed == {"A", "B"}
            && Redirect(st.idMap, "B") == "A" && Redirect(st.idMap, "B") in st.removed
            && !NoChains(st.idMap)
  {
    var convs := [Stub("A", 0.9), Stub("B", 0.5), Stub("C", 0.95)];
    var st0 := Merge(convs, map[], {}, []);
    var ps := [Pair(0, 1, 0.97), Pair(0, 2, 0.93)];
    assert ps[..1] == [Pair(0, 1, 0.97)];
    assert ps[..1][..0] == [];
    var st1 := MergeStepAsWritten(st0, Pair(0, 1, 0.97));
    assert MergeAllAsWritten(st0, ps[..1]) == st1;
    ChainFirstMerge();
    assert ChoosePrimary(st1.convs, 0, 2) == (2, 0);
    var st2 := MergeStepAsWritten(st1, Pair(0, 2, 0.93));
    assert st2.idMap == map["B" := "A", "A" := "C"];
  }

  /** The same two merges with the repaired step: both B and A are rewritten to C, which survives. */
  lemma ChainedMergeResolved()
    ensures var st := MergeAll(Merge([Stub("A", 0.9), Stub("B", 0.5), Stub("C", 0.95)], map[], {}, []),
                               [Pair(0, 1, 0.97), Pair(0, 2, 0.93)]);
            st.idMap == map["B" := "C", "A" := "C"] && st.removed == {"A", "B"}
            && Redirect(st.idMap, "B") == "C" && "C" !in st.removed && NoChains(st.idMap)
  {
    var convs := [Stub("A", 0.9), Stub("B", 0.5), Stub("C", 0.95)];
    var st0 := Merge(convs, map[], {}, []);
    var ps := [Pair(0, 1, 0.97), Pair(0, 2, 0.93)];
    assert ps[..1] == [Pair(0, 1, 0.97)];
    assert ps[..1][..0] == [];
    var st1 := MergeStep(st0, Pair(0, 1, 0.97));
    assert Repoint(map[], "B", "A") == map[];
    assert st1 == MergeStepAsWritten(st0, Pair(0, 1, 0.97));
    ChainFirstMerge();
    assert MergeAll(st0, ps[..1]) == st1;
    ChainSecondMerge(st1);
  }

  /** The second merge with the repaired step: C absorbs A, and B's entry follows A to C. */
  lemma ChainSecondMerge(st1: Merge)
    requires |st1.convs| == 3 && st1.idMap == map["B" := "A"] && st1.removed == {"B"}
    requires st1.convs[0].convictionId == "A" && st1.convs[0].strength.score == 0.9 && st1.convs[2] == Stub("C", 0.95)
    ensures var st2 := MergeStep(st1, Pair(0, 2, 0.93));
            st2.idMap == map["B" := "C", "A" := "C"] && st2.removed == {"A", "B"}
  {
    assert ChoosePrimary(st1.convs, 0, 2) == (2, 0);
    assert Repoint(st1.idMap, "A", "C") == map["B" := "C"];
  }
}

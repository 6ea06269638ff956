/**
 * The contradiction scanner: every pair of active convictions whose statements are
 * similar but not near-identical is classified by the language model; a contradiction
 * is recorded on both sides as a tension pointing at the other.
 *
 * The similarity of active convictions `i` and `j` (positions in the active list) is the
 * input `sim(i, j)`; the model's reply for that pair is the input `reply(i, j)`.
 */
module ContradictionAlert {
  import opened Wrappers
  import opened Models
  import Seqs
  import Strings

  // ================================================================ the classifier reply

  const ValidRelationships: set<string> := {"contradiction", "evolution", "context_dependent", "creative_tension"}

  /** `_classify_tension` after the model call: the trimmed, lower-cased reply if it names a relationship. */
  function ClassifyTension(reply: string): (r: Option<string>)
    ensures r.Some? <==> Strings.Lower(Strings.Strip(reply)) in ValidRelationships
    ensures r.Some? ==> r.value in ValidRelationships && r.value == Strings.Lower(Strings.Strip(reply))
  {
    var t := Strings.Lower(Strings.Strip(reply));
    if t in ValidRelationships then Some(t) else None
  }

  /** Lower-casing keeps the length, so a reply of any other length after trimming is rejected. */
  lemma ClassifyRejectsLength(reply: string)
    requires |Strings.Strip(reply)| !in {9, 13, 16, 17}
    ensures ClassifyTension(reply) == None
  {
  }

  /** An accepted name is accepted again as itself: the classifier's output is in canonical form. */
  lemma ClassifyIdempotent(reply: string)
    requires ClassifyTension(reply).Some?
    ensures ClassifyTension(ClassifyTension(reply).value) == ClassifyTension(reply)
  {
    Strings.LowerStripped(reply);
    Strings.LowerIdempotent(Strings.Strip(reply));
  }

  // ================================================================ tensions

  /** Some tension of `c` opposes `other`. */
  predicate Opposes(c: Conviction, other: string)
  {
    var ts := c.tensions.GetOr([]);
    exists k :: 0 <= k < |ts| && ts[k].opposing == other
  }

  /** Record a contradiction with `other` unless a tension opposing it is already there. */
  function AddTension(c: Conviction, other: string): (r: Conviction)
    ensures r == c.(tensions := r.tensions) && r.tensions.Some?
    ensures c.tensions.GetOr([]) <= r.tensions.value
    ensures Opposes(r, other)
    ensures Opposes(c, other) ==> r.tensions.value == c.tensions.GetOr([])
    ensures !Opposes(c, other) ==> r.tensions.value == c.tensions.GetOr([]) + [Tension(other, Contradiction, None)]
  {
    var ts := c.tensions.GetOr([]);
    if Opposes(c, other) then c.(tensions := Some(ts))
    else
      var r := c.(tensions := Some(ts + [Tension(other, Contradiction, None)]));
      assert r.tensions.value[|ts|].opposing == other;
      r
  }

  // ================================================================ the scan

  /** The active convictions, by position, in list order. */
  function ActivePositions(convs: seq<Conviction>): (r: seq<nat>)
    ensures forall k :: 0 <= k < |r| ==> r[k] < |convs| && convs[r[k]].lifecycle.status == Active
    ensures forall k, l :: 0 <= k < l < |r| ==> r[k] < r[l]
    ensures forall p :: 0 <= p < |convs| && convs[p].lifecycle.status == Active ==> p in r
  {
    if convs == [] then []
    else
      var prev := ActivePositions(convs[..|convs| - 1]);
      assert forall p :: 0 <= p < |convs| - 1 ==> convs[..|convs| - 1][p] == convs[p];
      prev + if convs[|convs| - 1].lifecycle.status == Active then [|convs| - 1] else []
  }

  /** One entry of the returned list. */
  datatype Alert = Alert(a: string, b: string, statementA: string, statementB: string,
                         similarity: real, relationship: string)

  /**
   * The inputs of a scan: the list, its active positions, the similarity matrix and the
   * classification of each pair (the model's reply passed through `ClassifyTension`;
   * applied only when the loop reaches that step).
   */
  datatype Env = Env(convs: seq<Conviction>, act: seq<nat>, sim: (nat, nat) -> real, rel: (nat, nat) -> Option<string>)

  /** The active positions index into the list. */
  predicate InList(e: Env)
  {
    forall k :: 0 <= k < |e.act| ==> e.act[k] < |e.convs|
  }

  /** The active positions are what `ActivePositions` promises. */
  predicate EnvOK(e: Env)
  {
    InList(e)
    && (forall k, l :: 0 <= k < l < |e.act| ==> e.act[k] < e.act[l])
    && (forall k :: 0 <= k < |e.act| ==> e.convs[e.act[k]].lifecycle.status == Active)
  }

  /** The loop state: the list (tensions updated in place), the `checked` id pairs, the results. */
  datatype Scanning = Scanning(convs: seq<Conviction>, checked: set<(string, string)>, alerts: seq<Alert>)

  const Low: real := 0.7
  const High: real := 0.95

  function Id(e: Env, i: nat): string
    requires InList(e) && i < |e.act|
  {
    e.convs[e.act[i]].convictionId
  }

  predicate InBand(x: real) { Low <= x <= High }

  /** The alert for active pair `(i, j)`. */
  function AlertFor(e: Env, i: nat, j: nat, rel: string): Alert
    requires InList(e) && i < j < |e.act|
  {
    Alert(Id(e, i), Id(e, j), e.convs[e.act[i]].statement, e.convs[e.act[j]].statement, e.sim(i, j), rel)
  }

  /** A contradiction between active convictions `i` and `j`: each gets a tension opposing the other. */
  function Contradict(e: Env, convs: seq<Conviction>, i: nat, j: nat): seq<Conviction>
    requires InList(e) && i < j < |e.act| && |convs| == |e.convs|
  {
    var p, q := e.act[i], e.act[j];
    convs[p := AddTension(convs[p], Id(e, j))][q := AddTension(convs[q], Id(e, i))]
  }

  /** One visit of the inner loop, at active positions `i < j`. */
  function Visit(e: Env, st: Scanning, i: nat, j: nat): Scanning
    requires InList(e) && i < j < |e.act| && |st.convs| == |e.convs|
  {
    var key := (Id(e, i), Id(e, j));
    if key in st.checked then st
    else if !InBand(e.sim(i, j)) || e.rel(i, j).None? then st.(checked := st.checked + {key})
    else
      var rel := e.rel(i, j).value;
      Scanning(if rel == "contradiction" then Contradict(e, st.convs, i, j) else st.convs,
               st.checked + {key}, st.alerts + [AlertFor(e, i, j, rel)])
  }

  predicate Upper(l: seq<(nat, nat)>, m: nat)
  {
    forall k :: 0 <= k < |l| ==> l[k].0 < l[k].1 < m
  }

  function ScanAll(e: Env, l: seq<(nat, nat)>): (st: Scanning)
    requires InList(e) && Upper(l, |e.act|)
    ensures |st.convs| == |e.convs|
  {
    if l == [] then Scanning(e.convs, {}, [])
    else
      var ij := l[|l| - 1];
      Visit(e, ScanAll(e, l[..|l| - 1]), ij.0, ij.1)
  }

  /** What `scan` returns, and the list it saves (`None`: nothing was written). */
  datatype ScanOutcome = ScanOutcome(alerts: seq<Alert>, saved: Option<seq<Conviction>>)

  function ScanEnv(convs: seq<Conviction>, sim: (nat, nat) -> real, reply: (nat, nat) -> string): (e: Env)
    ensures EnvOK(e)
  {
    Env(convs, ActivePositions(convs), sim, (i: nat, j: nat) => ClassifyTension(reply(i, j)))
  }

  /** `scan`. */
  function ScanSpec(convs: seq<Conviction>, sim: (nat, nat) -> real, reply: (nat, nat) -> string): ScanOutcome
  {
    var e := ScanEnv(convs, sim, reply);
    if |e.act| < 2 then ScanOutcome([], None)
    else
      var st := ScanAll(e, Seqs.Rows(|e.act|, |e.act|));
      ScanOutcome(st.alerts, Some(st.convs))
  }

  // ---------------------------------------------------------------- the loops

  method Scan(convs: seq<Conviction>, sim: (nat, nat) -> real, reply: (nat, nat) -> string) returns (out: ScanOutcome)
    ensures out == ScanSpec(convs, sim, reply)
  {
    var e := ScanEnv(convs, sim, reply);
    if |e.act| < 2 {
      return ScanOutcome([], None);
    }
    var st := ScanTriangle(e);
    out := ScanOutcome(st.alerts, Some(st.convs));
  }

  /** The state after the outer loop has visited rows `0 .. i-1`. */
  function Scanned(e: Env, i: nat): Scanning
    requires InList(e) && i <= |e.act|
  {
    ScanAll(e, Seqs.Rows(i, |e.act|))
  }

  method ScanTriangle(e: Env) returns (st: Scanning)
    requires InList(e)
    ensures st == Scanned(e, |e.act|)
  {
    var m := |e.act|;
    st := Scanning(e.convs, {}, []);
    ScanStart(e);
    var i := 0;
    while i < m
      invariant 0 <= i <= m
      invariant st == Scanned(e, i)
    {
      st := ScanRow(e, i, st);
      i := i + 1;
    }
  }

  lemma ScanAllSnoc(e: Env, l: seq<(nat, nat)>, i: nat, j: nat)
    requires InList(e) && Upper(l, |e.act|) && i < j < |e.act|
    ensures Upper(l + [(i, j)], |e.act|)
    ensures ScanAll(e, l + [(i, j)]) == Visit(e, ScanAll(e, l), i, j)
  {
    assert (l + [(i, j)])[..|l|] == l;
  }

  lemma ScanStart(e: Env)
    requires InList(e)
    ensures Scanned(e, 0) == Scanning(e.convs, {}, [])
  {
  }

  /** The state after the pairs of the rows above `i` and the pairs `(i, i + 1) .. (i, j - 1)`. */
  function RowPrefix(e: Env, i: nat, j: nat): Scanning
    requires InList(e) && i < j <= |e.act|
  {
    ScanAll(e, Seqs.Before(i, j, |e.act|))
  }

  lemma RowStep(e: Env, i: nat, j: nat)
    requires InList(e) && i < j < |e.act|
    ensures |RowPrefix(e, i, j).convs| == |e.convs|
    ensures RowPrefix(e, i, j + 1) == Visit(e, RowPrefix(e, i, j), i, j)
  {
    ScanAllSnoc(e, Seqs.Before(i, j, |e.act|), i, j);
    Seqs.BeforeNext(i, j, |e.act|);
  }

  lemma RowStart(e: Env, i: nat)
    requires InList(e) && i < |e.act|
    ensures RowPrefix(e, i, i + 1) == Scanned(e, i)
  {
    Seqs.BeforeFirst(i, |e.act|);
  }

  lemma RowEnd(e: Env, i: nat)
    requires InList(e) && i < |e.act|
    ensures RowPrefix(e, i, |e.act|) == Scanned(e, i + 1)
  {
    Seqs.BeforeLast(i, |e.act|);
  }

  /** The inner loop over row `i`. */
  method ScanRow(e: Env, i: nat, st0: Scanning) returns (st: Scanning)
    requires InList(e) && i < |e.act| && st0 == Scanned(e, i)
    ensures st == Scanned(e, i + 1)
  {
    var m := |e.act|;
    st := st0;
    RowStart(e, i);
    var j := i + 1;
    while j < m
      invariant i + 1 <= j <= m
      invariant st == RowPrefix(e, i, j)
    {
      RowStep(e, i, j);
      st := VisitPair(e, st, i, j);
      j := j + 1;
    }
    RowEnd(e, i);
  }

  /** The body of the inner loop. */
  method VisitPair(e: Env, st0: Scanning, i: nat, j: nat) returns (st: Scanning)
    requires InList(e) && i < j < |e.act| && |st0.convs| == |e.convs|
    ensures st == Visit(e, st0, i, j)
  {
    st := st0;
    var c1, c2 := e.convs[e.act[i]], e.convs[e.act[j]];
    var key := (c1.convictionId, c2.convictionId);
    if key in st.checked {
      return;
    }
    st := st.(checked := st.checked + {key});
    var s := e.sim(i, j);
    if s < Low || s > High {
      return;
    }
    var rel := e.rel(i, j);
    if rel.None? {
      return;
    }
    st := st.(alerts := st.alerts + [Alert(c1.convictionId, c2.convictionId, c1.statement, c2.statement, s, rel.value)]);
    if rel.value == "contradiction" {
      var p, q := e.act[i], e.act[j];
      st := st.(convs := st.convs[p := AddTension(st.convs[p], c2.convictionId)]);
      st := st.(convs := st.convs[q := AddTension(st.convs[q], c1.convictionId)]);
    }
  }

  // ================================================================ what the scan promises

  /** Fewer than two active convictions: nothing is returned and nothing is written. */
  lemma FewActiveNothing(convs: seq<Conviction>, sim: (nat, nat) -> real, reply: (nat, nat) -> string)
    requires |ActivePositions(convs)| < 2
    ensures ScanSpec(convs, sim, reply) == ScanOutcome([], None)
  {
  }

  /** Alert `x` came from the visit of active pair `(i, j)`: its ids, statements, similarity and relationship. */
  predicate FromPair(e: Env, x: Alert, i: nat, j: nat)
    requires InList(e)
  {
    i < j < |e.act| && x.a == Id(e, i) && x.b == Id(e, j)
    && x.statementA == e.convs[e.act[i]].statement && x.statementB == e.convs[e.act[j]].statement
    && x.similarity == e.sim(i, j) && InBand(e.sim(i, j))
    && e.rel(i, j) == Some(x.relationship)
  }

  /** The pairs whose visits appended an alert, in order: a witness for each alert's origin. */
  ghost function Origins(e: Env, l: seq<(nat, nat)>): seq<(nat, nat)>
    requires InList(e) && Upper(l, |e.act|)
  {
    if l == [] then []
    else
      var prefix := l[..|l| - 1];
      var ij := l[|l| - 1];
      var prev := ScanAll(e, prefix);
      Origins(e, prefix) + if |Visit(e, prev, ij.0, ij.1).alerts| > |prev.alerts| then [ij] else []
  }

  /** Alert `q` came from the pair `o[q]`. */
  predicate Traced(e: Env, alerts: seq<Alert>, o: seq<(nat, nat)>)
    requires InList(e)
  {
    |o| == |alerts| && forall q :: 0 <= q < |o| ==> FromPair(e, alerts[q], o[q].0, o[q].1)
  }

  predicate KeysChecked(st: Scanning)
  {
    forall q :: 0 <= q < |st.alerts| ==> (st.alerts[q].a, st.alerts[q].b) in st.checked
  }

  predicate AlertsDistinct(alerts: seq<Alert>)
  {
    forall q, r :: 0 <= q < r < |alerts| ==> (alerts[q].a, alerts[q].b) != (alerts[r].a, alerts[r].b)
  }

  /** One visit: the alerts grow by at most one, an alert of that pair, and only if its ids were not checked. */
  lemma VisitGrows(e: Env, st: Scanning, i: nat, j: nat)
    requires InList(e) && i < j < |e.act| && |st.convs| == |e.convs|
    ensures st.alerts <= Visit(e, st, i, j).alerts
    ensures st.checked + {(Id(e, i), Id(e, j))} == Visit(e, st, i, j).checked
    ensures |Visit(e, st, i, j).alerts| <= |st.alerts| + 1
    ensures |Visit(e, st, i, j).alerts| == |st.alerts| + 1 ==>
              (Id(e, i), Id(e, j)) !in st.checked && FromPair(e, Visit(e, st, i, j).alerts[|st.alerts|], i, j)
  {
  }

  /** Every alert comes from an in-band pair of active convictions the classifier named. */
  lemma {:induction false} AlertsSound(e: Env, l: seq<(nat, nat)>)
    requires InList(e) && Upper(l, |e.act|)
    ensures Traced(e, ScanAll(e, l).alerts, Origins(e, l))
  {
    if l != [] {
      var prefix := l[..|l| - 1];
      assert Upper(prefix, |e.act|) by {
        assert forall k :: 0 <= k < |prefix| ==> prefix[k] == l[k];
      }
      AlertsSound(e, prefix);
      var prev := ScanAll(e, prefix);
      var ij := l[|l| - 1];
      var n := |prev.alerts|;
      VisitGrows(e, prev, ij.0, ij.1);
      var alerts := ScanAll(e, l).alerts;
      var o, o0 := Origins(e, l), Origins(e, prefix);
      assert alerts == Visit(e, prev, ij.0, ij.1).alerts;
      assert o == o0 + if |alerts| > n then [ij] else [];
      forall q | 0 <= q < |o| ensures FromPair(e, alerts[q], o[q].0, o[q].1) {
        if q < n {
          assert alerts[q] == prev.alerts[q] && o[q] == o0[q];
        }
      }
    }
  }

  /** The ids of every alert are in `checked`, and no two alerts name the same ids. */
  lemma {:induction false} AlertsUnique(e: Env, l: seq<(nat, nat)>)
    requires InList(e) && Upper(l, |e.act|)
    ensures KeysChecked(ScanAll(e, l)) && AlertsDistinct(ScanAll(e, l).alerts)
  {
    if l != [] {
      var prefix := l[..|l| - 1];
      assert Upper(prefix, |e.act|) by {
        assert forall k :: 0 <= k < |prefix| ==> prefix[k] == l[k];
      }
      AlertsUnique(e, prefix);
      var prev := ScanAll(e, prefix);
      var ij := l[|l| - 1];
      var n := |prev.alerts|;
      VisitGrows(e, prev, ij.0, ij.1);
      var st := ScanAll(e, l);
      assert st == Visit(e, prev, ij.0, ij.1);
      assert forall q :: 0 <= q < n ==> st.alerts[q] == prev.alerts[q];
      forall q | 0 <= q < |st.alerts| ensures (st.alerts[q].a, st.alerts[q].b) in st.checked {
        if q < n {
          assert (prev.alerts[q].a, prev.alerts[q].b) in prev.checked;
        }
      }
      forall q, r | 0 <= q < r < |st.alerts| ensures (st.alerts[q].a, st.alerts[q].b) != (st.alerts[r].a, st.alerts[r].b) {
        if r == n {
          assert (prev.alerts[q].a, prev.alerts[q].b) in prev.checked;
        }
      }
    }
  }

  /** The alerts only grow. */
  lemma {:induction false} AlertsGrow(e: Env, l: seq<(nat, nat)>, n: nat)
    requires InList(e) && Upper(l, |e.act|) && n <= |l|
    ensures Upper(l[..n], |e.act|)
    ensures ScanAll(e, l[..n]).alerts <= ScanAll(e, l).alerts
  {
    assert forall k :: 0 <= k < n ==> l[..n][k] == l[k];
    if n == |l| {
      assert l[..n] == l;
    } else {
      var prefix := l[..|l| - 1];
      assert forall k :: 0 <= k < |prefix| ==> prefix[k] == l[k];
      AlertsGrow(e, prefix, n);
      assert prefix[..n] == l[..n];
      var ij := l[|l| - 1];
      VisitGrows(e, ScanAll(e, prefix), ij.0, ij.1);
    }
  }

  // ---------------------------------------------------------------- completeness, when ids are distinct

  predicate ActiveIdsDistinct(e: Env)
    requires InList(e)
  {
    forall i, j :: 0 <= i < j < |e.act| ==> Id(e, i) != Id(e, j)
  }

  /** `checked` holds exactly the id pairs of the visited pairs. */
  lemma {:induction false} CheckedIsVisited(e: Env, l: seq<(nat, nat)>)
    requires InList(e) && Upper(l, |e.act|)
    ensures forall key :: key in ScanAll(e, l).checked <==> exists k :: 0 <= k < |l| && key == (Id(e, l[k].0), Id(e, l[k].1))
  {
    if l != [] {
      var prefix := l[..|l| - 1];
      assert forall k :: 0 <= k < |prefix| ==> prefix[k] == l[k];
      CheckedIsVisited(e, prefix);
      var ij := l[|l| - 1];
      assert ScanAll(e, l) == Visit(e, ScanAll(e, prefix), ij.0, ij.1);
      forall key ensures key in ScanAll(e, l).checked <==> exists k :: 0 <= k < |l| && key == (Id(e, l[k].0), Id(e, l[k].1)) {
        if key == (Id(e, ij.0), Id(e, ij.1)) {
          assert l[|l| - 1] == ij;
        }
      }
    }
  }

  /** Some alert names ids `a` and `b`, in that order, with relationship `rel`. */
  predicate AlertNamed(alerts: seq<Alert>, a: string, b: string, rel: string)
  {
    exists q :: 0 <= q < |alerts| && alerts[q].a == a && alerts[q].b == b && alerts[q].relationship == rel
  }

  /** With distinct ids and no pair listed twice, the ids of pair `l[k]` are unchecked when it is reached. */
  lemma PairUnchecked(e: Env, l: seq<(nat, nat)>, k: nat)
    requires InList(e) && ActiveIdsDistinct(e) && Upper(l, |e.act|) && k < |l|
    requires forall x, y :: 0 <= x < y < |l| ==> l[x] != l[y]
    ensures Upper(l[..k], |e.act|)
    ensures (Id(e, l[k].0), Id(e, l[k].1)) !in ScanAll(e, l[..k]).checked
  {
    var before := l[..k];
    assert forall x :: 0 <= x < k ==> before[x] == l[x];
    CheckedIsVisited(e, before);
    forall x | 0 <= x < k ensures (Id(e, l[k].0), Id(e, l[k].1)) != (Id(e, before[x].0), Id(e, before[x].1)) {
      assert before[x] == l[x] && l[x] != l[k];
    }
  }

  /**
   * With distinct active ids, every in-band pair that the classifier names yields an alert
   * carrying both ids and the relationship.
   */
  lemma AlertsComplete(e: Env, i: nat, j: nat)
    requires InList(e) && ActiveIdsDistinct(e) && i < j < |e.act| && InBand(e.sim(i, j))
    requires e.rel(i, j).Some?
    ensures AlertNamed(ScanAll(e, Seqs.Rows(|e.act|, |e.act|)).alerts, Id(e, i), Id(e, j), e.rel(i, j).value)
  {
    var m := |e.act|;
    var k := Seqs.RowsIndex(m, i, j);
    Seqs.RowsDistinct(m, m);
    AlertAt(e, Seqs.Rows(m, m), k);
  }

  /** A listed pair whose ids are distinct from every other listed pair's yields its alert. */
  lemma AlertAt(e: Env, l: seq<(nat, nat)>, k: nat)
    requires InList(e) && ActiveIdsDistinct(e) && Upper(l, |e.act|) && k < |l|
    requires forall x, y :: 0 <= x < y < |l| ==> l[x] != l[y]
    requires InBand(e.sim(l[k].0, l[k].1)) && e.rel(l[k].0, l[k].1).Some?
    ensures AlertNamed(ScanAll(e, l).alerts, Id(e, l[k].0), Id(e, l[k].1), e.rel(l[k].0, l[k].1).value)
  {
    var (i, j) := l[k];
    PairUnchecked(e, l, k);
    var before := l[..k];
    assert l[..k + 1] == before + [(i, j)];
    ScanAllSnoc(e, before, i, j);
    var q := |ScanAll(e, before).alerts|;
    AlertsGrow(e, l, k + 1);
    var st := ScanAll(e, l[..k + 1]);
    assert st.alerts[q] == AlertFor(e, i, j, e.rel(i, j).value);
    assert ScanAll(e, l).alerts[q] == st.alerts[q];
  }

  // ---------------------------------------------------------------- what the scan writes

  /**
   * The list keeps its length and order; only tensions change, and only by appending; an
   * inactive conviction is unchanged.
   */
  predicate Shaped(e: Env, convs: seq<Conviction>)
  {
    |convs| == |e.convs|
    && (forall k :: 0 <= k < |convs| ==>
          convs[k] == e.convs[k].(tensions := convs[k].tensions)
          && e.convs[k].tensions.GetOr([]) <= convs[k].tensions.GetOr([]))
    && (forall k :: 0 <= k < |convs| && e.convs[k].lifecycle.status != Active ==> convs[k] == e.convs[k])
  }

  /** Some contradiction alert is about ids `x` and `y`, in either order. */
  predicate ContradictionBetween(alerts: seq<Alert>, x: string, y: string)
  {
    exists q :: 0 <= q < |alerts| && alerts[q].relationship == "contradiction"
                && ((alerts[q].a == x && alerts[q].b == y) || (alerts[q].a == y && alerts[q].b == x))
  }

  /** Every appended tension is a note-less contradiction backed by a contradiction alert. */
  predicate OnlyContradictions(e: Env, st: Scanning)
    requires |st.convs| == |e.convs|
  {
    forall k, x :: 0 <= k < |st.convs| && |e.convs[k].tensions.GetOr([])| <= x < |st.convs[k].tensions.GetOr([])| ==>
      st.convs[k].tensions.GetOr([])[x].relationship == Contradiction
      && st.convs[k].tensions.GetOr([])[x].note.None?
      && ContradictionBetween(st.alerts, e.convs[k].convictionId, st.convs[k].tensions.GetOr([])[x].opposing)
  }

  /** Each contradiction alert, from pair `o[q]`, has its two tensions, one on each side, pointing at the other. */
  predicate Symmetric(e: Env, st: Scanning, o: seq<(nat, nat)>)
    requires InList(e) && |st.convs| == |e.convs|
  {
    forall q :: 0 <= q < |st.alerts| && q < |o| && o[q].0 < |e.act| && o[q].1 < |e.act|
                && st.alerts[q].relationship == "contradiction" ==>
      Opposes(st.convs[e.act[o[q].0]], st.alerts[q].b) && Opposes(st.convs[e.act[o[q].1]], st.alerts[q].a)
  }

  /** The witness after one more visit. */
  ghost function NextOrigins(e: Env, st: Scanning, o: seq<(nat, nat)>, i: nat, j: nat): seq<(nat, nat)>
    requires InList(e) && i < j < |e.act| && |st.convs| == |e.convs|
  {
    if |Visit(e, st, i, j).alerts| > |st.alerts| then o + [(i, j)] else o
  }

  lemma AddTensionKeeps(c: Conviction, other: string, y: string)
    requires Opposes(c, y)
    ensures Opposes(AddTension(c, other), y)
  {
    var ts := c.tensions.GetOr([]);
    var k :| 0 <= k < |ts| && ts[k].opposing == y;
    assert AddTension(c, other).tensions.value[k] == ts[k];
  }

  /** Recording a contradiction keeps every tension already there. */
  lemma ContradictKeeps(e: Env, convs: seq<Conviction>, i: nat, j: nat, x: nat, y: string)
    requires InList(e) && i < j < |e.act| && |convs| == |e.convs| && x < |convs| && Opposes(convs[x], y)
    ensures Opposes(Contradict(e, convs, i, j)[x], y)
  {
    var p, q := e.act[i], e.act[j];
    var mid := convs[p := AddTension(convs[p], Id(e, j))];
    if x == p {
      AddTensionKeeps(convs[p], Id(e, j), y);
    }
    assert Opposes(mid[x], y);
    if x == q {
      AddTensionKeeps(mid[q], Id(e, i), y);
    }
  }

  lemma VisitShaped(e: Env, st: Scanning, i: nat, j: nat)
    requires EnvOK(e) && i < j < |e.act| && Shaped(e, st.convs)
    ensures Shaped(e, Visit(e, st, i, j).convs)
  {
    var st' := Visit(e, st, i, j);
    if st'.convs != st.convs {
      var p, q := e.act[i], e.act[j];
      assert e.convs[p].lifecycle.status == Active && e.convs[q].lifecycle.status == Active;
      forall k | 0 <= k < |st'.convs|
        ensures st'.convs[k] == e.convs[k].(tensions := st'.convs[k].tensions)
        ensures e.convs[k].tensions.GetOr([]) <= st'.convs[k].tensions.GetOr([])
      {
        if k == p || k == q {
          assert st.convs[k] == e.convs[k].(tensions := st.convs[k].tensions);
        }
      }
    }
  }

  lemma VisitOnlyContradictions(e: Env, st: Scanning, i: nat, j: nat)
    requires EnvOK(e) && i < j < |e.act| && Shaped(e, st.convs) && OnlyContradictions(e, st)
    ensures OnlyContradictions(e, Visit(e, st, i, j))
  {
    var st' := Visit(e, st, i, j);
    VisitShaped(e, st, i, j);
    if st' != st {
      assert st.alerts <= st'.alerts;
      forall k, x | 0 <= k < |st'.convs| && |e.convs[k].tensions.GetOr([])| <= x < |st'.convs[k].tensions.GetOr([])|
        ensures st'.convs[k].tensions.GetOr([])[x].relationship == Contradiction
        ensures st'.convs[k].tensions.GetOr([])[x].note.None?
        ensures ContradictionBetween(st'.alerts, e.convs[k].convictionId, st'.convs[k].tensions.GetOr([])[x].opposing)
      {
        var t := st'.convs[k].tensions.GetOr([])[x];
        if x < |st.convs[k].tensions.GetOr([])| {
          assert t == st.convs[k].tensions.GetOr([])[x];
          var q :| 0 <= q < |st.alerts| && st.alerts[q].relationship == "contradiction"
                   && ((st.alerts[q].a == e.convs[k].convictionId && st.alerts[q].b == t.opposing)
                       || (st.alerts[q].a == t.opposing && st.alerts[q].b == e.convs[k].convictionId));
          assert st'.alerts[q] == st.alerts[q];
        } else {
          var last := |st'.alerts| - 1;
          assert st'.alerts[last].relationship == "contradiction";
          assert st'.alerts[last].a == Id(e, i) && st'.alerts[last].b == Id(e, j);
        }
      }
    }
  }

  lemma VisitSymmetric(e: Env, st: Scanning, o: seq<(nat, nat)>, i: nat, j: nat)
    requires EnvOK(e) && i < j < |e.act| && Shaped(e, st.convs) && |o| == |st.alerts| && Symmetric(e, st, o)
    ensures Symmetric(e, Visit(e, st, i, j), NextOrigins(e, st, o, i, j))
  {
    var st', o' := Visit(e, st, i, j), NextOrigins(e, st, o, i, j);
    VisitShaped(e, st, i, j);
    VisitGrows(e, st, i, j);
    VisitConvs(e, st, i, j);
    forall q | 0 <= q < |st'.alerts| && q < |o'| && o'[q].0 < |e.act| && o'[q].1 < |e.act|
                && st'.alerts[q].relationship == "contradiction"
      ensures Opposes(st'.convs[e.act[o'[q].0]], st'.alerts[q].b) && Opposes(st'.convs[e.act[o'[q].1]], st'.alerts[q].a)
    {
      if q < |st.alerts| {
        assert st'.alerts[q] == st.alerts[q] && o'[q] == o[q];
        var x, y := e.act[o[q].0], e.act[o[q].1];
        if st'.convs != st.convs {
          ContradictKeeps(e, st.convs, i, j, x, st.alerts[q].b);
          ContradictKeeps(e, st.convs, i, j, y, st.alerts[q].a);
        }
      } else {
        assert o'[q] == (i, j);
        ContradictRecords(e, st.convs, i, j);
      }
    }
  }

  /** A visit either leaves the convictions alone or records the pair's contradiction. */
  lemma VisitConvs(e: Env, st: Scanning, i: nat, j: nat)
    requires InList(e) && i < j < |e.act| && |st.convs| == |e.convs|
    ensures Visit(e, st, i, j).convs == st.convs || Visit(e, st, i, j).convs == Contradict(e, st.convs, i, j)
    ensures |Visit(e, st, i, j).alerts| > |st.alerts| && Visit(e, st, i, j).alerts[|st.alerts|].relationship == "contradiction" ==>
              Visit(e, st, i, j).convs == Contradict(e, st.convs, i, j)
              && Visit(e, st, i, j).alerts[|st.alerts|].a == Id(e, i) && Visit(e, st, i, j).alerts[|st.alerts|].b == Id(e, j)
  {
  }

  /** Recording a contradiction makes each side oppose the other. */
  lemma ContradictRecords(e: Env, convs: seq<Conviction>, i: nat, j: nat)
    requires InList(e) && i < j < |e.act| && |convs| == |e.convs|
    ensures Opposes(Contradict(e, convs, i, j)[e.act[i]], Id(e, j))
    ensures Opposes(Contradict(e, convs, i, j)[e.act[j]], Id(e, i))
  {
    var p, q := e.act[i], e.act[j];
    var mid := convs[p := AddTension(convs[p], Id(e, j))];
    if p == q {
      AddTensionKeeps(mid[q], Id(e, i), Id(e, j));
    }
  }

  lemma {:induction false} ScanWrites(e: Env, l: seq<(nat, nat)>)
    requires EnvOK(e) && Upper(l, |e.act|)
    ensures Shaped(e, ScanAll(e, l).convs) && |Origins(e, l)| == |ScanAll(e, l).alerts|
    ensures OnlyContradictions(e, ScanAll(e, l)) && Symmetric(e, ScanAll(e, l), Origins(e, l))
  {
    if l != [] {
      var prefix := l[..|l| - 1];
      assert forall k :: 0 <= k < |prefix| ==> prefix[k] == l[k];
      ScanWrites(e, prefix);
      var ij := l[|l| - 1];
      var prev := ScanAll(e, prefix);
      VisitShaped(e, prev, ij.0, ij.1);
      VisitGrows(e, prev, ij.0, ij.1);
      VisitOnlyContradictions(e, prev, ij.0, ij.1);
      VisitSymmetric(e, prev, Origins(e, prefix), ij.0, ij.1);
      assert Origins(e, l) == NextOrigins(e, prev, Origins(e, prefix), ij.0, ij.1);
    }
  }

  /** Alert `x` comes from some in-band pair of active convictions that the classifier named. */
  ghost predicate HasOrigin(e: Env, x: Alert)
    requires InList(e)
  {
    exists i: nat, j: nat :: FromPair(e, x, i, j)
  }

  /** Alert `x` comes from some pair of active convictions that, in `convs`, oppose each other. */
  ghost predicate HasMutualOrigin(e: Env, convs: seq<Conviction>, x: Alert)
    requires InList(e) && |convs| == |e.convs|
  {
    exists i: nat, j: nat :: FromPair(e, x, i, j) && Opposes(convs[e.act[i]], x.b) && Opposes(convs[e.act[j]], x.a)
  }

  ghost predicate AlertsFromPairs(e: Env, alerts: seq<Alert>)
    requires InList(e)
  {
    forall q :: 0 <= q < |alerts| ==> HasOrigin(e, alerts[q])
  }

  /** Each contradiction alert comes from a pair of active convictions that now oppose each other. */
  ghost predicate Mutual(e: Env, convs: seq<Conviction>, alerts: seq<Alert>)
    requires InList(e) && |convs| == |e.convs|
  {
    forall q :: 0 <= q < |alerts| && alerts[q].relationship == "contradiction" ==> HasMutualOrigin(e, convs, alerts[q])
  }

  /**
   * A scan that saves: all convictions, in order, with only tensions appended (inactive
   * ones unchanged); each appended tension is a contradiction backed by an alert; each
   * alert comes from an in-band pair the classifier named, and each contradiction alert
   * has both of its tensions; no two alerts name the same ids.
   */
  lemma ScanFacts(convs: seq<Conviction>, sim: (nat, nat) -> real, reply: (nat, nat) -> string)
    ensures var e := ScanEnv(convs, sim, reply);
            var out := ScanSpec(convs, sim, reply);
            out.saved.Some? ==>
              Shaped(e, out.saved.value)
              && OnlyContradictions(e, Scanning(out.saved.value, {}, out.alerts))
              && AlertsFromPairs(e, out.alerts) && Mutual(e, out.saved.value, out.alerts)
              && AlertsDistinct(out.alerts)
  {
    var e := ScanEnv(convs, sim, reply);
    if |e.act| >= 2 {
      RunFacts(e);
    }
  }

  lemma RunFacts(e: Env)
    requires EnvOK(e)
    ensures var st := ScanAll(e, Seqs.Rows(|e.act|, |e.act|));
            Shaped(e, st.convs) && OnlyContradictions(e, Scanning(st.convs, {}, st.alerts))
            && AlertsFromPairs(e, st.alerts) && Mutual(e, st.convs, st.alerts) && AlertsDistinct(st.alerts)
  {
    {
      var l := Seqs.Rows(|e.act|, |e.act|);
      ScanWrites(e, l);
      AlertsSound(e, l);
      AlertsUnique(e, l);
      var st, o := ScanAll(e, l), Origins(e, l);
      forall q | 0 <= q < |st.alerts| ensures HasOrigin(e, st.alerts[q]) {
        assert FromPair(e, st.alerts[q], o[q].0, o[q].1);
      }
      forall q | 0 <= q < |st.alerts| && st.alerts[q].relationship == "contradiction"
        ensures HasMutualOrigin(e, st.convs, st.alerts[q])
      {
        assert FromPair(e, st.alerts[q], o[q].0, o[q].1);
      }
    }
  }
}

/**
 * Sequence helpers with the meaning of the Python built-ins the engine relies on:
 * list filters, `list.count`, order-preserving de-duplication, `sorted(key=...)`
 * (a stable sort), `collections.Counter` with `most_common(n)`, and grouping into a
 * dict of lists (`setdefault(k, []).append(v)`), whose keys keep first-insertion order.
 *
 * The recursive definitions peel the LAST element, so that a loop that walks a
 * sequence from the front keeps `acc == F(s[..i])` as its invariant.
 */
module Seqs {

  // ---------------------------------------------------------------- filtering

  function Filter<T(!new)>(s: seq<T>, p: T -> bool): (r: seq<T>)
    ensures |r| <= |s|
    ensures forall x :: x in r <==> x in s && p(x)
    ensures forall i :: 0 <= i < |r| ==> p(r[i])
  {
    if s == [] then []
    else Filter(s[..|s| - 1], p) + (if p(s[|s| - 1]) then [s[|s| - 1]] else [])
  }

  lemma {:induction false} FilterAppend<T(!new)>(a: seq<T>, b: seq<T>, p: T -> bool)
    ensures Filter(a + b, p) == Filter(a, p) + Filter(b, p)
    decreases |b|
  {
    if b == [] {
      assert a + b == a;
    } else {
      var b' := b[..|b| - 1];
      assert (a + b)[..|a + b| - 1] == a + b';
      FilterAppend(a, b', p);
    }
  }

  /** Filtering one more element of `s` appends it exactly when it passes. */
  lemma FilterSnoc<T(!new)>(s: seq<T>, i: nat, p: T -> bool)
    requires i < |s|
    ensures Filter(s[..i + 1], p) == Filter(s[..i], p) + (if p(s[i]) then [s[i]] else [])
  {
    assert s[..i + 1][..i] == s[..i];
  }

  /** Keeping everything that passes `p` is the identity when everything passes. */
  lemma {:induction false} FilterAll<T(!new)>(s: seq<T>, p: T -> bool)
    requires forall i :: 0 <= i < |s| ==> p(s[i])
    ensures Filter(s, p) == s
  {
    if s != [] {
      var init := s[..|s| - 1];
      assert s == init + [s[|s| - 1]];
      FilterAll(init, p);
    }
  }

  /** `[f(x) for x in s]`. */
  function Map<T, U>(s: seq<T>, f: T -> U): (r: seq<U>)
    ensures |r| == |s| && forall i :: 0 <= i < |s| ==> r[i] == f(s[i])
  {
    seq(|s|, i requires 0 <= i < |s| => f(s[i]))
  }

  lemma MapSnoc<T, U>(s: seq<T>, j: nat, f: T -> U)
    requires j < |s|
    ensures Map(s[..j + 1], f) == Map(s[..j], f) + [f(s[j])]
  {
    var a, b := Map(s[..j + 1], f), Map(s[..j], f) + [f(s[j])];
    forall k | 0 <= k < |a| ensures a[k] == b[k] {
      assert s[..j + 1][k] == s[k];
      if k < j {
        assert s[..j][k] == s[k];
      }
    }
  }

  /** `[f(x) for x in s if p(x)]`. */
  function Keep<T(!new), U>(s: seq<T>, p: T -> bool, f: T -> U): (r: seq<U>)
    ensures |r| <= |s|
  {
    if s == [] then []
    else Keep(s[..|s| - 1], p, f) + (if p(s[|s| - 1]) then [f(s[|s| - 1])] else [])
  }

  /** Keeping one more element of `s` appends its image exactly when it passes. */
  lemma KeepSnoc<T(!new), U>(s: seq<T>, i: nat, p: T -> bool, f: T -> U)
    requires i < |s|
    ensures Keep(s[..i + 1], p, f) == Keep(s[..i], p, f) + (if p(s[i]) then [f(s[i])] else [])
  {
    assert s[..i + 1][..i] == s[..i];
  }

  lemma {:induction false} KeepIff<T(!new), U(!new)>(s: seq<T>, p: T -> bool, f: T -> U)
    ensures forall u :: u in Keep(s, p, f) <==> exists x :: x in s && p(x) && u == f(x)
  {
    if s != [] {
      var n := |s| - 1;
      KeepIff(s[..n], p, f);
      var rest := Keep(s[..n], p, f);
      var here := if p(s[n]) then [f(s[n])] else [];
      assert Keep(s, p, f) == rest + here;
      forall u | u in rest + here ensures exists x :: x in s && p(x) && u == f(x) {
        if u in rest {
          var x :| x in s[..n] && p(x) && u == f(x);
          assert x in s;
        } else {
          assert s[n] in s;
        }
      }
      forall u | exists x :: x in s && p(x) && u == f(x) ensures u in rest + here {
        var x :| x in s && p(x) && u == f(x);
        var i :| 0 <= i < |s| && s[i] == x;
        if i < n {
          assert s[..n][i] == x;
        }
      }
    }
  }

  // ---------------------------------------------------------------- counting

  /** `s.count(x)`. */
  function Count<T(==,!new)>(s: seq<T>, x: T): (n: nat)
    ensures n <= |s|
    ensures n > 0 <==> x in s
  {
    if s == [] then 0
    else Count(s[..|s| - 1], x) + (if s[|s| - 1] == x then 1 else 0)
  }

  lemma {:induction false} CountAppend<T(!new)>(a: seq<T>, b: seq<T>, x: T)
    ensures Count(a + b, x) == Count(a, x) + Count(b, x)
    decreases |b|
  {
    if b == [] {
      assert a + b == a;
    } else {
      assert (a + b)[..|a + b| - 1] == a + b[..|b| - 1];
      CountAppend(a, b[..|b| - 1], x);
    }
  }

  lemma CountSnoc<T(!new)>(s: seq<T>, x: T, y: T)
    ensures Count(s + [x], y) == Count(s, y) + if x == y then 1 else 0
  {
    assert (s + [x])[..|s|] == s;
  }

  // ---------------------------------------------------------------- de-duplication

  predicate Distinct<T(==,!new)>(s: seq<T>)
  {
    forall i, j :: 0 <= i < j < |s| ==> s[i] != s[j]
  }

  /**
   * The first occurrence of each element, in order of first occurrence
   * (`list(dict.fromkeys(s))`, or the `seen`-set loop).
   */
  function Dedup<T(==,!new)>(s: seq<T>): (r: seq<T>)
    ensures Distinct(r)
    ensures forall x :: x in r <==> x in s
    ensures |r| <= |s|
  {
    if s == [] then []
    else
      var d := Dedup(s[..|s| - 1]);
      if s[|s| - 1] in d then d else d + [s[|s| - 1]]
  }

  lemma DedupSnoc<T(!new)>(s: seq<T>, x: T)
    ensures Dedup(s + [x]) == if x in Dedup(s) then Dedup(s) else Dedup(s) + [x]
  {
    assert (s + [x])[..|s|] == s;
  }

  /** Elements of `s` that are not in `seen`, first occurrence only: the seen-set loop. */
  function Fresh<T(==,!new)>(s: seq<T>, seen: set<T>): (r: seq<T>)
    ensures Distinct(r)
    ensures forall x :: x in r <==> x in s && x !in seen
    ensures |r| <= |s|
  {
    if s == [] then []
    else
      var d := Fresh(s[..|s| - 1], seen);
      if s[|s| - 1] in seen || s[|s| - 1] in d then d else d + [s[|s| - 1]]
  }

  lemma {:induction false} FreshEmptyIsDedup<T(!new)>(s: seq<T>)
    ensures Fresh(s, {}) == Dedup(s)
  {
    if s != [] {
      FreshEmptyIsDedup(s[..|s| - 1]);
    }
  }

  /** Python `s[:n]`. */
  function Take<T(!new)>(s: seq<T>, n: nat): (r: seq<T>)
    ensures |r| == if n < |s| then n else |s|
    ensures r == s[..|r|]
  {
    if n < |s| then s[..n] else s
  }

  /** Python `s[:k]` for any integer `k`; a negative `k` drops `-k` elements from the end. */
  function PyPrefix<T(!new)>(s: seq<T>, k: int): (r: seq<T>)
    ensures |r| == if k >= 0 then (if k < |s| then k else |s|)
                   else (if |s| + k > 0 then |s| + k else 0)
    ensures r == s[..|r|]
  {
    if k >= 0 then Take(s, k)
    else if |s| + k > 0 then s[..|s| + k]
    else []
  }

  function Flatten<T(!new)>(ss: seq<seq<T>>): (r: seq<T>)
    ensures forall x :: x in r <==> exists i :: 0 <= i < |ss| && x in ss[i]
  {
    if ss == [] then []
    else
      var r := Flatten(ss[..|ss| - 1]) + ss[|ss| - 1];
      assert forall x :: x in r <==> exists i :: 0 <= i < |ss| && x in ss[i] by {
        forall x | x in r ensures exists i :: 0 <= i < |ss| && x in ss[i] {
          if x !in ss[|ss| - 1] {
            var i :| 0 <= i < |ss| - 1 && x in ss[..|ss| - 1][i];
            assert x in ss[i];
          }
        }
        forall x | exists i :: 0 <= i < |ss| && x in ss[i] ensures x in r {
          var i :| 0 <= i < |ss| && x in ss[i];
          if i < |ss| - 1 {
            assert x in ss[..|ss| - 1][i];
          }
        }
      }
      r
  }

  // ---------------------------------------------------------------- stable sort

  /** A sort key: Python compares key tuples lexicographically. */
  datatype Rank = Rank(major: real, minor: real)

  predicate Below(a: Rank, b: Rank)
  {
    a.major < b.major || (a.major == b.major && a.minor < b.minor)
  }

  predicate SortedBy<T(!new)>(s: seq<T>, key: T -> Rank)
  {
    forall i, j :: 0 <= i < j < |s| ==> !Below(key(s[j]), key(s[i]))
  }

  /** Insert `x` after every element whose key is not above it: this is what keeps the sort stable. */
  function Insert<T(!new)>(s: seq<T>, x: T, key: T -> Rank): (r: seq<T>)
    requires SortedBy(s, key)
    ensures SortedBy(r, key)
    ensures multiset(r) == multiset(s) + multiset{x}
    ensures |r| == |s| + 1
  {
    if s == [] then [x]
    else if Below(key(x), key(s[0])) then
      assert forall i :: 0 <= i < |s| ==> !Below(key(s[i]), key(s[0]));
      [x] + s
    else
      var t := Insert(s[1..], x, key);
      assert s == [s[0]] + s[1..];
      assert forall y :: y in multiset(t) ==> y == x || y in multiset(s[1..]);
      assert forall i :: 0 <= i < |t| ==> !Below(key(t[i]), key(s[0])) by {
        forall i | 0 <= i < |t| ensures !Below(key(t[i]), key(s[0])) {
          assert t[i] in multiset(t);
          if t[i] != x {
            assert t[i] in multiset(s[1..]);
            var k :| 0 <= k < |s[1..]| && s[1..][k] == t[i];
            assert s[k + 1] == t[i];
          }
        }
      }
      [s[0]] + t
  }

  /** `sorted(s, key=key)`: ascending by key, equal keys in their original order. */
  function SortBy<T(!new)>(s: seq<T>, key: T -> Rank): (r: seq<T>)
    ensures SortedBy(r, key)
    ensures multiset(r) == multiset(s)
    ensures |r| == |s|
  {
    if s == [] then []
    else
      assert s == s[..|s| - 1] + [s[|s| - 1]];
      Insert(SortBy(s[..|s| - 1], key), s[|s| - 1], key)
  }

  lemma InMultiset<T(!new)>(s: seq<T>, t: seq<T>, x: T)
    requires multiset(s) == multiset(t)
    ensures x in s <==> x in t
  {
    assert x in s <==> x in multiset(s);
    assert x in t <==> x in multiset(t);
  }

  /**
   * `sorted(s, key=key)[:n]` is a top-n: it keeps only elements of `s`, and nothing it
   * leaves out ranks strictly below (comes strictly before) something it keeps.
   */
  lemma TopOf<T(!new)>(s: seq<T>, key: T -> Rank, n: nat)
    ensures forall x :: x in Take(SortBy(s, key), n) ==> x in s
    ensures forall x, y :: x in s && x !in Take(SortBy(s, key), n) && y in Take(SortBy(s, key), n)
              ==> !Below(key(x), key(y))
  {
    var t := SortBy(s, key);
    var r := Take(t, n);
    forall x | x in r ensures x in s {
      InMultiset(t, s, x);
    }
    forall x, y | x in s && x !in r && y in r ensures !Below(key(x), key(y)) {
      InMultiset(t, s, x);
      var p :| 0 <= p < |t| && t[p] == x;
      var q :| 0 <= q < |r| && r[q] == y;
      assert t[q] == y;
      assert q < p;
    }
  }

  // ---------------------------------------------------------------- Counter

  /** `Counter(s).items()`: each distinct element with its count, in first-seen order. */
  function CounterOf<T(==,!new)>(s: seq<T>): (r: seq<(T, nat)>)
    ensures |r| == |Dedup(s)|
    ensures forall i :: 0 <= i < |r| ==> r[i] == (Dedup(s)[i], Count(s, Dedup(s)[i]))
  {
    var d := Dedup(s);
    seq(|d|, i requires 0 <= i < |d| => (d[i], Count(s, d[i])))
  }

  function ByCountDesc<T(!new)>(p: (T, nat)): Rank
  {
    Rank(-(p.1 as real), 0.0)
  }

  /** The counter's items by decreasing count, ties in first-seen order. */
  function CountRanking<T(==,!new)>(s: seq<T>): seq<(T, nat)>
  {
    SortBy(CounterOf(s), ByCountDesc)
  }

  lemma CountRankingFacts<T(!new)>(s: seq<T>)
    ensures |CountRanking(s)| == |Dedup(s)|
    ensures forall i :: 0 <= i < |CountRanking(s)| ==>
              CountRanking(s)[i].0 in s && CountRanking(s)[i].1 == Count(s, CountRanking(s)[i].0)
    ensures forall i, j :: 0 <= i < j < |CountRanking(s)| ==> CountRanking(s)[i].1 >= CountRanking(s)[j].1
    ensures forall i, j :: 0 <= i < j < |CountRanking(s)| ==> CountRanking(s)[i].0 != CountRanking(s)[j].0
    ensures forall y :: y in s ==> exists p :: 0 <= p < |CountRanking(s)| && CountRanking(s)[p].0 == y
  {
    var c := CounterOf(s);
    var r := SortBy(c, ByCountDesc);
    RankingEntries(c, r);
    RankingDescending(r);
    RankingDistinctKeys(s, c, r);
    RankingCovers(s, c, r);
  }

  lemma RankingDescending<T(!new)>(r: seq<(T, nat)>)
    requires SortedBy(r, ByCountDesc)
    ensures forall i, j :: 0 <= i < j < |r| ==> r[i].1 >= r[j].1
  {
    forall i, j | 0 <= i < j < |r| ensures r[i].1 >= r[j].1 {
      assert !Below(ByCountDesc(r[j]), ByCountDesc(r[i]));
    }
  }

  lemma RankingDistinctKeys<T(!new)>(s: seq<T>, c: seq<(T, nat)>, r: seq<(T, nat)>)
    requires c == CounterOf(s) && multiset(r) == multiset(c)
    ensures forall i, j :: 0 <= i < j < |r| ==> r[i].0 != r[j].0
  {
    CounterOfDistinct(s);
    DistinctOnce(c);
    RankingEntries(c, r);
    forall i, j | 0 <= i < j < |r| ensures r[i].0 != r[j].0 {
      if r[i].0 == r[j].0 {
        assert r[i] in c && r[j] in c;
        assert r[i] == r[j];
        MultisetTwoPositions(r, i, j);
        assert false;
      }
    }
  }

  lemma RankingCovers<T(!new)>(s: seq<T>, c: seq<(T, nat)>, r: seq<(T, nat)>)
    requires c == CounterOf(s) && multiset(r) == multiset(c)
    ensures forall y :: y in s ==> exists p :: 0 <= p < |r| && r[p].0 == y
  {
    forall y | y in s ensures exists p :: 0 <= p < |r| && r[p].0 == y {
      var d := Dedup(s);
      assert y in d;
      var k :| 0 <= k < |d| && d[k] == y;
      assert c[k].0 == y;
      InMultiset(c, r, c[k]);
      var p :| 0 <= p < |r| && r[p] == c[k];
    }
  }

  lemma RankingEntries<T(!new)>(c: seq<(T, nat)>, r: seq<(T, nat)>)
    requires multiset(r) == multiset(c)
    ensures forall i :: 0 <= i < |r| ==> r[i] in c
  {
    forall i | 0 <= i < |r| ensures r[i] in c {
      InMultiset(r, c, r[i]);
    }
  }

  /** `Counter(s).most_common(n)`: the `n` largest counts, ties in first-seen order. */
  function MostCommon<T(==,!new)>(s: seq<T>, n: nat): (r: seq<(T, nat)>)
    ensures |r| == if n < |Dedup(s)| then n else |Dedup(s)|
    ensures forall i :: 0 <= i < |r| ==> r[i].0 in s && r[i].1 == Count(s, r[i].0)
    ensures forall i, j :: 0 <= i < j < |r| ==> r[i].1 >= r[j].1
  {
    CountRankingFacts(s);
    Take(CountRanking(s), n)
  }

  /** The keys alone: `[k for k, _ in Counter(s).most_common(n)]`. */
  function MostCommonKeys<T(==,!new)>(s: seq<T>, n: nat): (r: seq<T>)
    ensures |r| == |MostCommon(s, n)|
    ensures forall i :: 0 <= i < |r| ==> r[i] == MostCommon(s, n)[i].0
  {
    var m := MostCommon(s, n);
    seq(|m|, i requires 0 <= i < |m| => m[i].0)
  }

  /**
   * What `most_common` promises: distinct keys, and nothing left out is more frequent
   * than anything kept.
   */
  lemma MostCommonIsTop<T(!new)>(s: seq<T>, n: nat)
    ensures Distinct(MostCommonKeys(s, n))
    ensures forall y, i :: y in s && y !in MostCommonKeys(s, n) && 0 <= i < |MostCommon(s, n)|
              ==> Count(s, y) <= MostCommon(s, n)[i].1
  {
    var r := CountRanking(s);
    CountRankingFacts(s);
    var m := MostCommon(s, n);
    var keys := MostCommonKeys(s, n);
    assert m == r[..|m|];
    forall a, b | 0 <= a < b < |keys| ensures keys[a] != keys[b] {
      assert keys[a] == r[a].0 && keys[b] == r[b].0;
    }
    forall y, i | y in s && y !in keys && 0 <= i < |m| ensures Count(s, y) <= m[i].1 {
      var p :| 0 <= p < |r| && r[p].0 == y;
      AfterKept(keys, r, y, p);
    }
  }

  /** A key missing from a prefix of the ranking's keys sits after that prefix. */
  lemma AfterKept<T(!new)>(keys: seq<T>, r: seq<(T, nat)>, y: T, p: nat)
    requires |keys| <= |r| && forall q :: 0 <= q < |keys| ==> keys[q] == r[q].0
    requires y !in keys && p < |r| && r[p].0 == y
    ensures p >= |keys|
  {
  }

  lemma MultisetTwoPositions<T(!new)>(s: seq<T>, i: nat, j: nat)
    requires i < j < |s| && s[i] == s[j]
    ensures multiset(s)[s[i]] >= 2
  {
    assert s == s[..i] + [s[i]] + s[i + 1..j] + [s[j]] + s[j + 1..];
  }

  lemma CounterOfDistinct<T(!new)>(s: seq<T>)
    ensures Distinct(CounterOf(s))
  {
    var c := CounterOf(s);
    forall i, j | 0 <= i < j < |c| ensures c[i] != c[j] {
      assert c[i].0 == Dedup(s)[i] && c[j].0 == Dedup(s)[j];
    }
  }

  lemma {:induction false} DistinctOnce<T(!new)>(s: seq<T>)
    requires Distinct(s)
    ensures forall x :: multiset(s)[x] <= 1
  {
    if s != [] {
      var t := s[..|s| - 1];
      DistinctOnce(t);
      assert s == t + [s[|s| - 1]];
      assert s[|s| - 1] !in t;
    }
  }

  /** `Counter(s).most_common(1)[0][0]`: an element no other element outnumbers. */
  function Mode<T(==,!new)>(s: seq<T>): (m: T)
    requires s != []
    ensures m in s
    ensures forall y :: y in s ==> Count(s, y) <= Count(s, m)
  {
    assert s[0] in Dedup(s);
    var top := MostCommon(s, 1);
    MostCommonIsTop(s, 1);
    var keys := MostCommonKeys(s, 1);
    assert keys == [top[0].0];
    assert forall y :: y in s ==> Count(s, y) <= Count(s, top[0].0) by {
      forall y | y in s ensures Count(s, y) <= Count(s, top[0].0) {
        if y != top[0].0 {
          assert y !in keys;
        }
      }
    }
    top[0].0
  }

  // ---------------------------------------------------------------- grouping

  /** The values whose key is `k`, in order: the list `d[k]` after the grouping loop. */
  function Select<K(==,!new), V>(keys: seq<K>, vals: seq<V>, k: K): (r: seq<V>)
    requires |keys| == |vals|
    ensures |r| == Count(keys, k)
  {
    if keys == [] then []
    else
      Select(keys[..|keys| - 1], vals[..|vals| - 1], k)
      + (if keys[|keys| - 1] == k then [vals[|vals| - 1]] else [])
  }

  /** A value is selected exactly when some position carries it together with the key. */
  lemma {:induction false} SelectHas<K(!new), V>(keys: seq<K>, vals: seq<V>, k: K, v: V)
    requires |keys| == |vals|
    ensures v in Select(keys, vals, k) <==> exists i :: 0 <= i < |keys| && keys[i] == k && vals[i] == v
  {
    if keys != [] {
      var n := |keys| - 1;
      SelectHas(keys[..n], vals[..n], k, v);
      if exists i :: 0 <= i < |keys| && keys[i] == k && vals[i] == v {
        var i :| 0 <= i < |keys| && keys[i] == k && vals[i] == v;
        if i < n {
          assert keys[..n][i] == k && vals[..n][i] == v;
        }
      }
    }
  }

  /** A dict of lists built by `d.setdefault(key, []).append(value)`: keys in insertion order. */
  datatype Groups<K, V> = Groups(order: seq<K>, members: map<K, seq<V>>)

  function Grouped<K(==,!new), V>(keys: seq<K>, vals: seq<V>): Groups<K, V>
    requires |keys| == |vals|
  {
    if keys == [] then Groups([], map[])
    else
      var g := Grouped(keys[..|keys| - 1], vals[..|vals| - 1]);
      var k := keys[|keys| - 1];
      var v := vals[|vals| - 1];
      Groups(if k in g.members then g.order else g.order + [k],
             g.members[k := (if k in g.members then g.members[k] else []) + [v]])
  }

  /**
   * What the grouped dict holds: its keys are the distinct keys in first-seen order, and
   * each key's list is exactly the values carrying that key, in input order.
   */
  lemma {:induction false} GroupedIsPartition<K(!new), V>(keys: seq<K>, vals: seq<V>)
    requires |keys| == |vals|
    ensures Grouped(keys, vals).order == Dedup(keys)
    ensures forall k :: k in Grouped(keys, vals).members <==> k in keys
    ensures forall k :: k in Grouped(keys, vals).members ==> Grouped(keys, vals).members[k] == Select(keys, vals, k)
  {
    if keys != [] {
      var ks, vs := keys[..|keys| - 1], vals[..|vals| - 1];
      GroupedIsPartition(ks, vs);
      var k := keys[|keys| - 1];
      assert forall x :: x in keys <==> x in ks || x == k by {
        assert keys == ks + [k];
      }
    }
  }

  /** Every group is non-empty: a key is only inserted together with a value. */
  lemma GroupsNonEmpty<K(!new), V>(keys: seq<K>, vals: seq<V>, k: K)
    requires |keys| == |vals|
    requires k in Grouped(keys, vals).members
    ensures Grouped(keys, vals).members[k] != []
  {
    GroupedIsPartition(keys, vals);
    assert |Select(keys, vals, k)| == Count(keys, k) > 0;
  }

  lemma GroupedSnoc<K(!new), V>(keys: seq<K>, vals: seq<V>, k: K, v: V)
    requires |keys| == |vals|
    ensures var g := Grouped(keys, vals);
            Grouped(keys + [k], vals + [v])
              == Groups(if k in g.members then g.order else g.order + [k],
                        g.members[k := (if k in g.members then g.members[k] else []) + [v]])
  {
    assert (keys + [k])[..|keys|] == keys;
    assert (vals + [v])[..|vals|] == vals;
  }

  /** One `d.setdefault(key, []).append(value)`. */
  method GroupAdd<K(==,!new), V>(order0: seq<K>, members0: map<K, seq<V>>, ghost keys: seq<K>, ghost vals: seq<V>, k: K, v: V)
    returns (order: seq<K>, members: map<K, seq<V>>)
    requires |keys| == |vals| && Groups(order0, members0) == Grouped(keys, vals)
    ensures Groups(order, members) == Grouped(keys + [k], vals + [v])
  {
    GroupedSnoc(keys, vals, k, v);
    var current := if k in members0 then members0[k] else [];
    order := if k in members0 then order0 else order0 + [k];
    members := members0[k := current + [v]];
  }

  /** The grouping loop of the engine: one pass, `d.setdefault(key, []).append(value)`. */
  method GroupInto<K(==,!new), V>(keys: seq<K>, vals: seq<V>) returns (order: seq<K>, members: map<K, seq<V>>)
    requires |keys| == |vals|
    ensures Groups(order, members) == Grouped(keys, vals)
  {
    order, members := [], map[];
    var i := 0;
    while i < |keys|
      invariant 0 <= i <= |keys|
      invariant Groups(order, members) == Grouped(keys[..i], vals[..i])
    {
      assert keys[..i + 1] == keys[..i] + [keys[i]];
      assert vals[..i + 1] == vals[..i] + [vals[i]];
      order, members := GroupAdd(order, members, keys[..i], vals[..i], keys[i], vals[i]);
      i := i + 1;
    }
    assert keys[..i] == keys;
    assert vals[..i] == vals;
  }

  // ---------------------------------------------------------------- index pairs

  /** Row `i` of the upper triangle: `(i, j)` for `i < j < n`. */
  function Row(i: nat, n: nat): (r: seq<(nat, nat)>)
    ensures |r| == if i < n then n - i - 1 else 0
    ensures forall k :: 0 <= k < |r| ==> r[k] == (i, i + 1 + k)
  {
    if i < n then seq(n - i - 1, k requires 0 <= k < n - i - 1 => (i, i + 1 + k)) else []
  }

  /** Rows `0 .. m-1` of the upper triangle, in the order of the nested loops. */
  function Rows(m: nat, n: nat): (r: seq<(nat, nat)>)
    ensures forall k :: 0 <= k < |r| ==> r[k].0 < m && r[k].0 < r[k].1 < n
  {
    if m == 0 then [] else Rows(m - 1, n) + Row(m - 1, n)
  }

  lemma RowIs(i: nat, n: nat)
    ensures forall ij :: ij in Row(i, n) <==> ij.0 == i && i < ij.1 < n
  {
    forall ij: (nat, nat) | ij.0 == i && i < ij.1 < n ensures ij in Row(i, n) {
      assert Row(i, n)[ij.1 - i - 1] == ij;
    }
  }

  lemma {:induction false} RowsHas(m: nat, n: nat, ij: (nat, nat))
    ensures ij in Rows(m, n) <==> ij.0 < m && ij.0 < ij.1 < n
  {
    if m > 0 {
      RowsHas(m - 1, n, ij);
      RowIs(m - 1, n);
      assert Rows(m, n) == Rows(m - 1, n) + Row(m - 1, n);
    }
  }

  lemma RowsAre(m: nat, n: nat)
    ensures forall ij :: ij in Rows(m, n) <==> ij.0 < m && ij.0 < ij.1 < n
  {
    forall ij: (nat, nat) ensures ij in Rows(m, n) <==> ij.0 < m && ij.0 < ij.1 < n {
      RowsHas(m, n, ij);
    }
  }

  /** Where the upper triangle lists pair `(i, j)`. */
  lemma RowsIndex(m: nat, i: nat, j: nat) returns (k: nat)
    requires i < j < m
    ensures k < |Rows(m, m)| && Rows(m, m)[k] == (i, j)
  {
    RowsAre(m, m);
    assert (i, j) in Rows(m, m);
    k :| 0 <= k < |Rows(m, m)| && Rows(m, m)[k] == (i, j);
  }

  /** The upper triangle lists each pair once. */
  lemma {:induction false} RowsDistinct(m: nat, n: nat)
    ensures forall k, l :: 0 <= k < l < |Rows(m, n)| ==> Rows(m, n)[k] != Rows(m, n)[l]
  {
    if m > 0 {
      RowsDistinct(m - 1, n);
      var a: seq<(nat, nat)> := Rows(m - 1, n);
      var b: seq<(nat, nat)> := Row(m - 1, n);
      var c := Rows(m, n);
      assert c == a + b;
      forall k: int, l: int | 0 <= k < l < |c| ensures c[k] != c[l] {
        if l < |a| {
          assert c[k] == a[k] && c[l] == a[l];
        } else if k >= |a| {
          assert c[k] == b[k - |a|] && c[l] == b[l - |a|];
        } else {
          assert c[k] == a[k] && c[l] == b[l - |a|];
        }
      }
    }
  }

  /** The pairs of the upper triangle listed before `(i, j)`. */
  function Before(i: nat, j: nat, n: nat): (r: seq<(nat, nat)>)
    requires i < j <= n
    ensures forall k :: 0 <= k < |r| ==> r[k].0 <= i && r[k].0 < r[k].1 < n
  {
    Rows(i, n) + Row(i, n)[..j - i - 1]
  }

  lemma BeforeFirst(i: nat, n: nat)
    requires i < n
    ensures Before(i, i + 1, n) == Rows(i, n)
  {
  }

  lemma BeforeNext(i: nat, j: nat, n: nat)
    requires i < j < n
    ensures Before(i, j + 1, n) == Before(i, j, n) + [(i, j)]
  {
    var a, r := Rows(i, n), Row(i, n);
    assert r[..j - i] == r[..j - i - 1] + [(i, j)];
    assert a + (r[..j - i - 1] + [(i, j)]) == (a + r[..j - i - 1]) + [(i, j)];
  }

  lemma BeforeLast(i: nat, n: nat)
    requires i < n
    ensures Before(i, n, n) == Rows(i + 1, n)
  {
    assert Row(i, n)[..n - i - 1] == Row(i, n);
  }
}

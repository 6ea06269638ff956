/**
 * The Python `str` methods the engine applies to text: `strip`, `strip(chars)`,
 * `lower`/`upper`, `in`, `startswith`/`endswith`, `split`, `replace`, slicing and
 * zero-padded decimal formatting, plus the markdown-fence cleaning that three
 * components apply to a language-model reply before parsing it as JSON.
 */
module Strings {
  import Seqs

  // ---------------------------------------------------------------- whitespace and strip

  /** The characters for which Python's `str.isspace()` holds. */
  predicate IsSpace(c: char)
  {
    var n := c as int;
    (0x09 <= n <= 0x0D) || (0x1C <= n <= 0x20) || n == 0x85 || n == 0xA0 || n == 0x1680
    || (0x2000 <= n <= 0x200A) || n == 0x2028 || n == 0x2029 || n == 0x202F || n == 0x205F
    || n == 0x3000
  }

  function TrimStart(s: string, drop: char -> bool): (r: string)
    ensures |r| <= |s| && r == s[|s| - |r|..]
    ensures r == [] || !drop(r[0])
    ensures forall i :: 0 <= i < |s| - |r| ==> drop(s[i])
  {
    if s != [] && drop(s[0]) then TrimStart(s[1..], drop) else s
  }

  function TrimEnd(s: string, drop: char -> bool): (r: string)
    ensures |r| <= |s| && r == s[..|r|]
    ensures r == [] || !drop(r[|r| - 1])
    ensures forall i :: |r| <= i < |s| ==> drop(s[i])
  {
    if s != [] && drop(s[|s| - 1]) then TrimEnd(s[..|s| - 1], drop) else s
  }

  /** `s.strip(chars)` for the characters `drop` accepts. */
  function StripBy(s: string, drop: char -> bool): (r: string)
    ensures r == [] || (!drop(r[0]) && !drop(r[|r| - 1]))
    ensures exists i :: StrippedAt(s, r, i, drop)
  {
    var t := TrimStart(s, drop);
    var r := TrimEnd(t, drop);
    StrippedFrom(s, t, r, drop);
    r
  }

  /** Cutting `drop` characters off the front and then off the back leaves a slice of `s`. */
  lemma StrippedFrom(s: string, t: string, r: string, drop: char -> bool)
    requires |t| <= |s| && t == s[|s| - |t|..] && forall k :: 0 <= k < |s| - |t| ==> drop(s[k])
    requires |r| <= |t| && r == t[..|r|] && forall k :: |r| <= k < |t| ==> drop(t[k])
    ensures StrippedAt(s, r, |s| - |t|, drop)
  {
    var i := |s| - |t|;
    assert r == s[i..i + |r|];
    forall k | i + |r| <= k < |s| ensures drop(s[k]) {
      assert s[k] == t[k - i];
    }
  }

  /** `r` is the slice `s[i..i+|r|]` and everything cut off on either side satisfies `drop`. */
  predicate StrippedAt(s: string, r: string, i: int, drop: char -> bool)
  {
    0 <= i && i + |r| <= |s| && r == s[i..i + |r|]
    && (forall k :: 0 <= k < i ==> drop(s[k]))
    && (forall k :: i + |r| <= k < |s| ==> drop(s[k]))
  }

  /** `s.strip()`. */
  function Strip(s: string): string
  {
    StripBy(s, IsSpace)
  }

  /** Stripping text that already starts and ends with a non-space character changes nothing. */
  lemma StripKeepsTrimmed(s: string, drop: char -> bool)
    requires s == [] || (!drop(s[0]) && !drop(s[|s| - 1]))
    ensures StripBy(s, drop) == s
  {
  }

  /** Stripping twice is stripping once. */
  lemma StripIdempotent(s: string, drop: char -> bool)
    ensures StripBy(StripBy(s, drop), drop) == StripBy(s, drop)
  {
    StripKeepsTrimmed(StripBy(s, drop), drop);
  }

  // ---------------------------------------------------------------- case

  /** Case mapping of the ASCII letters; every other character is left as it is. */
  function LowerChar(c: char): char
  {
    if 'A' <= c <= 'Z' then (c as int + 32) as char else c
  }

  function UpperChar(c: char): char
  {
    if 'a' <= c <= 'z' then (c as int - 32) as char else c
  }

  function Lower(s: string): string
  {
    seq(|s|, i requires 0 <= i < |s| => LowerChar(s[i]))
  }

  function Upper(s: string): string
  {
    seq(|s|, i requires 0 <= i < |s| => UpperChar(s[i]))
  }

  /** Lower-casing twice is lower-casing once. */
  lemma LowerIdempotent(s: string)
    ensures Lower(Lower(s)) == Lower(s)
  {
  }

  /** Lower-casing stripped text leaves nothing to strip: case mapping never makes a space. */
  lemma LowerStripped(s: string)
    ensures Strip(Lower(Strip(s))) == Lower(Strip(s))
  {
    var t := Strip(s);
    var w := Lower(t);
    if w != [] {
      assert w[0] == LowerChar(t[0]) && w[|w| - 1] == LowerChar(t[|t| - 1]);
      LowerCharSpace(t[0]);
      LowerCharSpace(t[|t| - 1]);
    }
    StripKeepsTrimmed(w, IsSpace);
  }

  lemma LowerCharSpace(c: char)
    ensures IsSpace(LowerChar(c)) == IsSpace(c)
  {
  }

  // ---------------------------------------------------------------- substrings

  /** `sub` occurs in `s` starting at position `i`. */
  predicate OccursAt(s: string, sub: string, i: int)
  {
    0 <= i && i + |sub| <= |s| && s[i..i + |sub|] == sub
  }

  /** Python `sub in s`; the empty string occurs in every string. */
  predicate Contains(s: string, sub: string)
  {
    exists i :: 0 <= i <= |s| - |sub| && OccursAt(s, sub, i)
  }

  lemma EmptyOccurs(s: string)
    ensures Contains(s, "")
  {
    assert OccursAt(s, "", 0);
  }

  /** Substrings of a substring are substrings. */
  lemma ContainsTransitive(s: string, mid: string, sub: string)
    requires Contains(s, mid) && Contains(mid, sub)
    ensures Contains(s, sub)
  {
    var i :| 0 <= i <= |s| - |mid| && OccursAt(s, mid, i);
    var j :| 0 <= j <= |mid| - |sub| && OccursAt(mid, sub, j);
    assert mid == s[i..i + |mid|];
    forall k | 0 <= k < |sub| ensures s[i + j..i + j + |sub|][k] == sub[k] {
      assert s[i + j..i + j + |sub|][k] == s[i + j + k] == mid[j + k] == mid[j..j + |sub|][k];
    }
    assert OccursAt(s, sub, i + j);
  }

  predicate StartsWith(s: string, prefix: string)
  {
    |prefix| <= |s| && s[..|prefix|] == prefix
  }

  predicate EndsWith(s: string, suffix: string)
  {
    |suffix| <= |s| && s[|s| - |suffix|..] == suffix
  }

  /** The position of the first `c` in `s`. */
  function IndexOf(s: string, c: char): (i: nat)
    requires c in s
    ensures i < |s| && s[i] == c && c !in s[..i]
  {
    if s[0] == c then 0 else 1 + IndexOf(s[1..], c)
  }

  // ---------------------------------------------------------------- ordering

  /** Python's `<` on strings: lexicographic by code point, a proper prefix first. */
  predicate LexLess(a: string, b: string)
  {
    if a == [] then b != []
    else if b == [] then false
    else if a[0] != b[0] then a[0] < b[0]
    else LexLess(a[1..], b[1..])
  }

  lemma {:induction false} LexIrreflexive(a: string)
    ensures !LexLess(a, a)
  {
    if a != [] {
      LexIrreflexive(a[1..]);
    }
  }

  lemma {:induction false} LexAsymmetric(a: string, b: string)
    ensures !(LexLess(a, b) && LexLess(b, a))
  {
    if a != [] && b != [] && a[0] == b[0] {
      LexAsymmetric(a[1..], b[1..]);
    }
  }

  lemma {:induction false} LexTotal(a: string, b: string)
    requires a != b
    ensures LexLess(a, b) || LexLess(b, a)
  {
    if a != [] && b != [] && a[0] == b[0] {
      assert a == [a[0]] + a[1..] && b == [b[0]] + b[1..];
      LexTotal(a[1..], b[1..]);
    }
  }

  lemma {:induction false} LexTransitive(a: string, b: string, c: string)
    requires LexLess(a, b) && LexLess(b, c)
    ensures LexLess(a, c)
  {
    if a != [] && b != [] && c != [] && a[0] == b[0] && b[0] == c[0] {
      LexTransitive(a[1..], b[1..], c[1..]);
    }
  }

  // ---------------------------------------------------------------- split and join

  /** `s.split(c)`: never empty, and no part contains the separator. */
  function Split(s: string, c: char): (parts: seq<string>)
    ensures |parts| >= 1
    ensures forall i :: 0 <= i < |parts| ==> c !in parts[i]
  {
    if s == [] then [[]]
    else
      var rest := Split(s[1..], c);
      if s[0] == c then [[]] + rest else [[s[0]] + rest[0]] + rest[1..]
  }

  /** `c.join(parts)`. */
  function Join(parts: seq<string>, c: char): string
  {
    if parts == [] then []
    else if |parts| == 1 then parts[0]
    else parts[0] + [c] + Join(parts[1..], c)
  }

  /** Splitting loses nothing: joining the parts gives the text back. */
  lemma {:induction false} SplitJoin(s: string, c: char)
    ensures Join(Split(s, c), c) == s
  {
    if s != [] {
      var rest := Split(s[1..], c);
      SplitJoin(s[1..], c);
      if s[0] == c {
        assert Split(s, c) == [[]] + rest;
      } else {
        var parts := [[s[0]] + rest[0]] + rest[1..];
        if |rest| == 1 {
          assert Join(parts, c) == [s[0]] + rest[0];
        } else {
          assert parts[1..] == rest[1..];
          assert Join(rest, c) == rest[0] + [c] + Join(rest[1..], c);
        }
      }
    }
  }

  /** Every separator-free text is one part of its own. */
  lemma {:induction false} SplitWithoutSeparator(s: string, c: char)
    requires c !in s
    ensures Split(s, c) == [s]
  {
    if s != [] {
      assert c !in s[1..] && s[0] != c;
      SplitWithoutSeparator(s[1..], c);
      assert [s[0]] + s[1..] == s;
    }
  }

  /** `s.replace(a, b)` for single characters. */
  function ReplaceChar(s: string, a: char, b: char): (r: string)
    ensures |r| == |s|
    ensures a != b ==> a !in r
  {
    seq(|s|, i requires 0 <= i < |s| => if s[i] == a then b else s[i])
  }

  // ---------------------------------------------------------------- decimal formatting

  predicate IsDigit(c: char)
  {
    '0' <= c <= '9'
  }

  function DigitChar(d: nat): (c: char)
    requires d < 10
    ensures IsDigit(c) && c as int - '0' as int == d
  {
    (d + '0' as int) as char
  }

  /** `str(n)` for a natural number. */
  function NatToString(n: nat): (r: string)
    ensures |r| >= 1
    ensures forall i :: 0 <= i < |r| ==> IsDigit(r[i])
  {
    if n < 10 then [DigitChar(n)] else NatToString(n / 10) + [DigitChar(n % 10)]
  }

  /** The value of a string of decimal digits (`int(s)`). */
  function DigitsValue(s: string): nat
    requires forall i :: 0 <= i < |s| ==> IsDigit(s[i])
  {
    if s == [] then 0
    else
      assert IsDigit(s[|s| - 1]);
      DigitsValue(s[..|s| - 1]) * 10 + (s[|s| - 1] as int - '0' as int)
  }

  lemma {:induction false} NatToStringRoundTrip(n: nat)
    ensures DigitsValue(NatToString(n)) == n
  {
    if n >= 10 {
      NatToStringRoundTrip(n / 10);
      var s := NatToString(n);
      assert s[..|s| - 1] == NatToString(n / 10);
    }
  }

  function Zeros(k: nat): (r: string)
    ensures |r| == k && forall i :: 0 <= i < k ==> r[i] == '0'
  {
    seq(k, i => '0')
  }

  /** `f"{n:03d}"`: at least three digits, zero-padded on the left. */
  function Pad3(n: nat): (r: string)
    ensures |r| >= 3
    ensures forall i :: 0 <= i < |r| ==> IsDigit(r[i])
  {
    var d := NatToString(n);
    if |d| < 3 then Zeros(3 - |d|) + d else d
  }

  lemma {:induction false} LeadingZerosAddNothing(k: nat, s: string)
    requires forall i :: 0 <= i < |s| ==> IsDigit(s[i])
    ensures forall i :: 0 <= i < |Zeros(k) + s| ==> IsDigit((Zeros(k) + s)[i])
    ensures DigitsValue(Zeros(k) + s) == DigitsValue(s)
    decreases |s|, k
  {
    var z := Zeros(k);
    if s == [] {
      assert z + s == z;
      if k > 0 {
        assert z[..k - 1] == Zeros(k - 1);
        LeadingZerosAddNothing(k - 1, []);
        assert Zeros(k - 1) + [] == Zeros(k - 1);
      }
    } else {
      var t := s[..|s| - 1];
      LeadingZerosAddNothing(k, t);
      assert (z + s)[..|z + s| - 1] == z + t;
    }
  }

  /** The padded number reads back as the number: distinct numbers give distinct suffixes. */
  lemma Pad3RoundTrip(n: nat)
    ensures DigitsValue(Pad3(n)) == n
  {
    NatToStringRoundTrip(n);
    var d := NatToString(n);
    if |d| < 3 {
      LeadingZerosAddNothing(3 - |d|, d);
    }
  }

  lemma Pad3Injective(m: nat, n: nat)
    requires Pad3(m) == Pad3(n)
    ensures m == n
  {
    Pad3RoundTrip(m);
    Pad3RoundTrip(n);
  }

  // ---------------------------------------------------------------- markdown fences

  const Fence: string := "```"

  /** `s.split("\n", 1)[1]`: everything after the first newline. */
  function AfterFirstNewline(s: string): string
    requires '\n' in s
  {
    s[IndexOf(s, '\n') + 1..]
  }

  /**
   * The cleaning applied to a language-model reply before `json.loads`: strip, drop an
   * opening fence line (or just the three backticks when there is no newline), drop a
   * closing fence, strip again.
   */
  function Unfence(reply: string): string
  {
    var t := Strip(reply);
    var t1 := if StartsWith(t, Fence) then (if '\n' in t then AfterFirstNewline(t) else t[3..]) else t;
    var t2 := if EndsWith(t1, Fence) then t1[..|t1| - 3] else t1;
    Strip(t2)
  }

  /** A reply without fences is only stripped. */
  lemma UnfencePlain(reply: string)
    requires !StartsWith(Strip(reply), Fence) && !EndsWith(Strip(reply), Fence)
    ensures Unfence(reply) == Strip(reply)
  {
    StripIdempotent(reply, IsSpace);
  }

  lemma IndexOfAt(s: string, c: char, k: nat)
    requires k < |s| && s[k] == c && c !in s[..k]
    ensures IndexOf(s, c) == k
  {
  }

  /**
   * A body wrapped in a fenced block ("```" + tag line + body + "```") comes back out,
   * stripped, whatever the info tag on the opening line.
   */
  lemma UnfenceWrapped(tag: string, body: string)
    requires '\n' !in tag
    ensures Unfence(Fence + tag + "\n" + body + Fence) == Strip(body)
  {
    var w := Fence + tag + "\n" + body + Fence;
    var k := 3 + |tag|;
    assert w[0] == '`' && w[|w| - 1] == '`';
    StripKeepsTrimmed(w, IsSpace);
    assert StartsWith(w, Fence) by {
      assert w[..3] == Fence;
    }
    assert w[..k] == Fence + tag;
    assert w[k] == '\n';
    IndexOfAt(w, '\n', k);
    var after := AfterFirstNewline(w);
    assert after == body + Fence;
    assert EndsWith(after, Fence);
    assert after[..|after| - 3] == body;
  }
}

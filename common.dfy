/** Helpers shared by every component: an Option type, the JavaScript array
    and string operations the dashboard relies on (filter, join, split,
    includes, startsWith, replace, toLowerCase, toUpperCase), stated over
    Dafny sequences. Case mapping covers ASCII letters only. */
module Common {

  datatype Option<T> = None | Some(value: T)

  // ---------------------------------------------------------------- sequences

  /** `Array.prototype.filter`: the elements satisfying `p`, in order. */
  function Filter<T>(s: seq<T>, p: T -> bool): (r: seq<T>)
    ensures |r| <= |s|
  {
    if s == [] then [] else (if p(s[0]) then [s[0]] else []) + Filter(s[1..], p)
  }

  /** An element is kept iff it is in the input and satisfies the predicate. */
  lemma {:induction false} FilterMembers<T>(s: seq<T>, p: T -> bool)
    ensures forall i :: 0 <= i < |Filter(s, p)| ==> Filter(s, p)[i] in s && p(Filter(s, p)[i])
    ensures forall i :: 0 <= i < |s| && p(s[i]) ==> s[i] in Filter(s, p)
  {
    if s != [] {
      FilterMembers(s[1..], p);
      assert forall i :: 1 <= i < |s| ==> s[i] == s[1..][i - 1];
    }
  }

  /** `a` is obtained from `b` by deleting elements: relative order is kept. */
  predicate IsSubsequence<T(==)>(a: seq<T>, b: seq<T>)
    decreases |b|
  {
    if a == [] then true
    else if b == [] then false
    else if a[0] == b[0] then IsSubsequence(a[1..], b[1..])
    else IsSubsequence(a, b[1..])
  }

  lemma {:induction false} SubsequenceDropHead<T>(a: seq<T>, b: seq<T>)
    requires a != [] && IsSubsequence(a, b)
    ensures IsSubsequence(a[1..], b)
    decreases |b|, 0
  {
    if a[0] == b[0] {
      if a[1..] != [] { SubsequenceSkip(a[1..], b[1..], b[0]); }
    } else {
      SubsequenceDropHead(a, b[1..]);
      if a[1..] != [] { SubsequenceSkip(a[1..], b[1..], b[0]); }
    }
  }

  lemma {:induction false} SubsequenceSkip<T>(a: seq<T>, b: seq<T>, x: T)
    requires IsSubsequence(a, b)
    ensures IsSubsequence(a, [x] + b)
    decreases |b|, 1
  {
    if a != [] && a[0] == x {
      SubsequenceDropHead(a, b);
      assert ([x] + b)[1..] == b;
    } else {
      assert ([x] + b)[1..] == b;
    }
  }

  /** Every sequence is a subsequence of itself. */
  lemma {:induction false} SubsequenceReflexive<T>(s: seq<T>)
    ensures IsSubsequence(s, s)
  {
    if s != [] { SubsequenceReflexive(s[1..]); }
  }

  /** Removing one element leaves a subsequence. */
  lemma {:induction false} RemoveAtIsSubsequence<T>(s: seq<T>, i: nat)
    requires i < |s|
    ensures IsSubsequence(s[..i] + s[i + 1..], s)
  {
    if i == 0 {
      assert s[..0] + s[1..] == s[1..];
      SubsequenceReflexive(s[1..]);
      if s[1..] != [] { SubsequenceSkip(s[1..], s[1..], s[0]); } else { }
      assert [s[0]] + s[1..] == s;
    } else {
      RemoveAtIsSubsequence(s[1..], i - 1);
      var r := s[..i] + s[i + 1..];
      assert r[0] == s[0];
      assert r[1..] == s[1..][..i - 1] + s[1..][i..];
    }
  }

  /** Filtering keeps the survivors in their original relative order. */
  lemma {:induction false} FilterIsSubsequence<T>(s: seq<T>, p: T -> bool)
    ensures IsSubsequence(Filter(s, p), s)
  {
    if s != [] {
      FilterIsSubsequence(s[1..], p);
      if p(s[0]) {
        assert Filter(s, p) == [s[0]] + Filter(s[1..], p);
        assert Filter(s, p)[1..] == Filter(s[1..], p);
      } else {
        assert Filter(s, p) == Filter(s[1..], p);
        SubsequenceSkip(Filter(s[1..], p), s[1..], s[0]);
        assert [s[0]] + s[1..] == s;
      }
    }
  }

  /** Two successive filters are one filter by the conjunction. */
  lemma {:induction false} FilterFilter<T>(s: seq<T>, p: T -> bool, q: T -> bool, pq: T -> bool)
    requires forall x :: pq(x) == (p(x) && q(x))
    ensures Filter(Filter(s, p), q) == Filter(s, pq)
  {
    if s != [] {
      FilterFilter(s[1..], p, q, pq);
      FilterAppend((if p(s[0]) then [s[0]] else []), Filter(s[1..], p), q);
      if p(s[0]) { assert Filter([s[0]], q) == if q(s[0]) then [s[0]] else []; }
    }
  }

  lemma {:induction false} FilterAppend<T>(a: seq<T>, b: seq<T>, p: T -> bool)
    ensures Filter(a + b, p) == Filter(a, p) + Filter(b, p)
  {
    if a == [] {
      assert a + b == b;
    } else {
      assert (a + b)[0] == a[0];
      assert (a + b)[1..] == a[1..] + b;
      FilterAppend(a[1..], b, p);
      assert Filter(a + b, p) == (if p(a[0]) then [a[0]] else []) + Filter(a[1..] + b, p);
      assert Filter(a, p) == (if p(a[0]) then [a[0]] else []) + Filter(a[1..], p);
    }
  }

  /** A filter that every element passes returns its input unchanged. */
  lemma {:induction false} FilterKeepsAll<T>(s: seq<T>, p: T -> bool)
    requires forall i :: 0 <= i < |s| ==> p(s[i])
    ensures Filter(s, p) == s
  {
    if s != [] {
      FilterKeepsAll(s[1..], p);
      assert [s[0]] + s[1..] == s;
    }
  }

  /** Filtering does not depend on the predicate's form, only on its values. */
  lemma {:induction false} FilterSamePredicate<T>(s: seq<T>, p: T -> bool, q: T -> bool)
    requires forall x :: p(x) == q(x)
    ensures Filter(s, p) == Filter(s, q)
  {
    if s != [] { FilterSamePredicate(s[1..], p, q); }
  }

  /** Removing the element after position k from a sequence with its head
      put back in front is removing it from the whole sequence. */
  lemma SpliceCons<T>(s: seq<T>, k: nat)
    requires k + 1 < |s|
    ensures s[..k + 1] == [s[0]] + s[1..][..k]
    ensures [s[0]] + (s[1..][..k] + s[1..][k + 1..]) == s[..k + 1] + s[k + 2..]
  {
  }

  /** Concatenation is associative. */
  lemma ConcatAssoc<T>(a: seq<T>, b: seq<T>, c: seq<T>)
    ensures (a + b) + c == a + (b + c)
  {
  }

  lemma ConsIndex<T>(h: T, s: seq<T>)
    ensures ([h] + s)[0] == h
    ensures forall i :: 0 <= i < |s| ==> ([h] + s)[i + 1] == s[i]
  {
  }

  /** `Array.prototype.join(sep)`. */
  function Join(parts: seq<string>, sep: string): string
  {
    if parts == [] then ""
    else if |parts| == 1 then parts[0]
    else parts[0] + sep + Join(parts[1..], sep)
  }

  /** Joining from position k: the part there, the separator, the rest. */
  lemma JoinStep(parts: seq<string>, k: nat, sep: string)
    requires k + 1 < |parts|
    ensures Join(parts[k..], sep) == parts[k] + sep + Join(parts[k + 1..], sep)
  {
    assert parts[k..][1..] == parts[k + 1..];
  }

  /** `String.prototype.split(c)` for a one-character separator. */
  function Split(s: string, c: char): (r: seq<string>)
    ensures |r| >= 1
  {
    if s == [] then [""]
    else if s[0] == c then [""] + Split(s[1..], c)
    else var rest := Split(s[1..], c); [[s[0]] + rest[0]] + rest[1..]
  }

  /** Splitting a joined list at its separator gives the list back, as long
      as no part contains the separator. */
  lemma {:induction false} SplitJoin(parts: seq<string>, c: char)
    requires |parts| >= 1
    requires forall i :: 0 <= i < |parts| ==> c !in parts[i]
    ensures Split(Join(parts, [c]), c) == parts
  {
    if |parts| == 1 {
      SplitNoSeparator(parts[0], c);
    } else {
      SplitJoin(parts[1..], c);
      SplitPrefix(parts[0], Join(parts[1..], [c]), c);
      assert parts == [parts[0]] + parts[1..];
    }
  }

  lemma {:induction false} SplitNoSeparator(s: string, c: char)
    requires c !in s
    ensures Split(s, c) == [s]
  {
    if s != [] {
      SplitNoSeparator(s[1..], c);
      assert [s[0]] + s[1..] == s;
    }
  }

  lemma {:induction false} SplitPrefix(a: string, b: string, c: char)
    requires c !in a
    ensures Split(a + [c] + b, c) == [a] + Split(b, c)
  {
    if a == [] {
      assert a + [c] + b == [c] + b;
      assert ([c] + b)[1..] == b;
    } else {
      assert (a + [c] + b)[1..] == a[1..] + [c] + b;
      SplitPrefix(a[1..], b, c);
      assert [a[0]] + a[1..] == a;
    }
  }

  /** A join begins with its first part. */
  lemma JoinStartsWithFirst(parts: seq<string>, sep: string)
    requires |parts| >= 1
    ensures StartsWith(Join(parts, sep), parts[0])
  {
    if |parts| > 1 {
      assert Join(parts, sep)[..|parts[0]|] == parts[0];
    }
  }

  /** A character in none of the parts nor the separator is not in the join. */
  lemma {:induction false} JoinKeepsOut(parts: seq<string>, sep: string, c: char)
    requires c !in sep
    requires forall i :: 0 <= i < |parts| ==> c !in parts[i]
    ensures c !in Join(parts, sep)
  {
    if |parts| > 1 { JoinKeepsOut(parts[1..], sep, c); }
  }

  /** Removes every occurrence of `v` (`xs.filter(item => item !== v)`). */
  function RemoveAll<T(==)>(xs: seq<T>, v: T): (r: seq<T>)
    ensures v !in r
    ensures forall i :: 0 <= i < |r| ==> r[i] in xs
    ensures forall i :: 0 <= i < |xs| && xs[i] != v ==> xs[i] in r
  {
    FilterMembers(xs, x => x != v);
    Filter(xs, x => x != v)
  }

  // --------------------------------------------------------------------- text

  function LowerChar(c: char): char
  {
    if 'A' <= c <= 'Z' then (c as int + 32) as char else c
  }

  function UpperChar(c: char): char
  {
    if 'a' <= c <= 'z' then (c as int - 32) as char else c
  }

  /** `String.prototype.toLowerCase`, ASCII letters only. */
  function Lower(s: string): (r: string)
    ensures |r| == |s|
    ensures forall i :: 0 <= i < |s| ==> r[i] == LowerChar(s[i])
  {
    seq(|s|, i requires 0 <= i < |s| => LowerChar(s[i]))
  }

  /** `String.prototype.toUpperCase`, ASCII letters only. */
  function Upper(s: string): (r: string)
    ensures |r| == |s|
    ensures forall i :: 0 <= i < |s| ==> r[i] == UpperChar(s[i])
  {
    seq(|s|, i requires 0 <= i < |s| => UpperChar(s[i]))
  }

  /** `String.prototype.startsWith`. */
  predicate StartsWith(s: string, prefix: string)
  {
    |prefix| <= |s| && s[..|prefix|] == prefix
  }

  /** `String.prototype.includes`: `t` occurs in `s` at some position. */
  predicate Contains(s: string, t: string)
    decreases |s|
  {
    StartsWith(s, t) || (s != [] && Contains(s[1..], t))
  }

  /** `s.indexOf(t)`: the first position at which `t` occurs, if any. */
  function IndexOf(s: string, t: string): (r: Option<nat>)
    ensures r.Some? ==> r.value + |t| <= |s| && s[r.value..r.value + |t|] == t
    ensures r.Some? <==> Contains(s, t)
    ensures r.Some? ==> forall j :: 0 <= j < r.value ==> !StartsWith(s[j..], t)
    decreases |s|
  {
    if StartsWith(s, t) then Some(0)
    else if s == [] then None
    else match IndexOf(s[1..], t)
      case None => None
      case Some(k) =>
        IndexOfStep(s, t, k);
        Some(k + 1)
  }

  /** A match found in the tail of `s` is a match in `s`, one place on. */
  lemma IndexOfStep(s: string, t: string, k: nat)
    requires s != [] && !StartsWith(s, t)
    requires k + |t| <= |s[1..]| && s[1..][k..k + |t|] == t
    requires forall j :: 0 <= j < k ==> !StartsWith(s[1..][j..], t)
    ensures k + 1 + |t| <= |s| && s[k + 1..k + 1 + |t|] == t
    ensures forall j :: 0 <= j < k + 1 ==> !StartsWith(s[j..], t)
  {
    assert s[k + 1..k + 1 + |t|] == s[1..][k..k + |t|];
    forall j | 0 <= j < k + 1 ensures !StartsWith(s[j..], t) {
      if j == 0 {
        assert s[j..] == s;
      } else {
        assert s[j..] == s[1..][j - 1..];
      }
    }
  }

  /** `s.replace(pat, rep)` with a string pattern: only the first occurrence. */
  function ReplaceFirst(s: string, pat: string, rep: string): string
  {
    match IndexOf(s, pat)
    case None => s
    case Some(i) => s[..i] + rep + s[i + |pat|..]
  }

  /** `s.split(c)[0]`: everything before the first `c`, or all of `s`. */
  function Before(s: string, c: char): (r: string)
    ensures c !in r
    ensures StartsWith(s, r)
    ensures c in s ==> |r| < |s| && s[|r|] == c
    ensures c !in s ==> r == s
  {
    if s == [] || s[0] == c then [] else [s[0]] + Before(s[1..], c)
  }

  /** Cutting before `c` stops at the end of a prefix free of `c` when `c`
      follows it. */
  lemma {:induction false} BeforeAppend(a: string, b: string, c: char)
    requires c !in a
    requires b == [] || b[0] == c
    ensures Before(a + b, c) == a
  {
    if a == [] {
      assert a + b == b;
    } else {
      assert (a + b)[1..] == a[1..] + b;
      BeforeAppend(a[1..], b, c);
      assert a == [a[0]] + a[1..];
    }
  }

  lemma {:induction false} SplitHeadIsBefore(s: string, c: char)
    ensures Split(s, c)[0] == Before(s, c)
  {
    if s != [] && s[0] != c { SplitHeadIsBefore(s[1..], c); }
  }
}

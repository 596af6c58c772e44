/** Sequence helpers shared by every part of the model.  They give Dafny
    meanings to the JavaScript array operations the application relies on:
    `filter`, `map` with a guarded update, `indexOf`, `find`, element access
    that yields `undefined` out of range, and `[...new Set(xs)]`. */
module Seqs {

  /** An optional value: TypeScript's `T | undefined`. */
  datatype Option<T> = None | Some(value: T)

  /** One field of a spread merge `{ ...current, ...update }`: the update's value when it carries one. */
  function Pick<T>(update: Option<T>, current: T): T {
    if update.Some? then update.value else current
  }

  /** `s[i]` in JavaScript: `undefined` when `i` is out of range. */
  function At<T>(s: seq<T>, i: int): (r: Option<T>)
    ensures r.Some? <==> 0 <= i < |s|
    ensures r.Some? ==> r.value == s[i]
  {
    if 0 <= i < |s| then Some(s[i]) else None
  }

  /** `Array.prototype.filter`: the elements satisfying `f`, in order. */
  function Filter<T>(s: seq<T>, f: T -> bool): (r: seq<T>)
    ensures |r| <= |s|
    ensures forall i :: 0 <= i < |r| ==> f(r[i])
  {
    if s == [] then []
    else if f(s[0]) then [s[0]] + Filter(s[1..], f)
    else Filter(s[1..], f)
  }

  /** `Array.prototype.map` with an update applied exactly where `m` holds. */
  function MapWhere<T>(s: seq<T>, m: T -> bool, f: T -> T): (r: seq<T>)
    ensures |r| == |s|
    ensures forall i :: 0 <= i < |s| && m(s[i]) ==> r[i] == f(s[i])
    ensures forall i :: 0 <= i < |s| && !m(s[i]) ==> r[i] == s[i]
  {
    if s == [] then []
    else [if m(s[0]) then f(s[0]) else s[0]] + MapWhere(s[1..], m, f)
  }

  /** `a` can be obtained from `b` by deleting elements. */
  predicate IsSubsequence<T(==)>(a: seq<T>, b: seq<T>)
    decreases |b|
  {
    a == [] || (b != [] && if a[0] == b[0] then IsSubsequence(a[1..], b[1..]) else IsSubsequence(a, b[1..]))
  }

  predicate NoDuplicates<T(==)>(s: seq<T>) {
    forall i, j :: 0 <= i < j < |s| ==> s[i] != s[j]
  }

  /** `Array.prototype.indexOf`: the first position of `x`, or -1. */
  function IndexOf<T(==)>(s: seq<T>, x: T): (r: int)
    ensures -1 <= r < |s|
    ensures r == -1 <==> x !in s
    ensures r >= 0 ==> s[r] == x && forall j :: 0 <= j < r ==> s[j] != x
  {
    if s == [] then -1
    else if s[0] == x then 0
    else
      var k := IndexOf(s[1..], x);
      if k == -1 then -1 else k + 1
  }

  /** `Array.prototype.findIndex`: the first position satisfying `f`, or -1. */
  function FindIndex<T>(s: seq<T>, f: T -> bool): (r: int)
    ensures -1 <= r < |s|
    ensures r == -1 <==> forall i :: 0 <= i < |s| ==> !f(s[i])
    ensures r >= 0 ==> f(s[r]) && forall j :: 0 <= j < r ==> !f(s[j])
  {
    if s == [] then -1
    else if f(s[0]) then 0
    else
      var k := FindIndex(s[1..], f);
      if k == -1 then -1 else k + 1
  }

  /** `Array.prototype.find`: the first element satisfying `f`, or `undefined`. */
  function Find<T>(s: seq<T>, f: T -> bool): (r: Option<T>)
    ensures r.None? <==> forall i :: 0 <= i < |s| ==> !f(s[i])
    ensures r.Some? ==> f(r.value) && exists i :: 0 <= i < |s| && s[i] == r.value && forall j :: 0 <= j < i ==> !f(s[j])
  {
    var k := FindIndex(s, f);
    if k == -1 then None else Some(s[k])
  }

  /** `[...new Set(s)]`: the first occurrence of every element, in order. */
  function Dedup<T(==)>(s: seq<T>): (r: seq<T>)
    ensures NoDuplicates(r)
    ensures forall i :: 0 <= i < |r| ==> r[i] in s
    ensures forall i :: 0 <= i < |s| ==> s[i] in r
    decreases |s|
  {
    if s == [] then []
    else
      var d := Dedup(s[..|s| - 1]);
      if s[|s| - 1] in d then d else d + [s[|s| - 1]]
  }

  /** Sum of the lengths of a sequence of sequences. */
  function TotalLength<T>(ss: seq<seq<T>>): nat {
    if ss == [] then 0 else |ss[0]| + TotalLength(ss[1..])
  }

  /** Concatenation in order (`flatMap` with the identity). */
  function Flatten<T>(ss: seq<seq<T>>): (r: seq<T>)
    ensures |r| == TotalLength(ss)
  {
    if ss == [] then [] else ss[0] + Flatten(ss[1..])
  }

  function DigitChar(d: nat): (c: char)
    requires d < 10
    ensures '0' <= c <= '9' && c as int == '0' as int + d
  {
    ('0' as int + d) as char
  }

  /** `String(n)` / `n.toString()` for a non-negative integer: its decimal digits without leading zeros. */
  function NatToString(n: nat): (r: string)
    ensures |r| >= 1
    ensures forall i :: 0 <= i < |r| ==> '0' <= r[i] <= '9'
    ensures |r| > 1 ==> r[0] != '0'
    decreases n
  {
    if n < 10 then [DigitChar(n)] else NatToString(n / 10) + [DigitChar(n % 10)]
  }

  // ---------------------------------------------------------------------
  // Lemmas

  lemma {:induction false} FilterMembership<T>(s: seq<T>, f: T -> bool, x: T)
    ensures x in Filter(s, f) <==> x in s && f(x)
  {
    if s != [] {
      FilterMembership(s[1..], f, x);
      assert s == [s[0]] + s[1..];
    }
  }

  /** One step of `filter` on a sequence written as head and tail. */
  lemma FilterCons<T>(x: T, rest: seq<T>, f: T -> bool)
    ensures Filter([x] + rest, f) == (if f(x) then [x] else []) + Filter(rest, f)
  {
    assert ([x] + rest)[1..] == rest;
  }

  /** `filter` distributes over concatenation. */
  lemma {:induction false} FilterAppend<T>(a: seq<T>, b: seq<T>, f: T -> bool)
    ensures Filter(a + b, f) == Filter(a, f) + Filter(b, f)
  {
    if a != [] {
      assert (a + b)[1..] == a[1..] + b;
      FilterAppend(a[1..], b, f);
    } else {
      assert a + b == b;
    }
  }

  /** A filter that every element passes returns the whole sequence. */
  lemma {:induction false} FilterKeepsAll<T>(s: seq<T>, f: T -> bool)
    requires forall i :: 0 <= i < |s| ==> f(s[i])
    ensures Filter(s, f) == s
  {
    if s != [] {
      FilterKeepsAll(s[1..], f);
    }
  }

  /** Two filters in a row filter by the conjunction. */
  lemma {:induction false} FilterFilter<T>(s: seq<T>, f: T -> bool, g: T -> bool, h: T -> bool)
    requires forall x :: h(x) == (f(x) && g(x))
    ensures Filter(Filter(s, f), g) == Filter(s, h)
  {
    if s != [] {
      FilterFilter(s[1..], f, g, h);
    }
  }

  /** Filtering by a weaker-or-equal predicate that agrees on `s` changes nothing. */
  lemma {:induction false} FilterSame<T>(s: seq<T>, f: T -> bool, g: T -> bool)
    requires forall i :: 0 <= i < |s| ==> f(s[i]) == g(s[i])
    ensures Filter(s, f) == Filter(s, g)
  {
    if s != [] {
      FilterSame(s[1..], f, g);
    }
  }

  lemma {:induction false} FilterIsSubsequence<T>(s: seq<T>, f: T -> bool)
    ensures IsSubsequence(Filter(s, f), s)
  {
    if s != [] {
      FilterIsSubsequence(s[1..], f);
      if !f(s[0]) {
        var r := Filter(s[1..], f);
        if r != [] && r[0] == s[0] {
          // r is a subsequence of s[1..], and so it is of s as well
          SubsequenceOfTail(r, s);
        }
      }
    }
  }

  lemma {:induction false} SubsequenceOfTail<T>(a: seq<T>, b: seq<T>)
    requires b != [] && IsSubsequence(a, b[1..])
    ensures IsSubsequence(a, b)
    decreases |b|, 0
  {
    if a != [] && a[0] == b[0] {
      SubsequenceDropHead(a, b[1..]);
    }
  }

  lemma {:induction false} SubsequenceDropHead<T>(a: seq<T>, b: seq<T>)
    requires a != [] && IsSubsequence(a, b)
    ensures IsSubsequence(a[1..], b)
    decreases |b|, 1
  {
    if a[0] == b[0] {
      if a[1..] != [] {
        SubsequenceOfTail(a[1..], b);
      }
    } else {
      SubsequenceDropHead(a, b[1..]);
      if a[1..] != [] {
        SubsequenceOfTail(a[1..], b);
      }
    }
  }

  /** A filter by `f` keeps exactly the positions of `s` that satisfy `f`. */
  lemma {:induction false} FilterAbsent<T>(s: seq<T>, f: T -> bool)
    requires forall i :: 0 <= i < |s| ==> !f(s[i])
    ensures Filter(s, f) == []
  {
    if s != [] {
      FilterAbsent(s[1..], f);
    }
  }

  /** An element missing from a longer prefix keeps its index when the sequence grows at the end. */
  lemma {:induction false} IndexOfAppend<T>(s: seq<T>, y: T, x: T)
    ensures x in s ==> IndexOf(s + [y], x) == IndexOf(s, x)
    ensures x !in s && x == y ==> IndexOf(s + [y], x) == |s|
  {
    if s != [] {
      assert (s + [y])[1..] == s[1..] + [y];
      IndexOfAppend(s[1..], y, x);
    }
  }

  /** `findIndex` on a concatenation looks in the second part only when the first has no match. */
  lemma {:induction false} FindIndexAppend<T>(a: seq<T>, b: seq<T>, f: T -> bool)
    ensures FindIndex(a + b, f) ==
      if FindIndex(a, f) >= 0 then FindIndex(a, f)
      else if FindIndex(b, f) >= 0 then |a| + FindIndex(b, f)
      else -1
  {
    if a == [] {
      assert a + b == b;
    } else {
      assert (a + b)[1..] == a[1..] + b;
      FindIndexAppend(a[1..], b, f);
    }
  }

  /** `find` on a concatenation: the first part's match if it has one, else the second part's. */
  lemma FindAppend<T>(a: seq<T>, b: seq<T>, f: T -> bool)
    ensures Find(a + b, f) == if Find(a, f).Some? then Find(a, f) else Find(b, f)
  {
    FindIndexAppend(a, b, f);
    var k := FindIndex(a, f);
    if k < 0 {
      var m := FindIndex(b, f);
      if m >= 0 {
        assert (a + b)[|a| + m] == b[m];
      }
    } else {
      assert (a + b)[k] == a[k];
    }
  }

  /** `[...new Set(s)]` lists the distinct elements in the order of their first occurrence. */
  lemma {:induction false} DedupFirstOccurrenceOrder<T>(s: seq<T>)
    ensures forall i, j :: 0 <= i < j < |Dedup(s)| ==> IndexOf(s, Dedup(s)[i]) < IndexOf(s, Dedup(s)[j])
    decreases |s|
  {
    if s != [] {
      var p := s[..|s| - 1];
      var last := s[|s| - 1];
      assert s == p + [last];
      DedupFirstOccurrenceOrder(p);
      var d := Dedup(p);
      var r := Dedup(s);
      assert r == if last in d then d else d + [last];
      forall i, j | 0 <= i < j < |r| ensures IndexOf(s, r[i]) < IndexOf(s, r[j]) {
        assert r[i] == d[i];
        IndexOfAppend(p, last, r[i]);
        IndexOfAppend(p, last, r[j]);
        if j < |d| {
          assert r[j] == d[j];
        }
      }
    }
  }

  /** The distinct elements of `a` come first in `[...new Set([...a, ...b])]`. */
  lemma {:induction false} DedupPrefix<T>(a: seq<T>, b: seq<T>)
    ensures |Dedup(a)| <= |Dedup(a + b)|
    ensures Dedup(a + b)[..|Dedup(a)|] == Dedup(a)
    decreases |b|
  {
    if b == [] {
      assert a + b == a;
    } else {
      var b' := b[..|b| - 1];
      assert a + b == (a + b') + [b[|b| - 1]];
      assert (a + b)[..|a + b| - 1] == a + b';
      DedupPrefix(a, b');
    }
  }

  /** A duplicate-free sequence is its own `[...new Set(s)]`. */
  lemma {:induction false} DedupOfDistinct<T>(s: seq<T>)
    requires NoDuplicates(s)
    ensures Dedup(s) == s
    decreases |s|
  {
    if s != [] {
      var p := s[..|s| - 1];
      DedupOfDistinct(p);
      assert s[|s| - 1] !in p;
      assert s == p + [s[|s| - 1]];
    }
  }

  /** A repeated first element does not change `[...new Set(s)]`. */
  lemma {:induction false} DedupDropRepeatedHead<T>(s: seq<T>)
    requires |s| >= 2 && s[0] == s[1]
    ensures Dedup(s) == Dedup(s[1..])
    decreases |s|
  {
    if |s| == 2 {
      assert s[..1] == [s[0]];
      assert s[1..][..0] == [];
      assert Dedup(s[..1]) == [s[0]];
    } else {
      var p := s[..|s| - 1];
      DedupDropRepeatedHead(p);
      assert s[1..][..|s[1..]| - 1] == p[1..];
      assert s[1..][|s[1..]| - 1] == s[|s| - 1];
    }
  }

  /** Two distinct new elements around a duplicate-free sequence keep it duplicate-free. */
  lemma BookendsDistinct<T>(x: T, mid: seq<T>, y: T)
    requires NoDuplicates(mid) && x !in mid && y !in mid && x != y
    ensures NoDuplicates([x] + mid + [y])
  {
    var r := [x] + mid + [y];
    forall i, j | 0 <= i < j < |r| ensures r[i] != r[j] {
      if 0 < i && j < |r| - 1 {
        assert r[i] == mid[i - 1] && r[j] == mid[j - 1];
      } else if i == 0 && j < |r| - 1 {
        assert r[j] == mid[j - 1];
      } else if 0 < i {
        assert r[i] == mid[i - 1];
      }
    }
  }

  /** A filter of a duplicate-free sequence is duplicate-free. */
  lemma {:induction false} FilterKeepsDistinct<T>(s: seq<T>, f: T -> bool)
    requires NoDuplicates(s)
    ensures NoDuplicates(Filter(s, f))
  {
    if s != [] {
      FilterKeepsDistinct(s[1..], f);
      if f(s[0]) {
        FilterMembership(s[1..], f, s[0]);
      }
    }
  }

  lemma {:induction false} FlattenAppend<T>(a: seq<seq<T>>, b: seq<seq<T>>)
    ensures Flatten(a + b) == Flatten(a) + Flatten(b)
  {
    if a != [] {
      assert (a + b)[0] == a[0];
      assert (a + b)[1..] == a[1..] + b;
      FlattenAppend(a[1..], b);
      calc {
        Flatten(a + b);
        a[0] + Flatten(a[1..] + b);
        a[0] + (Flatten(a[1..]) + Flatten(b));
        (a[0] + Flatten(a[1..])) + Flatten(b);
        Flatten(a) + Flatten(b);
      }
    } else {
      assert a + b == b;
    }
  }

  /** Distinct numbers print differently, so ids drawn from distinct clock readings are distinct. */
  lemma {:induction false} NatToStringInjective(a: nat, b: nat)
    requires NatToString(a) == NatToString(b)
    ensures a == b
    decreases a
  {
    var sa, sb := NatToString(a), NatToString(b);
    if a < 10 && b < 10 {
      assert DigitChar(a) == sa[0] == DigitChar(b);
    } else if a >= 10 && b >= 10 {
      assert sa[..|sa| - 1] == NatToString(a / 10);
      assert sb[..|sb| - 1] == NatToString(b / 10);
      NatToStringInjective(a / 10, b / 10);
      assert DigitChar(a % 10) == sa[|sa| - 1] == DigitChar(b % 10);
    }
  }
}

/** Array combinators the server uses (`filter`, `reduce`, `map`, `slice`,
    a stable `sort` with a comparator, `new Set(...)` for distinct values),
    over Dafny sequences, with the facts about them that the rest of the
    model needs. Recursive definitions peel the LAST element, as the
    server's loops consume rows front to back and append. */
module Seqs {
  import opened Wrappers

  function Last<T>(s: seq<T>): T
    requires |s| > 0
  {
    s[|s| - 1]
  }

  function DropLast<T>(s: seq<T>): seq<T>
    requires |s| > 0
  {
    s[..|s| - 1]
  }

  // ---------------------------------------------------------------------
  // filter

  function Filter<T>(s: seq<T>, keep: T -> bool): (r: seq<T>)
    ensures |r| <= |s|
    ensures forall i :: 0 <= i < |r| ==> keep(r[i])
    decreases |s|
  {
    if |s| == 0 then []
    else
      var init := Filter(DropLast(s), keep);
      if keep(Last(s)) then init + [Last(s)] else init
  }

  lemma FilterStep<T>(s: seq<T>, x: T, keep: T -> bool)
    ensures Filter(s + [x], keep) == if keep(x) then Filter(s, keep) + [x] else Filter(s, keep)
  {
    assert DropLast(s + [x]) == s;
  }

  lemma {:induction false} FilterAppend<T>(a: seq<T>, b: seq<T>, keep: T -> bool)
    ensures Filter(a + b, keep) == Filter(a, keep) + Filter(b, keep)
    decreases |b|
  {
    if |b| == 0 {
      assert a + b == a;
    } else {
      var b' := DropLast(b);
      assert a + b == (a + b') + [Last(b)];
      assert b == b' + [Last(b)];
      FilterAppend(a, b', keep);
      FilterStep(a + b', Last(b), keep);
      FilterStep(b', Last(b), keep);
    }
  }

  /** `filter` keeps exactly the elements that pass. */
  lemma {:induction false} FilterMembership<T>(s: seq<T>, keep: T -> bool, x: T)
    ensures x in Filter(s, keep) <==> x in s && keep(x)
    decreases |s|
  {
    if |s| > 0 {
      FilterMembership(DropLast(s), keep, x);
      assert s == DropLast(s) + [Last(s)];
    }
  }

  /** Filtering a prefix gives a prefix of the filtered sequence. */
  lemma {:induction false} FilterPrefix<T>(s: seq<T>, i: nat, keep: T -> bool)
    requires i <= |s|
    ensures Filter(s[..i], keep) <= Filter(s, keep)
  {
    assert s == s[..i] + s[i..];
    FilterAppend(s[..i], s[i..], keep);
  }

  /** Nothing passes, nothing is kept. */
  lemma {:induction false} FilterNone<T>(s: seq<T>, keep: T -> bool)
    requires forall i :: 0 <= i < |s| ==> !keep(s[i])
    ensures Filter(s, keep) == []
    decreases |s|
  {
    if |s| > 0 {
      FilterNone(DropLast(s), keep);
    }
  }

  /** Two predicates that agree everywhere filter alike. */
  lemma {:induction false} FilterExtensional<T>(s: seq<T>, p: T -> bool, q: T -> bool)
    requires forall x :: p(x) == q(x)
    ensures Filter(s, p) == Filter(s, q)
    decreases |s|
  {
    if |s| > 0 {
      FilterExtensional(DropLast(s), p, q);
    }
  }

  /** Filtering by a conjunction is filtering twice. */
  lemma {:induction false} FilterFilter<T>(s: seq<T>, p: T -> bool, q: T -> bool, pq: T -> bool)
    requires forall x :: pq(x) == (p(x) && q(x))
    ensures Filter(Filter(s, p), q) == Filter(s, pq)
    decreases |s|
  {
    if |s| > 0 {
      var s' := DropLast(s);
      FilterFilter(s', p, q, pq);
      if p(Last(s)) {
        FilterStep(Filter(s', p), Last(s), q);
      }
    }
  }

  /** Elements that all pass stay; of the two in the middle, each stays
      iff it passes. */
  lemma {:induction false} FilterAround<T>(head: seq<T>, a: T, b: T, tail: seq<T>, keep: T -> bool)
    requires forall i :: 0 <= i < |head| ==> keep(head[i])
    requires forall i :: 0 <= i < |tail| ==> keep(tail[i])
    ensures Filter(head + [a, b] + tail, keep)
         == head + (if keep(a) then [a] else []) + (if keep(b) then [b] else []) + tail
  {
    FilterAll(head, keep);
    FilterAll(tail, keep);
    FilterPair(a, b, keep);
    FilterAppend(head + [a, b], tail, keep);
    FilterAppend(head, [a, b], keep);
  }

  lemma FilterPair<T>(a: T, b: T, keep: T -> bool)
    ensures Filter([a, b], keep) == (if keep(a) then [a] else []) + (if keep(b) then [b] else [])
  {
    assert DropLast([a, b]) == [a];
    assert DropLast([a]) == [];
  }

  /** Elements that all pass are kept unchanged. */
  lemma {:induction false} FilterAll<T>(s: seq<T>, keep: T -> bool)
    requires forall i :: 0 <= i < |s| ==> keep(s[i])
    ensures Filter(s, keep) == s
    decreases |s|
  {
    if |s| > 0 {
      FilterAll(DropLast(s), keep);
      assert s == DropLast(s) + [Last(s)];
    }
  }

  // ---------------------------------------------------------------------
  // reduce, map, flatten, sums

  /** `s.reduce(f, init)`. */
  function FoldLeft<A, T>(f: (A, T) -> A, init: A, s: seq<T>): A
    decreases |s|
  {
    if |s| == 0 then init else f(FoldLeft(f, init, DropLast(s)), Last(s))
  }

  lemma FoldLeftStep<A, T>(f: (A, T) -> A, init: A, s: seq<T>, x: T)
    ensures FoldLeft(f, init, s + [x]) == f(FoldLeft(f, init, s), x)
  {
    assert DropLast(s + [x]) == s;
  }

  function Map<T, U>(s: seq<T>, f: T -> U): (r: seq<U>)
    ensures |r| == |s|
    ensures forall i :: 0 <= i < |s| ==> r[i] == f(s[i])
  {
    seq(|s|, i requires 0 <= i < |s| => f(s[i]))
  }

  lemma MapStep<T, U>(s: seq<T>, x: T, f: T -> U)
    ensures Map(s + [x], f) == Map(s, f) + [f(x)]
  {
    assert forall i :: 0 <= i < |s| ==> (s + [x])[i] == s[i];
  }

  /** Concatenation of a sequence of sequences. */
  function Flatten<T>(ss: seq<seq<T>>): seq<T>
    decreases |ss|
  {
    if |ss| == 0 then [] else Flatten(DropLast(ss)) + Last(ss)
  }

  lemma FlattenStep<T>(ss: seq<seq<T>>, s: seq<T>)
    ensures Flatten(ss + [s]) == Flatten(ss) + s
  {
    assert DropLast(ss + [s]) == ss;
  }

  lemma AppendAssoc<T>(a: seq<T>, b: seq<T>, c: seq<T>)
    ensures (a + b) + c == a + (b + c)
  {
  }

  lemma PrefixStep<T>(s: seq<T>, i: nat)
    requires i < |s|
    ensures s[..i + 1] == s[..i] + [s[i]]
  {
  }

  lemma HeadTail<T>(s: seq<T>)
    requires |s| > 0
    ensures s == [s[0]] + s[1..]
  {
  }

  lemma AppendEmpty<T>(a: seq<T>)
    ensures [] + a == a
  {
  }

  lemma ConsPair<T>(x: T, y: T, s: seq<T>, z: T)
    ensures [x] + ([y] + s + [z]) == [x, y] + s + [z]
  {
  }

  lemma FullPrefix<T>(s: seq<T>)
    ensures s[..|s|] == s
  {
  }

  lemma FilterPrefixStep<T>(s: seq<T>, i: nat, keep: T -> bool)
    requires i < |s|
    ensures Filter(s[..i + 1], keep) == if keep(s[i]) then Filter(s[..i], keep) + [s[i]] else Filter(s[..i], keep)
  {
    PrefixStep(s, i);
    FilterStep(s[..i], s[i], keep);
  }

  lemma MapPrefixStep<T, U>(s: seq<T>, i: nat, f: T -> U)
    requires i < |s|
    ensures Map(s[..i + 1], f) == Map(s[..i], f) + [f(s[i])]
  {
    PrefixStep(s, i);
    MapStep(s[..i], s[i], f);
  }

  lemma FlattenMapPrefix<T, U>(s: seq<T>, i: nat, f: T -> seq<U>)
    requires i < |s|
    ensures Flatten(Map(s[..i + 1], f)) == Flatten(Map(s[..i], f)) + f(s[i])
  {
    assert s[..i + 1] == s[..i] + [s[i]];
    MapStep(s[..i], s[i], f);
    FlattenStep(Map(s[..i], f), f(s[i]));
  }

  lemma FlattenPrefixStep<T>(ss: seq<seq<T>>, i: nat)
    requires i < |ss|
    ensures Flatten(ss[..i + 1]) == Flatten(ss[..i]) + ss[i]
  {
    assert ss[..i + 1] == ss[..i] + [ss[i]];
    FlattenStep(ss[..i], ss[i]);
  }

  /** Flattening non-empty pieces is empty only when there are none. */
  lemma FlattenNonEmpty<T>(ss: seq<seq<T>>)
    requires forall i :: 0 <= i < |ss| ==> |ss[i]| > 0
    ensures |Flatten(ss)| == 0 <==> |ss| == 0
  {
    if |ss| > 0 {
      assert |Last(ss)| > 0;
    }
  }

  lemma {:induction false} FlattenAppend<T>(a: seq<seq<T>>, b: seq<seq<T>>)
    ensures Flatten(a + b) == Flatten(a) + Flatten(b)
    decreases |b|
  {
    if |b| == 0 {
      assert a + b == a;
    } else {
      var b' := DropLast(b);
      assert a + b == (a + b') + [Last(b)];
      assert b == b' + [Last(b)];
      FlattenAppend(a, b');
      FlattenStep(a + b', Last(b));
      FlattenStep(b', Last(b));
    }
  }

  /** The total length of a flattening is the sum of the lengths. */
  lemma {:induction false} FlattenLength<T>(ss: seq<seq<T>>)
    ensures |Flatten(ss)| == SumOf(ss, (s: seq<T>) => |s|)
    decreases |ss|
  {
    if |ss| > 0 {
      FlattenLength(DropLast(ss));
    }
  }

  /** `s.reduce((sum, x) => sum + f(x), 0)`. */
  function SumOf<T>(s: seq<T>, f: T -> int): int
    decreases |s|
  {
    if |s| == 0 then 0 else SumOf(DropLast(s), f) + f(Last(s))
  }

  lemma SumOfStep<T>(s: seq<T>, x: T, f: T -> int)
    ensures SumOf(s + [x], f) == SumOf(s, f) + f(x)
  {
    assert DropLast(s + [x]) == s;
  }

  lemma {:induction false} SumOfAppend<T>(a: seq<T>, b: seq<T>, f: T -> int)
    ensures SumOf(a + b, f) == SumOf(a, f) + SumOf(b, f)
    decreases |b|
  {
    if |b| == 0 {
      assert a + b == a;
    } else {
      var b' := DropLast(b);
      assert a + b == (a + b') + [Last(b)];
      assert b == b' + [Last(b)];
      SumOfAppend(a, b', f);
      SumOfStep(a + b', Last(b), f);
      SumOfStep(b', Last(b), f);
    }
  }

  /** Replacing one element changes a sum by the difference. */
  lemma SumOfReplace<T>(s: seq<T>, p: nat, x: T, f: T -> int)
    requires p < |s|
    ensures SumOf(s[p := x], f) == SumOf(s, f) - f(s[p]) + f(x)
  {
    assert s == s[..p] + [s[p]] + s[p + 1..];
    assert s[p := x] == s[..p] + [x] + s[p + 1..];
    SumOfAppend(s[..p] + [s[p]], s[p + 1..], f);
    SumOfAppend(s[..p] + [x], s[p + 1..], f);
    SumOfStep(s[..p], s[p], f);
    SumOfStep(s[..p], x, f);
  }

  /** Sums over two sequences that agree pointwise agree. */
  lemma {:induction false} SumOfPointwise<T, U>(a: seq<T>, f: T -> int, b: seq<U>, g: U -> int)
    requires |a| == |b|
    requires forall i :: 0 <= i < |a| ==> f(a[i]) == g(b[i])
    ensures SumOf(a, f) == SumOf(b, g)
    decreases |a|
  {
    if |a| > 0 {
      SumOfPointwise(DropLast(a), f, DropLast(b), g);
    }
  }

  /** A sum of `+ f(x)` written as a fold is the sum. */
  lemma {:induction false} FoldIsSum<T>(s: seq<T>, f: T -> int, add: (int, T) -> int)
    requires forall a, x :: add(a, x) == a + f(x)
    ensures FoldLeft(add, 0, s) == SumOf(s, f)
    decreases |s|
  {
    if |s| > 0 {
      FoldIsSum(DropLast(s), f, add);
    }
  }

  // ---------------------------------------------------------------------
  // first match, distinct values

  /** The index of the first element satisfying `p` (a `for ... break`). */
  function FirstIndexWhere<T>(s: seq<T>, p: T -> bool): (r: Option<nat>)
    ensures r.Some? ==> r.value < |s| && p(s[r.value]) && forall j :: 0 <= j < r.value ==> !p(s[j])
    ensures r.None? ==> forall j :: 0 <= j < |s| ==> !p(s[j])
    decreases |s|
  {
    if |s| == 0 then None
    else if p(s[0]) then Some(0)
    else match FirstIndexWhere(s[1..], p)
      case None => None
      case Some(i) => Some(i + 1)
  }

  ghost predicate NoDup<T>(s: seq<T>) {
    forall i, j :: 0 <= i < j < |s| ==> s[i] != s[j]
  }

  /** `[...new Set(s)]`: each value once, in order of first occurrence. */
  function Distinct<T(==,!new)>(s: seq<T>): (r: seq<T>)
    ensures NoDup(r)
    ensures forall x :: x in r <==> x in s
    decreases |s|
  {
    if |s| == 0 then []
    else
      var d := Distinct(DropLast(s));
      assert forall x :: x in s <==> x in DropLast(s) || x == Last(s) by {
        assert s == DropLast(s) + [Last(s)];
      }
      if Last(s) in d then d else d + [Last(s)]
  }

  // ---------------------------------------------------------------------
  // Stable sort by a key. `lt` is the comparator's "strictly before";
  // an element is inserted after every element it is not strictly before,
  // so equal keys keep their input order, as JavaScript's stable
  // `Array.prototype.sort` does.

  ghost predicate StrictTotalOrder<K(!new)>(lt: (K, K) -> bool) {
    && (forall a :: !lt(a, a))
    && (forall a, b, c :: lt(a, b) && lt(b, c) ==> lt(a, c))
    && (forall a, b :: a != b ==> lt(a, b) || lt(b, a))
  }

  ghost predicate SortedBy<T, K>(s: seq<T>, key: T -> K, lt: (K, K) -> bool) {
    forall i, j :: 0 <= i < j < |s| ==> !lt(key(s[j]), key(s[i]))
  }

  function Insert<T, K>(x: T, s: seq<T>, key: T -> K, lt: (K, K) -> bool): (r: seq<T>)
    ensures multiset(r) == multiset(s) + multiset{x}
    decreases |s|
  {
    if |s| == 0 then [x]
    else if lt(key(x), key(s[0])) then [x] + s
    else
      assert s == [s[0]] + s[1..];
      [s[0]] + Insert(x, s[1..], key, lt)
  }

  function SortBy<T, K>(s: seq<T>, key: T -> K, lt: (K, K) -> bool): (r: seq<T>)
    ensures multiset(r) == multiset(s)
    decreases |s|
  {
    if |s| == 0 then []
    else
      assert s == DropLast(s) + [Last(s)];
      Insert(Last(s), SortBy(DropLast(s), key, lt), key, lt)
  }

  lemma {:induction false} InsertSorted<T, K(!new)>(x: T, s: seq<T>, key: T -> K, lt: (K, K) -> bool)
    requires StrictTotalOrder(lt)
    requires SortedBy(s, key, lt)
    ensures SortedBy(Insert(x, s, key, lt), key, lt)
    decreases |s|
  {
    if |s| == 0 {
    } else if lt(key(x), key(s[0])) {
      InsertFront(x, s, key, lt);
    } else {
      assert SortedBy(s[1..], key, lt);
      InsertSorted(x, s[1..], key, lt);
      InsertBehind(x, s, key, lt);
    }
  }

  /** An element strictly before the head of a sorted sequence can go first. */
  lemma InsertFront<T, K(!new)>(x: T, s: seq<T>, key: T -> K, lt: (K, K) -> bool)
    requires StrictTotalOrder(lt)
    requires SortedBy(s, key, lt)
    requires |s| > 0 && lt(key(x), key(s[0]))
    ensures SortedBy([x] + s, key, lt)
  {
    var r := [x] + s;
    forall i, j | 0 <= i < j < |r|
      ensures !lt(key(r[j]), key(r[i]))
    {
      if i == 0 {
        var k := j - 1;
        assert r[j] == s[k];
        if k > 0 && key(s[k]) != key(s[0]) {
          assert lt(key(s[0]), key(s[k]));
        }
      } else {
        assert r[i] == s[i - 1] && r[j] == s[j - 1];
      }
    }
  }

  /** The head stays first when the element goes into the sorted tail. */
  lemma InsertBehind<T, K(!new)>(x: T, s: seq<T>, key: T -> K, lt: (K, K) -> bool)
    requires StrictTotalOrder(lt)
    requires SortedBy(s, key, lt)
    requires |s| > 0 && !lt(key(x), key(s[0]))
    requires SortedBy(Insert(x, s[1..], key, lt), key, lt)
    ensures SortedBy([s[0]] + Insert(x, s[1..], key, lt), key, lt)
  {
    var t := s[1..];
    var ins := Insert(x, t, key, lt);
    forall e | e in ins
      ensures !lt(key(e), key(s[0]))
    {
      assert e in multiset(ins);
      if e != x {
        assert e in t;
      }
    }
    var r := [s[0]] + ins;
    forall i, j | 0 <= i < j < |r|
      ensures !lt(key(r[j]), key(r[i]))
    {
      if i > 0 {
        assert r[i] == ins[i - 1] && r[j] == ins[j - 1];
      } else {
        assert r[j] == ins[j - 1] && r[j] in ins;
      }
    }
  }

  /** The sort returns its input in non-decreasing key order. */
  lemma {:induction false} SortBySorted<T, K(!new)>(s: seq<T>, key: T -> K, lt: (K, K) -> bool)
    requires StrictTotalOrder(lt)
    ensures SortedBy(SortBy(s, key, lt), key, lt)
    decreases |s|
  {
    if |s| > 0 {
      SortBySorted(DropLast(s), key, lt);
      InsertSorted(Last(s), SortBy(DropLast(s), key, lt), key, lt);
    }
  }

  lemma {:induction false} InsertSum<T, K>(x: T, s: seq<T>, key: T -> K, lt: (K, K) -> bool, f: T -> int)
    ensures SumOf(Insert(x, s, key, lt), f) == SumOf(s, f) + f(x)
    decreases |s|
  {
    if |s| == 0 {
      SumOfStep([], x, f);
    } else if lt(key(x), key(s[0])) {
      SumOfAppend([x], s, f);
      SumOfStep([], x, f);
    } else {
      InsertSum(x, s[1..], key, lt, f);
      SumOfAppend([s[0]], Insert(x, s[1..], key, lt), f);
      SumOfAppend([s[0]], s[1..], f);
      assert s == [s[0]] + s[1..];
    }
  }

  /** Sorting does not change a sum. */
  lemma {:induction false} SortBySum<T, K>(s: seq<T>, key: T -> K, lt: (K, K) -> bool, f: T -> int)
    ensures SumOf(SortBy(s, key, lt), f) == SumOf(s, f)
    decreases |s|
  {
    if |s| > 0 {
      SortBySum(DropLast(s), key, lt, f);
      InsertSum(Last(s), SortBy(DropLast(s), key, lt), key, lt, f);
    }
  }

  lemma SortByLength<T, K>(s: seq<T>, key: T -> K, lt: (K, K) -> bool)
    ensures |SortBy(s, key, lt)| == |s|
  {
    assert |multiset(SortBy(s, key, lt))| == |multiset(s)|;
  }
}

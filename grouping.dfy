/** Grouping rows by a string key into an insertion-ordered dictionary and
    folding each group from the left: the shape of the per-platform loops in
    server/utils/rag-enhanced.ts (`summary[platform] ... += ...`) and
    server/api/timeseries/platform.get.ts (`platformStats.get(platform)`). */
module Grouping {
  import opened Seqs
  import opened OrderedMaps

  /** Rows whose key is `k`. */
  function KeyIs<R>(key: R -> string, k: string): R -> bool {
    (r: R) => key(r) == k
  }

  /** The dictionary after folding `rows` in order: a key seen for the first
      time starts from `init`, and every row adds itself to its key's entry. */
  function Group<R, S>(rows: seq<R>, key: R -> string, init: S, add: (S, R) -> S): (m: OMap<S>)
    ensures m.Valid()
    decreases |rows|
  {
    if |rows| == 0 then Empty()
    else
      var m := Group(DropLast(rows), key, init, add);
      var k := key(Last(rows));
      m.Put(k, add(if k in m.vals then m.vals[k] else init, Last(rows)))
  }

  lemma GroupStep<R, S>(rows: seq<R>, r: R, key: R -> string, init: S, add: (S, R) -> S)
    ensures var m := Group(rows, key, init, add);
      Group(rows + [r], key, init, add) == m.Put(key(r), add(if key(r) in m.vals then m.vals[key(r)] else init, r))
  {
    assert DropLast(rows + [r]) == rows;
  }

  /** The keys are the distinct keys of the rows, in order of first occurrence. */
  lemma {:induction false} GroupKeys<R, S>(rows: seq<R>, key: R -> string, init: S, add: (S, R) -> S)
    ensures Group(rows, key, init, add).keys == Distinct(Map(rows, key))
    decreases |rows|
  {
    if |rows| > 0 {
      var ks := Map(rows, key);
      assert DropLast(ks) == Map(DropLast(rows), key);
      GroupKeys(DropLast(rows), key, init, add);
    }
  }

  /** A key is present iff some row has it. */
  lemma GroupMembership<R, S>(rows: seq<R>, key: R -> string, init: S, add: (S, R) -> S, k: string)
    ensures k in Group(rows, key, init, add).vals <==> k in Map(rows, key)
  {
    GroupKeys(rows, key, init, add);
  }

  /** Each entry is the left fold of `add` over exactly the rows with its key. */
  lemma {:induction false} GroupValue<R, S>(rows: seq<R>, key: R -> string, init: S, add: (S, R) -> S, k: string)
    requires k in Group(rows, key, init, add).vals
    ensures Group(rows, key, init, add).vals[k] == FoldLeft(add, init, Filter(rows, KeyIs(key, k)))
    decreases |rows|
  {
    var rs := DropLast(rows);
    var r := Last(rows);
    var m := Group(rs, key, init, add);
    assert rows == rs + [r];
    FilterStep(rs, r, KeyIs(key, k));
    if key(r) == k {
      FoldLeftStep(add, init, Filter(rs, KeyIs(key, k)), r);
      if k in m.vals {
        GroupValue(rs, key, init, add, k);
      } else {
        NoneWithKey(rs, key, init, add, k);
      }
    } else {
      GroupValue(rs, key, init, add, k);
    }
  }

  lemma NoneWithKey<R, S>(rows: seq<R>, key: R -> string, init: S, add: (S, R) -> S, k: string)
    requires k !in Group(rows, key, init, add).vals
    ensures Filter(rows, KeyIs(key, k)) == []
  {
    GroupMembership(rows, key, init, add, k);
    assert forall i :: 0 <= i < |rows| ==> Map(rows, key)[i] == key(rows[i]);
    FilterNone(rows, KeyIs(key, k));
  }

  /** When `add` grows a measure `f` by `g` of the row and `init` measures 0,
      the measures of all entries sum to the sum of `g` over the rows: every
      row is counted in exactly one group. */
  lemma {:induction false} GroupSum<R, S>(rows: seq<R>, key: R -> string, init: S, add: (S, R) -> S, f: S -> int, g: R -> int)
    requires f(init) == 0
    requires forall s, r :: f(add(s, r)) == f(s) + g(r)
    ensures SumOf(Group(rows, key, init, add).Values(), f) == SumOf(rows, g)
    decreases |rows|
  {
    if |rows| > 0 {
      var rs := DropLast(rows);
      var r := Last(rows);
      var m := Group(rs, key, init, add);
      var cur := if key(r) in m.vals then m.vals[key(r)] else init;
      var v := add(cur, r);
      GroupStep(rs, r, key, init, add);
      assert rows == rs + [r];
      assert Group(rows, key, init, add) == m.Put(key(r), v);
      GroupSum(rs, key, init, add, f, g);
      SumOfStep(rs, r, g);
      assert f(v) == f(cur) + g(r);
      PutSum(m, key(r), cur, v, init, f);
    }
  }

  /** How one `Put` changes the sum of a measure over the values. */
  lemma PutSum<S>(m: OMap<S>, k: string, cur: S, v: S, init: S, f: S -> int)
    requires m.Valid()
    requires cur == if k in m.vals then m.vals[k] else init
    requires f(init) == 0
    ensures SumOf(m.Put(k, v).Values(), f) == SumOf(m.Values(), f) - f(cur) + f(v)
  {
    if k in m.vals {
      var p :| 0 <= p < |m.keys| && m.keys[p] == k;
      PutValuesPresent(m, k, v, p);
      SumOfReplace(m.Values(), p, v, f);
    } else {
      PutValuesNew(m, k, v);
      SumOfStep(m.Values(), v, f);
    }
  }

  /** The loop `for (const record of rows) { ... }` that fills the dictionary. */
  method GroupFold<R, S>(rows: seq<R>, key: R -> string, init: S, add: (S, R) -> S) returns (m: OMap<S>)
    ensures m.Valid()
    ensures m == Group(rows, key, init, add)
    ensures m.keys == Distinct(Map(rows, key))
    ensures forall k :: k in m.vals ==> m.vals[k] == FoldLeft(add, init, Filter(rows, KeyIs(key, k)))
  {
    m := Empty();
    var i := 0;
    while i < |rows|
      invariant 0 <= i <= |rows|
      invariant m == Group(rows[..i], key, init, add)
    {
      GroupStep(rows[..i], rows[i], key, init, add);
      PrefixStep(rows, i);
      var k := key(rows[i]);
      var cur := if k in m.vals then m.vals[k] else init;
      m := m.Put(k, add(cur, rows[i]));
      i := i + 1;
    }
    FullPrefix(rows);
    GroupKeys(rows, key, init, add);
    forall k | k in m.vals
      ensures m.vals[k] == FoldLeft(add, init, Filter(rows, KeyIs(key, k)))
    {
      GroupValue(rows, key, init, add, k);
    }
  }
}

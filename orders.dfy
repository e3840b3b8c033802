/** The two comparators the server sorts with: `(a, b) => b.x - a.x`
    (descending numbers) and `(a, b) => a.date.localeCompare(b.date)` on
    dates (ascending strings, compared here by code units). Each is the
    "strictly before" relation of a stable sort. */
module Orders {
  import opened Strings
  import opened Seqs

  function Greater(): (int, int) -> bool {
    (a: int, b: int) => a > b
  }

  lemma GreaterIsStrictTotal()
    ensures StrictTotalOrder(Greater())
  {
  }

  function Before(): (string, string) -> bool {
    (a: string, b: string) => LexLt(a, b)
  }

  lemma BeforeIsStrictTotal()
    ensures StrictTotalOrder(Before())
  {
    var lt := Before();
    forall a, b, c | lt(a, b) && lt(b, c)
      ensures lt(a, c)
    {
      LexLeTransitive(a, b, c);
      if a == c {
        LexLeAntisymmetric(a, b);
      }
    }
    forall a, b | a != b
      ensures lt(a, b) || lt(b, a)
    {
      LexLeTotal(a, b);
    }
  }

  /** Sorting by a date text is a permutation into non-decreasing date
      order. */
  lemma SortedByDate<T>(s: seq<T>, date: T -> string)
    ensures multiset(SortBy(s, date, Before())) == multiset(s)
    ensures forall i, j :: 0 <= i < j < |SortBy(s, date, Before())| ==>
      LexLe(date(SortBy(s, date, Before())[i]), date(SortBy(s, date, Before())[j]))
  {
    var r := SortBy(s, date, Before());
    BeforeIsStrictTotal();
    SortBySorted(s, date, Before());
    forall i, j | 0 <= i < j < |r|
      ensures LexLe(date(r[i]), date(r[j]))
    {
      assert !Before()(date(r[j]), date(r[i]));
      LexLeTotal(date(r[i]), date(r[j]));
      if date(r[i]) == date(r[j]) {
        LexLeReflexive(date(r[i]));
      }
    }
  }
}

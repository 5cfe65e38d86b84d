/** Results keyed by the position of their call, and what sorting makes of them. */
module SortedResults {

  datatype Entry<T> = Entry(at: nat, value: T)

  predicate Sorted<T>(entries: seq<Entry<T>>) {
    forall i, j :: 0 <= i < j < |entries| ==> entries[i].at <= entries[j].at
  }

  function Insert<T>(entries: seq<Entry<T>>, e: Entry<T>): seq<Entry<T>> {
    if entries == [] || entries[|entries| - 1].at <= e.at then entries + [e]
    else Insert(entries[..|entries| - 1], e) + [entries[|entries| - 1]]
  }

  /** The stable sort by position. */
  function SortByPosition<T>(entries: seq<Entry<T>>): seq<Entry<T>> {
    if entries == [] then [] else Insert(SortByPosition(entries[..|entries| - 1]), entries[|entries| - 1])
  }

  lemma {:induction false} InsertSorts<T>(entries: seq<Entry<T>>, e: Entry<T>)
    requires Sorted(entries)
    ensures Sorted(Insert(entries, e)) && multiset(Insert(entries, e)) == multiset(entries) + multiset{e}
  {
    if entries != [] && entries[|entries| - 1].at > e.at {
      var most, last := entries[..|entries| - 1], entries[|entries| - 1];
      InsertSorts(most, e);
      assert entries == most + [last];
      forall i | 0 <= i < |Insert(most, e)|
        ensures Insert(most, e)[i].at <= last.at
      {
        assert Insert(most, e)[i] in multiset(most) + multiset{e};
      }
    }
  }

  lemma {:induction false} SortSorts<T>(entries: seq<Entry<T>>)
    ensures Sorted(SortByPosition(entries)) && multiset(SortByPosition(entries)) == multiset(entries)
  {
    if entries != [] {
      var most, last := entries[..|entries| - 1], entries[|entries| - 1];
      SortSorts(most);
      InsertSorts(SortByPosition(most), last);
      assert entries == most + [last];
    }
  }

  /** One entry for each position from 0 on. */
  ghost predicate Numbered<T>(entries: seq<Entry<T>>) {
    forall i :: 0 <= i < |entries| ==> entries[i].at == i
  }

  /** However the results came in, once sorted they are in call order. */
  lemma {:induction false} SortedIsNumbered<T>(entries: seq<Entry<T>>, numbered: seq<Entry<T>>)
    requires Numbered(numbered) && multiset(entries) == multiset(numbered)
    ensures SortByPosition(entries) == numbered
  {
    SortSorts(entries);
    SameSorted(SortByPosition(entries), numbered);
  }

  lemma {:induction false} Found<T>(a: seq<T>, b: seq<T>, i: nat) returns (j: nat)
    requires multiset(a) == multiset(b) && i < |a|
    ensures j < |b| && b[j] == a[i]
  {
    assert a[i] in multiset(b);
    j :| j < |b| && b[j] == a[i];
  }

  lemma {:induction false} SameLast<T>(a: seq<Entry<T>>, b: seq<Entry<T>>)
    requires Sorted(a) && Numbered(b) && multiset(a) == multiset(b) && |a| == |b| > 0
    ensures a[|b| - 1] == b[|b| - 1]
  {
    var last := |b| - 1;
    var i := Found(b, a, last);
    var j := Found(a, b, last);
    assert a[i].at <= a[last].at;
  }

  lemma {:induction false} SameBeforeLast<T>(a: seq<T>, b: seq<T>, x: T)
    requires multiset(a + [x]) == multiset(b + [x])
    ensures multiset(a) == multiset(b)
  {
    assert multiset(a) == multiset(a + [x]) - multiset{x};
    assert multiset(b) == multiset(b + [x]) - multiset{x};
  }

  lemma {:induction false} SameSorted<T>(a: seq<Entry<T>>, b: seq<Entry<T>>)
    requires Sorted(a) && Numbered(b) && multiset(a) == multiset(b)
    ensures a == b
    decreases |b|
  {
    assert |multiset(a)| == |a| && |multiset(b)| == |b|;
    if b != [] {
      var last := |b| - 1;
      SameLast(a, b);
      assert a == a[..last] + [b[last]] && b == b[..last] + [b[last]];
      SameBeforeLast(a[..last], b[..last], b[last]);
      SameSorted(a[..last], b[..last]);
    }
  }
}

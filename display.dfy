/** The order in which the diary screen lists entries: by date, newest first.
    It is computed on every read and never stored. */
module DisplayOrder {
  import opened Models

  /** Dates never increase along `s`. */
  predicate IsSortedDesc(s: seq<DiaryEntry>) {
    forall i, j :: 0 <= i < j < |s| ==> s[i].date >= s[j].date
  }

  /** The dates of `s`, position by position. */
  function Dates(s: seq<DiaryEntry>): seq<int> {
    seq(|s|, i requires 0 <= i < |s| => s[i].date)
  }

  /** Puts `e` into the date-descending list `t`, before the first entry
      that is not newer than `e` (so `e` goes ahead of entries of its own
      date). */
  function Insert(e: DiaryEntry, t: seq<DiaryEntry>): (r: seq<DiaryEntry>)
    ensures multiset(r) == multiset(t) + multiset{e}
    ensures |r| == |t| + 1
    ensures r[0] == e || (t != [] && r[0] == t[0])
  {
    if t == [] || e.date >= t[0].date then [e] + t
    else
      assert t == [t[0]] + t[1..];
      [t[0]] + Insert(e, t[1..])
  }

  /** Inserting keeps a date-descending list date-descending. */
  lemma {:induction false} InsertSorted(e: DiaryEntry, t: seq<DiaryEntry>)
    requires IsSortedDesc(t)
    ensures IsSortedDesc(Insert(e, t))
  {
    if t != [] && e.date < t[0].date {
      var rest := Insert(e, t[1..]);
      InsertSorted(e, t[1..]);
      var r := Insert(e, t);
      assert r == [t[0]] + rest;
      assert t[0].date >= rest[0].date by {
        if rest[0] != e {
          assert rest[0] == t[1];
        }
      }
      forall i, j | 0 <= i < j < |r| ensures r[i].date >= r[j].date {
        assert r[j] == rest[j - 1];
        if i > 0 {
          assert r[i] == rest[i - 1];
        }
      }
    }
  }

  /** The list shown on screen: `entries.sorted(by: { $0.date > $1.date })`.
      Entries with equal dates keep their stored order in this model. */
  function SortedDesc(s: seq<DiaryEntry>): (r: seq<DiaryEntry>)
    ensures multiset(r) == multiset(s)
    ensures |r| == |s|
    ensures IsSortedDesc(r)
  {
    if s == [] then []
    else
      assert s == [s[0]] + s[1..];
      InsertSorted(s[0], SortedDesc(s[1..]));
      Insert(s[0], SortedDesc(s[1..]))
  }

  /** Two entries stored oldest first are shown newest first. */
  lemma SortedDescPair(older: DiaryEntry, newer: DiaryEntry)
    requires older.date < newer.date
    ensures SortedDesc([older, newer]) == [newer, older]
  {
    assert [older, newer][1..] == [newer];
    assert SortedDesc([newer]) == [newer] by {
      assert [newer][1..] == [];
    }
  }

  /** A list that is already in display order is shown as it is stored. */
  lemma {:induction false} SortedDescOfSorted(s: seq<DiaryEntry>)
    requires IsSortedDesc(s)
    ensures SortedDesc(s) == s
  {
    if s != [] {
      SortedDescOfSorted(s[1..]);
    }
  }

  /** Sorting the displayed list again changes nothing. */
  lemma SortedDescIdempotent(s: seq<DiaryEntry>)
    ensures SortedDesc(SortedDesc(s)) == SortedDesc(s)
  {
    SortedDescOfSorted(SortedDesc(s));
  }

  /** Values never increase along `a`. */
  predicate Descending(a: seq<int>) {
    forall i, j :: 0 <= i < j < |a| ==> a[i] >= a[j]
  }

  /** `IsSortedDesc` is `Descending` read on the dates. */
  lemma SortedDescIffDatesDescending(s: seq<DiaryEntry>)
    ensures IsSortedDesc(s) <==> Descending(Dates(s))
  {
    assert forall i :: 0 <= i < |s| ==> Dates(s)[i] == s[i].date;
  }

  /** The head of a descending list is its largest value. */
  lemma HeadIsMax(a: seq<int>, x: int)
    requires Descending(a) && x in multiset(a)
    ensures a != [] && x <= a[0]
  {
    assert x in a;
  }

  lemma DescendingTail(a: seq<int>)
    requires a != [] && Descending(a)
    ensures Descending(a[1..])
  {
    forall i, j | 0 <= i < j < |a| - 1 ensures a[1..][i] >= a[1..][j] {
      assert a[1..][i] == a[i + 1] && a[1..][j] == a[j + 1];
    }
  }

  lemma MultisetTail<T>(a: seq<T>)
    requires a != []
    ensures multiset(a[1..]) == multiset(a) - multiset{a[0]}
  {
    assert a == [a[0]] + a[1..];
  }

  /** Two descending lists of the same integers are the same list. */
  lemma {:induction false} SortedIntsUnique(a: seq<int>, b: seq<int>)
    requires Descending(a) && Descending(b)
    requires multiset(a) == multiset(b)
    ensures a == b
  {
    if a == [] {
      assert |b| == |multiset(b)| == 0;
    } else {
      assert a[0] in multiset(a);
      HeadIsMax(b, a[0]);
      assert b[0] in multiset(b);
      HeadIsMax(a, b[0]);
      assert a[0] == b[0];
      MultisetTail(a);
      MultisetTail(b);
      DescendingTail(a);
      DescendingTail(b);
      SortedIntsUnique(a[1..], b[1..]);
      SameHeadSameTail(a, b);
    }
  }

  lemma SameHeadSameTail(a: seq<int>, b: seq<int>)
    requires a != [] && b != [] && a[0] == b[0] && a[1..] == b[1..]
    ensures a == b
  {
    assert a == [a[0]] + a[1..] && b == [b[0]] + b[1..];
  }

  /** `t` without its element at position `j`. */
  function RemoveAt(t: seq<DiaryEntry>, j: nat): (r: seq<DiaryEntry>)
    requires j < |t|
    ensures multiset(r) == multiset(t) - multiset{t[j]}
    ensures multiset(Dates(r)) == multiset(Dates(t)) - multiset{t[j].date}
  {
    assert t == t[..j] + [t[j]] + t[j + 1..];
    assert Dates(t) == Dates(t[..j]) + [t[j].date] + Dates(t[j + 1..]);
    assert Dates(t[..j] + t[j + 1..]) == Dates(t[..j]) + Dates(t[j + 1..]);
    t[..j] + t[j + 1..]
  }

  /** A position of `x` in `t`, which holds it. */
  function IndexOf(t: seq<DiaryEntry>, x: DiaryEntry): (j: nat)
    requires x in multiset(t)
    ensures j < |t| && t[j] == x
  {
    if t[0] == x then 0
    else
      assert t == [t[0]] + t[1..];
      1 + IndexOf(t[1..], x)
  }

  lemma DatesCons(s: seq<DiaryEntry>)
    requires s != []
    ensures multiset(Dates(s)) == multiset{s[0].date} + multiset(Dates(s[1..]))
  {
    assert Dates(s) == [s[0].date] + Dates(s[1..]);
  }

  /** Lists holding the same entries hold the same dates. */
  lemma {:induction false} DatesOfPermutation(s: seq<DiaryEntry>, t: seq<DiaryEntry>)
    requires multiset(s) == multiset(t)
    ensures multiset(Dates(s)) == multiset(Dates(t))
  {
    if s == [] {
      assert |t| == |multiset(t)| == 0;
      return;
    }
    assert s[0] in multiset(s);
    var j := IndexOf(t, s[0]);
    var d := s[0].date;
    var r := RemoveAt(t, j);
    MultisetTail(s);
    DatesOfPermutation(s[1..], r);
    DatesCons(s);
    var all := multiset(Dates(t));
    assert d in all by {
      assert Dates(t)[j] == d;
    }
    assert multiset(Dates(r)) == all - multiset{d};
    assert multiset{d} + (all - multiset{d}) == all;
  }

  /** However a sort breaks ties among equal dates, every date-descending
      permutation of the stored entries shows the same dates, position by
      position, as `SortedDesc`: only the order among entries written at
      the same instant is left open. */
  lemma DisplayDeterminedUpToTies(s: seq<DiaryEntry>, t: seq<DiaryEntry>)
    requires multiset(t) == multiset(s) && IsSortedDesc(t)
    ensures Dates(t) == Dates(SortedDesc(s))
  {
    var r := SortedDesc(s);
    DatesOfPermutation(t, r);
    SortedDescIffDatesDescending(t);
    SortedDescIffDatesDescending(r);
    SortedIntsUnique(Dates(t), Dates(r));
  }

  /** Whatever tie-break a sort uses, re-sorting a date-descending list
      into another date-descending order leaves its dates where they were. */
  lemma ResortKeepsDates(s: seq<DiaryEntry>, t: seq<DiaryEntry>, u: seq<DiaryEntry>)
    requires multiset(t) == multiset(s) && IsSortedDesc(t)
    requires multiset(u) == multiset(t) && IsSortedDesc(u)
    ensures Dates(u) == Dates(t)
  {
    DisplayDeterminedUpToTies(s, t);
    DisplayDeterminedUpToTies(s, u);
  }
}

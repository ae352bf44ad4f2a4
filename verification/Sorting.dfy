// Stable sorting under a comparison, and the orders the scripts sort by.
module Sorting {
  import opened Sequences

  ghost predicate Preorder<T(!new)>(le: (T, T) -> bool) {
    && (forall a, b :: le(a, b) || le(b, a))
    && (forall a, b, c :: le(a, b) && le(b, c) ==> le(a, c))
  }

  ghost predicate TotalOrder<T(!new)>(le: (T, T) -> bool) {
    && Preorder(le)
    && (forall a, b :: le(a, b) && le(b, a) ==> a == b)
  }

  ghost predicate SortedBy<T>(s: seq<T>, le: (T, T) -> bool) {
    forall i, j :: 0 <= i < j < |s| ==> le(s[i], s[j])
  }

  // x goes after every element that does not exceed it, so equal keys keep their order.
  function Insert<T>(s: seq<T>, x: T, le: (T, T) -> bool): seq<T> {
    if s == [] then [x]
    else if le(s[|s| - 1], x) then s + [x]
    else Insert(s[..|s| - 1], x, le) + [s[|s| - 1]]
  }

  function Sort<T>(s: seq<T>, le: (T, T) -> bool): seq<T> {
    if s == [] then [] else Insert(Sort(s[..|s| - 1], le), s[|s| - 1], le)
  }

  lemma {:induction false} InsertPermutes<T>(s: seq<T>, x: T, le: (T, T) -> bool)
    ensures multiset(Insert(s, x, le)) == multiset(s) + multiset{x}
  {
    if s != [] {
      assert s == s[..|s| - 1] + [s[|s| - 1]];
      InsertPermutes(s[..|s| - 1], x, le);
    }
  }

  lemma {:induction false} SortPermutes<T>(s: seq<T>, le: (T, T) -> bool)
    ensures multiset(Sort(s, le)) == multiset(s)
    ensures |Sort(s, le)| == |s|
  {
    if s != [] {
      assert s == s[..|s| - 1] + [s[|s| - 1]];
      SortPermutes(s[..|s| - 1], le);
      InsertPermutes(Sort(s[..|s| - 1], le), s[|s| - 1], le);
    }
    assert |Sort(s, le)| == |multiset(Sort(s, le))|;
  }

  // The elements that compare equal to x, in order.
  ghost function Ties<T>(s: seq<T>, x: T, le: (T, T) -> bool): seq<T> {
    if s == [] then []
    else
      var front, last := Ties(s[..|s| - 1], x, le), s[|s| - 1];
      if le(last, x) && le(x, last) then front + [last] else front
  }

  lemma {:induction false} TiesOneMore<T>(s: seq<T>, y: T, x: T, le: (T, T) -> bool)
    ensures Ties(s + [y], x, le) == if le(y, x) && le(x, y) then Ties(s, x, le) + [y] else Ties(s, x, le)
  {
    assert (s + [y])[..|s|] == s;
  }

  lemma {:induction false} InsertKeepsTies<T(!new)>(s: seq<T>, y: T, x: T, le: (T, T) -> bool)
    requires Preorder(le)
    ensures Ties(Insert(s, y, le), x, le) == Ties(s + [y], x, le)
  {
    TiesOneMore(s, y, x, le);
    if s == [] {
      assert [] + [y] == [y];
    } else if !le(s[|s| - 1], y) {
      var front, last := s[..|s| - 1], s[|s| - 1];
      InsertKeepsTies(front, y, x, le);
      TiesOneMore(front, y, x, le);
      TiesOneMore(Insert(front, y, le), last, x, le);
    }
  }

  // Sorting is stable: elements that compare equal keep their order.
  lemma {:induction false} SortKeepsTies<T(!new)>(s: seq<T>, x: T, le: (T, T) -> bool)
    requires Preorder(le)
    ensures Ties(Sort(s, le), x, le) == Ties(s, x, le)
  {
    if s != [] {
      var front, last := s[..|s| - 1], s[|s| - 1];
      SortKeepsTies(front, x, le);
      InsertKeepsTies(Sort(front, le), last, x, le);
      TiesOneMore(Sort(front, le), last, x, le);
    }
  }

  lemma {:induction false} InsertSorted<T(!new)>(s: seq<T>, x: T, le: (T, T) -> bool)
    requires Preorder(le) && SortedBy(s, le)
    ensures SortedBy(Insert(s, x, le), le)
  {
    if s != [] && !le(s[|s| - 1], x) {
      var front, last := s[..|s| - 1], s[|s| - 1];
      InsertSorted(front, x, le);
      InsertPermutes(front, x, le);
      var r := Insert(front, x, le);
      forall i | 0 <= i < |r|
        ensures le(r[i], last)
      {
        assert r[i] in multiset(r);
        assert r[i] in front || r[i] == x;
      }
    } else if s != [] {
      assert forall i :: 0 <= i < |s| ==> le(s[i], s[|s| - 1]) by {
        assert le(s[|s| - 1], s[|s| - 1]);
      }
    }
  }

  lemma {:induction false} SortSorts<T(!new)>(s: seq<T>, le: (T, T) -> bool)
    requires Preorder(le)
    ensures SortedBy(Sort(s, le), le)
  {
    if s != [] {
      SortSorts(s[..|s| - 1], le);
      InsertSorted(Sort(s[..|s| - 1], le), s[|s| - 1], le);
    }
  }

  // No two different elements of s are equivalent under le.
  ghost predicate Separates<T>(s: seq<T>, le: (T, T) -> bool) {
    forall a, b :: a in s && b in s && le(a, b) && le(b, a) ==> a == b
  }

  lemma {:induction false} SmallestAgree<T(!new)>(s: seq<T>, t: seq<T>, le: (T, T) -> bool)
    requires Preorder(le) && Separates(s, le) && SortedBy(s, le) && SortedBy(t, le)
    requires multiset(s) == multiset(t) && s != [] && t != []
    ensures s[0] == t[0]
  {
    MultisetMembers(s, t);
    assert s[0] in t && t[0] in s;
    assert le(s[0], s[0]) && le(t[0], t[0]);
    assert le(s[0], t[0]) && le(t[0], s[0]);
  }

  // The sorted arrangement of a collection that le separates is unique.
  lemma {:induction false} SortedIsUnique<T(!new)>(s: seq<T>, t: seq<T>, le: (T, T) -> bool)
    requires Preorder(le) && Separates(s, le) && SortedBy(s, le) && SortedBy(t, le)
    requires multiset(s) == multiset(t)
    ensures s == t
  {
    assert |s| == |multiset(s)| == |t|;
    if s != [] {
      SmallestAgree(s, t, le);
      assert s == [s[0]] + s[1..] && t == [t[0]] + t[1..];
      assert multiset(s[1..]) == multiset(s) - multiset{s[0]};
      assert multiset(t[1..]) == multiset(t) - multiset{t[0]};
      SortedIsUnique(s[1..], t[1..], le);
    }
  }

  // Lexicographic order: the first difference decides, a proper prefix comes first.
  predicate LexLe<T(==)>(a: seq<T>, b: seq<T>, le: (T, T) -> bool) {
    a == [] || (b != [] && if a[0] == b[0] then LexLe(a[1..], b[1..], le) else le(a[0], b[0]))
  }

  lemma {:induction false} LexTotal<T(!new)>(a: seq<T>, b: seq<T>, le: (T, T) -> bool)
    requires TotalOrder(le)
    ensures LexLe(a, b, le) || LexLe(b, a, le)
    ensures LexLe(a, b, le) && LexLe(b, a, le) ==> a == b
  {
    if a != [] && b != [] && a[0] == b[0] {
      LexTotal(a[1..], b[1..], le);
      assert a == [a[0]] + a[1..] && b == [b[0]] + b[1..];
    }
  }

  lemma {:induction false} LexTransitive<T(!new)>(a: seq<T>, b: seq<T>, c: seq<T>, le: (T, T) -> bool)
    requires TotalOrder(le) && LexLe(a, b, le) && LexLe(b, c, le)
    ensures LexLe(a, c, le)
  {
    if a != [] && a[0] == b[0] == c[0] {
      LexTransitive(a[1..], b[1..], c[1..], le);
    }
  }

  predicate CharLe(c: char, d: char) {
    c <= d
  }

  predicate StringLe(a: string, b: string) {
    LexLe(a, b, CharLe)
  }

  lemma {:induction false} StringOrder()
    ensures TotalOrder(StringLe)
  {
    assert TotalOrder(CharLe);
    forall a, b
      ensures StringLe(a, b) || StringLe(b, a)
      ensures StringLe(a, b) && StringLe(b, a) ==> a == b
    {
      LexTotal(a, b, CharLe);
    }
    forall a, b, c | StringLe(a, b) && StringLe(b, c)
      ensures StringLe(a, c)
    {
      LexTransitive(a, b, c, CharLe);
    }
  }

  // k is the place where a and b part: the end of a, or the first difference.
  ghost predicate PartAt(a: string, b: string, k: nat) {
    k <= |a| && k <= |b| && a[..k] == b[..k] && (k == |a| || (k < |b| && a[k] < b[k]))
  }

  // The order of strings: a is the beginning of b, or smaller where they first differ.
  lemma {:induction false} StringLeMeans(a: string, b: string)
    ensures StringLe(a, b) <==> exists k: nat :: PartAt(a, b, k)
  {
    if a == "" {
      assert PartAt(a, b, 0);
    } else if b != "" && a[0] == b[0] {
      StringLeMeans(a[1..], b[1..]);
      if k: nat :| PartAt(a[1..], b[1..], k) {
        assert a[..k + 1] == [a[0]] + a[1..][..k] && b[..k + 1] == [b[0]] + b[1..][..k];
        assert PartAt(a, b, k + 1);
      }
      if k: nat :| PartAt(a, b, k) {
        assert k > 0;
        assert a[1..][..k - 1] == a[..k][1..] && b[1..][..k - 1] == b[..k][1..];
        assert PartAt(a[1..], b[1..], k - 1);
      }
    } else if b != "" {
      assert PartAt(a, b, 0) <==> a[0] < b[0];
      assert forall k: nat :: PartAt(a, b, k) && k > 0 ==> a[..k][0] == b[..k][0];
    }
  }

  // Largest first; lists of equal length by content.
  predicate BySizeThenContent(a: seq<string>, b: seq<string>) {
    |a| > |b| || (|a| == |b| && LexLe(a, b, StringLe))
  }

  lemma {:induction false} SizeThenContentOrder()
    ensures TotalOrder(BySizeThenContent)
  {
    StringOrder();
    forall a, b
      ensures BySizeThenContent(a, b) || BySizeThenContent(b, a)
      ensures BySizeThenContent(a, b) && BySizeThenContent(b, a) ==> a == b
    {
      LexTotal(a, b, StringLe);
    }
    forall a, b, c | BySizeThenContent(a, b) && BySizeThenContent(b, c)
      ensures BySizeThenContent(a, c)
    {
      if |a| == |b| == |c| {
        LexTransitive(a, b, c, StringLe);
      }
    }
  }

  // Strictly ascending: sorted, and no string twice.
  ghost predicate Ascending(s: seq<string>) {
    forall i, j :: 0 <= i < j < |s| ==> StringLe(s[i], s[j]) && s[i] != s[j]
  }

  // Two strictly ascending lists with the same members are equal.
  lemma {:induction false} AscendingIsUnique(s: seq<string>, t: seq<string>)
    requires Ascending(s) && Ascending(t)
    requires forall x :: x in s <==> x in t
    ensures s == t
  {
    StringOrder();
    DistinctIndices(s);
    DistinctIndices(t);
    DistinctSameMembers(s, t);
    SortedIsUnique(s, t, StringLe);
  }

  lemma {:induction false} SortAscends(items: seq<string>)
    requires NoDuplicates(items)
    ensures Ascending(Sort(items, StringLe))
    ensures forall x :: x in Sort(items, StringLe) <==> x in items
  {
    StringOrder();
    SortSorts(items, StringLe);
    SortPermutes(items, StringLe);
    MultisetMembers(items, Sort(items, StringLe));
    DistinctIndices(Sort(items, StringLe));
  }

  // The members of s, each once.
  ghost function Items(s: set<string>): (items: seq<string>)
    ensures NoDuplicates(items)
    ensures forall x :: x in items <==> x in s
  {
    if s == {} then []
    else
      var x :| x in s;
      DistinctOneMore(Items(s - {x}), x);
      Items(s - {x}) + [x]
  }

  // The strictly ascending list of the members of s.
  ghost function SortedOf(s: set<string>): (r: seq<string>)
    ensures Ascending(r)
    ensures forall x :: x in r <==> x in s
  {
    SortAscends(Items(s));
    Sort(Items(s), StringLe)
  }

  // Python's sorted() on a set of strings.
  method SortedSet(s: set<string>) returns (r: seq<string>)
    ensures Ascending(r)
    ensures forall x :: x in r <==> x in s
  {
    var todo, items := s, [];
    while todo != {}
      invariant forall x :: x in s <==> x in todo || x in items
      invariant forall x :: x in items ==> x !in todo
      invariant NoDuplicates(items)
      decreases todo
    {
      var x :| x in todo;
      DistinctOneMore(items, x);
      todo := todo - {x};
      items := items + [x];
    }
    r := Sort(items, StringLe);
    SortAscends(items);
  }
}

// Facts about finite sequences shared by the other modules.
module Sequences {

  ghost predicate NoDuplicates<T>(s: seq<T>) {
    forall x :: x in s ==> multiset(s)[x] == 1
  }

  lemma {:induction false} DistinctConcat<T>(a: seq<T>, b: seq<T>)
    ensures NoDuplicates(a + b) <==> NoDuplicates(a) && NoDuplicates(b) && forall x :: x in a ==> x !in b
  {
    assert forall x :: multiset(a + b)[x] == multiset(a)[x] + multiset(b)[x];
    if NoDuplicates(a + b) {
      forall x | x in a
        ensures x !in b
      {
        assert x in multiset(a);
        assert x in b ==> x in multiset(b);
      }
    } else if NoDuplicates(a) && NoDuplicates(b) {
      var x :| multiset(a + b)[x] > 1;
      assert x in multiset(a) && x in multiset(b);
      assert x in a && x in b;
    }
  }

  lemma {:induction false} DistinctOneMore<T>(s: seq<T>, x: T)
    ensures NoDuplicates(s + [x]) <==> NoDuplicates(s) && x !in s
  {
    DistinctConcat(s, [x]);
    assert multiset([x]) == multiset{x};
  }

  lemma {:induction false} DistinctIndices<T>(s: seq<T>)
    ensures NoDuplicates(s) <==> (forall i, j :: 0 <= i < j < |s| ==> s[i] != s[j])
  {
    if |s| > 0 {
      var front, last := s[..|s| - 1], s[|s| - 1];
      DistinctIndices(front);
      DistinctOneMore(front, last);
      assert s == front + [last];
      if last in front {
        var i :| 0 <= i < |front| && front[i] == last;
        assert s[i] == s[|s| - 1];
      } else if !NoDuplicates(front) {
        var i, j :| 0 <= i < j < |front| && front[i] == front[j];
        assert s[i] == s[j];
      } else {
        forall i, j | 0 <= i < j < |s|
          ensures s[i] != s[j]
        {
          assert s[i] == front[i] && front[i] in front;
        }
      }
    }
  }

  lemma {:induction false} DistinctTake<T>(s: seq<T>, limit: int)
    requires NoDuplicates(s)
    ensures NoDuplicates(Take(s, limit))
    ensures forall x :: x in Take(s, limit) ==> x in s
  {
    var t := Take(s, limit);
    assert s == t + s[|t|..];
    DistinctConcat(t, s[|t|..]);
  }

  // Python's s[:limit] for a non-negative limit; nothing for a negative one.
  function Take<T>(s: seq<T>, limit: int): seq<T> {
    if limit <= 0 then [] else if limit < |s| then s[..limit] else s
  }

  lemma {:induction false} MultisetMembers<T>(s: seq<T>, t: seq<T>)
    requires multiset(s) == multiset(t)
    ensures forall x :: x in s <==> x in t
  {
    forall x
      ensures x in s <==> x in t
    {
      assert x in s <==> x in multiset(s);
    }
  }

  lemma {:induction false} DistinctSameMembers<T>(s: seq<T>, t: seq<T>)
    requires NoDuplicates(s) && NoDuplicates(t)
    requires forall x :: x in s <==> x in t
    ensures multiset(s) == multiset(t)
  {
    forall x
      ensures multiset(s)[x] == multiset(t)[x]
    {
      assert x in s <==> x in multiset(s);
      assert x in t <==> x in multiset(t);
    }
  }
}

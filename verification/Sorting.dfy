/** Sorting by an order given as a function, and when its result is unique. */
module Sorting {
  ghost predicate SortedBy<T>(le: (T, T) -> bool, s: seq<T>) {
    forall i, j :: 0 <= i < j < |s| ==> le(s[i], s[j])
  }

  /** No two different members of `s` are tied. */
  ghost predicate NoTies<T>(le: (T, T) -> bool, s: seq<T>) {
    forall x, y :: x in s && y in s && le(x, y) && le(y, x) ==> x == y
  }

  lemma HeadsAgree<T>(le: (T, T) -> bool, s: seq<T>, t: seq<T>)
    requires multiset(s) == multiset(t) && SortedBy(le, s) && SortedBy(le, t) && NoTies(le, s) && s != []
    ensures t != [] && s[0] == t[0]
  {
    assert s[0] in multiset(t);
    assert t[0] in multiset(s);
    var i :| 0 <= i < |t| && t[i] == s[0];
    var j :| 0 <= j < |s| && s[j] == t[0];
    if i > 0 && j > 0 {
      assert le(t[0], t[i]) && le(s[0], s[j]);
      assert s[0] in s && t[0] in s;
    }
  }

  lemma TailOf<T>(s: seq<T>)
    requires s != []
    ensures multiset(s[1..]) == multiset(s) - multiset{s[0]}
  {
    assert s == [s[0]] + s[1..];
  }

  /** Without ties a list has one sorted arrangement. */
  lemma {:induction false} SortedArrangementIsUnique<T>(le: (T, T) -> bool, s: seq<T>, t: seq<T>)
    requires multiset(s) == multiset(t) && SortedBy(le, s) && SortedBy(le, t) && NoTies(le, s)
    ensures s == t
    decreases s
  {
    if s == [] {
      assert |t| == |multiset(s)|;
    } else {
      HeadsAgree(le, s, t);
      TailOf(s);
      TailOf(t);
      SortedArrangementIsUnique(le, s[1..], t[1..]);
      assert s == [s[0]] + s[1..] && t == [t[0]] + t[1..];
    }
  }
}

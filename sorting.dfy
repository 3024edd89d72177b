/** `Array.prototype.sort` with a numeric comparator `(a, b) => key(a) - key(b)`, modelled
    as an insertion sort on sequences. Its result is stated to be sorted and a permutation
    of the input; the stability ECMAScript 2019 requires is not stated. */
module Sorting {

  predicate SortedBy<T>(s: seq<T>, key: T -> real) {
    forall i, j :: 0 <= i < j < |s| ==> key(s[i]) <= key(s[j])
  }

  /** Places `x` after every element of `t` whose key is not greater than its own. */
  function Insert<T>(x: T, t: seq<T>, key: T -> real): (r: seq<T>)
    requires SortedBy(t, key)
    ensures SortedBy(r, key)
    ensures multiset(r) == multiset(t) + multiset{x}
    ensures |r| == |t| + 1
  {
    if t == [] then [x]
    else if key(t[|t| - 1]) <= key(x) then t + [x]
    else
      var init := t[..|t| - 1];
      assert t == init + [t[|t| - 1]];
      var ins := Insert(x, init, key);
      AllBelow(ins, x, init, key, t[|t| - 1]);
      ins + [t[|t| - 1]]
  }

  /** A rearrangement of `init` plus `x` stays below `last` when `init` and `x` do. */
  lemma AllBelow<T>(ins: seq<T>, x: T, init: seq<T>, key: T -> real, last: T)
    requires SortedBy(init + [last], key) && key(x) < key(last)
    requires SortedBy(ins, key) && multiset(ins) == multiset(init) + multiset{x}
    ensures SortedBy(ins + [last], key)
  {
    var s := init + [last];
    forall i | 0 <= i < |ins| ensures key(ins[i]) <= key(last) {
      assert ins[i] in multiset(ins);
      if ins[i] != x {
        assert ins[i] in multiset(init);
        var k :| 0 <= k < |init| && init[k] == ins[i];
        assert s[k] == ins[i] && s[|s| - 1] == last;
      }
    }
  }

  function SortBy<T>(s: seq<T>, key: T -> real): (r: seq<T>)
    ensures SortedBy(r, key)
    ensures multiset(r) == multiset(s)
    ensures |r| == |s|
  {
    if s == [] then []
    else
      assert s == s[..|s| - 1] + [s[|s| - 1]];
      Insert(s[|s| - 1], SortBy(s[..|s| - 1], key), key)
  }

  /** A sorted input is already in place. */
  lemma {:induction false} SortSortedIsIdentity<T>(s: seq<T>, key: T -> real)
    requires SortedBy(s, key)
    ensures SortBy(s, key) == s
  {
    if s != [] {
      var init := s[..|s| - 1];
      var x := s[|s| - 1];
      SortedInit(s, key);
      SortSortedIsIdentity(init, key);
      InsertAtEnd(x, init, key);
      assert s == init + [x];
    }
  }

  /** Dropping the last element keeps a list sorted, and that element has the largest key. */
  lemma SortedInit<T>(s: seq<T>, key: T -> real)
    requires SortedBy(s, key) && s != []
    ensures SortedBy(s[..|s| - 1], key)
    ensures |s| > 1 ==> key(s[..|s| - 1][|s| - 2]) <= key(s[|s| - 1])
  {
  }

  /** An element with the largest key goes last. */
  lemma InsertAtEnd<T>(x: T, t: seq<T>, key: T -> real)
    requires SortedBy(t, key) && (t == [] || key(t[|t| - 1]) <= key(x))
    ensures Insert(x, t, key) == t + [x]
  {
  }
}

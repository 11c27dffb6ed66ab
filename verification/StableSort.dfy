/** Python's sorted(): a stable sort by an arbitrary total preorder, with the facts about it that
    the engines rely on (what it keeps, when it is the identity, when its result is unique). */
module StableSort {

  ghost predicate TotalPreorder<T(!new)>(leq: (T, T) -> bool) {
    && (forall x, y :: leq(x, y) || leq(y, x))
    && (forall x, y, z :: leq(x, y) && leq(y, z) ==> leq(x, z))
  }

  ghost predicate Sorted<T>(s: seq<T>, leq: (T, T) -> bool) {
    forall i, j :: 0 <= i < j < |s| ==> leq(s[i], s[j])
  }

  /** Two elements of s that compare equal are the same element. */
  ghost predicate NoTies<T>(s: seq<T>, leq: (T, T) -> bool) {
    forall x, y :: x in s && y in s && leq(x, y) && leq(y, x) ==> x == y
  }

  function Insert<T>(x: T, s: seq<T>, leq: (T, T) -> bool): seq<T> {
    if s == [] || leq(x, s[0]) then [x] + s else [s[0]] + Insert(x, s[1..], leq)
  }

  function Sort<T>(s: seq<T>, leq: (T, T) -> bool): seq<T> {
    if s == [] then [] else Insert(s[0], Sort(s[1..], leq), leq)
  }

  function Filter<T(!new)>(s: seq<T>, keep: T -> bool): (r: seq<T>)
    ensures forall x :: x in r <==> x in s && keep(x)
    ensures |r| <= |s|
  {
    if s == [] then []
    else if keep(s[0]) then [s[0]] + Filter(s[1..], keep)
    else Filter(s[1..], keep)
  }

  function Reverse<T>(s: seq<T>): (r: seq<T>)
    ensures |r| == |s| && forall i :: 0 <= i < |s| ==> r[i] == s[|s| - 1 - i]
  {
    seq(|s|, i requires 0 <= i < |s| => s[|s| - 1 - i])
  }

  lemma {:induction false} InsertKeeps<T>(x: T, s: seq<T>, leq: (T, T) -> bool)
    ensures multiset(Insert(x, s, leq)) == multiset(s) + multiset{x}
  {
    if s != [] && !leq(x, s[0]) {
      InsertKeeps(x, s[1..], leq);
      assert s == [s[0]] + s[1..];
    }
  }

  lemma {:induction false} SortKeeps<T>(s: seq<T>, leq: (T, T) -> bool)
    ensures multiset(Sort(s, leq)) == multiset(s)
    ensures |Sort(s, leq)| == |s|
    ensures forall x :: x in Sort(s, leq) <==> x in s
  {
    if s != [] {
      SortKeeps(s[1..], leq);
      InsertKeeps(s[0], Sort(s[1..], leq), leq);
      assert s == [s[0]] + s[1..];
    }
    SameMultisetSameElements(Sort(s, leq), s);
  }

  lemma SameMultisetSameElements<T>(s: seq<T>, t: seq<T>)
    requires multiset(s) == multiset(t)
    ensures |s| == |t|
    ensures forall x :: x in s <==> x in t
  {
    assert |s| == |multiset(s)| == |multiset(t)| == |t|;
    assert forall x :: x in s <==> x in multiset(s);
    assert forall x :: x in t <==> x in multiset(t);
  }

  lemma {:induction false} InsertSorts<T(!new)>(x: T, s: seq<T>, leq: (T, T) -> bool)
    requires TotalPreorder(leq) && Sorted(s, leq)
    ensures Sorted(Insert(x, s, leq), leq)
  {
    if s != [] && !leq(x, s[0]) {
      InsertSorts(x, s[1..], leq);
      InsertKeeps(x, s[1..], leq);
      var r := Insert(x, s[1..], leq);
      forall y | y in r ensures leq(s[0], y) {
        assert y in multiset(r);
        assert y == x || y in s[1..];
      }
    }
  }

  lemma {:induction false} SortSorts<T(!new)>(s: seq<T>, leq: (T, T) -> bool)
    requires TotalPreorder(leq)
    ensures Sorted(Sort(s, leq), leq)
  {
    if s != [] {
      SortSorts(s[1..], leq);
      InsertSorts(s[0], Sort(s[1..], leq), leq);
    }
  }

  /** A stable sort leaves a sequence that is already in order alone; in particular one whose
      elements all compare equal. */
  lemma {:induction false} SortIdentity<T>(s: seq<T>, leq: (T, T) -> bool)
    requires Sorted(s, leq)
    ensures Sort(s, leq) == s
  {
    if s != [] {
      SortIdentity(s[1..], leq);
      assert s == [s[0]] + s[1..];
    }
  }

  /** Sorting and then picking is picking and then sorting: the sort is stable. */
  lemma {:induction false} FilterSort<T(!new)>(s: seq<T>, leq: (T, T) -> bool, keep: T -> bool)
    requires TotalPreorder(leq)
    ensures Filter(Sort(s, leq), keep) == Sort(Filter(s, keep), leq)
  {
    if s != [] {
      FilterSort(s[1..], leq, keep);
      SortSorts(s[1..], leq);
      FilterInsert(s[0], Sort(s[1..], leq), leq, keep);
    }
  }

  lemma {:induction false} FilterInsert<T(!new)>(x: T, s: seq<T>, leq: (T, T) -> bool, keep: T -> bool)
    requires TotalPreorder(leq) && Sorted(s, leq)
    ensures Filter(Insert(x, s, leq), keep) ==
            if keep(x) then Insert(x, Filter(s, keep), leq) else Filter(s, keep)
  {
    if s == [] {
    } else if leq(x, s[0]) {
      InsertInFront(x, Filter(s, keep), leq);
    } else {
      FilterInsert(x, s[1..], leq, keep);
    }
  }

  lemma InsertInFront<T>(x: T, s: seq<T>, leq: (T, T) -> bool)
    requires forall y :: y in s ==> leq(x, y)
    ensures Insert(x, s, leq) == [x] + s
  {
    if s != [] {
      assert s[0] in s;
    }
  }

  lemma TailMultiset<T>(s: seq<T>)
    requires s != []
    ensures multiset(s[1..]) == multiset(s) - multiset{s[0]}
    ensures forall x :: x in s[1..] ==> x in s
  {
    assert s == [s[0]] + s[1..];
  }

  /** Without ties there is only one sorted arrangement. */
  lemma {:induction false} SortedUnique<T>(s: seq<T>, t: seq<T>, leq: (T, T) -> bool)
    requires multiset(s) == multiset(t) && NoTies(s, leq)
    requires Sorted(s, leq) && Sorted(t, leq)
    ensures s == t
  {
    SameMultisetSameElements(s, t);
    if s != [] {
      assert s[0] in t && t[0] in s;
      assert s[0] == t[0];
      TailMultiset(s);
      TailMultiset(t);
      SortedUnique(s[1..], t[1..], leq);
    }
  }

  lemma {:induction false} ReverseKeeps<T>(s: seq<T>)
    ensures multiset(Reverse(s)) == multiset(s)
  {
    if s != [] {
      ReverseKeeps(s[1..]);
      assert s == [s[0]] + s[1..];
      assert Reverse(s) == Reverse(s[1..]) + [s[0]];
    }
  }

  lemma {:induction false} FilterAppend<T(!new)>(s: seq<T>, x: T, keep: T -> bool)
    ensures Filter(s + [x], keep) == Filter(s, keep) + if keep(x) then [x] else []
  {
    if s == [] {
      assert s + [x] == [x] && [x][1..] == [];
    } else {
      assert (s + [x])[1..] == s[1..] + [x];
      FilterAppend(s[1..], x, keep);
    }
  }

  lemma FilterFront<T(!new)>(x: T, s: seq<T>, keep: T -> bool)
    ensures Filter([x] + s, keep) == (if keep(x) then [x] else []) + Filter(s, keep)
    ensures Filter<T>([], keep) == []
  {
    assert ([x] + s)[1..] == s;
  }

  lemma {:induction false} FilterPlus<T(!new)>(a: seq<T>, b: seq<T>, keep: T -> bool)
    ensures Filter(a + b, keep) == Filter(a, keep) + Filter(b, keep)
  {
    hide Filter;
    if a == [] {
      assert a + b == b;
      FilterNone<T>([], keep);
    } else {
      var x, rest := a[0], a[1..];
      FilterPlus(rest, b, keep);
      FilterFront(x, rest, keep);
      FilterFront(x, rest + b, keep);
      assert a == [x] + rest;
      Regrouped([x], rest, b, a);
      Regrouped(if keep(x) then [x] else [], Filter(rest, keep), Filter(b, keep), Filter(a, keep));
    }
  }

  lemma Regrouped<T>(x: seq<T>, y: seq<T>, z: seq<T>, xy: seq<T>)
    requires xy == x + y
    ensures xy + z == x + (y + z)
  {
  }

  lemma {:induction false} FilterAll<T(!new)>(s: seq<T>, keep: T -> bool)
    requires forall x :: x in s ==> keep(x)
    ensures Filter(s, keep) == s
  {
    if s != [] {
      FilterAll(s[1..], keep);
    }
  }

  lemma {:induction false} FilterNone<T(!new)>(s: seq<T>, keep: T -> bool)
    requires forall x :: x in s ==> !keep(x)
    ensures Filter(s, keep) == []
  {
    if s != [] {
      FilterNone(s[1..], keep);
    }
  }

  lemma ReverseTwice<T>(s: seq<T>)
    ensures Reverse(Reverse(s)) == s
  {
  }

  // ---- What does not depend on the order of the input ----

  lemma {:induction false} FilterCounts<T(!new)>(s: seq<T>, keep: T -> bool, x: T)
    ensures multiset(Filter(s, keep))[x] == if keep(x) then multiset(s)[x] else 0
  {
    if s != [] {
      FilterCounts(s[1..], keep, x);
      assert s == [s[0]] + s[1..];
    }
  }

  lemma FilterOfPermutation<T(!new)>(s: seq<T>, t: seq<T>, keep: T -> bool)
    requires multiset(s) == multiset(t)
    ensures multiset(Filter(s, keep)) == multiset(Filter(t, keep))
  {
    forall x ensures multiset(Filter(s, keep))[x] == multiset(Filter(t, keep))[x] {
      FilterCounts(s, keep, x);
      FilterCounts(t, keep, x);
    }
  }

  lemma TwiceInCountsTwo<T>(s: seq<T>, i: nat, j: nat)
    requires i < j < |s| && s[i] == s[j]
    ensures multiset(s)[s[i]] >= 2
  {
    assert s == s[..j] + s[j..];
    assert s[i] in s[..j] && s[i] in s[j..];
    assert multiset(s) == multiset(s[..j]) + multiset(s[j..]);
  }

  /** No element occurs twice. */
  ghost predicate NoRepeats<T(!new)>(s: seq<T>) {
    forall x :: multiset(s)[x] <= 1
  }
}

/** Python's ordering of strings, by code point. */
module Lexicographic {

  predicate Leq(a: string, b: string) {
    a == [] || (b != [] && (a[0] < b[0] || (a[0] == b[0] && Leq(a[1..], b[1..]))))
  }

  /** A string comes before another when it is a prefix of it, or smaller where they first differ. */
  lemma {:induction false} FirstDifference(a: string, b: string, n: nat)
    requires n <= |a| && n <= |b| && a[..n] == b[..n]
    requires n == |a| || n == |b| || a[n] != b[n]
    ensures Leq(a, b) <==> n == |a| || (n < |b| && a[n] < b[n])
    decreases n
  {
    if n > 0 {
      assert a[0] == a[..n][0] == b[..n][0] == b[0];
      assert a[1..][..n - 1] == a[..n][1..] == b[..n][1..] == b[1..][..n - 1];
      FirstDifference(a[1..], b[1..], n - 1);
    }
  }

  lemma {:induction false} Total(a: string, b: string)
    ensures Leq(a, b) || Leq(b, a)
  {
    if a != [] && b != [] {
      Total(a[1..], b[1..]);
    }
  }

  lemma {:induction false} Transitive(a: string, b: string, c: string)
    requires Leq(a, b) && Leq(b, c)
    ensures Leq(a, c)
  {
    if a != [] && a[0] == b[0] == c[0] {
      Transitive(a[1..], b[1..], c[1..]);
    }
  }

  lemma {:induction false} Antisymmetric(a: string, b: string)
    requires Leq(a, b) && Leq(b, a)
    ensures a == b
  {
    if a != [] {
      Antisymmetric(a[1..], b[1..]);
      assert a == [a[0]] + a[1..] && b == [b[0]] + b[1..];
    }
  }
}

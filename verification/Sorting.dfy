/** A stable sort and the facts about sorted sequences that the ranking and the signal lists rest on. */
module Sorting {

  /** A reflexive comparison that is total and transitive, as a sort key gives. */
  ghost predicate TotalPreorder<T(!new)>(le: (T, T) -> bool) {
    && (forall x, y :: le(x, y) || le(y, x))
    && (forall x, y, z :: le(x, y) && le(y, z) ==> le(x, z))
  }

  ghost predicate Antisymmetric<T(!new)>(le: (T, T) -> bool) {
    forall x, y :: le(x, y) && le(y, x) ==> x == y
  }

  ghost predicate Sorted<T>(xs: seq<T>, le: (T, T) -> bool) {
    forall i, j :: 0 <= i < j < |xs| ==> le(xs[i], xs[j])
  }

  function Insert<T>(x: T, xs: seq<T>, le: (T, T) -> bool): seq<T> {
    if |xs| == 0 then [x]
    else if le(x, xs[0]) then [x] + xs
    else [xs[0]] + Insert(x, xs[1..], le)
  }

  /** Stable: of two elements that compare equal, the earlier one stays earlier. */
  function Sort<T>(xs: seq<T>, le: (T, T) -> bool): seq<T> {
    if |xs| == 0 then [] else Insert(xs[0], Sort(xs[1..], le), le)
  }

  lemma {:induction false} InsertKeepsElements<T>(x: T, xs: seq<T>, le: (T, T) -> bool)
    ensures multiset(Insert(x, xs, le)) == multiset{x} + multiset(xs)
    ensures |Insert(x, xs, le)| == |xs| + 1
  {
    if |xs| > 0 {
      assert xs == [xs[0]] + xs[1..];
      if !le(x, xs[0]) {
        InsertKeepsElements(x, xs[1..], le);
      }
    }
  }

  lemma {:induction false} InsertKeepsSorted<T(!new)>(x: T, xs: seq<T>, le: (T, T) -> bool)
    requires TotalPreorder(le) && Sorted(xs, le)
    ensures Sorted(Insert(x, xs, le), le)
  {
    if |xs| > 0 && !le(x, xs[0]) {
      InsertKeepsSorted(x, xs[1..], le);
      InsertKeepsElements(x, xs[1..], le);
      var rest := Insert(x, xs[1..], le);
      forall k | 0 <= k < |rest| ensures le(xs[0], rest[k]) {
        assert rest[k] in multiset(rest);
        if rest[k] != x {
          assert rest[k] in multiset(xs[1..]);
        }
      }
    }
  }

  lemma {:induction false} SortKeepsElements<T>(xs: seq<T>, le: (T, T) -> bool)
    ensures multiset(Sort(xs, le)) == multiset(xs)
    ensures |Sort(xs, le)| == |xs|
  {
    if |xs| > 0 {
      assert xs == [xs[0]] + xs[1..];
      SortKeepsElements(xs[1..], le);
      InsertKeepsElements(xs[0], Sort(xs[1..], le), le);
    }
  }

  lemma {:induction false} SortIsSorted<T(!new)>(xs: seq<T>, le: (T, T) -> bool)
    requires TotalPreorder(le)
    ensures Sorted(Sort(xs, le), le)
  {
    if |xs| > 0 {
      SortIsSorted(xs[1..], le);
      InsertKeepsSorted(xs[0], Sort(xs[1..], le), le);
    }
  }

  lemma SortedConcat<T>(a: seq<T>, b: seq<T>, le: (T, T) -> bool)
    requires Sorted(a, le) && Sorted(b, le) && forall x, y :: x in a && y in b ==> le(x, y)
    ensures Sorted(a + b, le)
  {
  }

  /** Sorting leaves a sorted sequence as it is. */
  lemma {:induction false} SortedStays<T>(xs: seq<T>, le: (T, T) -> bool)
    requires Sorted(xs, le)
    ensures Sort(xs, le) == xs
  {
    if |xs| > 0 {
      SortedStays(xs[1..], le);
      assert xs == [xs[0]] + xs[1..];
    }
  }

  lemma SameMembers<T>(xs: seq<T>, ys: seq<T>)
    requires multiset(xs) == multiset(ys)
    ensures |xs| == |ys|
    ensures forall x :: x in xs <==> x in ys
  {
    assert |multiset(xs)| == |multiset(ys)|;
    forall x ensures x in xs <==> x in ys {
      assert x in xs <==> x in multiset(xs);
      assert x in ys <==> x in multiset(ys);
    }
  }

  /** The sequence with position `k` left out. */
  function Without<T>(xs: seq<T>, k: nat): (rest: seq<T>)
    requires k < |xs|
    ensures |rest| == |xs| - 1
  {
    xs[..k] + xs[k + 1..]
  }

  lemma WithoutDropsOne<T>(xs: seq<T>, k: nat)
    requires k < |xs|
    ensures multiset(Without(xs, k)) == multiset(xs) - multiset{xs[k]}
    ensures forall x :: x in xs && x != xs[k] ==> x in Without(xs, k)
    ensures forall x :: x in Without(xs, k) ==> x in xs
  {
    assert xs == xs[..k] + ([xs[k]] + xs[k + 1..]);
    forall x | x in xs && x != xs[k] ensures x in Without(xs, k) {
      var j :| 0 <= j < |xs| && xs[j] == x;
      assert Without(xs, k)[if j < k then j else j - 1] == x;
    }
  }

  lemma TailLosesHead<T>(xs: seq<T>)
    requires |xs| > 0
    ensures multiset(xs[1..]) == multiset(xs) - multiset{xs[0]}
  {
    assert xs == [xs[0]] + xs[1..];
  }

  lemma HeadsMeet<T(!new)>(xs: seq<T>, ys: seq<T>, le: (T, T) -> bool)
    requires Antisymmetric(le) && Sorted(xs, le) && Sorted(ys, le)
    requires |xs| > 0 && |ys| > 0 && xs[0] in ys && ys[0] in xs
    ensures xs[0] == ys[0]
  {
    var i :| 0 <= i < |xs| && xs[i] == ys[0];
    var j :| 0 <= j < |ys| && ys[j] == xs[0];
  }

  /** Under an antisymmetric order a multiset has only one sorted arrangement. */
  lemma {:induction false} SortedIsUnique<T(!new)>(xs: seq<T>, ys: seq<T>, le: (T, T) -> bool)
    requires Antisymmetric(le)
    requires Sorted(xs, le) && Sorted(ys, le) && multiset(xs) == multiset(ys)
    ensures xs == ys
  {
    hide Antisymmetric;
    SameMembers(xs, ys);
    if |xs| > 0 {
      HeadsMeet(xs, ys, le);
      TailLosesHead(xs);
      TailLosesHead(ys);
      SortedIsUnique(xs[1..], ys[1..], le);
      assert xs == [xs[0]] + xs[1..] && ys == [ys[0]] + ys[1..];
    }
  }

  ghost predicate StrictOrder<T(!new)>(lt: (T, T) -> bool) {
    && (forall x :: !lt(x, x))
    && (forall x, y, z :: lt(x, y) && lt(y, z) ==> lt(x, z))
  }

  ghost predicate Ascending<T>(xs: seq<T>, lt: (T, T) -> bool) {
    forall i, j :: 0 <= i < j < |xs| ==> lt(xs[i], xs[j])
  }

  /** Strictly ascending sequences with the same members are equal. */
  lemma {:induction false} AscendingIsUnique<T(!new)>(xs: seq<T>, ys: seq<T>, lt: (T, T) -> bool)
    requires StrictOrder(lt) && Ascending(xs, lt) && Ascending(ys, lt)
    requires forall x :: x in xs <==> x in ys
    ensures xs == ys
  {
    if |xs| > 0 {
      assert xs[0] in ys;
    }
    if |ys| > 0 {
      assert ys[0] in xs;
    }
    if |xs| > 0 {
      assert xs[0] == ys[0];
      forall x ensures x in xs[1..] <==> x in ys[1..] {
        assert x in xs[1..] <==> x in xs && x != xs[0];
        assert x in ys[1..] <==> x in ys && x != ys[0];
      }
      AscendingIsUnique(xs[1..], ys[1..], lt);
      assert xs == [xs[0]] + xs[1..] && ys == [ys[0]] + ys[1..];
    }
  }

  predicate Distinct<T(==)>(xs: seq<T>) {
    forall i, j :: 0 <= i < j < |xs| ==> xs[i] != xs[j]
  }

  lemma {:induction false} DistinctMultiset<T>(xs: seq<T>)
    requires Distinct(xs)
    ensures forall x :: multiset(xs)[x] == if x in xs then 1 else 0
  {
    if |xs| > 0 {
      assert xs == [xs[0]] + xs[1..];
      DistinctMultiset(xs[1..]);
    }
  }

  /** Keys that are pairwise different stay so under any rearrangement. */
  lemma DistinctKeysForgetOrder<T, K>(a: seq<T>, b: seq<T>, key: T -> K)
    requires multiset(a) == multiset(b)
    requires forall i, j :: 0 <= i < j < |a| ==> key(a[i]) != key(a[j])
    ensures forall i, j :: 0 <= i < j < |b| ==> key(b[i]) != key(b[j])
  {
    SameMembers(a, b);
    forall i, j | 0 <= i < j < |b| ensures key(b[i]) != key(b[j]) {
      assert b[i] in a && b[j] in a;
      if b[i] == b[j] {
        TwiceInMultiset(b, i, j);
        DistinctMultiset(a);
        assert false;
      }
    }
  }

  lemma TwiceInMultiset<T>(b: seq<T>, i: nat, j: nat)
    requires i < j < |b| && b[i] == b[j]
    ensures multiset(b)[b[i]] >= 2
  {
    assert b == b[..i] + [b[i]] + b[i + 1..j] + [b[j]] + b[j + 1..];
  }

  // Counting

  function Count<T>(xs: seq<T>, p: T -> bool): nat {
    if |xs| == 0 then 0 else (if p(xs[0]) then 1 else 0) + Count(xs[1..], p)
  }

  lemma {:induction false} CountConcat<T>(a: seq<T>, b: seq<T>, p: T -> bool)
    ensures Count(a + b, p) == Count(a, p) + Count(b, p)
  {
    if |a| == 0 {
      assert a + b == b;
    } else {
      assert (a + b)[1..] == a[1..] + b;
      CountConcat(a[1..], b, p);
    }
  }

  lemma {:induction false} CountWithout<T>(xs: seq<T>, k: nat, p: T -> bool)
    requires k < |xs|
    ensures Count(xs, p) == Count(Without(xs, k), p) + (if p(xs[k]) then 1 else 0)
  {
    if k == 0 {
      assert Without(xs, k) == xs[1..];
    } else {
      assert Without(xs, k)[1..] == Without(xs[1..], k - 1);
      CountWithout(xs[1..], k - 1, p);
    }
  }

  lemma {:induction false} CountUpdate<T>(xs: seq<T>, k: nat, y: T, p: T -> bool)
    requires k < |xs|
    ensures Count(xs[k := y], p) + (if p(xs[k]) then 1 else 0) == Count(xs, p) + (if p(y) then 1 else 0)
  {
    if k == 0 {
      assert xs[k := y][1..] == xs[1..];
    } else {
      assert xs[k := y][1..] == xs[1..][k - 1 := y];
      CountUpdate(xs[1..], k - 1, y, p);
    }
  }

  /** A count sees the sequence as a multiset. */
  lemma {:induction false} CountForgetsOrder<T>(a: seq<T>, b: seq<T>, p: T -> bool)
    requires multiset(a) == multiset(b)
    ensures Count(a, p) == Count(b, p)
  {
    SameMembers(a, b);
    if |a| > 0 {
      assert a[0] in b;
      var k :| 0 <= k < |b| && b[k] == a[0];
      WithoutDropsOne(a, 0);
      WithoutDropsOne(b, k);
      CountWithout(a, 0, p);
      CountWithout(b, k, p);
      CountForgetsOrder(Without(a, 0), Without(b, k), p);
    }
  }

  lemma {:induction false} CountMonotone<S, T>(xs: seq<S>, ys: seq<T>, p: S -> bool, q: T -> bool)
    requires |xs| == |ys| && forall i :: 0 <= i < |xs| && p(xs[i]) ==> q(ys[i])
    ensures Count(xs, p) <= Count(ys, q)
  {
    if |xs| > 0 {
      CountMonotone(xs[1..], ys[1..], p, q);
    }
  }

  lemma {:induction false} CountPrefix<T>(xs: seq<T>, k: nat, p: T -> bool)
    requires k <= |xs| && forall i :: 0 <= i < |xs| ==> (p(xs[i]) <==> i < k)
    ensures Count(xs, p) == k
  {
    if |xs| > 0 {
      CountPrefix(xs[1..], if k == 0 then 0 else k - 1, p);
    }
  }

  lemma {:induction false} CountSuffix<T>(xs: seq<T>, k: nat, p: T -> bool)
    requires k <= |xs| && forall i :: 0 <= i < |xs| ==> (p(xs[i]) <==> k <= i)
    ensures Count(xs, p) == |xs| - k
  {
    if |xs| > 0 {
      CountSuffix(xs[1..], if k == 0 then 0 else k - 1, p);
    }
  }

  lemma {:induction false} CountDisjoint<T>(xs: seq<T>, p: T -> bool, q: T -> bool)
    requires forall x :: x in xs ==> !(p(x) && q(x))
    ensures Count(xs, p) + Count(xs, q) <= |xs|
  {
    if |xs| > 0 {
      assert xs[0] in xs;
      CountDisjoint(xs[1..], p, q);
    }
  }
}

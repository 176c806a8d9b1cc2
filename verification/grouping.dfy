/** Sums and counts over groups of records; grouping by any key loses nothing. */
module Grouping {

  function SumOf<T>(f: T -> real, s: seq<T>): real {
    if s == [] then 0.0 else f(s[0]) + SumOf(f, s[1..])
  }

  /** The sum over the elements whose key is k. */
  function GroupSum<T, K(==)>(f: T -> real, key: T -> K, k: K, s: seq<T>): real {
    if s == [] then 0.0
    else (if key(s[0]) == k then f(s[0]) else 0.0) + GroupSum(f, key, k, s[1..])
  }

  /** How many elements with key k pass the test. */
  function GroupCount<T, K(==)>(test: T -> bool, key: T -> K, k: K, s: seq<T>): nat {
    if s == [] then 0
    else (if key(s[0]) == k && test(s[0]) then 1 else 0) + GroupCount(test, key, k, s[1..])
  }

  function GroupOf<T, K(==)>(key: T -> K, k: K, s: seq<T>): seq<T> {
    if s == [] then []
    else (if key(s[0]) == k then [s[0]] else []) + GroupOf(key, k, s[1..])
  }

  function SumOverKeys<T, K(==)>(f: T -> real, key: T -> K, keys: seq<K>, s: seq<T>): real {
    if keys == [] then 0.0 else GroupSum(f, key, keys[0], s) + SumOverKeys(f, key, keys[1..], s)
  }

  function CountOverKeys<T, K(==)>(test: T -> bool, key: T -> K, keys: seq<K>, s: seq<T>): nat {
    if keys == [] then 0 else GroupCount(test, key, keys[0], s) + CountOverKeys(test, key, keys[1..], s)
  }

  ghost predicate Distinct<K>(keys: seq<K>) {
    forall i, j | 0 <= i < j < |keys| :: keys[i] != keys[j]
  }

  lemma {:induction false} OneElementOverKeys<T, K>(f: T -> real, test: T -> bool, key: T -> K, keys: seq<K>, s: seq<T>)
    requires Distinct(keys) && s != []
    ensures SumOverKeys(f, key, keys, s)
            == (if key(s[0]) in keys then f(s[0]) else 0.0) + SumOverKeys(f, key, keys, s[1..])
    ensures CountOverKeys(test, key, keys, s)
            == (if key(s[0]) in keys && test(s[0]) then 1 else 0) + CountOverKeys(test, key, keys, s[1..])
  {
    if keys != [] {
      OneElementOverKeys(f, test, key, keys[1..], s);
      assert keys == [keys[0]] + keys[1..];
      assert keys[0] !in keys[1..];
    }
  }

  lemma {:induction false} NoElementsOverKeys<T, K>(f: T -> real, test: T -> bool, key: T -> K, keys: seq<K>)
    ensures SumOverKeys(f, key, keys, []) == 0.0
    ensures CountOverKeys(test, key, keys, []) == 0
  {
    if keys != [] {
      NoElementsOverKeys(f, test, key, keys[1..]);
    }
  }

  /** Summing or counting group by group over distinct keys that cover everything gives the whole. */
  lemma {:induction false} GroupsMakeTheWhole<T, K>(f: T -> real, test: T -> bool, key: T -> K, keys: seq<K>, s: seq<T>)
    requires Distinct(keys)
    requires forall i | 0 <= i < |s| :: key(s[i]) in keys
    ensures SumOverKeys(f, key, keys, s) == SumOf(f, s)
    ensures CountOverKeys(test, key, keys, s) == Count(test, s)
  {
    if s == [] {
      NoElementsOverKeys(f, test, key, keys);
    } else {
      OneElementOverKeys(f, test, key, keys, s);
      GroupsMakeTheWhole(f, test, key, keys, s[1..]);
    }
  }

  /** Counting over distinct keys counts everything, if what has no key among them fails the test. */
  lemma {:induction false} GroupsCountTheListed<T, K>(test: T -> bool, key: T -> K, keys: seq<K>, s: seq<T>)
    requires Distinct(keys)
    requires forall i | 0 <= i < |s| :: key(s[i]) in keys || !test(s[i])
    ensures CountOverKeys(test, key, keys, s) == Count(test, s)
  {
    if s == [] {
      NoElementsOverKeys((x: T) => 0.0, test, key, keys);
    } else {
      OneElementOverKeys((x: T) => 0.0, test, key, keys, s);
      GroupsCountTheListed(test, key, keys, s[1..]);
    }
  }

  function Count<T>(test: T -> bool, s: seq<T>): nat {
    if s == [] then 0 else (if test(s[0]) then 1 else 0) + Count(test, s[1..])
  }

  lemma {:induction false} GroupCounts<T, K>(test: T -> bool, key: T -> K, k: K, s: seq<T>)
    ensures GroupCount(test, key, k, s) == Count(test, GroupOf(key, k, s))
  {
    if s != [] {
      GroupCounts(test, key, k, s[1..]);
      if key(s[0]) == k {
        assert GroupOf(key, k, s)[1..] == GroupOf(key, k, s[1..]);
      } else {
        assert GroupOf(key, k, s) == GroupOf(key, k, s[1..]);
      }
    }
  }

  lemma {:induction false} GroupHolds<T, K>(key: T -> K, k: K, s: seq<T>)
    ensures forall x :: x in GroupOf(key, k, s) <==> x in s && key(x) == k
  {
    if s != [] {
      GroupHolds(key, k, s[1..]);
      assert s == [s[0]] + s[1..];
    }
  }

  /** A count depends only on which elements there are, and how often. */
  lemma {:induction false} CountIgnoresOrder<T>(test: T -> bool, a: seq<T>, b: seq<T>)
    requires multiset(a) == multiset(b)
    ensures Count(test, a) == Count(test, b)
    decreases |a|
  {
    assert |multiset(a)| == |a| && |multiset(b)| == |b|;
    if a != [] {
      var i := PlaceOf(a[0], b);
      var x, front, back := a[0], b[..i], b[i + 1..];
      SplitAt(b, i);
      MultisetWithoutOne(front, x, back);
      assert a == [x] + a[1..];
      assert multiset(a[1..]) == multiset(a) - multiset{x};
      CountIgnoresOrder(test, a[1..], front + back);
      CountWithoutOne(test, front, x, back);
    }
  }

  lemma SplitAt<T>(s: seq<T>, i: nat)
    requires i < |s|
    ensures s == s[..i] + ([s[i]] + s[i + 1..])
  {
  }

  lemma CountWithoutOne<T>(test: T -> bool, front: seq<T>, x: T, back: seq<T>)
    ensures Count(test, front + ([x] + back)) == Count(test, front + back) + if test(x) then 1 else 0
  {
    CountConcat(test, front, back);
    CountConcat(test, front, [x] + back);
    assert ([x] + back)[1..] == back;
  }

  lemma MultisetWithoutOne<T>(front: seq<T>, x: T, back: seq<T>)
    ensures multiset(front + back) == multiset(front + ([x] + back)) - multiset{x}
  {
  }

  lemma PlaceOf<T>(x: T, s: seq<T>) returns (i: nat)
    requires x in multiset(s)
    ensures i < |s| && s[i] == x
  {
    assert x in s;
    i :| i < |s| && s[i] == x;
  }

  lemma {:induction false} CountConcat<T>(test: T -> bool, a: seq<T>, b: seq<T>)
    ensures Count(test, a + b) == Count(test, a) + Count(test, b)
  {
    if a == [] {
      assert a + b == b;
    } else {
      assert (a + b)[1..] == a[1..] + b;
      CountConcat(test, a[1..], b);
    }
  }

  predicate Anything<T>(x: T) { true }

  lemma {:induction false} AnythingCounts<T>(s: seq<T>)
    ensures Count(Anything, s) == |s|
  {
    if s != [] {
      AnythingCounts(s[1..]);
    }
  }

  /** A stretch whose elements all pass is no longer than the count. */
  lemma {:induction false} CountOfStretch<T>(test: T -> bool, s: seq<T>, from: nat, until: nat)
    requires from <= until <= |s|
    requires forall i | from <= i < until :: test(s[i])
    ensures Count(test, s) >= until - from
    decreases |s|
  {
    if until > 0 {
      CountOfStretch(test, s[1..], if from > 0 then from - 1 else 0, until - 1);
    }
  }

  // ----- multiples and rates -----

  /** The sum of n copies of x. */
  function Times(n: nat, x: real): real {
    if n == 0 then 0.0 else x + Times(n - 1, x)
  }

  lemma {:induction false} TimesIsProduct(n: nat, x: real)
    ensures Times(n, x) == n as real * x
  {
    if n > 0 {
      TimesIsProduct(n - 1, x);
      assert n as real * x == (n - 1) as real * x + x;
    }
  }

  lemma {:induction false} TimesAdds(m: nat, n: nat, x: real)
    ensures Times(m + n, x) == Times(m, x) + Times(n, x)
  {
    if m > 0 {
      TimesAdds(m - 1, n, x);
    }
  }

  /** A rate is bounded exactly when its count is bounded by that many copies of the bound. */
  lemma RateBound(count: nat, n: nat, bound: real)
    requires n > 0
    ensures count as real / n as real <= bound <==> count as real <= Times(n, bound)
    ensures count as real / n as real >= bound <==> count as real >= Times(n, bound)
  {
    TimesIsProduct(n, bound);
    QuotientBound(count as real, n as real, bound);
  }

  lemma QuotientBound(c: real, n: real, bound: real)
    requires n > 0.0
    ensures c / n <= bound <==> c <= n * bound
    ensures c / n >= bound <==> c >= n * bound
  {
    var rate := c / n;
    assert rate * n == c;
    assert (bound - rate) * n == n * bound - c;
  }

  lemma {:induction false} CountOfSameTest<T>(p: T -> bool, q: T -> bool, s: seq<T>)
    requires forall i | 0 <= i < |s| :: p(s[i]) == q(s[i])
    ensures Count(p, s) == Count(q, s)
  {
    if s != [] {
      CountOfSameTest(p, q, s[1..]);
    }
  }

  /** A group holds the elements that the test tells to have its key. */
  lemma {:induction false} GroupSize<T, K>(key: T -> K, k: K, test: T -> bool, s: seq<T>)
    requires forall i | 0 <= i < |s| :: test(s[i]) <==> key(s[i]) == k
    ensures |GroupOf(key, k, s)| == Count(test, s)
  {
    if s != [] {
      GroupSize(key, k, test, s[1..]);
    }
  }
}

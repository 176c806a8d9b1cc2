/** Sorting by any total order, sorting of reals, and listing a finite set in order. */
module Ordering {

  ghost predicate TotalOrder<T(!new)>(leq: (T, T) -> bool) {
    && (forall x :: leq(x, x))
    && (forall x, y :: leq(x, y) || leq(y, x))
    && (forall x, y :: leq(x, y) && leq(y, x) ==> x == y)
    && (forall x, y, z :: leq(x, y) && leq(y, z) ==> leq(x, z))
  }

  ghost predicate InOrder<T(!new)>(leq: (T, T) -> bool, s: seq<T>) {
    forall i, j | 0 <= i < j < |s| :: leq(s[i], s[j])
  }

  function InsertBy<T>(leq: (T, T) -> bool, x: T, s: seq<T>): seq<T> {
    if s == [] || leq(x, s[0]) then [x] + s else [s[0]] + InsertBy(leq, x, s[1..])
  }

  function SortBy<T>(leq: (T, T) -> bool, s: seq<T>): seq<T> {
    if s == [] then [] else InsertBy(leq, s[0], SortBy(leq, s[1..]))
  }

  lemma {:induction false} InsertAdds<T>(leq: (T, T) -> bool, x: T, s: seq<T>)
    ensures multiset(InsertBy(leq, x, s)) == multiset{x} + multiset(s)
    ensures |InsertBy(leq, x, s)| == |s| + 1
  {
    if s != [] && !leq(x, s[0]) {
      InsertAdds(leq, x, s[1..]);
      assert s == [s[0]] + s[1..];
    }
  }

  ghost predicate Leads<T(!new)>(leq: (T, T) -> bool, x: T, s: seq<T>) {
    forall i | 0 <= i < |s| :: leq(x, s[i])
  }

  lemma InOrderCons<T(!new)>(leq: (T, T) -> bool, x: T, s: seq<T>)
    requires InOrder(leq, s) && Leads(leq, x, s)
    ensures InOrder(leq, [x] + s)
  {
  }

  lemma {:induction false} InsertKeeps<T(!new)>(leq: (T, T) -> bool, x: T, s: seq<T>)
    requires TotalOrder(leq) && InOrder(leq, s)
    ensures InOrder(leq, InsertBy(leq, x, s))
    ensures forall y :: leq(y, x) && Leads(leq, y, s) ==> Leads(leq, y, InsertBy(leq, x, s))
  {
    if s == [] || leq(x, s[0]) {
      InOrderCons(leq, x, s);
    } else {
      InsertKeeps(leq, x, s[1..]);
      InOrderCons(leq, s[0], InsertBy(leq, x, s[1..]));
    }
  }

  /** Sorting orders the elements and keeps each as often as it occurs. */
  lemma {:induction false} SortByKeeps<T(!new)>(leq: (T, T) -> bool, s: seq<T>)
    requires TotalOrder(leq)
    ensures InOrder(leq, SortBy(leq, s)) && multiset(SortBy(leq, s)) == multiset(s) && |SortBy(leq, s)| == |s|
  {
    if s != [] {
      SortByKeeps(leq, s[1..]);
      InsertKeeps(leq, s[0], SortBy(leq, s[1..]));
      InsertAdds(leq, s[0], SortBy(leq, s[1..]));
      assert s == [s[0]] + s[1..];
    }
  }

  lemma SameFirst<T(!new)>(leq: (T, T) -> bool, a: seq<T>, b: seq<T>)
    requires TotalOrder(leq) && InOrder(leq, a) && InOrder(leq, b)
    requires a != [] && b != [] && multiset(a) == multiset(b)
    ensures a[0] == b[0]
  {
    assert b[0] in multiset(a) && a[0] in multiset(b);
    assert b[0] in a && a[0] in b;
    assert leq(a[0], b[0]) && leq(b[0], a[0]);
  }

  lemma WithoutFirst<T>(s: seq<T>)
    requires s != []
    ensures multiset(s[1..]) == multiset(s) - multiset{s[0]}
  {
    assert s == [s[0]] + s[1..];
  }

  /** A sequence in order is determined by its elements. */
  lemma {:induction false} OrderedIsUnique<T(!new)>(leq: (T, T) -> bool, a: seq<T>, b: seq<T>)
    requires TotalOrder(leq) && InOrder(leq, a) && InOrder(leq, b) && multiset(a) == multiset(b)
    ensures a == b
  {
    assert |multiset(a)| == |a| && |multiset(b)| == |b|;
    if a != [] {
      SameFirst(leq, a, b);
      WithoutFirst(a);
      WithoutFirst(b);
      OrderedIsUnique(leq, a[1..], b[1..]);
    }
  }

  /** Sorting forgets the order of its input. */
  lemma SortByOfPermutation<T(!new)>(leq: (T, T) -> bool, a: seq<T>, b: seq<T>)
    requires TotalOrder(leq) && multiset(a) == multiset(b)
    ensures SortBy(leq, a) == SortBy(leq, b)
  {
    SortByKeeps(leq, a);
    SortByKeeps(leq, b);
    OrderedIsUnique(leq, SortBy(leq, a), SortBy(leq, b));
  }

  // ----- reals -----

  predicate RealLeq(x: real, y: real) { x <= y }

  predicate Sorted(s: seq<real>) {
    forall i, j | 0 <= i < j < |s| :: s[i] <= s[j]
  }

  function Insert(x: real, s: seq<real>): seq<real> { InsertBy(RealLeq, x, s) }

  function Sort(s: seq<real>): seq<real> { SortBy(RealLeq, s) }

  lemma RealOrder()
    ensures TotalOrder(RealLeq)
  {
  }

  lemma SortedIsInOrder(s: seq<real>)
    ensures InOrder(RealLeq, s) <==> Sorted(s)
  {
  }

  lemma SortKeeps(s: seq<real>)
    ensures Sorted(Sort(s)) && multiset(Sort(s)) == multiset(s) && |Sort(s)| == |s|
  {
    RealOrder();
    SortByKeeps(RealLeq, s);
    SortedIsInOrder(Sort(s));
  }

  lemma SortedIsUnique(a: seq<real>, b: seq<real>)
    requires Sorted(a) && Sorted(b) && multiset(a) == multiset(b)
    ensures a == b
  {
    RealOrder();
    SortedIsInOrder(a);
    SortedIsInOrder(b);
    OrderedIsUnique(RealLeq, a, b);
  }

  lemma SortOfPermutation(a: seq<real>, b: seq<real>)
    requires multiset(a) == multiset(b)
    ensures Sort(a) == Sort(b)
  {
    RealOrder();
    SortByOfPermutation(RealLeq, a, b);
  }

  ghost predicate Below(a: seq<real>, b: seq<real>) {
    |a| == |b| && forall i | 0 <= i < |a| :: a[i] <= b[i]
  }

  lemma BelowCons(x: real, s: seq<real>, y: real, t: seq<real>)
    requires x <= y && Below(s, t)
    ensures Below([x] + s, [y] + t)
  {
  }

  lemma InsertFirst(s: seq<real>)
    requires Sorted(s) && s != []
    ensures Insert(s[0], s[1..]) == s
  {
    assert s == [s[0]] + s[1..];
  }

  lemma {:induction false} InsertIsMonotone(x: real, s: seq<real>, y: real, t: seq<real>)
    requires Sorted(s) && Sorted(t) && x <= y && Below(s, t)
    ensures Below(Insert(x, s), Insert(y, t))
    decreases |s|
  {
    if s != [] {
      if x <= s[0] && y <= t[0] {
        BelowCons(x, s, y, t);
      } else if x <= s[0] {
        InsertIsMonotone(s[0], s[1..], y, t[1..]);
        InsertFirst(s);
        BelowCons(x, s, t[0], Insert(y, t[1..]));
      } else if y <= t[0] {
        InsertIsMonotone(x, s[1..], t[0], t[1..]);
        InsertFirst(t);
        BelowCons(s[0], Insert(x, s[1..]), y, t);
      } else {
        InsertIsMonotone(x, s[1..], y, t[1..]);
        BelowCons(s[0], Insert(x, s[1..]), t[0], Insert(y, t[1..]));
      }
    }
  }

  lemma {:induction false} SortIsMonotone(a: seq<real>, b: seq<real>)
    requires Below(a, b)
    ensures Below(Sort(a), Sort(b))
  {
    if a != [] {
      SortIsMonotone(a[1..], b[1..]);
      SortKeeps(a[1..]);
      SortKeeps(b[1..]);
      InsertIsMonotone(a[0], Sort(a[1..]), b[0], Sort(b[1..]));
    }
  }

  function Negated(s: seq<real>): seq<real> {
    seq(|s|, i requires 0 <= i < |s| => -s[i])
  }

  /** The sequence negated and reversed. */
  function Mirrored(s: seq<real>): seq<real> {
    seq(|s|, i requires 0 <= i < |s| => -s[|s| - 1 - i])
  }

  lemma {:induction false} NegatedCount(s: seq<real>, x: real)
    ensures multiset(Negated(s))[x] == multiset(s)[-x]
    ensures multiset(Mirrored(s))[x] == multiset(s)[-x]
  {
    if s != [] {
      NegatedCount(s[1..], x);
      assert Negated(s) == [-s[0]] + Negated(s[1..]);
      assert Mirrored(s) == Mirrored(s[1..]) + [-s[0]];
      assert s == [s[0]] + s[1..];
    }
  }

  /** Sorting negated values gives the mirror image of sorting the values. */
  lemma SortOfNegation(s: seq<real>)
    ensures Sort(Negated(s)) == Mirrored(Sort(s))
  {
    SortKeeps(s);
    SortKeeps(Negated(s));
    forall x ensures multiset(Sort(Negated(s)))[x] == multiset(Mirrored(Sort(s)))[x] {
      NegatedCount(s, x);
      NegatedCount(Sort(s), x);
    }
    SortedIsUnique(Sort(Negated(s)), Mirrored(Sort(s)));
  }

  /** Every value times c, plus d. */
  function Rescaled(s: seq<real>, c: real, d: real): seq<real> {
    seq(|s|, i requires 0 <= i < |s| => c * s[i] + d)
  }

  function Mapped(g: real -> real, s: seq<real>): seq<real> {
    seq(|s|, i requires 0 <= i < |s| => g(s[i]))
  }

  ghost predicate KeepsOrder(g: real -> real) {
    forall x, y :: x <= y <==> g(x) <= g(y)
  }

  lemma MappedCons(g: real -> real, x: real, s: seq<real>)
    ensures Mapped(g, [x] + s) == [g(x)] + Mapped(g, s)
  {
  }

  lemma {:induction false} InsertMapped(g: real -> real, x: real, s: seq<real>)
    requires KeepsOrder(g)
    ensures Insert(g(x), Mapped(g, s)) == Mapped(g, Insert(x, s))
  {
    MappedCons(g, x, s);
    if s != [] && !(x <= s[0]) {
      assert s == [s[0]] + s[1..];
      MappedCons(g, s[0], s[1..]);
      InsertMapped(g, x, s[1..]);
      MappedCons(g, s[0], Insert(x, s[1..]));
    }
  }

  /** Sorting commutes with whatever keeps the order. */
  lemma {:induction false} SortMapped(g: real -> real, s: seq<real>)
    requires KeepsOrder(g)
    ensures Sort(Mapped(g, s)) == Mapped(g, Sort(s))
  {
    if s != [] {
      assert Mapped(g, s)[1..] == Mapped(g, s[1..]);
      SortMapped(g, s[1..]);
      InsertMapped(g, s[0], Sort(s[1..]));
    }
  }

  lemma RescaledOrder(x: real, y: real, c: real, d: real)
    requires c > 0.0
    ensures x <= y <==> c * x + d <= c * y + d
  {
    if x < y {
      assert c * (y - x) > 0.0;
    } else if y < x {
      assert c * (x - y) > 0.0;
    }
  }

  /** A positive scale and any shift commute with sorting. */
  lemma SortRescaled(s: seq<real>, c: real, d: real)
    requires c > 0.0
    ensures Sort(Rescaled(s, c, d)) == Rescaled(Sort(s), c, d)
  {
    var g := (x: real) => c * x + d;
    forall x: real, y: real ensures x <= y <==> g(x) <= g(y) {
      RescaledOrder(x, y, c, d);
      assert g(x) == c * x + d && g(y) == c * y + d;
    }
    SortMapped(g, s);
    assert Mapped(g, s) == Rescaled(s, c, d);
    assert Mapped(g, Sort(s)) == Rescaled(Sort(s), c, d);
  }

  // ----- listing a set in order -----

  lemma {:induction false} LeastExists<T(!new)>(leq: (T, T) -> bool, s: set<T>) returns (least: T)
    requires TotalOrder(leq) && s != {}
    ensures least in s && forall x <- s :: leq(least, x)
    decreases |s|
  {
    var x :| x in s;
    if s == {x} {
      least := x;
    } else {
      assert |s - {x}| < |s|;
      var rest := LeastExists(leq, s - {x});
      least := if leq(x, rest) then x else rest;
      forall y | y in s ensures leq(least, y) {
        if y != x { assert leq(rest, y); }
      }
    }
  }

  /** The elements of a set from least to greatest. */
  function Arranged<T(!new, ==)>(leq: (T, T) -> bool, s: set<T>): (listed: seq<T>)
    requires TotalOrder(leq)
    ensures |listed| == |s|
    ensures forall x :: x in listed <==> x in s
    ensures forall i, j | 0 <= i < j < |listed| :: listed[i] != listed[j] && leq(listed[i], listed[j])
    decreases |s|
  {
    if s == {} then []
    else
      assert exists x :: x in s && forall y <- s :: leq(x, y) by {
        var least := LeastExists(leq, s);
      }
      var least :| least in s && forall x <- s :: leq(least, x);
      assert |s - {least}| == |s| - 1;
      [least] + Arranged(leq, s - {least})
  }

  /** Strings compared code point by code point, a proper prefix first. */
  predicate StringLeq(a: string, b: string) {
    a == "" || (b != "" && (a[0] < b[0] || (a[0] == b[0] && StringLeq(a[1..], b[1..]))))
  }

  lemma {:induction false} StringLeqLaws(a: string, b: string, c: string)
    ensures StringLeq(a, a)
    ensures StringLeq(a, b) || StringLeq(b, a)
    ensures StringLeq(a, b) && StringLeq(b, a) ==> a == b
    ensures StringLeq(a, b) && StringLeq(b, c) ==> StringLeq(a, c)
    decreases |a|
  {
    if a != "" {
      StringLeqLaws(a[1..], if b != "" then b[1..] else "", if c != "" then c[1..] else "");
      if b != "" && a[1..] == b[1..] && a[0] == b[0] {
        assert a == [a[0]] + a[1..] && b == [b[0]] + b[1..];
      }
    }
  }

  lemma StringOrder()
    ensures TotalOrder(StringLeq)
  {
    forall a, b, c
      ensures StringLeq(a, a) && (StringLeq(a, b) || StringLeq(b, a))
      ensures StringLeq(a, b) && StringLeq(b, a) ==> a == b
      ensures StringLeq(a, b) && StringLeq(b, c) ==> StringLeq(a, c)
    {
      StringLeqLaws(a, b, c);
    }
  }

  /** Pairs compared by name first, then by number. */
  predicate KeyLeq(a: (string, int), b: (string, int)) {
    if a.0 == b.0 then a.1 <= b.1 else StringLeq(a.0, b.0)
  }

  lemma KeyOrder()
    ensures TotalOrder(KeyLeq)
  {
    StringOrder();
  }

  predicate IntLeq(a: int, b: int) { a <= b }
}

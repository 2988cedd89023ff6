/** Folds over sequences, and when their order does not matter. */
module Folds {
  import opened Wrappers

  function Fold<X, A>(s: seq<X>, zero: A, op: (A, X) -> A): A {
    if s == [] then zero else op(Fold(s[..|s| - 1], zero, op), s[|s| - 1])
  }

  ghost predicate Commutes<X(!new), A(!new)>(op: (A, X) -> A) {
    forall a, x, y :: op(op(a, x), y) == op(op(a, y), x)
  }

  lemma FoldSnoc<X, A>(s: seq<X>, x: X, zero: A, op: (A, X) -> A)
    ensures Fold(s + [x], zero, op) == op(Fold(s, zero, op), x)
  {
    assert (s + [x])[..|s|] == s;
  }

  /** Any element may be folded in last. */
  lemma {:induction false} FoldLast<X(!new), A(!new)>(s: seq<X>, i: nat, zero: A, op: (A, X) -> A)
    requires i < |s| && Commutes(op)
    ensures Fold(s, zero, op) == op(Fold(s[..i] + s[i + 1..], zero, op), s[i])
  {
    var n := |s| - 1;
    if i == n {
      assert s[..i] + s[i + 1..] == s[..n];
    } else {
      FoldLast(s[..n], i, zero, op);
      var others := s[..n][..i] + s[..n][i + 1..];
      assert s[..i] + s[i + 1..] == others + [s[n]];
      FoldSnoc(others, s[n], zero, op);
    }
  }

  lemma WithoutOne<X>(s: seq<X>, i: nat)
    requires i < |s|
    ensures multiset(s[..i] + s[i + 1..]) == multiset(s) - multiset{s[i]}
  {
    assert s == s[..i] + [s[i]] + s[i + 1..];
  }

  lemma {:induction false} FoldPermutes<X(!new), A(!new)>(s: seq<X>, t: seq<X>, zero: A, op: (A, X) -> A)
    requires multiset(s) == multiset(t) && Commutes(op)
    ensures Fold(s, zero, op) == Fold(t, zero, op)
  {
    if s == [] {
      assert |multiset(t)| == 0;
    } else {
      var n := |s| - 1;
      assert s[n] in multiset(t);
      var i :| 0 <= i < |t| && t[i] == s[n];
      WithoutOne(s, n);
      WithoutOne(t, i);
      assert s[..n] + s[n + 1..] == s[..n];
      FoldPermutes(s[..n], t[..i] + t[i + 1..], zero, op);
      FoldLast(t, i, zero, op);
    }
  }

  function Sum<X>(s: seq<X>, f: X -> nat): nat {
    Fold<X, nat>(s, 0, (a: nat, x) => a + f(x))
  }

  function Itself(x: nat): nat { x }

  function SumAll(v: seq<nat>): nat {
    Sum(v, Itself)
  }

  function SumReal<X>(s: seq<X>, f: X -> real): real {
    Fold(s, 0.0, (a: real, x) => a + f(x))
  }

  /** The largest value, 0 when there is none. */
  function Max<X>(s: seq<X>, f: X -> nat): nat {
    Fold<X, nat>(s, 0, (a: nat, x) => if f(x) > a then f(x) else a)
  }

  function MaxReal<X>(s: seq<X>, f: X -> real): real {
    Fold(s, 0.0, (a: real, x) => if f(x) > a then f(x) else a)
  }

  /** The smallest of the values present, `top` when none is below it. */
  function Min<X>(s: seq<X>, top: nat, f: X -> Option<nat>): nat {
    Fold<X, nat>(s, top, (a: nat, x) => if f(x).Some? && f(x).value < a then f(x).value else a)
  }

  /** The values present, with multiplicity. */
  function Bag<X, V(==)>(s: seq<X>, f: X -> Option<V>): multiset<V> {
    Fold(s, multiset{}, (a: multiset<V>, x) => if f(x).Some? then a + multiset{f(x).value} else a)
  }

  /** What `f` finds in the elements, in order. */
  function Extract<X, V>(s: seq<X>, f: X -> Option<V>): seq<V> {
    if s == [] then []
    else Extract(s[..|s| - 1], f) + (if f(s[|s| - 1]).Some? then [f(s[|s| - 1]).value] else [])
  }

  lemma Snoc<X>(s: seq<X>, x: X)
    ensures forall f: X -> nat :: Sum(s + [x], f) == Sum(s, f) + f(x)
    ensures forall f: X -> real :: SumReal(s + [x], f) == SumReal(s, f) + f(x)
    ensures forall f: X -> nat :: Max(s + [x], f) == if f(x) > Max(s, f) then f(x) else Max(s, f)
    ensures forall f: X -> real :: MaxReal(s + [x], f) == if f(x) > MaxReal(s, f) then f(x) else MaxReal(s, f)
    ensures forall top: nat, f: X -> Option<nat> ::
      Min(s + [x], top, f) == if f(x).Some? && f(x).value < Min(s, top, f) then f(x).value else Min(s, top, f)
  {
    assert (s + [x])[..|s|] == s;
  }

  lemma BagSnoc<X, V(!new)>(s: seq<X>, x: X)
    ensures forall f: X -> Option<V> ::
      Bag(s + [x], f) == if f(x).Some? then Bag(s, f) + multiset{f(x).value} else Bag(s, f)
  {
    assert (s + [x])[..|s|] == s;
  }

  lemma SumGrows<X>(s: seq<X>, x: X, f: X -> nat)
    ensures Sum(s + [x], f) == Sum(s, f) + f(x)
  {
    assert (s + [x])[..|s|] == s;
  }

  lemma BagGrows<X, V>(s: seq<X>, x: X, f: X -> Option<V>)
    ensures Bag(s + [x], f) == if f(x).Some? then Bag(s, f) + multiset{f(x).value} else Bag(s, f)
  {
    assert (s + [x])[..|s|] == s;
  }

  lemma ExtractSnoc<X, V>(s: seq<X>, x: X, f: X -> Option<V>)
    ensures Extract(s + [x], f) == if f(x).Some? then Extract(s, f) + [f(x).value] else Extract(s, f)
  {
    assert (s + [x])[..|s|] == s;
  }

  lemma {:induction false} ExtractBag<X, V>(s: seq<X>, f: X -> Option<V>)
    ensures multiset(Extract(s, f)) == Bag(s, f)
  {
    if s != [] {
      ExtractBag(s[..|s| - 1], f);
    }
  }

  /** Sums, extremes and bags do not depend on the order. */
  lemma Permutes<X(!new)>(s: seq<X>, t: seq<X>)
    requires multiset(s) == multiset(t)
    ensures forall f: X -> nat :: Sum(s, f) == Sum(t, f)
    ensures forall f: X -> real :: SumReal(s, f) == SumReal(t, f)
    ensures forall f: X -> nat :: Max(s, f) == Max(t, f)
    ensures forall f: X -> real :: MaxReal(s, f) == MaxReal(t, f)
    ensures forall top: nat, f: X -> Option<nat> :: Min(s, top, f) == Min(t, top, f)
  {
    forall f: X -> nat ensures Sum(s, f) == Sum(t, f) {
      FoldPermutes<X, nat>(s, t, 0, (a: nat, x) => a + f(x));
    }
    forall f: X -> real ensures SumReal(s, f) == SumReal(t, f) {
      FoldPermutes(s, t, 0.0, (a: real, x) => a + f(x));
    }
    forall f: X -> nat ensures Max(s, f) == Max(t, f) {
      FoldPermutes<X, nat>(s, t, 0, (a: nat, x) => if f(x) > a then f(x) else a);
    }
    forall f: X -> real ensures MaxReal(s, f) == MaxReal(t, f) {
      FoldPermutes(s, t, 0.0, (a: real, x) => if f(x) > a then f(x) else a);
    }
    forall top: nat, f: X -> Option<nat> ensures Min(s, top, f) == Min(t, top, f) {
      FoldPermutes<X, nat>(s, t, top, (a: nat, x) => if f(x).Some? && f(x).value < a then f(x).value else a);
    }
  }

  lemma BagPermutes<X(!new), V(!new)>(s: seq<X>, t: seq<X>, f: X -> Option<V>)
    requires multiset(s) == multiset(t)
    ensures Bag(s, f) == Bag(t, f)
  {
    var op := (a: multiset<V>, x) => if f(x).Some? then a + multiset{f(x).value} else a;
    forall a, x, y ensures op(op(a, x), y) == op(op(a, y), x) {
      if f(x).Some? && f(y).Some? {
        assert a + multiset{f(x).value} + multiset{f(y).value} == a + multiset{f(y).value} + multiset{f(x).value};
      }
    }
    FoldPermutes(s, t, multiset{}, op);
  }
}

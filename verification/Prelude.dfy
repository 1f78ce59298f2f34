/** Small shared vocabulary. */
module Prelude {

  datatype Option<+T> = None | Some(value: T)

  function Min(a: real, b: real): real { if a <= b then a else b }

  function Max(a: real, b: real): real { if a >= b then a else b }

  function Clamp01(x: real): real { Max(0.0, Min(1.0, x)) }

  function SumReals(xs: seq<real>): real {
    if xs == [] then 0.0 else SumReals(xs[..|xs| - 1]) + xs[|xs| - 1]
  }

  /** `max(xs, default=0.0)`. */
  function MaxReals(xs: seq<real>): real {
    if xs == [] then 0.0
    else if |xs| == 1 then xs[0]
    else Max(MaxReals(xs[..|xs| - 1]), xs[|xs| - 1])
  }

  /** `min(xs, default=0.0)`. */
  function MinReals(xs: seq<real>): real {
    if xs == [] then 0.0
    else if |xs| == 1 then xs[0]
    else Min(MinReals(xs[..|xs| - 1]), xs[|xs| - 1])
  }

  predicate NonNegative(xs: seq<real>) { forall i :: 0 <= i < |xs| ==> xs[i] >= 0.0 }

  /** For non-negative values: every element is at most the maximum, at least the
      minimum, and the maximum is at most the sum. */
  lemma {:induction false} RealFolds(xs: seq<real>)
    requires NonNegative(xs)
    ensures 0.0 <= MinReals(xs) <= MaxReals(xs) <= SumReals(xs)
    ensures forall i :: 0 <= i < |xs| ==> MinReals(xs) <= xs[i] <= MaxReals(xs)
    ensures xs != [] ==> exists i :: 0 <= i < |xs| && xs[i] == MaxReals(xs)
  {
    if |xs| == 1 {
      assert SumReals(xs) == SumReals([]) + xs[0] by { assert xs[..0] == []; }
      assert xs[0] == MaxReals(xs);
    } else if |xs| > 1 {
      var front := xs[..|xs| - 1];
      RealFolds(front);
      assert forall i :: 0 <= i < |xs| - 1 ==> xs[i] == front[i];
      var m :| 0 <= m < |front| && front[m] == MaxReals(front);
      assert xs[if MaxReals(front) >= xs[|xs| - 1] then m else |xs| - 1] == MaxReals(xs);
    }
  }

  /** Python's `round(x, 6)` on reals: to the nearest millionth, ties to even. */
  function RoundHalfEven(x: real): int {
    var f := x.Floor;
    var d := x - f as real;
    if d < 0.5 || (d == 0.5 && f % 2 == 0) then f else f + 1
  }

  function Round6(x: real): real { RoundHalfEven(x * 1000000.0) as real / 1000000.0 }

  lemma RoundHalfEvenMonotone(x: real, y: real)
    requires x <= y
    ensures RoundHalfEven(x) <= RoundHalfEven(y)
  {
    assert x.Floor <= y.Floor;
  }

  lemma Round6Monotone(x: real, y: real)
    requires x <= y
    ensures Round6(x) <= Round6(y)
  {
    RoundHalfEvenMonotone(x * 1000000.0, y * 1000000.0);
  }

  /** Rounding stays within [0, 1] even when the value exceeds 1 by the tolerance
      that the weight checks allow. */
  lemma Round6Unit(x: real)
    requires 0.0 <= x <= 1.0 + 0.000000001
    ensures 0.0 <= Round6(x) <= 1.0
  {
    var m := x * 1000000.0;
    assert 0.0 <= m <= 1000000.001;
    assert 0 <= m.Floor <= 1000000;
  }

  lemma Round6Fixes(n: int)
    ensures Round6(n as real) == n as real
  {
    var m := n * 1000000;
    assert (n as real) * 1000000.0 == m as real;
    assert (m as real).Floor == m;
    assert RoundHalfEven(m as real) == m;
  }

  /** Rounding goes to a whole number of millionths, none of which is nearer, and to an even one if
      two are equally near. */
  lemma Round6Nearest(x: real) returns (n: int)
    ensures Round6(x) == n as real / 1000000.0
    ensures n as real - 0.5 <= x * 1000000.0 <= n as real + 0.5
    ensures x * 1000000.0 == n as real - 0.5 || x * 1000000.0 == n as real + 0.5 ==> n % 2 == 0
  {
    n := RoundHalfEven(x * 1000000.0);
  }

  /** The least of several values is one of them, and so is the greatest. */
  lemma {:induction false} LeastAndGreatest(xs: seq<real>)
    requires xs != []
    ensures MinReals(xs) in xs && MaxReals(xs) in xs
    ensures forall x :: x in xs ==> MinReals(xs) <= x <= MaxReals(xs)
  {
    var front := xs[..|xs| - 1];
    assert xs == front + [xs[|xs| - 1]];
    if front != [] { LeastAndGreatest(front); }
  }

  // ----- filtering -----

  function Filter<T>(s: seq<T>, keep: T -> bool): seq<T> {
    if s == [] then [] else (if keep(s[0]) then [s[0]] else []) + Filter(s[1..], keep)
  }

  lemma {:induction false} FilterMembers<T>(s: seq<T>, keep: T -> bool, x: T)
    ensures x in Filter(s, keep) <==> x in s && keep(x)
  {
    if s != [] {
      FilterMembers(s[1..], keep, x);
      assert s == [s[0]] + s[1..];
    }
  }

  lemma ConcatAssociates<T>(a: seq<T>, b: seq<T>, c: seq<T>)
    ensures a + (b + c) == (a + b) + c
  {
  }

  lemma {:induction false} FilterConcat<T>(s: seq<T>, t: seq<T>, keep: T -> bool)
    ensures Filter(s + t, keep) == Filter(s, keep) + Filter(t, keep)
  {
    if s == [] {
      assert s + t == t;
    } else {
      FilterConcat(s[1..], t, keep);
      var head := if keep(s[0]) then [s[0]] else [];
      assert (s + t)[1..] == s[1..] + t && (s + t)[0] == s[0];
      assert Filter(s + t, keep) == head + (Filter(s[1..], keep) + Filter(t, keep));
      assert Filter(s, keep) == head + Filter(s[1..], keep);
      ConcatAssociates(head, Filter(s[1..], keep), Filter(t, keep));
    }
  }

  lemma {:induction false} FilterAll<T>(s: seq<T>, keep: T -> bool)
    requires forall x :: x in s ==> keep(x)
    ensures Filter(s, keep) == s
  {
    if s != [] {
      assert s == [s[0]] + s[1..];
      assert keep(s[0]);
      FilterAll(s[1..], keep);
    }
  }

  lemma FilterCons<T>(x: T, s: seq<T>, keep: T -> bool)
    ensures Filter([x] + s, keep) == (if keep(x) then [x] else []) + Filter(s, keep)
  {
    assert ([x] + s)[1..] == s;
  }

  lemma FilterSnoc<T>(s: seq<T>, x: T, keep: T -> bool)
    ensures Filter(s + [x], keep) == Filter(s, keep) + (if keep(x) then [x] else [])
  {
    FilterConcat(s, [x], keep);
    FilterCons(x, [], keep);
    assert [x] + [] == [x];
  }

  /** An element that occurs at two places of one arrangement does so in any other. */
  lemma TwiceElsewhere<T>(s: seq<T>, t: seq<T>, i: nat, j: nat) returns (a: nat, b: nat)
    requires multiset(s) == multiset(t) && i < j < |t| && t[i] == t[j]
    ensures a < |s| && b < |s| && a != b && s[a] == t[i] && s[b] == t[i]
  {
    var x := t[i];
    assert t == t[..j] + [x] + t[j + 1..];
    assert x in t[..j] by { assert t[..j][i] == x; }
    assert multiset(t)[x] >= 2;
    assert x in multiset(s);
    a :| 0 <= a < |s| && s[a] == x;
    assert s == s[..a] + [x] + s[a + 1..];
    assert multiset(s)[x] == multiset(s[..a])[x] + 1 + multiset(s[a + 1..])[x];
    if x in s[..a] {
      b :| 0 <= b < a && s[..a][b] == x;
    } else {
      assert x in multiset(s[a + 1..]);
      var k :| 0 <= k < |s[a + 1..]| && s[a + 1..][k] == x;
      b := a + 1 + k;
    }
  }
}

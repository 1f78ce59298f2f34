/** Contiguous cuts of a layer list: the split tuples that the planner enumerates
    and the lists of runs that they stand for. */
module Combinations {

  /** The split points of a cut: strictly increasing, within [lo, hi). */
  predicate IsCut(s: seq<nat>, lo: nat, hi: nat) {
    && (forall i :: 0 <= i < |s| ==> lo <= s[i] < hi)
    && (forall i, j :: 0 <= i < j < |s| ==> s[i] < s[j])
  }

  function PrependAll(x: nat, tails: seq<seq<nat>>): (r: seq<seq<nat>>)
    ensures |r| == |tails|
    ensures forall i :: 0 <= i < |r| ==> r[i] == [x] + tails[i]
  {
    seq(|tails|, i requires 0 <= i < |tails| => [x] + tails[i])
  }

  /** All k-element choices from lo, lo+1, ..., hi-1, in the order in which
      `itertools.combinations` yields them. */
  function Choose(lo: nat, hi: nat, k: nat): seq<seq<nat>>
    decreases if lo < hi then hi - lo else 0
  {
    if k == 0 then [[]]
    else if lo >= hi then []
    else PrependAll(lo, Choose(lo + 1, hi, k - 1)) + Choose(lo + 1, hi, k)
  }

  /** Python's order on tuples of equal length. */
  predicate LexLess(a: seq<nat>, b: seq<nat>) {
    if a == [] then b != []
    else b != [] && (a[0] < b[0] || (a[0] == b[0] && LexLess(a[1..], b[1..])))
  }

  lemma {:induction false} LexLessIrreflexive(a: seq<nat>)
    ensures !LexLess(a, a)
  {
    if a != [] { LexLessIrreflexive(a[1..]); }
  }

  lemma {:induction false} LexLessTransitive(a: seq<nat>, b: seq<nat>, c: seq<nat>)
    requires LexLess(a, b) && LexLess(b, c)
    ensures LexLess(a, c)
  {
    if a != [] && a[0] == b[0] && b[0] == c[0] {
      LexLessTransitive(a[1..], b[1..], c[1..]);
    }
  }

  lemma {:induction false} LexLessTotal(a: seq<nat>, b: seq<nat>)
    ensures LexLess(a, b) || a == b || LexLess(b, a)
  {
    if a != [] && b != [] && a[0] == b[0] {
      LexLessTotal(a[1..], b[1..]);
      assert a == [a[0]] + a[1..] && b == [b[0]] + b[1..];
    }
  }

  lemma InEither(s: seq<nat>, a: seq<seq<nat>>, b: seq<seq<nat>>)
    ensures s in a || s in b <==> s in a + b
  {
  }

  lemma PrependedMember(x: nat, tails: seq<seq<nat>>, s: seq<nat>) returns (t: seq<nat>)
    requires s in PrependAll(x, tails)
    ensures t in tails && s == [x] + t
  {
    var i :| 0 <= i < |PrependAll(x, tails)| && PrependAll(x, tails)[i] == s;
    t := tails[i];
  }

  /** Everything enumerated is a k-point cut. */
  lemma {:induction false} ChooseSound(lo: nat, hi: nat, k: nat, s: seq<nat>)
    requires s in Choose(lo, hi, k)
    ensures |s| == k && IsCut(s, lo, hi)
    decreases if lo < hi then hi - lo else 0
  {
    if k != 0 && lo < hi {
      var heads, rest := Choose(lo + 1, hi, k - 1), Choose(lo + 1, hi, k);
      InEither(s, PrependAll(lo, heads), rest);
      if s in PrependAll(lo, heads) {
        var t := PrependedMember(lo, heads, s);
        ChooseSound(lo + 1, hi, k - 1, t);
        CutPrepend(lo, hi, t);
      } else {
        ChooseSound(lo + 1, hi, k, s);
        CutWiden(lo, hi, s);
      }
    }
  }

  lemma CutPrepend(lo: nat, hi: nat, tail: seq<nat>)
    requires lo < hi && IsCut(tail, lo + 1, hi)
    ensures IsCut([lo] + tail, lo, hi)
  {
  }

  lemma CutWiden(lo: nat, hi: nat, s: seq<nat>)
    requires IsCut(s, lo + 1, hi)
    ensures IsCut(s, lo, hi)
  {
  }

  /** A non-empty cut either starts at `lo` or is one of what lies above. */
  lemma CutTail(s: seq<nat>, lo: nat, hi: nat) returns (tail: seq<nat>)
    requires IsCut(s, lo, hi) && s != []
    ensures lo < hi && s == [s[0]] + tail && |tail| == |s| - 1
    ensures s[0] == lo ==> IsCut(tail, lo + 1, hi)
    ensures s[0] != lo ==> IsCut(s, lo + 1, hi)
  {
    tail := s[1..];
    assert lo <= s[0] < hi;
  }

  lemma PrependAllMember(x: nat, tails: seq<seq<nat>>, t: seq<nat>)
    requires t in tails
    ensures [x] + t in PrependAll(x, tails)
  {
    var i :| 0 <= i < |tails| && tails[i] == t;
    assert PrependAll(x, tails)[i] == [x] + t;
  }

  lemma ChooseNone(lo: nat, hi: nat)
    ensures [] in Choose(lo, hi, 0)
  {
    assert Choose(lo, hi, 0)[0] == [];
  }

  lemma ChooseEither(lo: nat, hi: nat, k: nat, s: seq<nat>)
    requires k > 0 && lo < hi
    requires s in PrependAll(lo, Choose(lo + 1, hi, k - 1)) || s in Choose(lo + 1, hi, k)
    ensures s in Choose(lo, hi, k)
  {
    InEither(s, PrependAll(lo, Choose(lo + 1, hi, k - 1)), Choose(lo + 1, hi, k));
  }

  /** Every cut is enumerated. */
  lemma {:induction false} ChooseComplete(lo: nat, hi: nat, k: nat, s: seq<nat>)
    requires IsCut(s, lo, hi) && |s| == k
    ensures s in Choose(lo, hi, k)
    decreases if lo < hi then hi - lo else 0
  {
    if k == 0 {
      ChooseNone(lo, hi);
    } else {
      var tail := CutTail(s, lo, hi);
      var heads, rest := Choose(lo + 1, hi, k - 1), Choose(lo + 1, hi, k);
      if s[0] == lo {
        ChooseComplete(lo + 1, hi, k - 1, tail);
        PrependAllMember(lo, heads, tail);
      } else {
        ChooseComplete(lo + 1, hi, k, s);
      }
      ChooseEither(lo, hi, k, s);
    }
  }

  predicate LexAscending(list: seq<seq<nat>>) {
    forall i, j :: 0 <= i < j < |list| ==> LexLess(list[i], list[j])
  }

  /** Lists that start below `lo` before lists that start at or above it. */
  lemma AscendingConcat(lo: nat, tails: seq<seq<nat>>, rest: seq<seq<nat>>)
    requires LexAscending(tails) && LexAscending(rest)
    requires forall s :: s in rest ==> s != [] && lo < s[0]
    ensures LexAscending(PrependAll(lo, tails) + rest)
  {
    var list := PrependAll(lo, tails) + rest;
    forall i, j | 0 <= i < j < |list| ensures LexLess(list[i], list[j]) {
      if j < |tails| {
        assert list[i] == [lo] + tails[i] && list[j] == [lo] + tails[j];
        assert list[i][1..] == tails[i] && list[j][1..] == tails[j];
      } else if i < |tails| {
        assert list[i] == [lo] + tails[i] && list[j] == rest[j - |tails|];
        assert rest[j - |tails|] in rest;
      } else {
        assert list[i] == rest[i - |tails|] && list[j] == rest[j - |tails|];
      }
    }
  }

  /** The enumeration is in strictly increasing tuple order, so it has no duplicates. */
  lemma {:induction false} ChooseOrdered(lo: nat, hi: nat, k: nat)
    ensures LexAscending(Choose(lo, hi, k))
    decreases if lo < hi then hi - lo else 0
  {
    if k != 0 && lo < hi {
      var heads, rest := Choose(lo + 1, hi, k - 1), Choose(lo + 1, hi, k);
      ChooseOrdered(lo + 1, hi, k - 1);
      ChooseOrdered(lo + 1, hi, k);
      forall s | s in rest ensures s != [] && lo < s[0] {
        ChooseSound(lo + 1, hi, k, s);
      }
      AscendingConcat(lo, heads, rest);
    }
  }

  lemma AscendingDistinct(list: seq<seq<nat>>)
    requires LexAscending(list)
    ensures forall i, j :: 0 <= i < j < |list| ==> list[i] != list[j]
  {
    forall i, j | 0 <= i < j < |list| ensures list[i] != list[j] {
      LexLessIrreflexive(list[i]);
    }
  }

  /** The enumeration is exactly the k-point cuts, each once. */
  lemma ChooseExact(lo: nat, hi: nat, k: nat)
    ensures forall s :: s in Choose(lo, hi, k) <==> |s| == k && IsCut(s, lo, hi)
    ensures forall i, j :: 0 <= i < j < |Choose(lo, hi, k)| ==> Choose(lo, hi, k)[i] != Choose(lo, hi, k)[j]
  {
    forall s ensures s in Choose(lo, hi, k) <==> |s| == k && IsCut(s, lo, hi) {
      if s in Choose(lo, hi, k) { ChooseSound(lo, hi, k, s); }
      if |s| == k && IsCut(s, lo, hi) { ChooseComplete(lo, hi, k, s); }
    }
    ChooseOrdered(lo, hi, k);
    AscendingDistinct(Choose(lo, hi, k));
  }

  // ----- cuts and run lists -----

  function Flatten<T>(runs: seq<seq<T>>): seq<T> {
    if runs == [] then [] else runs[0] + Flatten(runs[1..])
  }

  predicate NonEmptyRuns<T>(runs: seq<seq<T>>) {
    runs != [] && forall i :: 0 <= i < |runs| ==> runs[i] != []
  }

  /** `boundaries` of the candidate builder. */
  function Boundaries(splits: seq<nat>, count: nat): (b: seq<nat>)
    ensures |b| == |splits| + 2
  {
    [0] + splits + [count]
  }

  lemma BoundariesIncrease(splits: seq<nat>, count: nat, i: nat)
    requires IsCut(splits, 1, count) && 0 < count && i <= |splits|
    ensures Boundaries(splits, count)[i] < Boundaries(splits, count)[i + 1] <= count
  {
  }

  /** The i-th run of a cut: the slice between two neighbouring boundaries. */
  function Run<T>(layers: seq<T>, splits: seq<nat>, i: nat): (r: seq<T>)
    requires IsCut(splits, 1, |layers|) && layers != [] && i <= |splits|
    ensures r != []
  {
    var b := Boundaries(splits, |layers|);
    BoundariesIncrease(splits, |layers|, i);
    layers[b[i]..b[i + 1]]
  }

  function Runs<T>(layers: seq<T>, splits: seq<nat>): (r: seq<seq<T>>)
    requires IsCut(splits, 1, |layers|) && layers != []
    ensures |r| == |splits| + 1
    ensures forall i :: 0 <= i < |r| ==> r[i] == Run(layers, splits, i)
  {
    seq(|splits| + 1, i requires 0 <= i < |splits| + 1 => Run(layers, splits, i))
  }

  /** The split points that a list of runs induces: where each run but the last ends. */
  function SplitsFrom<T>(runs: seq<seq<T>>, start: nat): seq<nat> {
    if |runs| <= 1 then []
    else [start + |runs[0]|] + SplitsFrom(runs[1..], start + |runs[0]|)
  }

  function SplitsOf<T>(runs: seq<seq<T>>): seq<nat> { SplitsFrom(runs, 0) }

  /** Offset form of `Runs`, for the inductions. */
  function RunsFrom<T>(layers: seq<T>, start: nat, splits: seq<nat>): (r: seq<seq<T>>)
    requires start < |layers| && IsCut(splits, start + 1, |layers|)
    ensures |r| == |splits| + 1
    decreases |splits|
  {
    if splits == [] then [layers[start..]]
    else [layers[start..splits[0]]] + RunsFrom(layers, splits[0], splits[1..])
  }

  lemma {:induction false} RunsFromAt<T>(layers: seq<T>, start: nat, splits: seq<nat>, i: nat)
    requires start < |layers| && IsCut(splits, start + 1, |layers|) && i <= |splits|
    ensures RunsFrom(layers, start, splits)[i] ==
            layers[if i == 0 then start else splits[i - 1]..if i == |splits| then |layers| else splits[i]]
    decreases |splits|
  {
    if i > 0 { RunsFromAt(layers, splits[0], splits[1..], i - 1); }
  }

  lemma RunsAreRunsFrom<T>(layers: seq<T>, splits: seq<nat>)
    requires layers != [] && IsCut(splits, 1, |layers|)
    ensures Runs(layers, splits) == RunsFrom(layers, 0, splits)
  {
    forall i | 0 <= i <= |splits|
      ensures Runs(layers, splits)[i] == RunsFrom(layers, 0, splits)[i]
    {
      RunsFromAt(layers, 0, splits, i);
    }
  }

  lemma TailIsCut(splits: seq<nat>, lo: nat, hi: nat)
    requires IsCut(splits, lo, hi) && splits != []
    ensures IsCut(splits[1..], splits[0] + 1, hi)
  {
  }

  lemma {:induction false} RunsFromFlatten<T>(layers: seq<T>, start: nat, splits: seq<nat>)
    requires start < |layers| && IsCut(splits, start + 1, |layers|)
    ensures Flatten(RunsFrom(layers, start, splits)) == layers[start..]
    ensures SplitsFrom(RunsFrom(layers, start, splits), start) == splits
    decreases |splits|
  {
    var runs := RunsFrom(layers, start, splits);
    if splits == [] {
      assert Flatten(runs) == runs[0] + Flatten(runs[1..]);
    } else {
      TailIsCut(splits, start + 1, |layers|);
      RunsFromFlatten(layers, splits[0], splits[1..]);
      assert runs[1..] == RunsFrom(layers, splits[0], splits[1..]);
      assert layers[start..] == layers[start..splits[0]] + layers[splits[0]..];
    }
  }

  lemma {:induction false} SplitsFromInverse<T>(layers: seq<T>, start: nat, runs: seq<seq<T>>)
    requires start < |layers| && NonEmptyRuns(runs) && Flatten(runs) == layers[start..]
    ensures |SplitsFrom(runs, start)| == |runs| - 1
    ensures IsCut(SplitsFrom(runs, start), start + 1, |layers|)
    ensures RunsFrom(layers, start, SplitsFrom(runs, start)) == runs
    decreases |runs|
  {
    if |runs| == 1 {
      assert Flatten(runs) == runs[0] + Flatten(runs[1..]) == runs[0];
    } else {
      var next := start + |runs[0]|;
      var rest := runs[1..];
      assert Flatten(runs) == runs[0] + (rest[0] + Flatten(rest[1..]));
      assert |layers[start..]| == |runs[0]| + |rest[0]| + |Flatten(rest[1..])|;
      assert Flatten(rest) == layers[start..][|runs[0]|..] == layers[next..];
      assert runs[0] == layers[start..][..|runs[0]|] == layers[start..next];
      SplitsFromInverse(layers, next, rest);
      var s := SplitsFrom(runs, start);
      assert s[1..] == SplitsFrom(rest, next);
      assert forall i :: 1 <= i < |s| ==> s[i] == s[1..][i - 1];
      assert runs == [runs[0]] + rest;
    }
  }

  /** A cut of the layer list, read as runs, loses and reorders nothing, and
      determines its split points. */
  lemma CutToRuns<T>(layers: seq<T>, splits: seq<nat>)
    requires layers != [] && IsCut(splits, 1, |layers|)
    ensures NonEmptyRuns(Runs(layers, splits))
    ensures Flatten(Runs(layers, splits)) == layers
    ensures SplitsOf(Runs(layers, splits)) == splits
  {
    RunsAreRunsFrom(layers, splits);
    RunsFromFlatten(layers, 0, splits);
  }

  /** Every division into non-empty contiguous runs is the reading of exactly one cut. */
  lemma RunsToCut<T>(layers: seq<T>, runs: seq<seq<T>>)
    requires layers != [] && NonEmptyRuns(runs) && Flatten(runs) == layers
    ensures |SplitsOf(runs)| == |runs| - 1
    ensures IsCut(SplitsOf(runs), 1, |layers|)
    ensures Runs(layers, SplitsOf(runs)) == runs
  {
    assert layers[0..] == layers;
    SplitsFromInverse(layers, 0, runs);
    RunsAreRunsFrom(layers, SplitsOf(runs));
  }

  // ----- how many cuts there are -----

  function Pow2(n: nat): nat { if n == 0 then 1 else 2 * Pow2(n - 1) }

  ghost function PrependEach(x: nat, S: set<seq<nat>>): set<seq<nat>> {
    set s | s in S :: [x] + s
  }

  /** The cuts with split points in [lo, hi), of any length. */
  ghost function AllCuts(lo: nat, hi: nat): set<seq<nat>>
    decreases if lo < hi then hi - lo else 0
  {
    if lo >= hi then {[]}
    else AllCuts(lo + 1, hi) + PrependEach(lo, AllCuts(lo + 1, hi))
  }

  lemma {:induction false} ImageNoLarger(x: nat, S: set<seq<nat>>)
    ensures |PrependEach(x, S)| <= |S|
  {
    if S != {} {
      var t :| t in S;
      ImageNoLarger(x, S - {t});
      assert PrependEach(x, S) == PrependEach(x, S - {t}) + {[x] + t};
    }
  }

  lemma SetUnionSize<T>(A: set<T>, B: set<T>)
    ensures |A + B| <= |A| + |B|
  {
    assert A + B == A + (B - A) && |B - A| + |A * B| == |B| by {
      assert B == (B - A) + (A * B);
    }
  }

  lemma {:induction false} AllCutsCount(lo: nat, hi: nat)
    requires lo <= hi
    ensures |AllCuts(lo, hi)| <= Pow2(hi - lo)
    decreases hi - lo
  {
    if lo < hi {
      AllCutsCount(lo + 1, hi);
      var rest := AllCuts(lo + 1, hi);
      ImageNoLarger(lo, rest);
      SetUnionSize(rest, PrependEach(lo, rest));
    }
  }

  lemma {:induction false} AllCutsComplete(lo: nat, hi: nat, s: seq<nat>)
    requires IsCut(s, lo, hi)
    ensures s in AllCuts(lo, hi)
    decreases if lo < hi then hi - lo else 0
  {
    if s != [] {
      var tail := CutTail(s, lo, hi);
      if s[0] == lo {
        AllCutsComplete(lo + 1, hi, tail);
      } else {
        AllCutsComplete(lo + 1, hi, s);
      }
    } else if lo < hi {
      AllCutsComplete(lo + 1, hi, s);
    }
  }
}

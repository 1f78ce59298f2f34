/** Runs of a step machine: what every step keeps holds throughout. */
module Runs {
  import opened Prelude

  /** The next state, or None when the event cannot happen. */
  type Machine<!S, !E> = (S, E) -> Option<S>

  /** The state after the events, if they can all happen in turn. */
  function After<S, E>(step: Machine<S, E>, s: S, events: seq<E>): Option<S> {
    if events == [] then Some(s)
    else
      var t := After(step, s, events[..|events| - 1]);
      if t.None? then None else step(t.value, events[|events| - 1])
  }

  lemma {:induction false} PrefixRuns<S, E>(step: Machine<S, E>, s: S, events: seq<E>, k: nat)
    requires After(step, s, events).Some? && k <= |events|
    ensures After(step, s, events[..k]).Some?
  {
    if k < |events| {
      PrefixRuns(step, s, events[..|events| - 1], k);
      assert events[..|events| - 1][..k] == events[..k];
    } else {
      assert events[..k] == events;
    }
  }

  lemma AfterSnoc<S, E>(step: Machine<S, E>, s: S, events: seq<E>, e: E)
    requires After(step, s, events).Some?
    ensures After(step, s, events + [e]) == step(After(step, s, events).value, e)
  {
    assert (events + [e])[..|events + [e]| - 1] == events;
  }

  /** The state before event `k`, or after the last event when `k` is their number. */
  function StateAt<S, E>(step: Machine<S, E>, s: S, events: seq<E>, k: nat): S
    requires After(step, s, events).Some? && k <= |events|
  {
    PrefixRuns(step, s, events, k);
    After(step, s, events[..k]).value
  }

  ghost predicate Throughout<S(!new), E>(step: Machine<S, E>, s: S, events: seq<E>, inv: S -> bool)
    requires After(step, s, events).Some?
  {
    forall k :: 0 <= k <= |events| ==> inv(StateAt(step, s, events, k))
  }

  ghost predicate Never<S(!new), E(!new)>(step: Machine<S, E>, s: S, events: seq<E>, bad: (S, E) -> bool)
    requires After(step, s, events).Some?
  {
    forall k :: 0 <= k < |events| ==> !bad(StateAt(step, s, events, k), events[k])
  }

  lemma NextState<S, E>(step: Machine<S, E>, s: S, events: seq<E>, k: nat)
    requires After(step, s, events).Some? && k < |events|
    ensures step(StateAt(step, s, events, k), events[k]) == Some(StateAt(step, s, events, k + 1))
  {
    PrefixRuns(step, s, events, k);
    PrefixRuns(step, s, events, k + 1);
    assert events[..k + 1][..k] == events[..k];
  }

  lemma LastState<S, E>(step: Machine<S, E>, s: S, events: seq<E>)
    requires After(step, s, events).Some?
    ensures StateAt(step, s, events, 0) == s
    ensures StateAt(step, s, events, |events|) == After(step, s, events).value
  {
    assert events[..|events|] == events;
  }

  lemma {:induction false} KeptUpTo<S(!new), E(!new)>(step: Machine<S, E>, s: S, events: seq<E>,
                                                      inv: S -> bool, bad: (S, E) -> bool, k: nat)
    requires After(step, s, events).Some? && inv(s) && k <= |events|
    requires forall t, e :: inv(t) && step(t, e).Some? && !bad(t, e) ==> inv(step(t, e).value)
    requires Never(step, s, events, bad)
    ensures inv(StateAt(step, s, events, k))
  {
    if k == 0 {
      LastState(step, s, events);
    } else {
      KeptUpTo(step, s, events, inv, bad, k - 1);
      NextState(step, s, events, k - 1);
    }
  }

  /** What all but the bad events keep holds throughout a run without bad events. */
  lemma KeptUnless<S(!new), E(!new)>(step: Machine<S, E>, s: S, events: seq<E>, inv: S -> bool, bad: (S, E) -> bool)
    requires After(step, s, events).Some? && inv(s)
    requires forall t, e :: inv(t) && step(t, e).Some? && !bad(t, e) ==> inv(step(t, e).value)
    requires Never(step, s, events, bad)
    ensures Throughout(step, s, events, inv)
  {
    forall k | 0 <= k <= |events| ensures inv(StateAt(step, s, events, k)) {
      KeptUpTo(step, s, events, inv, bad, k);
    }
  }

  /** What exactly the bad events break holds throughout a run exactly when it has none. */
  lemma KeptIff<S(!new), E(!new)>(step: Machine<S, E>, s: S, events: seq<E>, inv: S -> bool, bad: (S, E) -> bool)
    requires After(step, s, events).Some? && inv(s)
    requires forall t, e :: inv(t) && step(t, e).Some? ==> (inv(step(t, e).value) <==> !bad(t, e))
    ensures Throughout(step, s, events, inv) <==> Never(step, s, events, bad)
  {
    if Never(step, s, events, bad) {
      KeptUnless(step, s, events, inv, bad);
    }
    if Throughout(step, s, events, inv) {
      forall k | 0 <= k < |events| ensures !bad(StateAt(step, s, events, k), events[k]) {
        NextState(step, s, events, k);
        assert inv(StateAt(step, s, events, k + 1));
      }
    }
  }

  /** What every good event keeps, given the invariant, holds from any moment on when it holds then. */
  lemma {:induction false} KeptFrom<S(!new), E(!new)>(step: Machine<S, E>, s: S, events: seq<E>, inv: S -> bool,
                                                      bad: (S, E) -> bool, p: S -> bool, j: nat, k: nat)
    requires After(step, s, events).Some? && j <= k <= |events|
    requires Throughout(step, s, events, inv) && Never(step, s, events, bad)
    requires forall t, e :: inv(t) && p(t) && step(t, e).Some? && !bad(t, e) ==> p(step(t, e).value)
    requires p(StateAt(step, s, events, j))
    ensures p(StateAt(step, s, events, k))
    decreases k
  {
    if j < k {
      KeptFrom(step, s, events, inv, bad, p, j, k - 1);
      NextState(step, s, events, k - 1);
      assert inv(StateAt(step, s, events, k - 1));
    }
  }
}

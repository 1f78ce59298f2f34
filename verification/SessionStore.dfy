/** The bounded in-memory session store, and its agreement with the history of puts. */
module SessionStore {
  import opened Prelude

  datatype Session = Session(experimentId: string, status: string)

  predicate DistinctIds(sessions: seq<Session>) {
    forall i, j :: 0 <= i < j < |sessions| ==> sessions[i].experimentId != sessions[j].experimentId
  }

  function Without(sessions: seq<Session>, id: string): seq<Session> {
    Filter(sessions, (s: Session) => s.experimentId != id)
  }

  /** The last value of every id of the history, the most recently put first. */
  function Latest(history: seq<Session>): seq<Session> {
    if history == [] then []
    else
      var last := history[|history| - 1];
      [last] + Without(Latest(history[..|history| - 1]), last.experimentId)
  }

  function Take(sessions: seq<Session>, n: nat): seq<Session> { if |sessions| <= n then sessions else sessions[..n] }

  function Reversed(sessions: seq<Session>): (r: seq<Session>)
    ensures |r| == |sessions| && forall i :: 0 <= i < |r| ==> r[i] == sessions[|sessions| - 1 - i]
  {
    seq(|sessions|, i requires 0 <= i < |sessions| => sessions[|sessions| - 1 - i])
  }

  // ----- what the history says -----

  /** `s` is the last value put under its id. */
  predicate IsLatest(history: seq<Session>, s: Session) {
    exists k :: 0 <= k < |history| && history[k] == s
                && forall j :: k < j < |history| ==> history[j].experimentId != s.experimentId
  }

  /** `a` was last put after `b` was. */
  predicate PutAfter(history: seq<Session>, a: Session, b: Session) {
    exists i, j :: 0 <= j < i < |history| && history[i] == a && history[j] == b
                   && forall k :: j < k < |history| ==> history[k].experimentId != b.experimentId
  }

  lemma {:induction false} WithoutKeepsDistinct(sessions: seq<Session>, id: string)
    requires DistinctIds(sessions)
    ensures DistinctIds(Without(sessions, id)) && |Without(sessions, id)| <= |sessions|
    ensures forall s :: s in Without(sessions, id) <==> s in sessions && s.experimentId != id
  {
    if sessions != [] {
      WithoutKeepsDistinct(sessions[1..], id);
      assert sessions == [sessions[0]] + sessions[1..];
      var rest := Without(sessions[1..], id);
      if sessions[0].experimentId != id {
        assert Without(sessions, id) == [sessions[0]] + rest;
        forall i | 0 <= i < |rest| ensures rest[i].experimentId != sessions[0].experimentId {
          assert rest[i] in rest;
        }
      } else {
        assert Without(sessions, id) == rest;
      }
    }
  }

  lemma {:induction false} LatestDistinct(history: seq<Session>)
    ensures DistinctIds(Latest(history))
  {
    if history != [] {
      var last := history[|history| - 1];
      var before := Latest(history[..|history| - 1]);
      LatestDistinct(history[..|history| - 1]);
      WithoutKeepsDistinct(before, last.experimentId);
      var rest := Without(before, last.experimentId);
      forall i | 0 <= i < |rest| ensures rest[i].experimentId != last.experimentId {
        assert rest[i] in rest;
      }
    }
  }

  lemma LatestAfterPut(front: seq<Session>, last: Session, s: Session)
    ensures IsLatest(front + [last], s) <==> s == last || (IsLatest(front, s) && s.experimentId != last.experimentId)
  {
    var history := front + [last];
    if s == last { assert history[|front|] == s; }
    if IsLatest(history, s) && s != last {
      var k :| 0 <= k < |history| && history[k] == s
               && forall j :: k < j < |history| ==> history[j].experimentId != s.experimentId;
      assert history[|front|] == last;
      assert front[k] == s && forall j :: k < j < |front| ==> front[j] == history[j];
      assert IsLatest(front, s);
    }
    if IsLatest(front, s) && s.experimentId != last.experimentId {
      var k :| 0 <= k < |front| && front[k] == s
             && forall j :: k < j < |front| ==> front[j].experimentId != s.experimentId;
      assert history[k] == s && forall j :: k < j < |history| ==> history[j] == if j < |front| then front[j] else last;
      assert IsLatest(history, s);
    }
  }

  /** `Latest` lists exactly the last values, each id once. */
  lemma {:induction false} LatestIff(history: seq<Session>, s: Session)
    ensures DistinctIds(Latest(history))
    ensures s in Latest(history) <==> IsLatest(history, s)
  {
    LatestDistinct(history);
    if history != [] {
      var front, last := history[..|history| - 1], history[|history| - 1];
      LatestIff(front, s);
      WithoutKeepsDistinct(Latest(front), last.experimentId);
      LatestAfterPut(front, last, s);
      assert history == front + [last];
    }
  }

  // ----- eviction commutes with the history -----

  lemma {:induction false} WithoutAbsent(sessions: seq<Session>, id: string)
    requires forall i :: 0 <= i < |sessions| ==> sessions[i].experimentId != id
    ensures Without(sessions, id) == sessions
  {
    FilterAll(sessions, (s: Session) => s.experimentId != id);
  }

  /** Dropping what is beyond the bound before a put loses nothing that matters after it. */
  lemma {:induction false} TakeWithout(sessions: seq<Session>, id: string, n: nat)
    requires DistinctIds(sessions) && n >= 1
    ensures Take(Without(Take(sessions, n), id), n - 1) == Take(Without(sessions, id), n - 1)
    decreases |sessions|
  {
    if |sessions| > n {
      var head, tail := sessions[..n], sessions[n..];
      assert sessions == head + tail;
      FilterConcat(head, tail, (s: Session) => s.experimentId != id);
      WithoutLength(head, id);
      assert Without(sessions, id) == Without(head, id) + Without(tail, id);
    }
  }

  /** At most one of distinct ids is removed. */
  lemma {:induction false} WithoutLength(sessions: seq<Session>, id: string)
    requires DistinctIds(sessions)
    ensures |sessions| - 1 <= |Without(sessions, id)| <= |sessions|
  {
    if sessions != [] {
      assert sessions == [sessions[0]] + sessions[1..];
      if sessions[0].experimentId == id {
        forall i | 0 <= i < |sessions[1..]| ensures sessions[1..][i].experimentId != id {
          assert sessions[1..][i] == sessions[i + 1];
        }
        WithoutAbsent(sessions[1..], id);
      } else {
        WithoutLength(sessions[1..], id);
      }
    }
  }

  /** A put on the bounded list is a put on the full one. */
  lemma PutCommutes(history: seq<Session>, s: Session, max: nat)
    requires max >= 1
    ensures Take([s] + Without(Take(Latest(history), max), s.experimentId), max) == Take(Latest(history + [s]), max)
  {
    var full := Latest(history);
    LatestIff(history, s);
    TakeWithout(full, s.experimentId, max);
    assert (history + [s])[..|history + [s]| - 1] == history;
    assert Latest(history + [s]) == [s] + Without(full, s.experimentId);
    TakeCons(s, Without(Take(full, max), s.experimentId), max);
    TakeCons(s, Without(full, s.experimentId), max);
  }

  lemma TakeCons(s: Session, rest: seq<Session>, max: nat)
    requires max >= 1
    ensures Take([s] + rest, max) == [s] + Take(rest, max - 1)
  {
  }

  lemma ReversedCons(s: Session, rest: seq<Session>)
    ensures Reversed([s] + rest) == Reversed(rest) + [s]
    ensures ([s] + rest)[..|[s] + rest|] == [s] + rest
  {
  }

  lemma ReversedFront(sessions: seq<Session>)
    requires sessions != []
    ensures Reversed(sessions)[1..] == Reversed(sessions[..|sessions| - 1])
  {
  }

  /** The bounded view after a put of `last`: bounded, with distinct ids and `last` at its end. */
  lemma BoundedView(history: seq<Session>, last: Session, max: nat)
    requires max >= 1 && history != [] && history[|history| - 1] == last
    ensures var view := Reversed(Take(Latest(history), max));
            |view| <= max && DistinctIds(view) && view != [] && view[|view| - 1] == last
  {
    LatestDistinct(history);
    assert Latest(history)[0] == last;
  }

  lemma EntryIsLatest(history: seq<Session>, max: nat, i: nat)
    requires i < |Take(Latest(history), max)|
    ensures IsLatest(history, Reversed(Take(Latest(history), max))[i])
  {
    var view := Take(Latest(history), max);
    assert view[|view| - 1 - i] == Latest(history)[|view| - 1 - i];
    LatestIff(history, view[|view| - 1 - i]);
  }

  // ----- the store -----

  /** `InMemoryExperimentSessionStore`; `entries` is its ordered dictionary, oldest first. */
  class InMemorySessionStore {
    const maxSessions: nat
    var entries: seq<Session>
    ghost var history: seq<Session>

    /** The store is the bounded view of its history. */
    ghost predicate Valid()
      reads this
    {
      maxSessions >= 1 && entries == Reversed(Take(Latest(history), maxSessions))
    }

    constructor (maxSessions: nat)
      requires maxSessions >= 1
      ensures Valid() && history == [] && this.maxSessions == maxSessions
    {
      this.maxSessions := maxSessions;
      entries, history := [], [];
    }

    method Put(session: Session)
      requires Valid()
      modifies this
      ensures Valid() && history == old(history) + [session]
      ensures |entries| <= maxSessions && DistinctIds(entries)
      ensures entries != [] && entries[|entries| - 1] == session
    {
      ghost var newest := Take(Latest(history), maxSessions);
      ghost var grown := [session] + Without(newest, session.experimentId);
      WithoutReversed(newest, session.experimentId);
      ReversedCons(session, Without(newest, session.experimentId));
      entries := Without(entries, session.experimentId) + [session];
      PutCommutes(history, session, maxSessions);
      history := history + [session];
      while |entries| > maxSessions
        invariant history == old(history) + [session]
        invariant |entries| <= |grown| && entries == Reversed(grown[..|entries|])
        invariant |entries| >= maxSessions || |entries| == |grown|
      {
        ReversedFront(grown[..|entries|]);
        assert grown[..|entries|][..|entries| - 1] == grown[..|entries| - 1];
        entries := entries[1..];
      }
      assert grown[..|entries|] == Take(grown, maxSessions);
      BoundedView(history, session, maxSessions);
    }

    method Get(id: string) returns (found: Option<Session>)
      requires Valid()
      ensures found.Some? ==> found.value.experimentId == id && IsLatest(history, found.value)
      ensures found.None? <==> forall i :: 0 <= i < |entries| ==> entries[i].experimentId != id
    {
      var i := 0;
      while i < |entries|
        invariant 0 <= i <= |entries|
        invariant forall j :: 0 <= j < i ==> entries[j].experimentId != id
      {
        if entries[i].experimentId == id {
          EntryIsLatest(history, maxSessions, i);
          return Some(entries[i]);
        }
        i := i + 1;
      }
      return None;
    }

    /** Newest first. */
    method List() returns (sessions: seq<Session>)
      requires Valid()
      ensures sessions == Take(Latest(history), maxSessions)
    {
      sessions := Reversed(entries);
    }
  }

  lemma {:induction false} WithoutReversed(sessions: seq<Session>, id: string)
    ensures Without(Reversed(sessions), id) == Reversed(Without(sessions, id))
  {
    if sessions == [] {
    } else {
      var head, tail := sessions[0], sessions[1..];
      WithoutReversed(tail, id);
      assert sessions == [head] + tail;
      assert Reversed(sessions) == Reversed(tail) + [head];
      FilterSnoc(Reversed(tail), head, (s: Session) => s.experimentId != id);
      FilterCons(head, tail, (s: Session) => s.experimentId != id);
      if head.experimentId != id {
        assert Reversed([head] + Without(tail, id)) == Reversed(Without(tail, id)) + [head];
      } else {
        assert [] + Without(tail, id) == Without(tail, id);
      }
    }
  }

  lemma NewestFirst(front: seq<Session>, last: Session, b: Session)
    requires IsLatest(front, b) && b.experimentId != last.experimentId
    ensures PutAfter(front + [last], last, b)
  {
    var history := front + [last];
    var k :| 0 <= k < |front| && front[k] == b
             && forall m :: k < m < |front| ==> front[m].experimentId != b.experimentId;
    assert history[|front|] == last && history[k] == b;
  }

  lemma StillAfter(front: seq<Session>, last: Session, a: Session, b: Session)
    requires PutAfter(front, a, b) && b.experimentId != last.experimentId
    ensures PutAfter(front + [last], a, b)
  {
    var history := front + [last];
    var p, q :| 0 <= q < p < |front| && front[p] == a && front[q] == b
                && forall k :: q < k < |front| ==> front[k].experimentId != b.experimentId;
    assert history[p] == a && history[q] == b;
  }

  /** The list is ordered by recency: of two sessions in it, the earlier was put later. */
  lemma {:induction false} LatestByRecency(history: seq<Session>, i: nat, j: nat)
    requires i < j < |Latest(history)|
    ensures PutAfter(history, Latest(history)[i], Latest(history)[j])
    decreases |history|
  {
    var front, last := history[..|history| - 1], history[|history| - 1];
    assert history == front + [last];
    LatestSnoc(front, last);
    var rest := Without(Latest(front), last.experimentId);
    assert Latest(history)[j] == rest[j - 1];
    if i == 0 {
      NewestPutAfter(front, last, j - 1);
    } else {
      assert Latest(history)[i] == rest[i - 1];
      var a, b := FilterPositions(Latest(front), last.experimentId, i - 1, j - 1);
      LatestByRecency(front, a, b);
      OlderPutAfter(front, last, i - 1, j - 1);
    }
  }

  lemma NewestPutAfter(front: seq<Session>, last: Session, j: nat)
    requires j < |Without(Latest(front), last.experimentId)|
    ensures PutAfter(front + [last], last, Without(Latest(front), last.experimentId)[j])
  {
    var b := WithoutMember(front, last, j);
    NewestFirst(front, last, b);
  }

  lemma OlderPutAfter(front: seq<Session>, last: Session, i: nat, j: nat)
    requires i < j < |Without(Latest(front), last.experimentId)|
    requires var rest := Without(Latest(front), last.experimentId); PutAfter(front, rest[i], rest[j])
    ensures var rest := Without(Latest(front), last.experimentId); PutAfter(front + [last], rest[i], rest[j])
  {
    var rest := Without(Latest(front), last.experimentId);
    var b := WithoutMember(front, last, j);
    StillAfter(front, last, rest[i], b);
  }

  lemma LatestSnoc(front: seq<Session>, last: Session)
    ensures Latest(front + [last]) == [last] + Without(Latest(front), last.experimentId)
  {
    assert (front + [last])[..|front|] == front;
  }

  lemma WithoutMember(front: seq<Session>, last: Session, j: nat) returns (b: Session)
    requires j < |Without(Latest(front), last.experimentId)|
    ensures b == Without(Latest(front), last.experimentId)[j]
    ensures IsLatest(front, b) && b.experimentId != last.experimentId
  {
    var rest := Without(Latest(front), last.experimentId);
    b := rest[j];
    assert b in rest;
    LatestDistinct(front);
    WithoutKeepsDistinct(Latest(front), last.experimentId);
    LatestIff(front, b);
  }

  lemma {:induction false} FilterPositions(sessions: seq<Session>, id: string, i: nat, j: nat) returns (a: nat, b: nat)
    requires i < j < |Without(sessions, id)|
    ensures a < b < |sessions| && sessions[a] == Without(sessions, id)[i] && sessions[b] == Without(sessions, id)[j]
  {
    var rest := sessions[1..];
    if sessions[0].experimentId == id {
      assert Without(sessions, id) == Without(rest, id);
      a, b := FilterPositions(rest, id, i, j);
      a, b := a + 1, b + 1;
    } else if i > 0 {
      assert Without(sessions, id) == [sessions[0]] + Without(rest, id);
      a, b := FilterPositions(rest, id, i - 1, j - 1);
      a, b := a + 1, b + 1;
    } else {
      assert Without(sessions, id) == [sessions[0]] + Without(rest, id);
      a := 0;
      b := FilterPosition(rest, id, j - 1);
      b := b + 1;
    }
  }

  lemma {:induction false} FilterPosition(sessions: seq<Session>, id: string, j: nat) returns (b: nat)
    requires j < |Without(sessions, id)|
    ensures b < |sessions| && sessions[b] == Without(sessions, id)[j]
  {
    var rest := sessions[1..];
    if sessions[0].experimentId == id {
      b := FilterPosition(rest, id, j);
      b := b + 1;
    } else if j == 0 {
      b := 0;
    } else {
      b := FilterPosition(rest, id, j - 1);
      b := b + 1;
    }
  }
}

/** The persistent event log of a job: numbering by the sink, and readers that follow it. */
module EventLog {
  import opened Prelude
  import opened Runs

  /** A runtime or incident event as it is stored: renumbered, with the attempt it belongs to. */
  datatype Stored = Stored(sequence: nat, attempt: nat, message: string)

  /** An event given to the sink, and whether storing it worked. */
  datatype Emission = Emission(attempt: nat, message: string, stores: bool)

  /** The log that the emissions leave. */
  function LogOf(history: seq<Emission>): seq<Stored> {
    if history == [] then []
    else
      var last := history[|history| - 1];
      LogOf(history[..|history| - 1])
      + (if last.stores then [Stored(|history|, last.attempt, last.message)] else [])
  }

  predicate Ascending(log: seq<Stored>) {
    && (forall i :: 0 <= i < |log| ==> log[i].sequence >= 1)
    && forall i, j :: 0 <= i < j < |log| ==> log[i].sequence < log[j].sequence
  }

  predicate Gapless(log: seq<Stored>) { forall i :: 0 <= i < |log| ==> log[i].sequence == i + 1 }

  /** Numbers ascend strictly and never exceed the number of emissions. */
  lemma {:induction false} LogAscends(history: seq<Emission>)
    ensures Ascending(LogOf(history)) && |LogOf(history)| <= |history|
    ensures forall i :: 0 <= i < |LogOf(history)| ==> i + 1 <= LogOf(history)[i].sequence <= |history|
  {
    if history != [] { LogAscends(history[..|history| - 1]); }
  }

  predicate AllStored(history: seq<Emission>) { forall i :: 0 <= i < |history| ==> history[i].stores }

  lemma LogSnoc(front: seq<Emission>, last: Emission)
    ensures LogOf(front + [last])
            == LogOf(front) + (if last.stores then [Stored(|front| + 1, last.attempt, last.message)] else [])
  {
    assert (front + [last])[..|front|] == front;
  }

  lemma {:induction false} LogFull(history: seq<Emission>)
    ensures |LogOf(history)| == |history| <==> AllStored(history)
  {
    if history != [] {
      var front, last := history[..|history| - 1], history[|history| - 1];
      LogFull(front);
      LogAscends(front);
      assert history == front + [last];
      LogSnoc(front, last);
    }
  }

  /** Once an emission failed, no later one is stored. */
  predicate FailuresLast(history: seq<Emission>) {
    forall i, j :: 0 <= i < j < |history| && history[j].stores ==> history[i].stores
  }

  lemma FailuresLastSnoc(front: seq<Emission>, last: Emission)
    ensures FailuresLast(front + [last]) <==> FailuresLast(front) && (last.stores ==> AllStored(front))
  {
    var all := front + [last];
    assert all[|front|] == last;
    if FailuresLast(all) {
      assert forall i, j :: 0 <= i < j < |front| ==> all[i] == front[i] && all[j] == front[j];
      assert forall i :: 0 <= i < |front| ==> all[i] == front[i];
    }
  }

  lemma GaplessSnoc(log: seq<Stored>, row: Stored)
    ensures Gapless(log + [row]) <==> Gapless(log) && row.sequence == |log| + 1
  {
    var all := log + [row];
    assert all[|log|] == row;
    assert forall i :: 0 <= i < |log| ==> all[i] == log[i];
  }

  /** The log is numbered 1, 2, 3, ... exactly when no event is stored after one that failed: a
      failed store still uses up its number. */
  lemma {:induction false} GaplessIff(history: seq<Emission>)
    ensures Gapless(LogOf(history)) <==> FailuresLast(history)
  {
    if history != [] {
      var front, last := history[..|history| - 1], history[|history| - 1];
      assert history == front + [last];
      GaplessIff(front);
      LogFull(front);
      LogSnoc(front, last);
      FailuresLastSnoc(front, last);
      if last.stores {
        GaplessSnoc(LogOf(front), Stored(|front| + 1, last.attempt, last.message));
      } else {
        assert LogOf(history) == LogOf(front);
      }
    }
  }

  // ----- the sink -----

  /** `_PersistentRuntimeEventSink` over the event rows of its job. */
  class PersistentSink {
    var sequence: nat
    var attempt: nat
    var rows: seq<Stored>
    ghost var history: seq<Emission>

    ghost predicate Valid()
      reads this
    {
      sequence == |history| && rows == LogOf(history)
    }

    constructor ()
      ensures Valid() && history == [] && attempt == 1
    {
      sequence, attempt, rows, history := 0, 1, [], [];
    }

    /** `emit`, through `append_event`; the row's key is always new. */
    method Emit(message: string, storeWorks: bool) returns (raised: bool)
      requires Valid()
      modifies this`sequence, this`rows, this`history
      ensures Valid() && history == old(history) + [Emission(attempt, message, storeWorks)]
      ensures raised <==> !storeWorks
      ensures rows == old(rows) + (if storeWorks then [Stored(|old(history)| + 1, attempt, message)] else [])
    {
      LogAscends(history);
      sequence := sequence + 1;
      history := history + [Emission(attempt, message, storeWorks)];
      assert history[..|history| - 1] == old(history);
      if !storeWorks || exists r :: r in rows && r.sequence == sequence {
        return true;
      }
      rows := rows + [Stored(sequence, attempt, message)];
      return false;
    }
  }

  // ----- a reader of the stream -----

  /** `events_after`. */
  function EventsAfter(log: seq<Stored>, cursor: nat): seq<Stored> { Filter(log, (e: Stored) => e.sequence > cursor) }

  /** Where a reader of the event stream is: in the first read of `wait_for_events`, in its status
      check, waiting before its second read, back in the stream, or done. */
  datatype Pc = Reading | CheckingStatus | Waiting | Delivered | Stopped

  datatype Reader = Reader(pc: Pc, cursor: nat, received: seq<Stored>)

  /** A job with its emissions so far, and one reader. */
  datatype State = State(history: seq<Emission>, terminal: bool, reader: Reader)

  datatype Event = Emit(emission: Emission) | Finish | ReaderMoves

  predicate Enabled(s: State, e: Event) {
    match e
    case Emit(_) => !s.terminal
    case Finish => !s.terminal
    case ReaderMoves => true
  }

  function Deliver(r: Reader, batch: seq<Stored>, pc: Pc): Reader {
    Reader(pc, if batch == [] then r.cursor else batch[|batch| - 1].sequence, r.received + batch)
  }

  function ReaderNext(s: State): Reader {
    var r := s.reader;
    var batch := EventsAfter(LogOf(s.history), r.cursor);
    match r.pc
    case Reading => Deliver(r, batch, if batch == [] then CheckingStatus else Delivered)
    case CheckingStatus => r.(pc := if s.terminal then Delivered else Waiting)
    case Waiting => Deliver(r, batch, Delivered)
    case Delivered => r.(pc := if s.terminal then Stopped else Reading)
    case Stopped => r
  }

  function Next(s: State, e: Event): State
    requires Enabled(s, e)
  {
    match e
    case Emit(emission) => s.(history := s.history + [emission])
    case Finish => s.(terminal := true)
    case ReaderMoves => s.(reader := ReaderNext(s))
  }

  function Stream(): Machine<State, Event> {
    (s: State, e: Event) => if Enabled(s, e) then Some(Next(s, e)) else None
  }

  /** What the reader received is the log up to its cursor. */
  predicate Following(s: State) {
    var r := s.reader;
    && r.received <= LogOf(s.history)
    && r.cursor == (if r.received == [] then 0 else r.received[|r.received| - 1].sequence)
  }

  lemma {:induction false} NoneAfter(log: seq<Stored>, cursor: nat)
    requires forall i :: 0 <= i < |log| ==> log[i].sequence <= cursor
    ensures EventsAfter(log, cursor) == []
  {
    if log != [] {
      assert log[0].sequence <= cursor;
      NoneAfter(log[1..], cursor);
    }
  }

  /** Reading from the cursor yields exactly the rest of the log. */
  lemma ReadsTheRest(s: State)
    requires Following(s)
    ensures EventsAfter(LogOf(s.history), s.reader.cursor) == LogOf(s.history)[|s.reader.received|..]
  {
    var log, r := LogOf(s.history), s.reader;
    LogAscends(s.history);
    var rest := log[|r.received|..];
    assert log == r.received + rest;
    SplitsAtCursor(r.received, rest, r.cursor);
  }

  lemma SplitsAtCursor(received: seq<Stored>, rest: seq<Stored>, cursor: nat)
    requires Ascending(received + rest)
    requires cursor == (if received == [] then 0 else received[|received| - 1].sequence)
    ensures EventsAfter(received + rest, cursor) == rest
  {
    var log := received + rest;
    FilterConcat(received, rest, (e: Stored) => e.sequence > cursor);
    forall i | 0 <= i < |received| ensures received[i].sequence <= cursor {
      assert log[i] == received[i] && log[|received| - 1] == received[|received| - 1];
    }
    NoneAfter(received, cursor);
    forall e | e in rest ensures e.sequence > cursor {
      var i :| 0 <= i < |rest| && rest[i] == e;
      assert log[|received| + i] == e;
      assert received != [] ==> log[|received| - 1] == received[|received| - 1];
    }
    FilterAll(rest, (e: Stored) => e.sequence > cursor);
  }

  lemma DeliveryFollows(s: State, pc: Pc)
    requires Following(s)
    ensures var batch := EventsAfter(LogOf(s.history), s.reader.cursor);
            var t := s.(reader := Deliver(s.reader, batch, pc));
            Following(t) && t.reader.received == LogOf(s.history)
  {
    ReadsTheRest(s);
    assert s.reader.received + LogOf(s.history)[|s.reader.received|..] == LogOf(s.history);
  }

  lemma StepFollows(s: State, e: Event)
    requires Following(s) && Enabled(s, e)
    ensures Following(Next(s, e))
  {
    match e {
      case Emit(emission) =>
        assert (s.history + [emission])[..|s.history|] == s.history;
      case Finish =>
      case ReaderMoves =>
        if s.reader.pc.Reading? || s.reader.pc.Waiting? { DeliveryFollows(s, ReaderNext(s).pc); }
    }
  }

  predicate Start(s: State) { s == State([], false, Reader(Reading, 0, [])) }

  function FollowingAlways(): State -> bool { (s: State) => Following(s) }

  /** At every moment of every run, what a reader received is an exact prefix of the log, in
      order and without repetition; it is numbered without gaps if no failed store precedes it. */
  lemma ReaderHasPrefix(s: State, events: seq<Event>, k: nat)
    requires Start(s) && After(Stream(), s, events).Some? && k <= |events|
    ensures var t := StateAt(Stream(), s, events, k);
            && t.reader.received <= LogOf(t.history) && Ascending(t.reader.received)
            && (FailuresLast(t.history) ==> Gapless(t.reader.received))
  {
    forall t, e | FollowingAlways()(t) && Stream()(t, e).Some? ensures FollowingAlways()(Stream()(t, e).value) {
      StepFollows(t, e);
    }
    KeptUnless(Stream(), s, events, FollowingAlways(), (t, e) => false);
    var t := StateAt(Stream(), s, events, k);
    assert FollowingAlways()(t);
    LogAscends(t.history);
    GaplessIff(t.history);
    assert forall i :: 0 <= i < |t.reader.received| ==> t.reader.received[i] == LogOf(t.history)[i];
  }

  /** A read that starts after the job is terminal completes the reader, for good. */
  lemma ReadAfterTerminalCompletes(s: State)
    requires Following(s) && s.terminal && (s.reader.pc.Reading? || s.reader.pc.Waiting?)
    ensures Next(s, ReaderMoves).reader.received == LogOf(s.history)
    ensures forall e :: Enabled(s, e) ==> e == ReaderMoves
  {
    DeliveryFollows(s, ReaderNext(s).pc);
  }

  // ----- when a reader ends with the whole log -----

  /** The event puts an entry into the log. */
  predicate Stores(e: Event) { e.Emit? && e.emission.stores }

  /** The event is a read of the log by the reader. */
  predicate ReadsLog(s: State, e: Event) { e.ReaderMoves? && (s.reader.pc.Reading? || s.reader.pc.Waiting?) }

  /** The reader reads the log at event `k` of the run. */
  predicate ReadsAt(s: State, events: seq<Event>, k: nat)
    requires After(Stream(), s, events).Some? && k < |events|
  {
    ReadsLog(StateAt(Stream(), s, events, k), events[k])
  }

  /** Among the first `n` moments, every one in `stores` is followed by one in `looks`. */
  predicate Covered(stores: nat -> bool, looks: nat -> bool, n: nat) {
    forall k: nat :: k < n && stores(k) ==> exists j: nat :: k < j < n && looks(j)
  }

  lemma CoveredSnoc(stores: nat -> bool, looks: nat -> bool, n: nat)
    requires !(stores(n) && looks(n))
    ensures Covered(stores, looks, n + 1) <==> (looks(n) || (!stores(n) && Covered(stores, looks, n)))
  {
    if Covered(stores, looks, n + 1) && !looks(n) {
      forall k: nat | k < n && stores(k) ensures exists j: nat :: k < j < n && looks(j) {
        var j: nat :| k < j < n + 1 && looks(j);
      }
    }
  }

  lemma CoveredAgrees(stores: nat -> bool, looks: nat -> bool, stores': nat -> bool, looks': nat -> bool, n: nat)
    requires forall k: nat :: k < n ==> stores(k) == stores'(k) && looks(k) == looks'(k)
    ensures Covered(stores, looks, n) == Covered(stores', looks', n)
  {
    if Covered(stores, looks, n) {
      forall k: nat | k < n && stores'(k) ensures exists j: nat :: k < j < n && looks'(j) {
        var j: nat :| k < j < n && looks(j);
      }
    }
    if Covered(stores', looks', n) {
      forall k: nat | k < n && stores(k) ensures exists j: nat :: k < j < n && looks(j) {
        var j: nat :| k < j < n && looks'(j);
      }
    }
  }

  function StoreMoments(events: seq<Event>): nat -> bool { (k: nat) => k < |events| && Stores(events[k]) }

  function ReadMoments(s: State, events: seq<Event>): nat -> bool
    requires After(Stream(), s, events).Some?
  {
    (k: nat) requires After(Stream(), s, events).Some? => k < |events| && ReadsAt(s, events, k)
  }

  /** Every stored entry is followed by a read of the log. */
  predicate StoresAreRead(s: State, events: seq<Event>)
    requires After(Stream(), s, events).Some?
  {
    Covered(StoreMoments(events), ReadMoments(s, events), |events|)
  }

  /** What one event does to completeness: a stored entry ends it, a read restores it, and
      nothing else touches it. */
  lemma StepCompleteIff(s: State, e: Event)
    requires Following(s) && Enabled(s, e)
    ensures var t := Next(s, e);
            t.reader.received == LogOf(t.history)
            <==> (ReadsLog(s, e) || (!Stores(e) && s.reader.received == LogOf(s.history)))
  {
    match e {
      case Emit(emission) =>
        assert (s.history + [emission])[..|s.history|] == s.history;
        if emission.stores { assert |LogOf(s.history + [emission])| > |s.reader.received|; }
      case Finish =>
      case ReaderMoves =>
        if ReadsLog(s, e) { DeliveryFollows(s, ReaderNext(s).pc); }
    }
  }

  lemma FrontReadsAt(s: State, events: seq<Event>, k: nat)
    requires After(Stream(), s, events).Some? && k < |events| - 1
    ensures After(Stream(), s, events[..|events| - 1]).Some?
    ensures ReadsAt(s, events, k) == ReadsAt(s, events[..|events| - 1], k)
  {
    assert events[..|events| - 1][..k] == events[..k];
  }

  /** What one more event does to the condition. */
  lemma StoresAreReadSnoc(s: State, events: seq<Event>)
    requires After(Stream(), s, events).Some? && events != []
    ensures After(Stream(), s, events[..|events| - 1]).Some?
    ensures var n := |events| - 1;
            StoresAreRead(s, events)
            <==> (ReadsAt(s, events, n) || (!Stores(events[n]) && StoresAreRead(s, events[..n])))
  {
    var n := |events| - 1;
    var front := events[..n];
    forall k: nat | k < n
      ensures StoreMoments(events)(k) == StoreMoments(front)(k)
      ensures ReadMoments(s, events)(k) == ReadMoments(s, front)(k)
    {
      FrontReadsAt(s, events, k);
    }
    CoveredSnoc(StoreMoments(events), ReadMoments(s, events), n);
    CoveredAgrees(StoreMoments(events), ReadMoments(s, events), StoreMoments(front), ReadMoments(s, front), n);
  }

  /** Over any run a reader holds the whole log exactly when it has read the log after each entry
      was stored. */
  lemma {:induction false} CompleteIff(s: State, events: seq<Event>)
    requires Start(s) && After(Stream(), s, events).Some?
    ensures var t := After(Stream(), s, events).value;
            Following(t) && (t.reader.received == LogOf(t.history) <==> StoresAreRead(s, events))
    decreases |events|
  {
    if events != [] {
      var n := |events| - 1;
      var front := events[..n];
      StoresAreReadSnoc(s, events);
      CompleteIff(s, front);
      var t := After(Stream(), s, front).value;
      assert StateAt(Stream(), s, events, n) == t;
      StepCompleteIff(t, events[n]);
      StepFollows(t, events[n]);
    }
  }

  /** So a stream that has ended gave the whole log exactly when the reader read the log after each
      entry was stored: one stored between its last read and its last status check is missed. */
  lemma StopsCompleteIff(s: State, events: seq<Event>)
    requires Start(s) && After(Stream(), s, events).Some?
    requires After(Stream(), s, events).value.reader.pc.Stopped?
    ensures var t := After(Stream(), s, events).value;
            && t.terminal
            && (t.reader.received == LogOf(t.history)
                <==> forall k :: 0 <= k < |events| && Stores(events[k]) ==>
                       exists j :: k < j < |events| && ReadsAt(s, events, j))
  {
    CompleteIff(s, events);
    StoppedIsTerminal(s, events);
    CoveredMeans(s, events);
  }

  lemma CoveredMeans(s: State, events: seq<Event>)
    requires After(Stream(), s, events).Some?
    ensures StoresAreRead(s, events) <==>
            forall k :: 0 <= k < |events| && Stores(events[k]) ==>
              exists j :: k < j < |events| && ReadsAt(s, events, j)
  {
    var stores, looks := StoreMoments(events), ReadMoments(s, events);
    if StoresAreRead(s, events) {
      forall k | 0 <= k < |events| && Stores(events[k]) ensures exists j :: k < j < |events| && ReadsAt(s, events, j) {
        assert stores(k);
        var j: nat :| k < j < |events| && looks(j);
        assert ReadsAt(s, events, j);
      }
    } else {
      var k: nat :| k < |events| && stores(k) && forall j: nat :: k < j < |events| ==> !looks(j);
      assert Stores(events[k]);
      forall j | k < j < |events| ensures !ReadsAt(s, events, j) {
        assert !looks(j);
      }
    }
  }

  lemma {:induction false} StoppedIsTerminal(s: State, events: seq<Event>)
    requires Start(s) && After(Stream(), s, events).Some?
    ensures After(Stream(), s, events).value.reader.pc.Stopped? ==> After(Stream(), s, events).value.terminal
    decreases |events|
  {
    if events != [] { StoppedIsTerminal(s, events[..|events| - 1]); }
  }

  lemma Then(s: State, events: seq<Event>, t: State, e: Event) returns (events': seq<Event>, t': State)
    requires After(Stream(), s, events) == Some(t) && Enabled(t, e)
    ensures events' == events + [e] && t' == Next(t, e)
    ensures After(Stream(), s, events') == Some(t')
  {
    events' := events + [e];
    t' := Next(t, e);
    AfterSnoc(Stream(), s, events, e);
  }

  /** It can stop short: the job's last event is stored, and the job finishes, after a read that
      delivered the others and before the status check. */
  lemma StreamMissesLastEvent() returns (s: State, events: seq<Event>, t: State)
    ensures Start(s) && After(Stream(), s, events) == Some(t)
    ensures t.reader.pc.Stopped? && |t.reader.received| == 1 && |LogOf(t.history)| == 2
  {
    s := State([], false, Reader(Reading, 0, []));
    t, events := s, [];
    var first, last := Emission(1, "running", true), Emission(1, "experiment recovered", true);
    events, t := Then(s, events, t, Emit(first));
    assert t.history == [first];
    assert [first][..0] == [] && LogOf([first]) == [Stored(1, 1, "running")];
    DeliveryFollows(t, Delivered);
    assert EventsAfter(LogOf([first]), 0) != [] by { ReadsTheRest(t); }
    events, t := Then(s, events, t, ReaderMoves);
    events, t := Then(s, events, t, Emit(last));
    assert t.history == [first, last] && [first, last][..1] == [first];
    events, t := Then(s, events, t, Finish);
    events, t := Then(s, events, t, ReaderMoves);
  }
}

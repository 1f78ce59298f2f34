/** The job store under concurrent submitters, cancellers, job threads and restarts, one store
    call or lock scope at a time. */
module JobLifecycle {
  import opened Prelude
  import opened Runs
  import opened JobRunner

  type Id = string
  type Caller = nat

  /** A job row; `result` holds the attempts of the stored result. */
  datatype Row = Row(status: JobStatus, cancelRequested: bool, result: Option<seq<AttemptStatus>>)

  /** Where a job's thread is in `_run_job`. */
  datatype Pc =
    | Begun
    | Loaded
    | Looping(verdict: AttemptStatus)
    | Deciding(verdict: AttemptStatus)
    | Storing(status: AttemptStatus)
    | Unregistering
    | Over

  /** A job's thread, with the cancellation flag it holds. */
  datatype JobThread = JobThread(pc: Pc, flag: bool, attempts: seq<AttemptStatus>)

  /** Where a caller is in `cancel`: `request_cancel` reads the row in one lock scope and writes it
      in another; the flag is signalled after that. */
  datatype CancelPc = WritingCancel(id: Id) | Signalling(id: Id)

  datatype State = State(
    rows: map<Id, Row>,
    submitting: set<Id>,
    threads: map<Id, JobThread>,
    registered: set<Id>,
    cancels: map<Caller, CancelPc>)

  datatype Event =
    | Create(id: Id)
    | Register(id: Id)
    | Load(id: Id)
    | MarkRunning(id: Id)
    | SeeFlag(id: Id)
    | FinishAttempt(id: Id, status: AttemptStatus)
    | Raise(id: Id)
    | RunOut(id: Id)
    | FinalCheck(id: Id)
    | StoreResult(id: Id)
    | Unregister(id: Id)
    | ReadForCancel(caller: Caller, id: Id)
    | WriteCancel(caller: Caller)
    | Signal(caller: Caller)
    | Restart

  predicate At(s: State, id: Id, pc: Pc) { id in s.threads && s.threads[id].pc == pc }

  predicate InLoop(s: State, id: Id) { id in s.threads && s.threads[id].pc.Looping? }

  predicate Enabled(s: State, e: Event) {
    match e
    case Create(id) => id !in s.rows && id !in s.threads
    case Register(id) => id in s.submitting
    case Load(id) => At(s, id, Begun)
    case MarkRunning(id) => At(s, id, Loaded) && id in s.rows
    case SeeFlag(id) => InLoop(s, id) && s.threads[id].flag
    case FinishAttempt(id, _) => InLoop(s, id)
    case Raise(id) => InLoop(s, id)
    case RunOut(id) => InLoop(s, id) && s.threads[id].attempts != []  // a request has at least one repetition
    case FinalCheck(id) => id in s.threads && s.threads[id].pc.Deciding?
    case StoreResult(id) => id in s.threads && s.threads[id].pc.Storing? && id in s.rows
    case Unregister(id) => At(s, id, Unregistering)
    case ReadForCancel(caller, id) => caller !in s.cancels && id in s.rows
    case WriteCancel(caller) =>
      caller in s.cancels && s.cancels[caller].WritingCancel? && s.cancels[caller].id in s.rows
    case Signal(caller) => caller in s.cancels && s.cancels[caller].Signalling?
    case Restart => true
  }

  function Moved(s: State, id: Id, pc: Pc): State
    requires id in s.threads
  {
    s.(threads := s.threads[id := s.threads[id].(pc := pc)])
  }

  function Stored(s: State, id: Id, row: Row): State { s.(rows := s.rows[id := row]) }

  /** `interrupt_nonterminal_jobs`. */
  function Interrupt(rows: map<Id, Row>): map<Id, Row> {
    map id | id in rows :: if Terminal(rows[id].status) then rows[id] else rows[id].(status := Interrupted)
  }

  function Next(s: State, e: Event): State
    requires Enabled(s, e)
  {
    match e
    case Create(id) => Stored(s, id, Row(Queued, false, None)).(submitting := s.submitting + {id})
    case Register(id) =>
      s.(submitting := s.submitting - {id}, registered := s.registered + {id},
         threads := s.threads[id := JobThread(Begun, false, [])])
    case Load(id) => Moved(s, id, if id in s.rows then Loaded else Over)
    case MarkRunning(id) => Moved(Stored(s, id, s.rows[id].(status := Running)), id, Looping(Completed))
    case SeeFlag(id) => Moved(s, id, Deciding(Cancelled))
    case FinishAttempt(id, status) =>
      var t := s.threads[id];
      s.(threads := s.threads[id := JobThread(
        if status == Cancelled then Deciding(Cancelled) else Looping(Absorb(t.pc.verdict, status)),
        t.flag, t.attempts + [status])])
    case Raise(id) => Moved(s, id, Deciding(if s.threads[id].flag then Cancelled else Failed))
    case RunOut(id) => Moved(s, id, Deciding(s.threads[id].pc.verdict))
    case FinalCheck(id) =>
      var t := s.threads[id];
      Moved(s, id, Storing(if t.flag && t.pc.verdict == Completed then Cancelled else t.pc.verdict))
    case StoreResult(id) =>
      var t := s.threads[id];
      Moved(Stored(s, id, s.rows[id].(status := t.pc.status, result := Some(t.attempts))), id, Unregistering)
    case Unregister(id) => Moved(s, id, Over).(registered := s.registered - {id})
    case ReadForCancel(caller, id) =>
      s.(cancels := s.cancels[caller := if Terminal(s.rows[id].status) then Signalling(id) else WritingCancel(id)])
    case WriteCancel(caller) =>
      var id := s.cancels[caller].id;
      var t := Stored(s, id, s.rows[id].(status := Cancelling, cancelRequested := true));
      t.(cancels := s.cancels[caller := Signalling(id)])
    case Signal(caller) =>
      var id := s.cancels[caller].id;
      var t := s.(cancels := s.cancels - {caller});
      if id in s.registered && id in s.threads then
        t.(threads := s.threads[id := s.threads[id].(flag := true)])
      else t
    case Restart => State(Interrupt(s.rows), {}, map[], {}, map[])
  }

  // ----- the invariant -----

  /** The thread has yet to store its result. */
  predicate Active(pc: Pc) { pc.Begun? || pc.Loaded? || pc.Looping? || pc.Deciding? || pc.Storing? }

  predicate NonterminalRow(s: State, id: Id) { id in s.rows && !Terminal(s.rows[id].status) }

  /** The verdict that a thread carries matches the attempts it has made. */
  predicate VerdictFits(t: JobThread) {
    match t.pc
    case Begun => t.attempts == []
    case Loaded => t.attempts == []
    case Looping(v) => v == Verdict(t.attempts)
    case Deciding(v) => v == Completed ==> AllHarmless(t.attempts)
    case Storing(v) => v == Completed ==> AllHarmless(t.attempts)
    case _ => true
  }

  predicate ThreadFits(s: State, id: Id)
    requires id in s.threads
  {
    && id in s.rows && id !in s.submitting && VerdictFits(s.threads[id])
    && (Active(s.threads[id].pc) <==> !Terminal(s.rows[id].status))
    && (Active(s.threads[id].pc) ==> id in s.registered)
  }

  predicate RowFits(s: State, id: Id)
    requires id in s.rows
  {
    && (!Terminal(s.rows[id].status) ==> id in s.submitting || id in s.threads)
    && (s.rows[id].status == Completed ==> s.rows[id].result.Some? && AllHarmless(s.rows[id].result.value))
  }

  /** Every job that is not terminal is being submitted or has a registered thread that will still
      store its result; a finished thread's job is terminal; and a completed job's stored
      attempts are all harmless. */
  ghost predicate Inv(s: State) {
    && (forall id :: id in s.threads ==> ThreadFits(s, id))
    && (forall id :: id in s.rows ==> RowFits(s, id))
    && (forall id :: id in s.submitting ==> NonterminalRow(s, id))
  }

  /** Once `submit` returned, a job that is not terminal has a registered thread; a completed job
      had no attempt that was cancelled, blocked or failed. */
  lemma InvMeaning(s: State, id: Id)
    requires Inv(s) && id in s.rows
    ensures !Terminal(s.rows[id].status) && id !in s.submitting ==>
              id in s.threads && Active(s.threads[id].pc) && id in s.registered
    ensures s.rows[id].status == Completed ==>
              forall i :: 0 <= i < |s.rows[id].result.value| ==>
                s.rows[id].result.value[i] !in {Cancelled, Blocked, Failed}
  {
    assert RowFits(s, id);
  }

  /** The one event that can spoil it: the write of a cancellation that was decided on a row that
      has become terminal in between. */
  predicate RevivesTerminal(s: State, e: Event) {
    && e.WriteCancel? && Enabled(s, e)
    && Terminal(s.rows[s.cancels[e.caller].id].status)
  }

  lemma AttemptFits(t: JobThread, status: AttemptStatus)
    requires t.pc.Looping? && VerdictFits(t)
    ensures Absorb(t.pc.verdict, status) == Verdict(t.attempts + [status])
  {
    assert (t.attempts + [status])[..|t.attempts|] == t.attempts;
  }

  predicate ThreadEvent(e: Event) {
    e.Load? || e.MarkRunning? || e.SeeFlag? || e.FinishAttempt? || e.Raise? || e.RunOut? || e.FinalCheck?
    || e.StoreResult? || e.Unregister?
  }

  /** A thread's own step keeps its row and itself in order. */
  lemma ThreadStepFits(s: State, e: Event)
    requires ThreadEvent(e) && Enabled(s, e) && ThreadFits(s, e.id) && RowFits(s, e.id)
    ensures ThreadFits(Next(s, e), e.id) && RowFits(Next(s, e), e.id)
  {
    if e.FinishAttempt? { AttemptFits(s.threads[e.id], e.status); }
    if e.RunOut? { VerdictIff(s.threads[e.id].attempts); }
  }

  /** And leaves the other jobs alone. */
  lemma ThreadStepLeaves(s: State, e: Event, other: Id)
    requires ThreadEvent(e) && Enabled(s, e) && other != e.id
    ensures var t := Next(s, e);
            && (other in t.threads <==> other in s.threads) && (other in t.rows <==> other in s.rows)
            && (other in s.threads ==> t.threads[other] == s.threads[other])
            && (other in s.rows ==> t.rows[other] == s.rows[other])
            && (other in t.registered <==> other in s.registered) && t.submitting == s.submitting
  {
  }

  lemma ThreadStepKeeps(s: State, e: Event)
    requires Inv(s) && Enabled(s, e) && ThreadEvent(e)
    ensures Inv(Next(s, e))
  {
    var t := Next(s, e);
    assert ThreadFits(s, e.id) && RowFits(s, e.id);
    ThreadStepFits(s, e);
    forall other | other in t.threads ensures ThreadFits(t, other) {
      if other != e.id {
        ThreadStepLeaves(s, e, other);
        assert ThreadFits(s, other);
      }
    }
    forall other | other in t.rows ensures RowFits(t, other) {
      if other != e.id {
        ThreadStepLeaves(s, e, other);
        assert RowFits(s, other);
      }
    }
    forall other | other in t.submitting ensures NonterminalRow(t, other) {
      assert other != e.id;
      ThreadStepLeaves(s, e, other);
    }
  }

  lemma CallerStepKeeps(s: State, e: Event)
    requires Inv(s) && Enabled(s, e) && !RevivesTerminal(s, e)
    requires e.Create? || e.Register? || e.ReadForCancel? || e.WriteCancel? || e.Signal? || e.Restart?
    ensures Inv(Next(s, e))
  {
    var t := Next(s, e);
    forall id | id in t.threads ensures ThreadFits(t, id) {
      if id in s.threads { assert ThreadFits(s, id); }
    }
    forall id | id in t.rows ensures RowFits(t, id) {
      if id in s.rows { assert RowFits(s, id); }
    }
  }

  /** Exactly that write breaks the invariant. */
  lemma StepKeepsIff(s: State, e: Event)
    requires Inv(s) && Enabled(s, e)
    ensures Inv(Next(s, e)) <==> !RevivesTerminal(s, e)
  {
    if RevivesTerminal(s, e) {
      var id := s.cancels[e.caller].id;
      var t := Next(s, e);
      if id in s.threads {
        assert ThreadFits(s, id);
        assert !ThreadFits(t, id);
      } else {
        assert id !in s.submitting;
        assert !RowFits(t, id);
      }
    } else if e.Create? || e.Register? || e.ReadForCancel? || e.WriteCancel? || e.Signal? || e.Restart? {
      CallerStepKeeps(s, e);
    } else {
      ThreadStepKeeps(s, e);
    }
  }

  /** A terminal job keeps its status. */
  lemma TerminalStays(s: State, e: Event, id: Id)
    requires Inv(s) && Enabled(s, e) && !RevivesTerminal(s, e)
    requires id in s.rows && Terminal(s.rows[id].status)
    ensures id in Next(s, e).rows && Next(s, e).rows[id] == s.rows[id]
  {
    if id in s.threads { assert ThreadFits(s, id); }
  }

  // ----- runs -----

  function Server(): Machine<State, Event> {
    (s: State, e: Event) => if Enabled(s, e) then Some(Next(s, e)) else None
  }

  /** An empty store, or one that a previous server left: restarting has made every row terminal. */
  predicate Start(s: State) {
    && s.submitting == {} && s.threads == map[] && s.registered == {} && s.cancels == map[]
    && forall id :: id in s.rows ==> Terminal(s.rows[id].status) && RowFits(s, id)
  }

  ghost function Sound(): State -> bool { (s: State) => Inv(s) }

  function Revival(): (State, Event) -> bool { (s: State, e: Event) => RevivesTerminal(s, e) }

  /** Over any run the invariant holds at every moment exactly when no cancellation is written on a
      terminal row, that is, when `request_cancel` acts as one step. */
  lemma RunKeepsIff(s: State, events: seq<Event>)
    requires Start(s) && After(Server(), s, events).Some?
    ensures Throughout(Server(), s, events, Sound()) <==> Never(Server(), s, events, Revival())
  {
    forall t, e | Sound()(t) && Server()(t, e).Some? ensures Sound()(Server()(t, e).value) <==> !Revival()(t, e) {
      StepKeepsIff(t, e);
    }
    KeptIff(Server(), s, events, Sound(), Revival());
  }

  function HasRow(id: Id, row: Row): State -> bool { (s: State) => id in s.rows && s.rows[id] == row }

  /** Once terminal, always terminal: along such a run a terminal job's row never changes. */
  lemma TerminalForever(s: State, events: seq<Event>, id: Id, row: Row, j: nat, k: nat)
    requires Start(s) && After(Server(), s, events).Some? && Never(Server(), s, events, Revival())
    requires j <= k <= |events| && Terminal(row.status)
    requires HasRow(id, row)(StateAt(Server(), s, events, j))
    ensures HasRow(id, row)(StateAt(Server(), s, events, k))
  {
    RunKeepsIff(s, events);
    forall t, e | Sound()(t) && HasRow(id, row)(t) && Server()(t, e).Some? && !Revival()(t, e)
      ensures HasRow(id, row)(Server()(t, e).value)
    {
      TerminalStays(t, e, id);
    }
    KeptFrom(Server(), s, events, Sound(), Revival(), HasRow(id, row), j, k);
  }

  // ----- cancellation -----

  /** The job's flag is set and its final check is still to come. */
  predicate FlaggedInTime(s: State, id: Id) {
    && id in s.threads && s.threads[id].flag
    && (s.threads[id].pc.Begun? || s.threads[id].pc.Loaded? || s.threads[id].pc.Looping? || s.threads[id].pc.Deciding?)
  }

  /** The job will not complete. */
  predicate Doomed(s: State, id: Id) {
    && id in s.rows && s.rows[id].status != Completed
    && (FlaggedInTime(s, id) || At(s, id, Storing(Cancelled)) || At(s, id, Storing(Failed))
        || At(s, id, Storing(Blocked)) || At(s, id, Storing(Interrupted)) || Terminal(s.rows[id].status))
  }

  lemma ThreadKeepsDoom(s: State, e: Event, id: Id)
    requires ThreadEvent(e) && Enabled(s, e) && e.id == id && ThreadFits(s, id)
    requires Doomed(s, id) && !Terminal(s.rows[id].status)
    ensures Doomed(Next(s, e), id)
  {
  }

  lemma CallerKeepsDoom(s: State, e: Event, id: Id)
    requires !ThreadEvent(e) && Enabled(s, e) && Doomed(s, id) && !Terminal(s.rows[id].status)
    requires RowFits(s, id) && (id in s.threads ==> ThreadFits(s, id))
    ensures Doomed(Next(s, e), id)
  {
  }

  lemma DoomStays(s: State, e: Event, id: Id)
    requires Inv(s) && Enabled(s, e) && !RevivesTerminal(s, e) && Doomed(s, id)
    ensures Doomed(Next(s, e), id)
  {
    assert RowFits(s, id) && (id in s.threads ==> ThreadFits(s, id));
    if Terminal(s.rows[id].status) {
      TerminalStays(s, e, id);
    } else if !ThreadEvent(e) {
      CallerKeepsDoom(s, e, id);
    } else if e.id == id {
      ThreadKeepsDoom(s, e, id);
    } else {
      ThreadStepLeaves(s, e, id);
    }
  }

  function WillNotComplete(id: Id): State -> bool { (s: State) => Doomed(s, id) }

  /** A cancellation flag that is set before the job's final check rules out completion for good. */
  lemma FlagRulesOutCompletion(s: State, events: seq<Event>, id: Id, j: nat, k: nat)
    requires Start(s) && After(Server(), s, events).Some? && Never(Server(), s, events, Revival())
    requires j <= k <= |events| && FlaggedInTime(StateAt(Server(), s, events, j), id)
    ensures id in StateAt(Server(), s, events, k).rows && StateAt(Server(), s, events, k).rows[id].status != Completed
  {
    RunKeepsIff(s, events);
    var flagged := StateAt(Server(), s, events, j);
    assert Sound()(flagged);
    assert ThreadFits(flagged, id);
    forall t, e | Sound()(t) && WillNotComplete(id)(t) && Server()(t, e).Some? && !Revival()(t, e)
      ensures WillNotComplete(id)(Server()(t, e).value)
    {
      DoomStays(t, e, id);
    }
    KeptFrom(Server(), s, events, Sound(), Revival(), WillNotComplete(id), j, k);
    assert WillNotComplete(id)(StateAt(Server(), s, events, k));
  }

  // ----- what the two lock scopes of `request_cancel` allow -----

  lemma Then(s: State, events: seq<Event>, t: State, e: Event) returns (events': seq<Event>, t': State)
    requires After(Server(), s, events) == Some(t) && Enabled(t, e)
    ensures events' == events + [e] && t' == Next(t, e)
    ensures After(Server(), s, events') == Some(t')
  {
    events' := events + [e];
    t' := Next(t, e);
    AfterSnoc(Server(), s, events, e);
  }

  /** The threads after the flag of a job's registered thread was set. */
  function Flagged(t: State, id: Id): map<Id, JobThread> {
    if id in t.registered && id in t.threads
    then t.threads[id := JobThread(t.threads[id].pc, true, t.threads[id].attempts)] else t.threads
  }

  lemma SignalSets(t: State, rows: map<Id, Row>, caller: Caller, id: Id)
    requires caller !in t.cancels
    ensures var signalling := t.(rows := rows, cancels := t.cancels[caller := Signalling(id)]);
            Enabled(signalling, Signal(caller))
            && Next(signalling, Signal(caller)) == t.(rows := rows, threads := Flagged(t, id))
  {
    assert t.cancels[caller := Signalling(id)] - {caller} == t.cancels;
  }

  lemma CancelsTwice(t: State, caller: Caller, first: CancelPc, second: CancelPc)
    ensures t.cancels[caller := first][caller := second] == t.cancels[caller := second]
  {
  }

  /** A cancellation that nobody interferes with leaves a terminal row as it is, turns any other row to
      cancelling, and sets the flag of the registered thread. */
  lemma CancelAlone(s: State, events: seq<Event>, t: State, caller: Caller, id: Id)
    returns (events': seq<Event>, t': State)
    requires After(Server(), s, events) == Some(t) && caller !in t.cancels && id in t.rows
    ensures After(Server(), s, events') == Some(t')
    ensures t' == t.(rows := if Terminal(t.rows[id].status) then t.rows
                             else t.rows[id := Row(Cancelling, true, t.rows[id].result)],
                     threads := Flagged(t, id))
  {
    var rows := if Terminal(t.rows[id].status) then t.rows
                else t.rows[id := Row(Cancelling, true, t.rows[id].result)];
    events', t' := Then(s, events, t, ReadForCancel(caller, id));
    if !Terminal(t.rows[id].status) {
      events', t' := Then(s, events', t', WriteCancel(caller));
      CancelsTwice(t, caller, WritingCancel(id), Signalling(id));
    }
    SignalSets(t, rows, caller, id);
    events', t' := Then(s, events', t', Signal(caller));
  }

  /** An event that ends the attempt loop. */
  predicate LeavesLoop(e: Event) { e.SeeFlag? || e.Raise? || e.RunOut? || (e.FinishAttempt? && e.status == Cancelled) }

  /** What a thread stores that leaves its loop by `e` with this verdict and flag. */
  function StatusStored(e: Event, verdict: AttemptStatus, flag: bool): AttemptStatus
    requires LeavesLoop(e)
  {
    match e
    case Raise(_) => if flag then Cancelled else Failed
    case RunOut(_) => if flag && verdict == Completed then Cancelled else verdict
    case _ => Cancelled
  }

  /** A thread that leaves its loop stores its attempts with the status that `_run_job` comes to: cancelled
      if it saw the flag or an attempt was cancelled, failed for an exception unless the flag is set, and
      otherwise the verdict on the attempts, where the flag turns completion into cancellation. */
  lemma LoopLeft(s: State, events: seq<Event>, t: State, e: Event) returns (events': seq<Event>, t': State)
    requires After(Server(), s, events) == Some(t) && LeavesLoop(e) && Enabled(t, e) && e.id in t.rows
    ensures After(Server(), s, events') == Some(t')
    ensures var thread := t.threads[e.id];
            t'.rows == t.rows[e.id := Row(
              StatusStored(e, thread.pc.verdict, thread.flag), t.rows[e.id].cancelRequested,
              Some(if e.FinishAttempt? then thread.attempts + [Cancelled] else thread.attempts))]
    ensures At(t', e.id, Unregistering)
  {
    events', t' := Then(s, events, t, e);
    events', t' := Then(s, events', t', FinalCheck(e.id));
    events', t' := Then(s, events', t', StoreResult(e.id));
  }

  lemma AttemptMade(s: State, events: seq<Event>, t: State, id: Id, status: AttemptStatus)
    returns (events': seq<Event>, t': State)
    requires After(Server(), s, events) == Some(t) && InLoop(t, id) && VerdictFits(t.threads[id])
    requires status != Cancelled
    ensures After(Server(), s, events') == Some(t')
    ensures t' == t.(threads := t.threads[id := JobThread(
                     Looping(Verdict(t.threads[id].attempts + [status])), t.threads[id].flag,
                     t.threads[id].attempts + [status])])
  {
    AttemptFits(t.threads[id], status);
    events', t' := Then(s, events, t, FinishAttempt(id, status));
  }

  lemma ThreadTwice(t: State, id: Id, first: JobThread, second: JobThread)
    ensures var between := t.(threads := t.threads[id := first]);
            between.(threads := between.threads[id := second]) == t.(threads := t.threads[id := second])
  {
    assert t.threads[id := first][id := second] == t.threads[id := second];
  }

  /** Running through attempts, none of them cancelled, a thread comes to the verdict on all of them. */
  lemma {:induction false} AttemptsMade(s: State, events: seq<Event>, t: State, id: Id, statuses: seq<AttemptStatus>)
    returns (events': seq<Event>, t': State)
    requires After(Server(), s, events) == Some(t) && InLoop(t, id) && VerdictFits(t.threads[id])
    requires Cancelled !in statuses
    ensures After(Server(), s, events') == Some(t')
    ensures var attempts := t.threads[id].attempts + statuses;
            t' == t.(threads := t.threads[id := JobThread(Looping(Verdict(attempts)), t.threads[id].flag, attempts)])
    decreases |statuses|
  {
    if statuses == [] {
      events', t' := events, t;
      assert t.threads[id].attempts + statuses == t.threads[id].attempts;
      assert t.threads[id := t.threads[id]] == t.threads;
    } else {
      var last := |statuses| - 1;
      events', t' := AttemptsMade(s, events, t, id, statuses[..last]);
      var between := t';
      events', t' := AttemptMade(s, events', between, id, statuses[last]);
      assert t.threads[id].attempts + statuses[..last] + [statuses[last]] == t.threads[id].attempts + statuses;
      ThreadTwice(t, id, between.threads[id], t'.threads[id]);
    }
  }

  const FRESH := State(map[], {}, map[], {}, map[])

  /** A job under way, with a caller about to write its cancellation. */
  function UnderWay(id: Id): State {
    State(map[id := Row(Running, false, None)], {}, map[id := JobThread(Looping(Completed), false, [])], {id},
          map[0 := WritingCancel(id)])
  }

  function Finished(id: Id): State {
    State(map[id := Row(Completed, false, Some([Completed]))], {}, map[id := JobThread(Over, false, [Completed])], {},
          map[0 := WritingCancel(id)])
  }

  lemma SubmitAndStart(id: Id) returns (events: seq<Event>)
    ensures After(Server(), FRESH, events) == Some(UnderWay(id))
  {
    var t := FRESH;
    events := [];
    events, t := Then(FRESH, events, t, Create(id));
    events, t := Then(FRESH, events, t, Register(id));
    events, t := Then(FRESH, events, t, Load(id));
    assert t == State(map[id := Row(Queued, false, None)], {}, map[id := JobThread(Loaded, false, [])], {id}, map[]);
    events, t := Then(FRESH, events, t, MarkRunning(id));
    events, t := Then(FRESH, events, t, ReadForCancel(0, id));
    assert t == UnderWay(id);
  }

  /** The job under way, its one attempt completed. */
  function Attempted(id: Id): State {
    UnderWay(id).(threads := map[id := JobThread(Looping(Completed), false, [Completed])])
  }

  function AboutToStore(id: Id): State {
    UnderWay(id).(threads := map[id := JobThread(Storing(Completed), false, [Completed])])
  }

  lemma Attempt(id: Id, events: seq<Event>) returns (events': seq<Event>)
    requires After(Server(), FRESH, events) == Some(UnderWay(id))
    ensures After(Server(), FRESH, events') == Some(Attempted(id))
  {
    var t := UnderWay(id);
    assert t.threads[id].attempts + [Completed] == [Completed];
    events', t := Then(FRESH, events, t, FinishAttempt(id, Completed));
    assert t.threads == Attempted(id).threads;
  }

  lemma Decide(id: Id, events: seq<Event>) returns (events': seq<Event>)
    requires After(Server(), FRESH, events) == Some(Attempted(id))
    ensures After(Server(), FRESH, events') == Some(AboutToStore(id))
  {
    var t := Attempted(id);
    events', t := Then(FRESH, events, t, RunOut(id));
    events', t := Then(FRESH, events', t, FinalCheck(id));
    assert t.threads == AboutToStore(id).threads;
  }

  lemma Complete(id: Id, events: seq<Event>) returns (events': seq<Event>)
    requires After(Server(), FRESH, events) == Some(AboutToStore(id))
    ensures After(Server(), FRESH, events') == Some(Finished(id))
  {
    var t := AboutToStore(id);
    events', t := Then(FRESH, events, t, StoreResult(id));
    assert t.rows == Finished(id).rows;
    events', t := Then(FRESH, events', t, Unregister(id));
    assert t.threads == Finished(id).threads && t.registered == {};
  }

  /** A job that completes while it is being cancelled becomes non-terminal again, with no thread
      left to finish it: the canceller read the row before, and writes it after. */
  lemma CompletedJobRevived(id: Id) returns (events: seq<Event>, t: State)
    ensures Start(FRESH) && After(Server(), FRESH, events) == Some(Finished(id))
    ensures Finished(id).rows[id].status == Completed
    ensures After(Server(), FRESH, events + [WriteCancel(0)]) == Some(t)
    ensures t.rows[id].status == Cancelling && id !in t.submitting && id !in t.registered && At(t, id, Over)
  {
    events := SubmitAndStart(id);
    events := Attempt(id, events);
    events := Decide(id, events);
    events := Complete(id, events);
    var all;
    all, t := Then(FRESH, events, Finished(id), WriteCancel(0));
  }
}

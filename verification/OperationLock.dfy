/** The target operation lock: a lock file that same-host processes create, inspect, clear and
    remove, one file-system call at a time. */
module OperationLock {
  import opened Prelude
  import opened Runs

  /** One use of the lock by one process; it stands for the random token of that use, so a
      token in a file names its writer. */
  type Agent = nat

  type Pid = nat

  /** A lock file. It is unreadable (`token` None) from its creation until its payload is written. */
  datatype LockFile = LockFile(writer: Agent, token: Option<Agent>, modified: nat)

  /** Process ids are not reused while a run lasts. */
  datatype Config = Config(staleAfter: nat, pidOf: Agent -> Pid)

  /** Where an agent is in `__enter__`, `_clear_stale_lock` and `__exit__`. */
  datatype Pc =
    | Idle
    | Creating(again: bool)
    | Reading
    | Stating(read: Agent)
    | StatingUnknown
    | Deciding(owner: Option<Agent>, modified: nat)
    | Rechecking(expected: Option<Agent>)
    | Writing
    | Holding
    | Leaving(own: bool)
    | Done
    | Refused

  datatype State = State(file: Option<LockFile>, pcs: map<Agent, Pc>, dead: set<Pid>, now: nat)

  datatype Event = Run(agent: Agent) | WriteFails(agent: Agent) | Dies(pid: Pid) | Tick

  predicate Live(c: Config, s: State, a: Agent) { a in s.pcs && c.pidOf(a) !in s.dead }

  function TokenIn(f: Option<LockFile>): Option<Agent> { if f.Some? then f.value.token else None }

  /** `dead_local_process or expired_unknown_owner`, for owners on this host. */
  predicate Stale(c: Config, owner: Option<Agent>, modified: nat, dead: set<Pid>, now: nat) {
    if owner.Some? then c.pidOf(owner.value) in dead else now >= modified + c.staleAfter
  }

  function Goto(s: State, a: Agent, pc: Pc): State { s.(pcs := s.pcs[a := pc]) }

  /** The next call that agent `a` makes. The token comparison and the unlink of
      `_clear_stale_lock` are one step. */
  function Advance(c: Config, s: State, a: Agent): State
    requires a in s.pcs
  {
    match s.pcs[a]
    case Idle => Goto(s, a, Creating(false))
    case Creating(again) =>
      if s.file.None? then Goto(s.(file := Some(LockFile(a, None, s.now))), a, Writing)
      else Goto(s, a, if again then Refused else Reading)
    case Reading => Goto(s, a, if TokenIn(s.file).Some? then Stating(TokenIn(s.file).value) else StatingUnknown)
    case Stating(owner) =>
      Goto(s, a, if s.file.Some? then Deciding(Some(owner), s.file.value.modified) else StatingUnknown)
    case StatingUnknown => Goto(s, a, if s.file.Some? then Deciding(None, s.file.value.modified) else Refused)
    case Deciding(owner, modified) =>
      Goto(s, a, if Stale(c, owner, modified, s.dead, s.now) then Rechecking(owner) else Refused)
    case Rechecking(expected) =>
      if TokenIn(s.file) == expected then Goto(s.(file := None), a, Creating(true)) else Goto(s, a, Refused)
    case Writing =>
      // The payload reaches the agent's own file, whether or not the path still names it.
      if s.file.Some? && s.file.value.writer == a then
        Goto(s.(file := Some(LockFile(a, Some(a), s.now))), a, Holding)
      else Goto(s, a, Holding)
    case Holding => Goto(s, a, Leaving(TokenIn(s.file) == Some(a)))
    case Leaving(own) => Goto(if own then s.(file := None) else s, a, Done)
    case Done => s
    case Refused => s
  }

  predicate Enabled(c: Config, s: State, e: Event) {
    match e
    case Run(a) => Live(c, s, a)
    case WriteFails(a) => Live(c, s, a) && s.pcs[a] == Writing
    case Dies(_) => true
    case Tick => true
  }

  function Next(c: Config, s: State, e: Event): State
    requires Enabled(c, s, e)
  {
    match e
    case Run(a) => Advance(c, s, a)
    case WriteFails(a) => Goto(s.(file := None), a, Refused)
    case Dies(pid) => s.(dead := s.dead + {pid})
    case Tick => s.(now := s.now + 1)
  }

  // ----- ownership -----

  /** The agent created the file and has not given it up. */
  predicate Owning(pc: Pc) { pc.Writing? || pc.Holding? || pc.Leaving? }

  predicate OwnsFile(a: Agent, pc: Pc, f: Option<LockFile>) {
    && f.Some? && f.value.writer == a && f.value.token == (if pc.Writing? then None else Some(a))
    && (pc.Leaving? ==> pc.own)
  }

  /** Every live owner's file is in place, tokens name writers, and an agent about to clear a
      known owner's file has seen that owner dead. */
  ghost predicate Inv(c: Config, s: State) {
    && (forall a :: Live(c, s, a) && Owning(s.pcs[a]) ==> OwnsFile(a, s.pcs[a], s.file))
    && (TokenIn(s.file).Some? ==> s.file.value.token == Some(s.file.value.writer))
    && (forall a :: a in s.pcs && s.pcs[a].Rechecking? && s.pcs[a].expected.Some? ==>
          c.pidOf(s.pcs[a].expected.value) in s.dead)
  }

  /** At most one live agent owns the lock. */
  lemma MutualExclusion(c: Config, s: State, a: Agent, b: Agent)
    requires Inv(c, s)
    requires Live(c, s, a) && Owning(s.pcs[a]) && Live(c, s, b) && Owning(s.pcs[b])
    ensures a == b
  {
  }

  /** The one step that can take a live owner's file away: clearing an unreadable file on behalf
      of an unknown owner while a live agent is still writing its payload into it. The age
      that was judged belongs to whatever file was there before. */
  predicate ClearsUnfinished(c: Config, s: State, e: Event) {
    && e.Run? && e.agent in s.pcs && s.pcs[e.agent] == Rechecking(None)
    && s.file.Some? && s.file.value.token.None?
    && Live(c, s, s.file.value.writer) && s.pcs[s.file.value.writer].Writing?
  }

  lemma AdvanceKeeps(c: Config, s: State, a: Agent)
    requires Inv(c, s) && Live(c, s, a) && !ClearsUnfinished(c, s, Run(a))
    ensures Inv(c, Advance(c, s, a))
  {
    var t := Advance(c, s, a);
    forall b | Live(c, t, b) && Owning(t.pcs[b]) ensures OwnsFile(b, t.pcs[b], t.file) {
      if b != a { assert Live(c, s, b) && OwnsFile(b, s.pcs[b], s.file); }
    }
  }

  /** Exactly the clearing of an unfinished file breaks ownership. */
  lemma StepKeepsIff(c: Config, s: State, e: Event)
    requires Inv(c, s) && Enabled(c, s, e)
    ensures Inv(c, Next(c, s, e)) <==> !ClearsUnfinished(c, s, e)
  {
    var t := Next(c, s, e);
    if ClearsUnfinished(c, s, e) {
      var w := s.file.value.writer;
      assert Live(c, t, w) && Owning(t.pcs[w]) && t.file.None?;
    } else {
      match e {
        case Run(a) => AdvanceKeeps(c, s, a);
        case WriteFails(a) =>
          forall b | Live(c, s, b) && Owning(s.pcs[b]) ensures b == a {
            MutualExclusion(c, s, a, b);
          }
        case Dies(pid) =>
          forall b | Live(c, t, b) && Owning(t.pcs[b]) ensures OwnsFile(b, t.pcs[b], t.file) {
            assert Live(c, s, b);
          }
        case Tick =>
          forall b | Live(c, t, b) && Owning(t.pcs[b]) ensures OwnsFile(b, t.pcs[b], t.file) {
            assert Live(c, s, b);
          }
      }
    }
  }

  /** Whoever makes a live owner's file disappear is that owner. */
  lemma OnlyOwnerRemoves(c: Config, s: State, e: Event, a: Agent)
    requires Inv(c, s) && Enabled(c, s, e) && !ClearsUnfinished(c, s, e)
    requires Live(c, s, a) && Owning(s.pcs[a]) && Next(c, s, e).file.None?
    ensures e == Run(a) || e == WriteFails(a)
  {
    assert OwnsFile(a, s.pcs[a], s.file);
    if e.WriteFails? { MutualExclusion(c, s, a, e.agent); }
    if e.Run? && Owning(s.pcs[e.agent]) { MutualExclusion(c, s, a, e.agent); }
  }

  // ----- runs -----

  predicate Start(s: State) { s.file.None? && forall a :: a in s.pcs ==> s.pcs[a] == Idle }

  /** Any interleaving of the agents' calls, failing writes, deaths and the clock. */
  function Interleaving(c: Config): Machine<State, Event> {
    (s: State, e: Event) => if Enabled(c, s, e) then Some(Next(c, s, e)) else None
  }

  ghost function Owned(c: Config): State -> bool { (s: State) => Inv(c, s) }

  function Unfinished(c: Config): (State, Event) -> bool { (s: State, e: Event) => ClearsUnfinished(c, s, e) }

  /** Over any run, the live owners' files stay in place at every moment exactly when no step
      clears an unfinished file of a live agent. */
  lemma RunKeepsIff(c: Config, s: State, events: seq<Event>)
    requires Start(s) && After(Interleaving(c), s, events).Some?
    ensures Throughout(Interleaving(c), s, events, Owned(c)) <==> Never(Interleaving(c), s, events, Unfinished(c))
  {
    var step := Interleaving(c);
    forall t, e | Owned(c)(t) && step(t, e).Some?
      ensures Owned(c)(step(t, e).value) <==> !Unfinished(c)(t, e)
    {
      StepKeepsIff(c, t, e);
    }
    KeptIff(step, s, events, Owned(c), Unfinished(c));
  }

  /** An agent judges an unreadable file expired. */
  predicate JudgesExpired(c: Config, s: State, e: Event) {
    && e.Run? && e.agent in s.pcs && s.pcs[e.agent].Deciding? && s.pcs[e.agent].owner.None?
    && s.now >= s.pcs[e.agent].modified + c.staleAfter
  }

  function Expired(c: Config): (State, Event) -> bool { (s: State, e: Event) => JudgesExpired(c, s, e) }

  predicate NoUnknownClear(s: State) { forall a :: a in s.pcs ==> s.pcs[a] != Rechecking(None) }

  /** When every payload is written before anyone judges its file expired, the lock is exclusive
      at every moment of every run, whatever dies, while dead owners' files are still cleared. */
  lemma PromptRunsExclude(c: Config, s: State, events: seq<Event>)
    requires Start(s) && After(Interleaving(c), s, events).Some?
    requires Never(Interleaving(c), s, events, Expired(c))
    ensures Throughout(Interleaving(c), s, events, Owned(c))
  {
    var step := Interleaving(c);
    var kept := (t: State) => NoUnknownClear(t);
    forall t, e | kept(t) && step(t, e).Some? && !Expired(c)(t, e) ensures kept(step(t, e).value) {
    }
    KeptUnless(step, s, events, kept, Expired(c));
    forall k | 0 <= k < |events| ensures !Unfinished(c)(StateAt(step, s, events, k), events[k]) {
      assert kept(StateAt(step, s, events, k));
    }
    RunKeepsIff(c, s, events);
  }

  // ----- particular runs -----

  predicate Reaches(c: Config, s: State, events: seq<Event>, t: State) {
    After(Interleaving(c), s, events) == Some(t)
  }

  lemma Then(c: Config, s: State, events: seq<Event>, t: State, e: Event) returns (events': seq<Event>, t': State)
    requires Reaches(c, s, events, t) && Enabled(c, t, e)
    ensures events' == events + [e] && t' == Next(c, t, e)
    ensures Reaches(c, s, events', t')
  {
    events' := events + [e];
    t' := Next(c, t, e);
    AfterSnoc(Interleaving(c), s, events, e);
  }

  /** An agent that finds the path taken comes to judge the file it finds there. */
  lemma Inspect(c: Config, s: State, events: seq<Event>, t: State, a: Agent) returns (events': seq<Event>, t': State)
    requires Reaches(c, s, events, t) && Live(c, t, a) && t.pcs[a] == Idle && t.file.Some?
    ensures Reaches(c, s, events', t') && t' == Goto(t, a, Deciding(t.file.value.token, t.file.value.modified))
  {
    events', t' := Then(c, s, events, t, Run(a));
    events', t' := Then(c, s, events', t', Run(a));
    events', t' := Then(c, s, events', t', Run(a));
    events', t' := Then(c, s, events', t', Run(a));
    assert t'.pcs == t.pcs[a := Deciding(t.file.value.token, t.file.value.modified)];
  }

  /** Whether an agent that meets no one on the way obtains the lock: there is no file, or its owner is
      dead, or it names no owner and has not been written for `staleAfter`. */
  ghost predicate Grants(c: Config, f: Option<LockFile>, dead: set<Pid>, now: nat) {
    match f
    case None => true
    case Some(LockFile(_, Some(owner), _)) => c.pidOf(owner) in dead
    case Some(LockFile(_, None, modified)) => now - modified >= c.staleAfter
  }

  /** Alone, an agent obtains the lock exactly when no file is there, or the file's owner is
      dead, or the file is unreadable and old; otherwise it leaves the file as it is. */
  lemma SoloRun(c: Config, s: State, events: seq<Event>, t: State, a: Agent) returns (events': seq<Event>, t': State)
    requires Reaches(c, s, events, t) && Live(c, t, a) && t.pcs[a] == Idle
    ensures Reaches(c, s, events', t')
    ensures t' == if Grants(c, t.file, t.dead, t.now)
                  then Goto(t.(file := Some(LockFile(a, Some(a), t.now))), a, Holding)
                  else Goto(t, a, Refused)
  {
    if t.file.None? {
      events', t' := Then(c, s, events, t, Run(a));
    } else {
      events', t' := Inspect(c, s, events, t, a);
      events', t' := Then(c, s, events', t', Run(a));
      if Grants(c, t.file, t.dead, t.now) {
        events', t' := Then(c, s, events', t', Run(a));
      }
    }
    if Grants(c, t.file, t.dead, t.now) {
      events', t' := Then(c, s, events', t', Run(a));
      events', t' := Then(c, s, events', t', Run(a));
      assert t'.pcs == t.pcs[a := Holding];
    } else {
      assert t'.pcs == t.pcs[a := Refused];
    }
  }

  /** A holder that meets no one on its way out removes the file that carries its token, and no other. */
  lemma SoloExit(c: Config, s: State, events: seq<Event>, t: State, a: Agent) returns (events': seq<Event>, t': State)
    requires Reaches(c, s, events, t) && Live(c, t, a) && t.pcs[a] == Holding
    ensures Reaches(c, s, events', t')
    ensures t' == Goto(if t.file.Some? && t.file.value.token == Some(a) then t.(file := None) else t, a, Done)
  {
    events', t' := Then(c, s, events, t, Run(a));
    events', t' := Then(c, s, events', t', Run(a));
    assert t'.pcs == t.pcs[a := Done];
  }

  /** Two agents at work while the others rest. */
  function With(t: State, f: Option<LockFile>, a: Agent, pa: Pc, b: Agent, pb: Pc): State {
    t.(file := f, pcs := t.pcs[a := pa][b := pb])
  }

  lemma StepFirst(c: Config, t: State, f: Option<LockFile>, a: Agent, pa: Pc, b: Agent, pb: Pc)
    requires a != b && Live(c, t, a) && Live(c, t, b)
    ensures Enabled(c, With(t, f, a, pa, b, pb), Run(a))
    ensures var t' := Advance(c, With(t, f, a, pa, b, pb), a);
            t' == With(t, t'.file, a, t'.pcs[a], b, pb)
  {
  }

  lemma StepSecond(c: Config, t: State, f: Option<LockFile>, a: Agent, pa: Pc, b: Agent, pb: Pc)
    requires a != b && Live(c, t, a) && Live(c, t, b)
    ensures Enabled(c, With(t, f, a, pa, b, pb), Run(b))
    ensures var t' := Advance(c, With(t, f, a, pa, b, pb), b);
            t' == With(t, t'.file, a, pa, b, t'.pcs[b])
  {
  }

  /** Without that guard the lock is not exclusive: whenever two live agents have judged an
      unreadable file expired, they can both come to hold. The first clears the file and
      creates its own; the second still finds an unreadable file and clears that one. */
  lemma TwoHolders(c: Config, s: State, events: seq<Event>, t: State, a: Agent, b: Agent)
    returns (events': seq<Event>, t': State)
    requires Reaches(c, s, events, t) && a != b && Live(c, t, a) && Live(c, t, b)
    requires t.file.Some? && t.file.value.token.None?
    requires t.pcs[a] == Rechecking(None) && t.pcs[b] == Rechecking(None)
    ensures Reaches(c, s, events', t')
    ensures Live(c, t', a) && t'.pcs[a] == Holding && Live(c, t', b) && t'.pcs[b] == Holding
  {
    var mine := Some(LockFile(a, None, t.now));
    assert t == With(t, t.file, a, Rechecking(None), b, Rechecking(None));
    StepFirst(c, t, t.file, a, Rechecking(None), b, Rechecking(None));
    events', t' := Then(c, s, events, t, Run(a));
    StepFirst(c, t, None, a, Creating(true), b, Rechecking(None));
    events', t' := Then(c, s, events', t', Run(a));
    StepSecond(c, t, mine, a, Writing, b, Rechecking(None));
    events', t' := Then(c, s, events', t', Run(b));
    StepFirst(c, t, None, a, Writing, b, Creating(true));
    events', t' := Then(c, s, events', t', Run(a));
    StepSecond(c, t, None, a, Holding, b, Creating(true));
    events', t' := Then(c, s, events', t', Run(b));
    StepSecond(c, t, Some(LockFile(b, None, t.now)), a, Holding, b, Writing);
    events', t' := Then(c, s, events', t', Run(b));
  }

  /** And they can come to judge it so: agent 0 dies between creating its file and writing its
      payload, and the file expires. */
  lemma ExclusionFails() returns (c: Config, s: State, events: seq<Event>, t: State)
    ensures Start(s) && Reaches(c, s, events, t)
    ensures Live(c, t, 1) && t.pcs[1] == Holding && Live(c, t, 2) && t.pcs[2] == Holding
  {
    c := Config(1, (a: Agent) => a);
    s := State(None, map[0 := Idle, 1 := Idle, 2 := Idle], {}, 0);
    events, t := AbandonedFile(c, s);
    events, t := Inspect(c, s, events, t, 1);
    events, t := Inspect(c, s, events, t, 2);
    events, t := Then(c, s, events, t, Run(1));
    events, t := Then(c, s, events, t, Run(2));
    events, t := TwoHolders(c, s, events, t, 1, 2);
  }

  lemma AbandonedFile(c: Config, s: State) returns (events: seq<Event>, t: State)
    requires Start(s) && Live(c, s, 0)
    ensures Reaches(c, s, events, t)
    ensures t == State(Some(LockFile(0, None, s.now)), s.pcs[0 := Writing], s.dead + {c.pidOf(0)}, s.now + 1)
  {
    events, t := [], s;
    events, t := Then(c, s, events, t, Run(0));
    events, t := Then(c, s, events, t, Run(0));
    events, t := Then(c, s, events, t, Dies(c.pidOf(0)));
    events, t := Then(c, s, events, t, Tick);
    assert t.pcs == s.pcs[0 := Writing];
  }

  // ----- the calls, when nothing interferes -----

  /** The lock path, and the clock and process table it is judged by. */
  class LockPath {
    var file: Option<LockFile>
    const config: Config
    const dead: set<Pid>
    const now: nat

    constructor (config: Config, file: Option<LockFile>, dead: set<Pid>, now: nat)
      ensures this.config == config && this.file == file && this.dead == dead && this.now == now
    {
      this.config, this.file, this.dead, this.now := config, file, dead, now;
    }

    /** `_clear_stale_lock`. */
    method ClearStale() returns (cleared: bool)
      modifies this`file
      ensures cleared == (old(file).Some? && Grants(config, old(file), dead, now))
      ensures file == if cleared then None else old(file)
    {
      if file.None? {
        return false;
      }
      var owner, modified := file.value.token, file.value.modified;
      if !Stale(config, owner, modified, dead, now) {
        return false;
      }
      if TokenIn(file) != owner {
        return false;
      }
      file := None;
      return true;
    }

    /** `__enter__`: at most two attempts to create the file. */
    method Enter(a: Agent, writeSucceeds: bool) returns (acquired: bool)
      modifies this`file
      ensures acquired == (Grants(config, old(file), dead, now) && writeSucceeds)
      ensures file == if !Grants(config, old(file), dead, now) then old(file)
                      else if writeSucceeds then Some(LockFile(a, Some(a), now)) else None
    {
      var attempt := 0;
      var created := false;
      while attempt < 2 && !created
        invariant 0 <= attempt <= 2
        invariant attempt == 0 ==> file == old(file)
        invariant !created && attempt > 0 ==> Grants(config, old(file), dead, now) && file == None
        invariant !created ==> attempt <= 1
        invariant created ==> Grants(config, old(file), dead, now) && file == Some(LockFile(a, None, now))
      {
        if file.None? {
          file := Some(LockFile(a, None, now));
          created := true;
        } else {
          var cleared := false;
          if attempt == 0 {
            cleared := ClearStale();
          }
          if !cleared {
            return false;
          }
        }
        attempt := attempt + 1;
      }
      if !writeSucceeds {
        file := None;
        return false;
      }
      file := Some(LockFile(a, Some(a), now));
      return true;
    }

    /** `__exit__` of an agent that acquired the lock: only its own file goes. */
    method Exit(a: Agent)
      modifies this`file
      ensures file == if TokenIn(old(file)) == Some(a) then None else old(file)
    {
      if TokenIn(file) == Some(a) {
        file := None;
      }
    }
  }
}

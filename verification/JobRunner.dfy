/** The attempt loop of one experiment job, and the status that it stores. */
module JobRunner {
  import opened Prelude
  import opened Text

  datatype JobStatus = Queued | Running | Cancelling | Completed | Failed | Blocked | Cancelled | Interrupted

  predicate Terminal(s: JobStatus) { s in {Completed, Failed, Blocked, Cancelled, Interrupted} }

  /** The statuses that `_job_status` produces. */
  type AttemptStatus = s: JobStatus | s in {Completed, Cancelled, Blocked, Interrupted, Failed} witness Completed

  /** `_job_status`. */
  function JobStatusOf(runtimeStatus: string): AttemptStatus {
    var s := Lower(Strip(runtimeStatus));
    if s in {"completed", "recovered", "recovered_after_replan", "no_action_required", "dry_run_validated"} then
      Completed
    else if s in {"cancelled", "cancelling"} then Cancelled
    else if s in {"blocked", "safe_failure", "safe_stopped", "consensus_rejected", "configuration_rejected"} then
      Blocked
    else if s == "interrupted" then Interrupted
    else Failed
  }

  /** The text is one of the words, however it is spaced and capitalised. */
  ghost predicate SpellsOne(text: string, words: set<string>) {
    exists word :: word in words && Spells(text, word, false)
  }

  lemma SpellsOneIff(text: string, words: set<string>)
    ensures SpellsOne(text, words) <==> Lower(Strip(text)) in words
  {
    forall word ensures Spells(text, word, false) <==> Lower(Strip(text)) == word { SpellsIff(text, word); }
  }

  /** Recoveries, validations and runs without need for action count as completed. */
  lemma CountsAsCompleted(text: string)
    ensures JobStatusOf(text) == Completed <==> SpellsOne(text,
              {"completed", "recovered", "recovered_after_replan", "no_action_required", "dry_run_validated"})
  {
    SpellsOneIff(text, {"completed", "recovered", "recovered_after_replan", "no_action_required", "dry_run_validated"});
  }

  lemma CountsAsCancelled(text: string)
    ensures JobStatusOf(text) == Cancelled <==> SpellsOne(text, {"cancelled", "cancelling"})
  {
    SpellsOneIff(text, {"cancelled", "cancelling"});
  }

  /** Safe stops, safe failures and rejections count as blocked. */
  lemma CountsAsBlocked(text: string)
    ensures JobStatusOf(text) == Blocked <==> SpellsOne(text,
              {"blocked", "safe_failure", "safe_stopped", "consensus_rejected", "configuration_rejected"})
  {
    SpellsOneIff(text, {"blocked", "safe_failure", "safe_stopped", "consensus_rejected", "configuration_rejected"});
  }

  lemma CountsAsInterrupted(text: string)
    ensures JobStatusOf(text) == Interrupted <==> SpellsOne(text, {"interrupted"})
  {
    SpellsOneIff(text, {"interrupted"});
  }

  /** Anything else counts as failed. */
  lemma CountsAsFailed(text: string)
    ensures JobStatusOf(text) == Failed <==>
              && !SpellsOne(text, {"completed", "recovered", "recovered_after_replan", "no_action_required",
                                   "dry_run_validated"})
              && !SpellsOne(text, {"cancelled", "cancelling"}) && !SpellsOne(text, {"interrupted"})
              && !SpellsOne(text, {"blocked", "safe_failure", "safe_stopped", "consensus_rejected",
                                   "configuration_rejected"})
  {
    CountsAsCompleted(text);
    CountsAsCancelled(text);
    CountsAsInterrupted(text);
    CountsAsBlocked(text);
  }

  // ----- the verdict on a job's attempts -----

  /** An attempt that does not keep a job from completing; an interrupted one does not. */
  predicate Harmless(s: JobStatus) { s == Completed || s == Interrupted }

  /** The verdict after one more attempt. */
  function Absorb(verdict: AttemptStatus, attempt: AttemptStatus): AttemptStatus {
    if attempt in {Cancelled, Blocked, Failed} then attempt else verdict
  }

  function Verdict(attempts: seq<AttemptStatus>): (v: AttemptStatus)
    ensures v != Interrupted
  {
    if attempts == [] then Completed else Absorb(Verdict(attempts[..|attempts| - 1]), attempts[|attempts| - 1])
  }

  predicate AllHarmless(attempts: seq<AttemptStatus>) { forall i :: 0 <= i < |attempts| ==> Harmless(attempts[i]) }

  /** The verdict is completion exactly when every attempt is harmless; otherwise it is the last
      attempt that was not. */
  lemma {:induction false} VerdictIff(attempts: seq<AttemptStatus>)
    ensures Verdict(attempts) == Completed <==> AllHarmless(attempts)
    ensures !AllHarmless(attempts) ==>
              exists i :: 0 <= i < |attempts| && attempts[i] == Verdict(attempts) && AllHarmless(attempts[i + 1..])
  {
    if attempts != [] {
      var n := |attempts| - 1;
      var front := attempts[..n];
      VerdictIff(front);
      if Harmless(attempts[n]) {
        if !AllHarmless(front) {
          var i :| 0 <= i < n && front[i] == Verdict(front) && AllHarmless(front[i + 1..]);
          assert attempts[i + 1..] == front[i + 1..] + [attempts[n]];
          assert attempts[i] == Verdict(attempts);
        }
      } else {
        assert attempts[n + 1..] == [];
        assert attempts[n] == Verdict(attempts);
      }
    }
  }

  // ----- the attempt loop -----

  /** What running one attempt comes to: an exception, or a result with a runtime status. */
  datatype AttemptResult = Raises | Ends(runtimeStatus: string) {
    function Status(): AttemptStatus
      requires Ends?
    {
      JobStatusOf(runtimeStatus)
    }
  }

  /** `flagSet(i)` is what the cancellation flag reads before attempt i, `flagAfter` what it reads
      when an exception is handled, `flagAtEnd` at the final check. */
  datatype JobWorld = JobWorld(
    repetitions: nat,
    flagSet: nat -> bool,
    run: nat -> AttemptResult,
    flagAfter: bool,
    flagAtEnd: bool)

  function CountIn(statuses: seq<AttemptStatus>, wanted: set<JobStatus>): nat {
    if statuses == [] then 0
    else CountIn(statuses[..|statuses| - 1], wanted) + (if statuses[|statuses| - 1] in wanted then 1 else 0)
  }

  /** How the loop was left. */
  datatype Exit = RanOut | FlagSeen | AttemptCancelled | ExceptionRaised

  /** Attempt `i` runs, and neither it nor the flag ends the loop. */
  predicate Calm(w: JobWorld, i: nat) { !w.flagSet(i) && w.run(i).Ends? && w.run(i).Status() != Cancelled }

  /** Where the loop stands after `n` attempts without leaving early. */
  predicate Undisturbed(w: JobWorld, n: nat) { forall i: nat :: i < n ==> Calm(w, i) }

  /** Attempt `k` ran and was itself cancelled. */
  predicate EndsCancelled(w: JobWorld, k: nat) { !w.flagSet(k) && w.run(k).Ends? && w.run(k).Status() == Cancelled }

  /** The status when the first disturbance is at attempt `k`. */
  function DisturbedStatus(w: JobWorld, k: nat): AttemptStatus {
    if !w.flagSet(k) && w.run(k).Raises? && !w.flagAfter then Failed else Cancelled
  }

  function StatusesOf(w: JobWorld, n: nat): (s: seq<AttemptStatus>)
    requires Undisturbed(w, n)
    ensures |s| == n && forall i: nat :: i < n ==> Calm(w, i) && s[i] == w.run(i).Status()
  {
    assert forall i: nat :: i < n ==> Calm(w, i);
    seq<AttemptStatus>(n, i requires 0 <= i < n && Calm(w, i) => w.run(i).Status())
  }

  lemma FirstDisturbance(w: JobWorld, k: nat, n: nat)
    requires Undisturbed(w, k) && !Calm(w, k) && n > 0 && Undisturbed(w, n - 1) && !Calm(w, n - 1)
    ensures k == n - 1
  {
  }

  lemma VerdictSnoc(attempts: seq<AttemptStatus>, last: AttemptStatus)
    ensures Verdict(attempts + [last]) == Absorb(Verdict(attempts), last)
  {
    assert (attempts + [last])[..|attempts|] == attempts;
  }

  /** One pass through the loop body. */
  method OneAttempt(w: JobWorld, n: nat, verdict: AttemptStatus)
    returns (exit: Exit, status: AttemptStatus, recorded: seq<AttemptStatus>)
    ensures exit == RanOut <==> Calm(w, n)
    ensures Calm(w, n) ==> recorded == [w.run(n).Status()] && status == Absorb(verdict, w.run(n).Status())
    ensures !Calm(w, n) ==>
              status == DisturbedStatus(w, n) && recorded == (if EndsCancelled(w, n) then [Cancelled] else [])
  {
    if w.flagSet(n) {
      return FlagSeen, Cancelled, [];
    }
    match w.run(n) {
      case Raises => return ExceptionRaised, if w.flagAfter then Cancelled else Failed, [];
      case Ends(runtimeStatus) =>
        var mapped := JobStatusOf(runtimeStatus);
        return if mapped == Cancelled then AttemptCancelled else RanOut, Absorb(verdict, mapped), [mapped];
    }
  }

  /** The attempts on record are the first results. */
  predicate Records(w: JobWorld, attempts: seq<AttemptStatus>) {
    forall i :: 0 <= i < |attempts| ==> w.run(i).Ends? && attempts[i] == w.run(i).Status()
  }

  lemma RecordsSnoc(w: JobWorld, attempts: seq<AttemptStatus>, recorded: seq<AttemptStatus>)
    requires Records(w, attempts)
    requires recorded == [] || (w.run(|attempts|).Ends? && recorded == [w.run(|attempts|).Status()])
    ensures Records(w, attempts + recorded)
  {
  }

  /** The loop after `n` undisturbed passes. */
  predicate RanThrough(w: JobWorld, attempts: seq<AttemptStatus>, status: AttemptStatus, n: nat) {
    |attempts| == n && Records(w, attempts) && Undisturbed(w, n) && status == Verdict(attempts)
  }

  lemma RanOnce(w: JobWorld, attempts: seq<AttemptStatus>, status: AttemptStatus, n: nat)
    requires RanThrough(w, attempts, status, n) && Calm(w, n)
    ensures RanThrough(w, attempts + [w.run(n).Status()], Absorb(status, w.run(n).Status()), n + 1)
  {
    RecordsSnoc(w, attempts, [w.run(n).Status()]);
    VerdictSnoc(attempts, w.run(n).Status());
  }

  /** The loop of `_run_job`; `n` repetitions were begun. */
  method RunAttempts(w: JobWorld) returns (status: AttemptStatus, attempts: seq<AttemptStatus>, exit: Exit, n: nat)
    ensures n <= w.repetitions && |attempts| <= n && Records(w, attempts)
    ensures exit == RanOut ==>
              n == w.repetitions && |attempts| == n && Undisturbed(w, n) && status == Verdict(attempts)
    ensures exit != RanOut ==>
              && n > 0 && Undisturbed(w, n - 1) && !Calm(w, n - 1) && status == DisturbedStatus(w, n - 1)
              && |attempts| == n - 1 + (if EndsCancelled(w, n - 1) then 1 else 0)
  {
    attempts, status, exit, n := [], Completed, RanOut, 0;
    while n < w.repetitions
      invariant 0 <= n <= w.repetitions && exit == RanOut && RanThrough(w, attempts, status, n)
    {
      var recorded;
      ghost var verdict := status;
      exit, status, recorded := OneAttempt(w, n, status);
      n := n + 1;
      if exit != RanOut {
        RecordsSnoc(w, attempts, recorded);
        return status, attempts + recorded, exit, n;
      }
      RanOnce(w, attempts, verdict, n - 1);
      attempts := attempts + recorded;
    }
  }

  /** `_run_job`: the recorded attempts and the status stored for the job. A job completes exactly
      when every repetition ran to an end that was not cancelled, blocked or failed and the flag
      was never seen set, at the last check included. */
  method RunJob(w: JobWorld) returns (status: AttemptStatus, attempts: seq<AttemptStatus>, successful: nat, failed: nat)
    ensures Records(w, attempts)
    ensures status == Completed <==>
              Undisturbed(w, w.repetitions) && AllHarmless(StatusesOf(w, w.repetitions)) && !w.flagAtEnd
    ensures Undisturbed(w, w.repetitions) ==>
              && attempts == StatusesOf(w, w.repetitions)
              && status == (if w.flagAtEnd && AllHarmless(attempts) then Cancelled else Verdict(attempts))
    ensures forall k: nat :: k < w.repetitions && Undisturbed(w, k) && !Calm(w, k) ==>
              && status == (if !w.flagSet(k) && w.run(k).Raises? && !w.flagAfter then Failed else Cancelled)
              && |attempts| == k + (if w.flagSet(k) || w.run(k).Raises? then 0 else 1)
    ensures successful == CountIn(attempts, {Completed}) && failed == CountIn(attempts, {Failed, Blocked})
  {
    var exit, n;
    status, attempts, exit, n := RunAttempts(w);
    if exit == RanOut {
      assert attempts == StatusesOf(w, w.repetitions);
      VerdictIff(attempts);
    } else {
      assert !Undisturbed(w, w.repetitions);
      forall k: nat | k < w.repetitions && Undisturbed(w, k) && !Calm(w, k) ensures k == n - 1 {
        FirstDisturbance(w, k, n);
      }
    }
    if w.flagAtEnd && status == Completed {
      status := Cancelled;
    }
    successful := Count(attempts, {Completed});
    failed := Count(attempts, {Failed, Blocked});
  }

  method Count(statuses: seq<AttemptStatus>, wanted: set<JobStatus>) returns (n: nat)
    ensures n == CountIn(statuses, wanted)
  {
    n := 0;
    for i := 0 to |statuses|
      invariant n == CountIn(statuses[..i], wanted)
    {
      assert statuses[..i + 1][..i] == statuses[..i];
      if statuses[i] in wanted { n := n + 1; }
    }
    assert statuses[..|statuses|] == statuses;
  }

  /** The counts of a job's report account for every attempt but the cancelled and the
      interrupted ones. */
  lemma {:induction false} AttemptsAccountedFor(attempts: seq<AttemptStatus>)
    ensures CountIn(attempts, {Completed}) + CountIn(attempts, {Failed, Blocked})
            + CountIn(attempts, {Cancelled, Interrupted}) == |attempts|
  {
    if attempts != [] { AttemptsAccountedFor(attempts[..|attempts| - 1]); }
  }
}

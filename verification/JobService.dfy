/**
 The worker's program: `executeJob` as it is written, between awaits at which the
 rest of the world does whatever it likes. Every step it takes is a step of the
 state machine in module Jobs, so every theorem about runs is about this program.
*/
module JobService {
  import opened Common
  import opened FeltDb
  import opened Jobs
  import opened JobLeases
  import opened JobOutcomes

  /** How a call came to its end. */
  datatype Ending = NotThere | HeldByLease | OutOfAttempts | Overtaken | Settled(outcome: Outcome)

  /** The call's last step, read off the stored records. */
  predicate EndsAt(s: State, a: Action, s': State, run: nat, how: Ending) {
    && a.Go? && a.run == run && run in s.runs
    && var r := s.runs[run];
       match how
       case NotThere => r.phase.Entered? && s'.jobs == s.jobs && (r.jobId in s.jobs ==> s.jobs[r.jobId].value.tenant != r.tenant)
       case HeldByLease =>
         && r.phase.Entered? && s'.jobs == s.jobs && r.jobId in s.jobs
         && var j := s.jobs[r.jobId].value;
            j.status.Running? && (j.leaseExpiresAt.Some? ==> s.clock < j.leaseExpiresAt.value)
       case OutOfAttempts => r.phase.Abandoned? && r.phase.row.value.attemptCount + 1 >= r.phase.row.value.maxAttempts
       case Overtaken => (r.phase.Abandoned? || r.phase.ToClaim?) && s'.jobs == s.jobs && !CasWins(s.jobs, r.jobId, r.phase.row.version)
       case Settled(outcome) => r.phase.Ended? && r.phase.outcome == outcome && s'.jobs == SettledJobs(s.jobs, r)
  }

  ghost predicate EndedIn(tr: seq<State>, acts: seq<Action>, run: nat, how: Ending)
    requires |tr| == |acts| + 1
  {
    exists k :: 0 <= k < |acts| && EndsAt(tr[k], acts[k], tr[k + 1], run, how)
  }

  lemma EndedHere(tr: seq<State>, acts: seq<Action>, k: nat, run: nat, how: Ending)
    requires |tr| == |acts| + 1 && k < |acts| && EndsAt(tr[k], acts[k], tr[k + 1], run, how)
    ensures EndedIn(tr, acts, run, how)
  {}

  /** The record the run claimed was stored at the claim. */
  ghost predicate ClaimedIn(tr: seq<State>, run: nat, claimed: Row<Job>) {
    exists k :: 0 <= k < |tr| && HasClaimed(tr[k], run, claimed)
  }

  predicate HasClaimed(s: State, run: nat, claimed: Row<Job>) {
    run in s.runs && s.runs[run].phase == Claimed(claimed) && s.runs[run].jobId in s.jobs && s.jobs[s.runs[run].jobId] == claimed
  }

  function SettledJobs(jobs: Jobs, r: Run): Jobs
    requires r.phase.Ended?
  {
    Cas(jobs, r.jobId, r.phase.row.version, SettledJob(r.phase.row.value, r.phase.outcome, r.phase.at))
  }

  lemma ClaimedHere(tr: seq<State>, k: nat, run: nat, claimed: Row<Job>)
    requires k < |tr| && HasClaimed(tr[k], run, claimed)
    ensures ClaimedIn(tr, run, claimed)
  {}

  /** From one instant on, the run holds no claim. */
  ghost predicate NeverHolds(tr: seq<State>, run: nat, from: nat) {
    forall k :: from <= k < |tr| && run in tr[k].runs ==> !Holding(tr[k].runs[run].phase)
  }

  /** The same run, one phase further. */
  predicate Continues(was: Run, now: Run, phase: Phase) {
    now.kind == was.kind && now.tenant == was.tenant && now.jobId == was.jobId && now.phase == phase
  }

  class Service {
    const cfg: Config
    var s: State
    ghost var tr: seq<State>
    ghost var acts: seq<Action>

    ghost predicate Valid()
      reads this
    {
      |tr| == |acts| + 1 && IsRun(cfg, tr, acts) && Inv(tr[0]) && tr[|tr| - 1] == s
    }

    /** The history so far is a prefix of the history now. */
    ghost predicate Extends(was: seq<State>, did: seq<Action>)
      reads this
    {
      was <= tr && did <= acts
    }

    constructor (cfg: Config)
      ensures Valid() && this.cfg == cfg && s == EMPTY
    {
      this.cfg, s := cfg, EMPTY;
      tr, acts := [EMPTY], [];
    }

    /** One step of anybody. */
    method Act(a: Action)
      requires Valid() && Enabled(s, a)
      modifies this
      ensures Valid() && s == Step(cfg, old(s), a)
      ensures tr == old(tr) + [s] && acts == old(acts) + [a]
    {
      s := Step(cfg, s, a);
      tr, acts := tr + [s], acts + [a];
    }

    /** An await of run `me`: others act in any order; nobody else moves the run. */
    method Await(me: nat, world: seq<Action>)
      requires Valid() && me in s.runs
      modifies this
      ensures Valid() && Extends(old(tr), old(acts))
      ensures me in s.runs && s.runs[me] == old(s.runs[me]) && old(s.clock) <= s.clock && s.nextRun >= old(s.nextRun)
      ensures !Holding(s.runs[me].phase) ==> NeverHolds(tr, me, |old(tr)|)
    {
      RunKeepsInv(cfg, tr, acts, |tr| - 1);
      for i := 0 to |world|
        invariant Valid() && Extends(old(tr), old(acts)) && Inv(s)
        invariant me in s.runs && s.runs[me] == old(s.runs[me]) && old(s.clock) <= s.clock && s.nextRun >= old(s.nextRun)
        invariant !Holding(s.runs[me].phase) ==> NeverHolds(tr, me, |old(tr)|)
      {
        var a := world[i];
        if Enabled(s, a) && a != Crash(me) && !(a.Go? && a.run == me) {
          StepKeepsInv(cfg, s, a);
          OthersLeaveRun(cfg, s, a, me);
          Act(a);
        }
      }
    }

    /** A worker enters `executeJob`. */
    method Begin(workerId: string, tenant: string, jobId: string) returns (me: nat)
      requires Valid()
      modifies this
      ensures Valid() && Extends(old(tr), old(acts)) && me == old(s.nextRun) && tr == old(tr) + [s]
      ensures me in s.runs && s.runs[me] == Run(Execute(workerId), tenant, jobId, Entered, 0)
    {
      me := s.nextRun;
      Act(Enter(Execute(workerId), tenant, jobId));
    }

    /** `updateIfVersion` on the run's job, and where the run goes on if it wins. */
    method UpdateIfVersion(me: nat, input: Input, expected: nat, value: Job, next: Option<Phase>, note: Note) returns (won: bool)
      requires Valid() && me in s.runs
      requires EffectOf(cfg, s, me, input)
               == if CasWins(s.jobs, s.runs[me].jobId, expected) then Effect(Some(value), next, note) else RETURNED
      modifies this
      ensures Valid() && Extends(old(tr), old(acts)) && s == Step(cfg, old(s), Go(me, input))
      ensures tr == old(tr) + [s] && acts == old(acts) + [Go(me, input)]
      ensures won == CasWins(old(s.jobs), old(s.runs[me].jobId), expected)
      ensures s.jobs == Cas(old(s.jobs), old(s.runs[me].jobId), expected, value)
      ensures won && next.Some? ==> me in s.runs && Continues(old(s.runs[me]), s.runs[me], next.value)
      ensures !won || next.None? ==> me !in s.runs
    {
      var id := s.runs[me].jobId;
      won := id in s.jobs && s.jobs[id].version == expected;
      Act(Go(me, input));
    }

    /** The run goes on without writing. */
    method GoOn(me: nat, input: Input, next: Phase, note: Note)
      requires Valid() && me in s.runs && EffectOf(cfg, s, me, input) == Effect(None, Some(next), note)
      modifies this
      ensures Valid() && Extends(old(tr), old(acts)) && s == Step(cfg, old(s), Go(me, input)) && tr == old(tr) + [s]
      ensures me in s.runs && Continues(old(s.runs[me]), s.runs[me], next) && s.jobs == old(s.jobs)
    {
      Act(Go(me, input));
    }

    /** The call returns without writing. */
    method Return(me: nat, input: Input)
      requires Valid() && me in s.runs && EffectOf(cfg, s, me, input) == RETURNED
      modifies this
      ensures Valid() && Extends(old(tr), old(acts)) && me !in s.runs && s.jobs == old(s.jobs)
      ensures tr == old(tr) + [s] && acts == old(acts) + [Go(me, input)]
    {
      Act(Go(me, input));
    }

    /**
     Run one job: `world(k)` is what others do during the k-th await, `input(k)` what
     the world answers. The answer tells whether the handler succeeded, not whether
     the settling write won. A claimed job ends as its record and those answers say;
     a call that ends without an outcome never held the job, because it was not
     there, under a running lease, out of attempts or overtaken.
    */
    method ExecuteJob(tenant: string, jobId: string, workerId: string, world: nat -> seq<Action>, input: nat -> Input)
      returns (ok: bool, ghost me: nat, ghost how: Ending, ghost claimed: Option<Row<Job>>)
      requires Valid()
      modifies this
      ensures Valid() && Extends(old(tr), old(acts))
      ensures me == old(s.nextRun) && me !in s.runs
      ensures ok <==> how == Settled(Succeeded)
      ensures EndedIn(tr, acts, me, how)
      ensures how.Settled? <==> claimed.Some?
      ensures how.Settled? ==> ClaimedIn(tr, me, claimed.value) && AnswersAs(cfg, tenant, claimed.value.value, input(3), input(4), input(5), how.outcome)
      ensures !how.Settled? ==> NeverHolds(tr, me, |old(tr)|)
    {
      hide IsRun, Inv, Step, Do, EndedIn, ClaimedIn, AnswersAs;
      ok, claimed := false, None;
      var run := Begin(workerId, tenant, jobId);
      me := run;
      var goes: bool;
      goes, how := Read(run, world, input);
      if goes {
        ok, how, claimed := ClaimAndRun(run, s.runs[run].phase.row, world, input);
      }
    }

    /** The first half of `executeJob`: read the record, and count the attempt an expired lease abandoned. */
    method Read(me: nat, world: nat -> seq<Action>, input: nat -> Input) returns (goes: bool, ghost how: Ending)
      requires Valid() && me in s.runs && s.runs[me].phase.Entered? && s.runs[me].kind.Execute?
      modifies this
      ensures Valid() && Extends(old(tr), old(acts)) && NeverHolds(tr, me, |old(tr)|)
      ensures goes ==> me in s.runs && s.runs[me].phase.ToClaim? && s.runs[me].tenant == old(s.runs[me].tenant)
      ensures !goes ==> me !in s.runs && !how.Settled? && EndedIn(tr, acts, me, how)
    {
      hide IsRun, Inv, Step, DoCount, DoClaim, DoDispatch, DoAuthorize, DoHandler, DoSettle, DoReset, EndedIn;
      var tenant, jobId, workerId := s.runs[me].tenant, s.runs[me].jobId, s.runs[me].kind.worker;
      goes, how := false, NotThere;
      Await(me, world(0));
      ghost var k := |acts|;
      if jobId !in s.jobs || s.jobs[jobId].value.tenant != tenant {
        Return(me, input(0));
        EndedHere(tr, acts, k, me, how);
        return;
      }
      var job := s.jobs[jobId];
      var now := s.clock;
      var abandoned := job.value.status.Running? && job.value.leaseExpiresAt.Some? && job.value.leaseExpiresAt.value <= now;
      if job.value.status.Running? && !abandoned && job.value.leaseOwner != Some(workerId) {
        Return(me, input(0));
        how := HeldByLease;
        EndedHere(tr, acts, k, me, how);
        return;
      }
      goes := true;
      if !abandoned {
        GoOn(me, input(0), ToClaim(job, now + cfg.leaseMs), Nothing);
      } else {
        GoOn(me, input(0), Abandoned(job), Nothing);
        goes, how := TakeOver(me, job, world(1), input(1));
      }
    }

    method TakeOver(me: nat, job: Row<Job>, world: seq<Action>, input: Input) returns (goes: bool, ghost how: Ending)
      requires Valid() && me in s.runs && s.runs[me].phase == Abandoned(job)
      modifies this
      ensures Valid() && Extends(old(tr), old(acts)) && NeverHolds(tr, me, |old(tr)|)
      ensures goes ==> me in s.runs && s.runs[me].phase.ToClaim? && s.runs[me].tenant == old(s.runs[me].tenant)
      ensures !goes ==> me !in s.runs && !how.Settled? && EndedIn(tr, acts, me, how)
    {
      hide IsRun, Inv, Step, Do, EndedIn;
      Await(me, world);
      goes, how := CountAbandoned(me, job, input);
    }

    /** The abandoned attempt counts: the job fails at its last one, or the worker takes it over. */
    method CountAbandoned(me: nat, job: Row<Job>, input: Input) returns (counted: bool, ghost how: Ending)
      requires Valid() && me in s.runs && s.runs[me].phase == Abandoned(job)
      modifies this
      ensures Valid() && Extends(old(tr), old(acts)) && tr == old(tr) + [s]
      ensures var row := job.value.(attemptCount := job.value.attemptCount + 1);
              s.jobs == Cas(old(s.jobs), old(s.runs[me].jobId), job.version, if row.attemptCount >= row.maxAttempts then row.(status := Failed) else row)
      ensures counted ==> me in s.runs && s.runs[me].phase.ToClaim? && s.runs[me].phase.row.value == job.value.(attemptCount := job.value.attemptCount + 1)
                          && s.runs[me].tenant == old(s.runs[me].tenant)
      ensures !counted ==> me !in s.runs && !how.Settled? && EndedIn(tr, acts, me, how)
    {
      hide IsRun, Inv, Step, DoRead, DoClaim, DoDispatch, DoAuthorize, DoHandler, DoSettle, DoReset, EndedIn;
      how := OutOfAttempts;
      ghost var k := |acts|;
      var attemptCount := job.value.attemptCount + 1;
      var value := job.value.(attemptCount := attemptCount);
      if attemptCount >= job.value.maxAttempts {
        var _ := UpdateIfVersion(me, input, job.version, value.(status := Failed), None, Nothing);
        counted := false;
        EndedHere(tr, acts, k, me, how);
        return;
      }
      var next := Row(value, job.version + 1);
      counted := UpdateIfVersion(me, input, job.version, value, Some(ToClaim(next, s.clock + cfg.leaseMs)), Nothing);
      if !counted {
        how := Overtaken;
        EndedHere(tr, acts, k, me, how);
      }
    }

    /** The second half of `executeJob`: claim, dispatch, run and settle. */
    method ClaimAndRun(me: nat, job: Row<Job>, world: nat -> seq<Action>, input: nat -> Input)
      returns (ok: bool, ghost how: Ending, ghost claimed: Option<Row<Job>>)
      requires Valid() && me in s.runs && s.runs[me].phase.ToClaim? && s.runs[me].phase.row == job
      modifies this
      ensures Valid() && Extends(old(tr), old(acts)) && me !in s.runs
      ensures ok <==> how == Settled(Succeeded)
      ensures EndedIn(tr, acts, me, how) && (how.Settled? <==> claimed.Some?)
      ensures how.Settled? ==> ClaimedIn(tr, me, claimed.value)
                               && AnswersAs(cfg, old(s.runs[me].tenant), claimed.value.value, input(3), input(4), input(5), how.outcome)
      ensures !how.Settled? ==> NeverHolds(tr, me, |old(tr)|)
    {
      hide IsRun, Inv, Step, DoRead, DoCount, DoDispatch, DoAuthorize, DoHandler, DoSettle, DoReset, EndedIn, ClaimedIn, AnswersAs;
      ok, how, claimed := false, Overtaken, None;
      var lease := s.runs[me].phase.lease;
      Await(me, world(2));
      var value := job.value.(status := Running, leaseExpiresAt := Some(lease));
      ghost var k := |acts|;
      var won := UpdateIfVersion(me, input(2), job.version, value, Some(Claimed(Row(value, job.version + 1))), NoteClaim);
      if !won {
        EndedHere(tr, acts, k, me, how);
        return;
      }
      claimed := Some(Row(value, job.version + 1));
      ghost var t := tr;
      assert HasClaimed(t[k + 1], me, claimed.value);
      ok, how := RunClaimed(me, Row(value, job.version + 1), world, input);
      assert HasClaimed(tr[k + 1], me, claimed.value);
      ClaimedHere(tr, k + 1, me, claimed.value);
    }

    /** Run the claimed job and settle it. */
    method RunClaimed(me: nat, claimed: Row<Job>, world: nat -> seq<Action>, input: nat -> Input) returns (ok: bool, ghost how: Ending)
      requires Valid() && me in s.runs && s.runs[me].phase == Claimed(claimed)
      modifies this
      ensures Valid() && Extends(old(tr), old(acts)) && me !in s.runs
      ensures how.Settled? && EndedIn(tr, acts, me, how) && (ok <==> how.outcome.Succeeded?)
      ensures AnswersAs(cfg, old(s.runs[me].tenant), claimed.value, input(3), input(4), input(5), how.outcome)
    {
      hide IsRun, Inv, Step, Do, EndedIn;
      Dispatch(me, claimed, world, input);
      Await(me, world(5));
      if s.runs[me].phase.Started? {
        RunHandler(me, claimed, input(5));
        Await(me, world(6));
      }
      how := Settled(s.runs[me].phase.outcome);
      ok := Settle(me, claimed, input(6));
    }

    /** Find the handler, then check whom the job runs as. */
    method Dispatch(me: nat, claimed: Row<Job>, world: nat -> seq<Action>, input: nat -> Input)
      requires Valid() && me in s.runs && s.runs[me].phase == Claimed(claimed)
      modifies this
      ensures Valid() && Extends(old(tr), old(acts)) && me in s.runs && s.runs[me].jobId == old(s.runs[me].jobId)
      // The handler starts exactly when it may; what keeps it from starting is the outcome.
      ensures if MayRun(cfg, old(s.runs[me].tenant), claimed.value, input(3), input(4)) then s.runs[me].phase == Started(claimed)
              else s.runs[me].phase.Ended? && s.runs[me].phase.row == claimed
                   && s.runs[me].phase.outcome == (if claimed.value.typ !in cfg.handlers then NoHandler
                                                   else if claimed.value.principal != Some(old(s.runs[me].tenant)) || !input(3).attests then Refused
                                                   else input(4).refusal.value)
    {
      hide IsRun, Inv, Step, DoRead, DoCount, DoClaim, DoAuthorize, DoHandler, DoSettle, DoReset;
      var value := claimed.value;
      if value.typ !in cfg.handlers {
        GoOn(me, input(3), Ended(claimed, NoHandler, s.clock), Nothing);
      } else if !cfg.authority || IsSystemType(value.typ) {
        GoOn(me, input(3), Started(claimed), NoteStart);
      } else if value.principal != Some(s.runs[me].tenant) || !input(3).attests {
        GoOn(me, input(3), Ended(claimed, Refused, s.clock), Nothing);
      } else {
        GoOn(me, input(3), Attested(claimed), Nothing);
        Await(me, world(4));
        Authorize(me, claimed, input(4));
      }
    }

    method Authorize(me: nat, claimed: Row<Job>, input: Input)
      requires Valid() && me in s.runs && s.runs[me].phase == Attested(claimed)
      modifies this
      ensures Valid() && Extends(old(tr), old(acts)) && s.jobs == old(s.jobs)
      ensures me in s.runs && s.runs[me].jobId == old(s.runs[me].jobId)
      ensures if TurnsAway(input) then s.runs[me].phase.Ended? && s.runs[me].phase.row == claimed && s.runs[me].phase.outcome == input.refusal.value
              else s.runs[me].phase == Started(claimed)
    {
      if input.refusal.Some? && !input.refusal.value.Succeeded? && !input.refusal.value.NoHandler? {
        var outcome := input.refusal.value;
        GoOn(me, input, Ended(claimed, outcome, s.clock), if outcome.Unavailable? then NoteExcuse else Nothing);
      } else {
        GoOn(me, input, Started(claimed), NoteStart);
      }
    }

    method RunHandler(me: nat, claimed: Row<Job>, input: Input)
      requires Valid() && me in s.runs && s.runs[me].phase == Started(claimed)
      modifies this
      ensures Valid() && Extends(old(tr), old(acts)) && s.jobs == old(s.jobs)
      ensures me in s.runs && s.runs[me].jobId == old(s.runs[me].jobId) && s.runs[me].phase.Ended? && s.runs[me].phase.row == claimed
      ensures var outcome := s.runs[me].phase.outcome;
              outcome == if input.outcome.Succeeded? then Succeeded else if NeedsAttestation(cfg, claimed.value) && !input.outcome.NoHandler? then input.outcome else Threw
    {
      var legacy := !cfg.authority || IsSystemType(claimed.value.typ);
      var outcome := if input.outcome.Succeeded? then Succeeded
                     else if legacy || input.outcome.NoHandler? then Threw
                     else input.outcome;
      GoOn(me, input, Ended(claimed, outcome, s.clock), if outcome.Unavailable? then NoteExcuse else Nothing);
    }

    /** `completeJob`, `recordExecutionFailure`, `deny` or the postponement: one conditional write each. */
    method Settle(me: nat, claimed: Row<Job>, input: Input) returns (ok: bool)
      requires Valid() && me in s.runs && s.runs[me].phase.Ended? && s.runs[me].phase.row == claimed
      modifies this
      ensures Valid() && Extends(old(tr), old(acts)) && me !in s.runs
      ensures ok == old(s.runs[me].phase.outcome.Succeeded?)
      ensures s.jobs == old(SettledJobs(s.jobs, s.runs[me]))
      ensures EndedIn(tr, acts, me, Settled(old(s.runs[me].phase.outcome)))
    {
      ghost var k := |acts|;
      var job, outcome, at := claimed.value, s.runs[me].phase.outcome, s.runs[me].phase.at;
      ok := outcome.Succeeded?;
      var settled, note := job, Nothing;
      match outcome {
        case Succeeded =>
          settled := job.(status := Completed);
        case Threw =>
          var nextAttempt := job.attemptCount + 1;
          if nextAttempt >= job.maxAttempts {
            settled := job.(status := Failed, attemptCount := nextAttempt);
          } else {
            var delay := INITIAL_RETRY_DELAY_MS * Pow2(job.attemptCount);
            settled := job.(status := Retrying, nextAttemptAt := Some(at + delay), attemptCount := nextAttempt);
            note := NoteBackoff(delay);
          }
        case Unavailable =>
          settled := job.(status := Retrying, nextAttemptAt := Some(at + INITIAL_RETRY_DELAY_MS));
        case _ =>
          settled := job.(status := Failed);
      }
      var _ := UpdateIfVersion(me, input, claimed.version, settled, None, note);
      EndedHere(tr, acts, k, me, Settled(outcome));
    }
  }

  /** Other runs' steps and the passing of time leave a run where it is. */
  lemma OthersLeaveRun(cfg: Config, s: State, a: Action, me: nat)
    requires Inv(s) && Enabled(s, a) && me in s.runs && a != Crash(me) && !(a.Go? && a.run == me)
    ensures var s' := Step(cfg, s, a); me in s'.runs && s'.runs[me] == s.runs[me] && s.clock <= s'.clock && s.nextRun <= s'.nextRun
  {
    hide Do, RunOk, ClaimsDistinct, Noted;
  }
}

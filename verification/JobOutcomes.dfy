/** What decides whether a job's handler starts, how a run ends, and what its settling write means for the job. */
module JobOutcomes {
  import opened Common
  import opened FeltDb
  import opened Jobs
  import opened JobLeases

  // ---------------------------------------------------------------------------
  // No start without an attestation and a gateway
  // ---------------------------------------------------------------------------

  /** In authority mode every job but the system's own runs as an attested principal. */
  predicate NeedsAttestation(cfg: Config, j: Job) {
    cfg.authority && !("appport." <= j.typ)
  }

  /** The gateway turned the run away, with what it ended as. */
  predicate TurnsAway(input: Input) {
    input.refusal == Some(Threw) || input.refusal == Some(Refused) || input.refusal == Some(Unavailable)
  }

  /** The run's claimed job has a handler and a principal of the run's tenant, and that principal attests. */
  predicate AttestsAt(cfg: Config, s: State, a: Action, run: nat, row: Row<Job>) {
    && a.Go? && a.run == run && run in s.runs && s.runs[run].phase == Claimed(row)
    && row.value.typ in cfg.handlers && row.value.principal == Some(s.runs[run].tenant) && a.input.attests
  }

  predicate LetThroughAt(s: State, a: Action, run: nat, row: Row<Job>) {
    a.Go? && a.run == run && run in s.runs && s.runs[run].phase == Attested(row) && !TurnsAway(a.input)
  }

  /** The claimed job has a handler, and where it must attest it does and the gateway lets it through. */
  predicate MayRun(cfg: Config, tenant: string, j: Job, dispatch: Input, gateway: Input) {
    j.typ in cfg.handlers && (NeedsAttestation(cfg, j) ==> j.principal == Some(tenant) && dispatch.attests && !TurnsAway(gateway))
  }

  /** How a claimed run ends, from the job it claimed and what the world answered: at dispatch, at the gateway, in the handler. */
  predicate AnswersAs(cfg: Config, tenant: string, j: Job, dispatch: Input, gateway: Input, handler: Input, outcome: Outcome) {
    && (outcome.NoHandler? <==> j.typ !in cfg.handlers)
    && (j.typ in cfg.handlers && NeedsAttestation(cfg, j) ==>
          // An unattested principal, or one of another tenant, is denied and its handler never starts.
          && (j.principal != Some(tenant) || !dispatch.attests ==> outcome.Refused?)
          && (j.principal == Some(tenant) && dispatch.attests && TurnsAway(gateway) ==> outcome == gateway.refusal.value))
    && (outcome.Succeeded? <==> MayRun(cfg, tenant, j, dispatch, gateway) && handler.outcome.Succeeded?)
    && (MayRun(cfg, tenant, j, dispatch, gateway) && !handler.outcome.Succeeded? ==>
          outcome == if NeedsAttestation(cfg, j) && !handler.outcome.NoHandler? then handler.outcome else Threw)
  }

  /** The handler of the job has started. */
  predicate HandlerRan(p: Phase) {
    p.Started? || (p.Ended? && p.outcome.Succeeded?)
  }

  /** One step back from an attested run: it was attested already, or attests here. */
  lemma BeforeAttested(cfg: Config, s: State, a: Action, run: nat, row: Row<Job>)
    requires Inv(s) && Enabled(s, a) && run in Step(cfg, s, a).runs && Step(cfg, s, a).runs[run].phase == Attested(row)
    ensures run in s.runs && (s.runs[run].phase == Attested(row) || AttestsAt(cfg, s, a, run, row))
    ensures Step(cfg, s, a).runs[run].tenant == s.runs[run].tenant
  {
    hide RunOk, ClaimsDistinct, NoLeaseOwner, Noted, SettledJob, ResetJob;
  }

  /** One step back from a handler that ran: it ran already, or starts here. */
  lemma BeforeStarted(cfg: Config, s: State, a: Action, run: nat)
    requires Inv(s) && Enabled(s, a) && run in Step(cfg, s, a).runs && HandlerRan(Step(cfg, s, a).runs[run].phase)
    requires NeedsAttestation(cfg, Step(cfg, s, a).runs[run].phase.row.value)
    ensures var row := Step(cfg, s, a).runs[run].phase.row;
            run in s.runs && ((HandlerRan(s.runs[run].phase) && s.runs[run].phase.row == row) || LetThroughAt(s, a, run, row))
  {
    hide RunOk, ClaimsDistinct, NoLeaseOwner, Noted, SettledJob, ResetJob;
  }

  lemma EmptyIsOk()
    ensures Inv(EMPTY)
  {}

  lemma {:induction false} AttestedBefore(cfg: Config, tr: seq<State>, acts: seq<Action>, i: nat, run: nat) returns (j: nat)
    requires IsRun(cfg, tr, acts) && tr[0] == EMPTY && i < |tr| && run in tr[i].runs && tr[i].runs[run].phase.Attested?
    ensures j < i && AttestsAt(cfg, tr[j], acts[j], run, tr[i].runs[run].phase.row)
  {
    hide Inv, Step, Enabled, AttestsAt;
    var row := tr[i].runs[run].phase.row;
    EmptyIsOk();
    RunKeepsInv(cfg, tr, acts, i - 1);
    BeforeAttested(cfg, tr[i - 1], acts[i - 1], run, row);
    if tr[i - 1].runs[run].phase == Attested(row) {
      j := AttestedBefore(cfg, tr, acts, i - 1, run);
    } else {
      j := i - 1;
    }
  }

  /**
   Over every run: where authority is required, a handler ran only if earlier this
   very run's claimed job attested as a principal of its tenant, and after that the
   gateway let it through.
  */
  lemma {:induction false} NoStartWithoutAttestation(cfg: Config, tr: seq<State>, acts: seq<Action>, i: nat, run: nat) returns (j: nat, k: nat)
    requires IsRun(cfg, tr, acts) && tr[0] == EMPTY && i < |tr| && run in tr[i].runs && HandlerRan(tr[i].runs[run].phase)
    requires NeedsAttestation(cfg, tr[i].runs[run].phase.row.value)
    ensures j < k < i
    ensures AttestsAt(cfg, tr[j], acts[j], run, tr[i].runs[run].phase.row)
    ensures LetThroughAt(tr[k], acts[k], run, tr[i].runs[run].phase.row)
  {
    hide Inv, Step, Enabled, AttestsAt, NeedsAttestation;
    EmptyIsOk();
    RunKeepsInv(cfg, tr, acts, i - 1);
    BeforeStarted(cfg, tr[i - 1], acts[i - 1], run);
    if HandlerRan(tr[i - 1].runs[run].phase) && tr[i - 1].runs[run].phase.row == tr[i].runs[run].phase.row {
      j, k := NoStartWithoutAttestation(cfg, tr, acts, i - 1, run);
    } else {
      k := i - 1;
      j := AttestedBefore(cfg, tr, acts, i - 1, run);
    }
  }

  /** No handler runs that is not registered, authority or not. */
  ghost predicate HandlersKnown(cfg: Config, s: State) {
    forall n :: n in s.runs && (s.runs[n].phase.Attested? || HandlerRan(s.runs[n].phase)) ==> s.runs[n].phase.row.value.typ in cfg.handlers
  }

  lemma StepKeepsHandlers(cfg: Config, s: State, a: Action)
    requires HandlersKnown(cfg, s) && Enabled(s, a)
    ensures HandlersKnown(cfg, Step(cfg, s, a))
  {
    hide Noted, SettledJob, ResetJob, IsSystemType;
  }

  lemma {:induction false} OnlyRegisteredHandlersRun(cfg: Config, tr: seq<State>, acts: seq<Action>, i: nat)
    requires IsRun(cfg, tr, acts) && tr[0] == EMPTY && i < |tr|
    ensures HandlersKnown(cfg, tr[i])
  {
    hide HandlersKnown, Step, Enabled;
    if i == 0 {
      assert HandlersKnown(cfg, EMPTY) by { EmptyHasNoHandlers(cfg); }
    } else {
      OnlyRegisteredHandlersRun(cfg, tr, acts, i - 1);
      StepKeepsHandlers(cfg, tr[i - 1], acts[i - 1]);
    }
  }

  lemma EmptyHasNoHandlers(cfg: Config)
    ensures HandlersKnown(cfg, EMPTY)
  {}

  // ---------------------------------------------------------------------------
  // A claim is for a full lease
  // ---------------------------------------------------------------------------

  /** The run is about to claim until `lease`, or has claimed until then. */
  predicate LeasedUntil(p: Phase, lease: nat) {
    (p.ToClaim? && p.lease == lease) || (Holding(p) && p.row.value.leaseExpiresAt == Some(lease))
  }

  lemma BeforeLease(cfg: Config, s: State, a: Action, run: nat, lease: nat)
    requires Inv(s) && Enabled(s, a) && run in Step(cfg, s, a).runs && LeasedUntil(Step(cfg, s, a).runs[run].phase, lease)
    ensures run in s.runs && (LeasedUntil(s.runs[run].phase, lease) || ((s.runs[run].phase.Entered? || s.runs[run].phase.Abandoned?) && lease == s.clock + cfg.leaseMs))
  {
    hide RunOk, ClaimsDistinct, NoLeaseOwner, Noted, SettledJob, ResetJob;
  }

  /** The lease of every claim runs for its full length from an instant at which the run had entered and not yet claimed. */
  lemma {:induction false} ClaimsAreForAFullLease(cfg: Config, tr: seq<State>, acts: seq<Action>, i: nat, run: nat, lease: nat) returns (j: nat)
    requires IsRun(cfg, tr, acts) && tr[0] == EMPTY && i < |tr| && run in tr[i].runs && LeasedUntil(tr[i].runs[run].phase, lease)
    ensures j < i && run in tr[j].runs && (tr[j].runs[run].phase.Entered? || tr[j].runs[run].phase.Abandoned?)
    ensures lease == tr[j].clock + cfg.leaseMs
  {
    hide Inv, Step, Enabled, LeasedUntil;
    EmptyIsOk();
    if i == 0 {
      assert false;
    }
    RunKeepsInv(cfg, tr, acts, i - 1);
    BeforeLease(cfg, tr[i - 1], acts[i - 1], run, lease);
    if LeasedUntil(tr[i - 1].runs[run].phase, lease) {
      j := ClaimsAreForAFullLease(cfg, tr, acts, i - 1, run, lease);
    } else {
      j := i - 1;
    }
  }

  // ---------------------------------------------------------------------------
  // What each write means for the job
  // ---------------------------------------------------------------------------

  /** Only the status, the attempts and the time of the next one may move. */
  predicate SameBut(j: Job, j': Job) {
    j' == j.(status := j'.status, attemptCount := j'.attemptCount, nextAttemptAt := j'.nextAttemptAt)
  }

  /** What an outcome makes of a job, read off the stored record. */
  ghost predicate SettlesAs(j: Job, outcome: Outcome, at: nat, j': Job) {
    && SameBut(j, j')
    && (j'.status.Completed? <==> outcome.Succeeded?)
    // Only a failed attempt counts.
    && j'.attemptCount == j.attemptCount + (if outcome.Threw? then 1 else 0)
    // Denied, without a handler, or out of attempts, it is over; otherwise it is retried.
    && (j'.status.Failed? <==> outcome.Refused? || outcome.NoHandler? || (outcome.Threw? && j'.attemptCount >= j.maxAttempts))
    && (j'.status.Retrying? <==> outcome.Unavailable? || (outcome.Threw? && j'.attemptCount < j.maxAttempts))
    // It is due again exactly when the wait is over, which doubles with each counted attempt.
    && (j'.status.Retrying? ==> forall t: nat :: Due(j', t) <==> t >= at + (if outcome.Threw? then 1000 * Pow2(j.attemptCount) else 1000))
    && (Terminal(j') ==> j'.nextAttemptAt == j.nextAttemptAt && forall t: nat :: !Due(j', t))
  }

  lemma SettledJobSettles(j: Job, outcome: Outcome, at: nat)
    ensures SettlesAs(j, outcome, at, SettledJob(j, outcome, at))
  {
    hide Pow2;
  }

  /** An abandoned attempt counts; at the last one the job fails, else it still runs under its old lease. */
  predicate CountsAbandoned(j: Job, j': Job) {
    SameBut(j, j') && j'.attemptCount == j.attemptCount + 1 && j'.nextAttemptAt == j.nextAttemptAt
    && j'.status == if j.attemptCount + 1 >= j.maxAttempts then Status.Failed else j.status
  }

  /** A manual retry makes the job due from its run time on, with all its attempts before it. */
  ghost predicate StartsOver(j: Job, j': Job) {
    SameBut(j, j') && j'.attemptCount == 0 && !Terminal(j') && !j'.status.Running? && forall t: nat :: Due(j', t) <==> t >= j.runAt
  }

  /**
   A step of a run writes its own job or nothing; it writes exactly when the record
   is still the one it read, and the record then shows what the phase stands for.
  */
  lemma WritesMean(cfg: Config, s: State, run: nat, input: Input)
    requires Inv(s) && run in s.runs
    ensures var r, jobs := s.runs[run], Step(cfg, s, Go(run, input)).jobs; var id := r.jobId;
            var writes := r.phase.Abandoned? || r.phase.ToClaim? || r.phase.Ended? || r.phase.ToReset?;
            if !(writes && id in s.jobs && s.jobs[id].version == r.phase.row.version) then jobs == s.jobs
            else
              && s.jobs[id] == r.phase.row && id in jobs && jobs == s.jobs[id := jobs[id]] && jobs[id].version == s.jobs[id].version + 1
              && var j, j' := s.jobs[id].value, jobs[id].value;
                 && (r.phase.Abandoned? ==> CountsAbandoned(j, j'))
                 && (r.phase.ToClaim? ==> j' == j.(status := Running, leaseExpiresAt := Some(r.phase.lease)))
                 && (r.phase.Ended? ==> SettlesAs(j, r.phase.outcome, r.phase.at, j'))
                 && (r.phase.ToReset? ==> StartsOver(j, j'))
  {
    hide SettledJob, SettlesAs, Noted, Pow2, ClaimsDistinct, NoLeaseOwner;
    var r := s.runs[run];
    assert RunOk(s.jobs, s.clock, r);
    if r.phase.Ended? {
      SettledJobSettles(r.phase.row.value, r.phase.outcome, r.phase.at);
    }
  }

  // ---------------------------------------------------------------------------
  // The auxiliary notes say what happened
  // ---------------------------------------------------------------------------

  /** A step is noted as a claim, a start, an excuse or a reset exactly when it is one. */
  lemma NotesAreTrue(cfg: Config, s: State, run: nat, input: Input)
    requires Inv(s) && run in s.runs
    ensures var note, p, s' := EffectOf(cfg, s, run, input).note, s.runs[run].phase, Step(cfg, s, Go(run, input));
            var stays := run in s'.runs;
            && (note.NoteClaim? <==> stays && s'.runs[run].phase.Claimed?)
            && (note.NoteStart? <==> stays && s'.runs[run].phase.Started?)
            && (note.NoteExcuse? <==> stays && s'.runs[run].phase.Ended? && s'.runs[run].phase.outcome.Unavailable?)
            && (note.NoteReset? <==> p.ToReset? && s'.jobs != s.jobs)
  {
    hide RunOk, ClaimsDistinct, NoLeaseOwner, Noted, SettledJob;
  }
}

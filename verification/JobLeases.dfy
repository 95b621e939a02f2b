/** Fencing and lease exclusion over every run of the job workers. */
module JobLeases {
  import opened Common
  import opened FeltDb
  import opened Jobs

  // ---------------------------------------------------------------------------
  // Fencing: every run, manual resets included
  // ---------------------------------------------------------------------------

  /** The run has claimed the job and not yet settled it. */
  predicate Holding(p: Phase) {
    p.Claimed? || p.Attested? || p.Started? || p.Ended?
  }

  ghost predicate RunOk(jobs: Jobs, now: nat, r: Run) {
    && (!r.phase.Entered? ==> Pinned(jobs, r.jobId, r.phase.row))
    && (r.phase.ToReset? ==> r.kind.Reset?)
    && (r.phase.Abandoned? ==> LeaseExpired(r.phase.row.value, now))
    && (r.phase.ToClaim? && r.phase.row.value.status.Running? ==> LeaseExpired(r.phase.row.value, now))
    && (Holding(r.phase) ==> r.phase.row.value.status.Running? && r.phase.row.value.leaseExpiresAt.Some?)
  }

  ghost predicate NoLeaseOwner(jobs: Jobs) {
    forall id :: id in jobs ==> jobs[id].value.leaseOwner.None?
  }

  /** No two unsettled claims of a job carry the same version. */
  ghost predicate ClaimsDistinct(s: State) {
    forall a, b :: a in s.runs && b in s.runs && a != b && s.runs[a].jobId == s.runs[b].jobId
                   && Holding(s.runs[a].phase) && Holding(s.runs[b].phase)
      ==> s.runs[a].phase.row.version != s.runs[b].phase.row.version
  }

  ghost predicate Inv(s: State) {
    && NoLeaseOwner(s.jobs)
    && ClaimsDistinct(s)
    && (forall n :: n in s.runs ==> n < s.nextRun && RunOk(s.jobs, s.clock, s.runs[n]))
  }

  /** What one step of a run may write and where it may go. */
  ghost predicate EffectOk(jobs: Jobs, now: nat, r: Run, e: Effect) {
    && (e.write.Some? ==> r.jobId in jobs && e.write.value.leaseOwner == jobs[r.jobId].value.leaseOwner)
    && (e.next.Some? ==>
          && RunOk(Written(jobs, r.jobId, e.write), now, r.(phase := e.next.value))
          && (Holding(e.next.value) ==>
                || (Holding(r.phase) && e.write.None? && e.next.value.row == r.phase.row)
                || (r.phase.ToClaim? && e.write.Some? && e.next.value.row == Row(e.write.value, jobs[r.jobId].version + 1))))
  }

  lemma DoOk(cfg: Config, jobs: Jobs, now: nat, r: Run, input: Input)
    requires RunOk(jobs, now, r) && NoLeaseOwner(jobs)
    ensures EffectOk(jobs, now, r, Do(cfg, jobs, now, r, input))
  {
    hide Backoff;
    match r.phase
    case Entered => {}
    case Abandoned(_) => {}
    case ToClaim(_, _) => {}
    case Claimed(_) => {}
    case Attested(_) => {}
    case Started(_) => {}
    case Ended(_, _, _) => {}
    case ToReset(_) => {}
  }

  lemma WrittenEvolves(jobs: Jobs, id: string, write: Option<Job>)
    ensures Evolves(jobs, Written(jobs, id, write))
  {}

  lemma RunStays(a: Jobs, b: Jobs, now: nat, later: nat, r: Run)
    requires RunOk(a, now, r) && Evolves(a, b) && now <= later
    ensures RunOk(b, later, r)
  {}

  lemma StepKeepsInv(cfg: Config, s: State, a: Action)
    requires Inv(s) && Enabled(s, a)
    ensures Inv(Step(cfg, s, a)) && Evolves(s.jobs, Step(cfg, s, a).jobs)
  {
    hide Do, RunOk, Noted;
    var s' := Step(cfg, s, a);
    if a.Go? {
      var r := s.runs[a.run];
      var e := EffectOf(cfg, s, a.run, a.input);
      DoOk(cfg, s.jobs, s.clock, r, a.input);
      WrittenEvolves(s.jobs, r.jobId, e.write);
      StepKeepsClaims(cfg, s, a);
      if e.next.Some? {
        EpochDoesNotMatter(s'.jobs, s'.clock, r.(phase := e.next.value), s'.runs[a.run]);
      }
    }
    if a.Enter? {
      FreshRunOk(s.jobs, s.clock, s'.runs[s.nextRun]);
    }
    forall n | n in s'.runs ensures n < s'.nextRun && RunOk(s'.jobs, s'.clock, s'.runs[n]) {
      if n in s.runs && s.runs[n] == s'.runs[n] {
        RunStays(s.jobs, s'.jobs, s.clock, s'.clock, s.runs[n]);
      }
    }
  }

  lemma EpochDoesNotMatter(jobs: Jobs, now: nat, r: Run, moved: Run)
    requires RunOk(jobs, now, r) && moved == r.(epoch := moved.epoch)
    ensures RunOk(jobs, now, moved)
  {}

  lemma FreshRunOk(jobs: Jobs, now: nat, r: Run)
    requires r.phase.Entered?
    ensures RunOk(jobs, now, r)
  {}

  lemma StepKeepsClaims(cfg: Config, s: State, a: Action)
    requires Inv(s) && Enabled(s, a) && a.Go?
    ensures ClaimsDistinct(Step(cfg, s, a))
  {
    hide Do, Noted;
    var s' := Step(cfg, s, a);
    DoOk(cfg, s.jobs, s.clock, s.runs[a.run], a.input);
    forall x, y | x in s'.runs && y in s'.runs && x != y && s'.runs[x].jobId == s'.runs[y].jobId
                  && Holding(s'.runs[x].phase) && Holding(s'.runs[y].phase)
      ensures s'.runs[x].phase.row.version != s'.runs[y].phase.row.version
    {
      assert RunOk(s.jobs, s.clock, s.runs[x]) && RunOk(s.jobs, s.clock, s.runs[y]);
    }
  }

  lemma {:induction false} RunKeepsInv(cfg: Config, tr: seq<State>, acts: seq<Action>, i: nat)
    requires IsRun(cfg, tr, acts) && Inv(tr[0]) && i < |tr|
    ensures Inv(tr[i])
  {
    hide Inv, Enabled, Step;
    if i > 0 {
      RunKeepsInv(cfg, tr, acts, i - 1);
      StepKeepsInv(cfg, tr[i - 1], acts[i - 1]);
    }
  }

  /** At most one unsettled run holds a job's current version, and no other run's settle changes the record. */
  lemma Fencing(cfg: Config, tr: seq<State>, acts: seq<Action>, i: nat, a: nat, b: nat, input: Input)
    requires IsRun(cfg, tr, acts) && Inv(tr[0]) && i < |tr|
    requires a in tr[i].runs && b in tr[i].runs && a != b
    requires var x, y := tr[i].runs[a], tr[i].runs[b]; x.jobId == y.jobId && Holding(x.phase) && Holding(y.phase)
    requires var x := tr[i].runs[a]; CasWins(tr[i].jobs, x.jobId, x.phase.row.version)
    ensures !CasWins(tr[i].jobs, tr[i].runs[b].jobId, tr[i].runs[b].phase.row.version)
    ensures Step(cfg, tr[i], Go(b, input)).jobs == tr[i].jobs
  {
    hide IsRun, RunOk, SettledJob;
    RunKeepsInv(cfg, tr, acts, i);
  }

  /** No claim ever names its worker, so while a lease is running the job is refused to every worker, its own included. */
  lemma RunningJobIsRefused(cfg: Config, tr: seq<State>, acts: seq<Action>, i: nat, r: Run)
    requires IsRun(cfg, tr, acts) && Inv(tr[0]) && i < |tr|
    requires r.kind.Execute? && r.jobId in tr[i].jobs
    requires tr[i].jobs[r.jobId].value.status.Running? && !LeaseExpired(tr[i].jobs[r.jobId].value, tr[i].clock)
    ensures DoRead(cfg, tr[i].jobs, tr[i].clock, r) == RETURNED
  {
    hide IsRun, RunOk, ClaimsDistinct;
    RunKeepsInv(cfg, tr, acts, i);
  }

  // ---------------------------------------------------------------------------
  // Lease exclusion: runs without a manual reset
  // ---------------------------------------------------------------------------

  /** An unsettled claim holds the record's current version, or its lease ran out. */
  ghost predicate HeldOrExpired(jobs: Jobs, now: nat, r: Run) {
    Holding(r.phase) ==> r.jobId in jobs && (jobs[r.jobId].version == r.phase.row.version || LeaseExpired(r.phase.row.value, now))
  }

  ghost predicate LeaseInv(s: State) {
    forall n :: n in s.runs ==> !s.runs[n].kind.Reset? && HeldOrExpired(s.jobs, s.clock, s.runs[n])
  }

  ghost predicate NoResets(acts: seq<Action>) {
    forall a :: a in acts && a.Enter? ==> !a.kind.Reset?
  }

  /** A record held under an unexpired lease is written by its holder only. */
  lemma OnlyHolderWrites(cfg: Config, s: State, run: nat, other: nat, input: Input)
    requires Inv(s) && LeaseInv(s) && run in s.runs && other in s.runs && run != other
    requires s.runs[run].jobId == s.runs[other].jobId
    requires EffectOf(cfg, s, run, input).write.Some?
    requires Holding(s.runs[other].phase) && s.jobs[s.runs[other].jobId].version == s.runs[other].phase.row.version
    ensures LeaseExpired(s.runs[other].phase.row.value, s.clock)
  {
    hide SettledJob, ResetJob, Backoff;
    assert RunOk(s.jobs, s.clock, s.runs[run]) && RunOk(s.jobs, s.clock, s.runs[other]);
    assert s.runs[run].phase.row.version == s.jobs[s.runs[run].jobId].version;
  }

  lemma StepKeepsLeases(cfg: Config, s: State, a: Action)
    requires Inv(s) && Enabled(s, a) && LeaseInv(s) && (a.Enter? ==> !a.kind.Reset?)
    ensures LeaseInv(Step(cfg, s, a))
  {
    hide Do, Noted, RunOk, ClaimsDistinct;
    var s' := Step(cfg, s, a);
    if a.Go? {
      DoOk(cfg, s.jobs, s.clock, s.runs[a.run], a.input);
    }
    forall n | n in s'.runs ensures !s'.runs[n].kind.Reset? && HeldOrExpired(s'.jobs, s'.clock, s'.runs[n]) {
      if n in s.runs {
        assert HeldOrExpired(s.jobs, s.clock, s.runs[n]);
      }
      if a.Go? && n != a.run && Holding(s.runs[n].phase) && s.runs[n].jobId == s.runs[a.run].jobId
         && EffectOf(cfg, s, a.run, a.input).write.Some? && s.jobs[s.runs[n].jobId].version == s.runs[n].phase.row.version {
        OnlyHolderWrites(cfg, s, a.run, n, a.input);
      }
    }
  }

  lemma {:induction false} RunKeepsLeases(cfg: Config, tr: seq<State>, acts: seq<Action>, i: nat)
    requires IsRun(cfg, tr, acts) && Inv(tr[0]) && LeaseInv(tr[0]) && NoResets(acts) && i < |tr|
    ensures Inv(tr[i]) && LeaseInv(tr[i])
  {
    hide Inv, LeaseInv, Enabled, Step;
    RunKeepsInv(cfg, tr, acts, i);
    if i > 0 {
      RunKeepsLeases(cfg, tr, acts, i - 1);
      StepKeepsLeases(cfg, tr[i - 1], acts[i - 1]);
    }
  }

  /** Of two unsettled runs of a job, the one that lost the record has let its lease run out. */
  lemma LeaseExclusion(cfg: Config, tr: seq<State>, acts: seq<Action>, i: nat, a: nat, b: nat)
    requires IsRun(cfg, tr, acts) && Inv(tr[0]) && LeaseInv(tr[0]) && NoResets(acts) && i < |tr|
    requires a in tr[i].runs && b in tr[i].runs && a != b
    requires var x, y := tr[i].runs[a], tr[i].runs[b]; x.jobId == y.jobId && Holding(x.phase) && Holding(y.phase)
    ensures LeaseExpired(tr[i].runs[a].phase.row.value, tr[i].clock) || LeaseExpired(tr[i].runs[b].phase.row.value, tr[i].clock)
  {
    hide IsRun, RunOk;
    RunKeepsLeases(cfg, tr, acts, i);
    assert HeldOrExpired(tr[i].jobs, tr[i].clock, tr[i].runs[a]);
    assert HeldOrExpired(tr[i].jobs, tr[i].clock, tr[i].runs[b]);
  }

  predicate StartsNow(cfg: Config, s: State, run: nat, input: Input)
    requires run in s.runs
  {
    EffectOf(cfg, s, run, input).note.NoteStart?
  }

  /**
   A handler that starts within its own lease never starts beside an earlier
   unsettled start whose lease is still running.
  */
  lemma NoOverlappingStart(cfg: Config, tr: seq<State>, acts: seq<Action>, i: nat, run: nat, input: Input, earlier: nat)
    requires IsRun(cfg, tr, acts) && Inv(tr[0]) && LeaseInv(tr[0]) && NoResets(acts) && i < |tr|
    requires run in tr[i].runs && StartsNow(cfg, tr[i], run, input)
    requires !LeaseExpired(tr[i].runs[run].phase.row.value, tr[i].clock)
    requires earlier in tr[i].runs && earlier != run && tr[i].runs[earlier].jobId == tr[i].runs[run].jobId
    requires tr[i].runs[earlier].phase.Started? || tr[i].runs[earlier].phase.Ended?
    ensures LeaseExpired(tr[i].runs[earlier].phase.row.value, tr[i].clock)
  {
    hide IsRun, Inv, LeaseInv, SettledJob;
    LeaseExclusion(cfg, tr, acts, i, run, earlier);
  }

}

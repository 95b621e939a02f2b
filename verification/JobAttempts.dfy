/**
 How often a job runs: as long as `executeJob` reads no job that is settled for
 good, the attempts of a job bound the claims, handler starts and failure backoffs
 of every epoch between two resets, whatever crashes and whatever the interleaving.
*/
module JobAttempts {
  import opened Common
  import opened FeltDb
  import opened Jobs
  import opened JobLeases

  // ---------------------------------------------------------------------------
  // Assumptions on a run
  // ---------------------------------------------------------------------------

  /** `executeJob` does not read a job that is settled for good, and every job is created with at least one attempt. */
  ghost predicate Proper(s: State, a: Action) {
    && (a.Go? && a.run in s.runs && s.runs[a.run].phase.Entered? && s.runs[a.run].kind.Execute? && s.runs[a.run].jobId in s.jobs ==>
          !Terminal(s.jobs[s.runs[a.run].jobId].value))
    && (a.Enqueue? ==> a.job.maxAttempts >= 1)
  }

  ghost predicate IsProper(tr: seq<State>, acts: seq<Action>)
    requires |tr| == |acts| + 1
  {
    forall i :: 0 <= i < |acts| ==> Proper(tr[i], acts[i])
  }

  // ---------------------------------------------------------------------------
  // The account of one job
  // ---------------------------------------------------------------------------

  /** Claims of an epoch that count against the job. */
  ghost function Charged(l: Ledger): nat {
    |l.claimed - l.excused|
  }

  ghost predicate CanGoOn(j: Job) {
    !Terminal(j) && j.attemptCount < j.maxAttempts
  }

  /** The most claims a record admits. */
  function Spent(j: Job): nat {
    if Terminal(j) then j.maxAttempts else if j.status.Running? then j.attemptCount + 1 else j.attemptCount
  }

  /** The sum of all backoffs before attempt `n`. */
  function BackoffSum(n: nat): nat {
    INITIAL_RETRY_DELAY_MS * (Pow2(n) - 1)
  }

  /** The open account agrees with the record. */
  ghost predicate JobOk(j: Job, l: Ledger) {
    && j.maxAttempts >= 1
    && (Terminal(j) || j.attemptCount < j.maxAttempts)
    && Charged(l) <= Spent(j)
    && l.started <= l.claimed
    && l.backoff <= BackoffSum(Min(j.attemptCount, j.maxAttempts - 1))
  }

  /** What stays true of every account, closed ones included. */
  ghost predicate AccountOk(maxAttempts: nat, l: Ledger) {
    && maxAttempts >= 1
    && Charged(l) <= maxAttempts
    && l.started <= l.claimed
    && l.backoff <= BackoffSum(maxAttempts - 1)
  }

  ghost predicate AccountsOk(maxAttempts: nat, b: Book) {
    forall e :: 0 <= e < |b| ==> AccountOk(maxAttempts, b[e])
  }

  function Open(b: Book): Ledger
    requires b != []
  {
    b[|b| - 1]
  }

  ghost predicate BookOk(j: Job, b: Book) {
    b != [] && JobOk(j, Open(b)) && AccountsOk(j.maxAttempts, b)
  }

  /** The run's outcome does not count against the job. */
  predicate Pardoned(p: Phase) {
    p.Ended? && p.outcome.Unavailable?
  }

  ghost predicate NotExcused(b: Book, n: nat) {
    forall e :: 0 <= e < |b| ==> n !in b[e].excused
  }

  /** Where the run stands in the job's book, and what it knows of the open account if it still holds the record. */
  ghost predicate RunAccount(row: Row<Job>, b: Book, n: nat, epoch: nat, p: Phase) {
    && b != []
    && (!Pardoned(p) ==> NotExcused(b, n))
    && (Holding(p) ==> epoch < |b| && n in b[epoch].claimed && (row.version == p.row.version ==> epoch == |b| - 1))
    && (!p.Entered? && !p.ToReset? ==>
          && CanGoOn(p.row.value)
          && (row.version == p.row.version && (Pardoned(p) || p.ToClaim?) ==> Charged(Open(b)) <= p.row.value.attemptCount))
  }

  lemma {:induction false} SubsetSize<T>(a: set<T>, b: set<T>)
    requires a <= b
    ensures |a| <= |b|
  {
    if a != {} {
      var x :| x in a;
      SubsetSize(a - {x}, b - {x});
    }
  }

  lemma ChargeOne(l: Ledger, run: nat)
    ensures Charged(l.(claimed := l.claimed + {run})) <= Charged(l) + 1
  {
    var a, b := (l.claimed + {run}) - l.excused, l.claimed - l.excused;
    assert a <= b + {run};
    SubsetSize(a, b + {run});
  }

  lemma ExcuseOne(l: Ledger, run: nat)
    ensures Charged(l.(excused := l.excused + {run})) <= Charged(l)
    ensures run in l.claimed && run !in l.excused ==> Charged(l.(excused := l.excused + {run})) == Charged(l) - 1
  {
    assert l.claimed - (l.excused + {run}) == (l.claimed - l.excused) - {run};
  }

  lemma {:induction false} Pow2Monotone(a: nat, b: nat)
    requires a <= b
    ensures Pow2(a) <= Pow2(b)
    decreases b
  {
    if a < b {
      Pow2Monotone(a, b - 1);
    }
  }

  lemma BackoffSumMonotone(a: nat, b: nat)
    requires a <= b
    ensures BackoffSum(a) <= BackoffSum(b)
  {
    Pow2Monotone(a, b);
  }

  /** Waiting after a failed attempt moves the sum on by exactly that wait. */
  lemma BackoffAdds(j: Job)
    ensures BackoffSum(j.attemptCount) + Backoff(j) == BackoffSum(j.attemptCount + 1)
  {}

  // ---------------------------------------------------------------------------
  // One step of one run
  // ---------------------------------------------------------------------------

  /** The book only grows: claims stay, and nobody but the actor is excused. */
  ghost predicate Grows(b: Book, b': Book, n: nat) {
    && |b| <= |b'|
    && (forall e :: 0 <= e < |b| ==> b[e].claimed <= b'[e].claimed && b[e].started <= b'[e].started && b'[e].excused <= b[e].excused + {n})
    && (forall e :: |b| <= e < |b'| ==> b'[e] == NEW_LEDGER)
  }

  /** The step leaves the book in order, whatever it wrote and wherever the run goes on. */
  ghost predicate Balanced(row: Row<Job>, b: Book, n: nat, epoch: nat, e: Effect)
    requires b != []
  {
    var row' := if e.write.Some? then Row(e.write.value, row.version + 1) else row;
    var b' := Noted(b, n, epoch, e.note);
    && BookOk(row'.value, b') && Grows(b, b', n)
    && (e.next.Some? ==> RunAccount(row', b', n, if e.note.NoteClaim? then |b| - 1 else epoch, e.next.value))
    && (e.write.None? ==> |b'| == |b| && Charged(Open(b')) <= Charged(Open(b)))
  }

  lemma NotedGrows(b: Book, n: nat, epoch: nat, note: Note)
    requires b != []
    ensures Grows(b, Noted(b, n, epoch, note), n)
  {}

  /** Rewriting one account leaves the others as they were. */
  lemma OneAccount(j: Job, b: Book, at: nat, l: Ledger)
    requires at < |b| && AccountsOk(j.maxAttempts, b) && AccountOk(j.maxAttempts, l)
    ensures AccountsOk(j.maxAttempts, b[at := l])
  {
    hide AccountOk;
  }

  /** An account that agrees with its record is within the bounds for good. */
  lemma OpenIsOk(j: Job, l: Ledger)
    requires JobOk(j, l)
    ensures AccountOk(j.maxAttempts, l)
  {
    hide BackoffSum, Charged;
    BackoffSumMonotone(Min(j.attemptCount, j.maxAttempts - 1), j.maxAttempts - 1);
  }

  lemma ReadBalanced(cfg: Config, jobs: Jobs, now: nat, b: Book, n: nat, r: Run)
    requires r.phase.Entered? && r.jobId in jobs && NoLeaseOwner(jobs)
    requires r.kind.Execute? ==> !Terminal(jobs[r.jobId].value)
    requires BookOk(jobs[r.jobId].value, b) && RunAccount(jobs[r.jobId], b, n, r.epoch, r.phase)
    ensures Balanced(jobs[r.jobId], b, n, r.epoch, DoRead(cfg, jobs, now, r))
  {
    hide Charged, BackoffSum, AccountsOk, NotExcused;
    NothingNoted(b, n, r.epoch);
  }

  lemma NothingNoted(b: Book, n: nat, epoch: nat)
    requires b != []
    ensures Noted(b, n, epoch, Nothing) == b && Grows(b, b, n)
  {}

  lemma CountBalanced(cfg: Config, jobs: Jobs, now: nat, b: Book, n: nat, r: Run)
    requires r.phase.Abandoned? && RunOk(jobs, now, r)
    requires BookOk(jobs[r.jobId].value, b) && RunAccount(jobs[r.jobId], b, n, r.epoch, r.phase)
    ensures Balanced(jobs[r.jobId], b, n, r.epoch, DoCount(cfg, jobs, now, r))
  {
    hide Charged, BackoffSum, AccountsOk, NotExcused;
    NothingNoted(b, n, r.epoch);
    var j := jobs[r.jobId].value;
    BackoffSumMonotone(Min(j.attemptCount, j.maxAttempts - 1), Min(j.attemptCount + 1, j.maxAttempts - 1));
  }

  lemma ClaimBalanced(jobs: Jobs, now: nat, b: Book, n: nat, r: Run)
    requires r.phase.ToClaim? && RunOk(jobs, now, r)
    requires BookOk(jobs[r.jobId].value, b) && RunAccount(jobs[r.jobId], b, n, r.epoch, r.phase)
    ensures Balanced(jobs[r.jobId], b, n, r.epoch, DoClaim(jobs, r))
  {
    hide Charged, BackoffSum, AccountsOk, AccountOk;
    NothingNoted(b, n, r.epoch);
    if CasWins(jobs, r.jobId, r.phase.row.version) {
      var l := NotedIn(Open(b), n, NoteClaim);
      var claimed := r.phase.row.value.(status := Running, leaseExpiresAt := Some(r.phase.lease));
      ChargeOne(Open(b), n);
      OpenIsOk(claimed, l);
      OneAccount(claimed, b, |b| - 1, l);
    }
  }

  /** Ending a run excuses it in its own epoch, open or closed. */
  lemma EndBalanced(jobs: Jobs, now: nat, b: Book, n: nat, r: Run, outcome: Outcome)
    requires Holding(r.phase) && !Pardoned(r.phase) && RunOk(jobs, now, r)
    requires BookOk(jobs[r.jobId].value, b) && RunAccount(jobs[r.jobId], b, n, r.epoch, r.phase)
    ensures Balanced(jobs[r.jobId], b, n, r.epoch, End(r.phase.row, outcome, now))
  {
    hide BackoffSum, AccountsOk;
    NothingNoted(b, n, r.epoch);
    if outcome.Unavailable? {
      ExcuseOne(b[r.epoch], n);
      assert AccountOk(jobs[r.jobId].value.maxAttempts, b[r.epoch]) by { AccountAt(jobs[r.jobId].value.maxAttempts, b, r.epoch); }
      OneAccount(jobs[r.jobId].value, b, r.epoch, NotedIn(b[r.epoch], n, NoteExcuse));
      NotedGrows(b, n, r.epoch, NoteExcuse);
    }
  }

  lemma AccountAt(maxAttempts: nat, b: Book, e: nat)
    requires AccountsOk(maxAttempts, b) && e < |b|
    ensures AccountOk(maxAttempts, b[e])
  {}

  /** A start counts in the epoch the run claimed in, however late it comes. */
  lemma StartBalanced(jobs: Jobs, now: nat, b: Book, n: nat, r: Run)
    requires (r.phase.Claimed? || r.phase.Attested?) && RunOk(jobs, now, r)
    requires BookOk(jobs[r.jobId].value, b) && RunAccount(jobs[r.jobId], b, n, r.epoch, r.phase)
    ensures Balanced(jobs[r.jobId], b, n, r.epoch, Effect(None, Some(Started(r.phase.row)), NoteStart))
  {
    hide BackoffSum, AccountsOk;
    assert AccountOk(jobs[r.jobId].value.maxAttempts, b[r.epoch]) by { AccountAt(jobs[r.jobId].value.maxAttempts, b, r.epoch); }
    OneAccount(jobs[r.jobId].value, b, r.epoch, NotedIn(b[r.epoch], n, NoteStart));
    NotedGrows(b, n, r.epoch, NoteStart);
  }

  lemma HandlerBalanced(cfg: Config, jobs: Jobs, now: nat, b: Book, n: nat, r: Run, input: Input)
    requires (r.phase.Claimed? || r.phase.Attested? || r.phase.Started?) && RunOk(jobs, now, r)
    requires BookOk(jobs[r.jobId].value, b) && RunAccount(jobs[r.jobId], b, n, r.epoch, r.phase)
    ensures Balanced(jobs[r.jobId], b, n, r.epoch, Do(cfg, jobs, now, r, input))
  {
    hide Charged, BackoffSum, Backoff, SettledJob, AccountsOk, NotExcused, Grows;
    var e := Do(cfg, jobs, now, r, input);
    NothingNoted(b, n, r.epoch);
    if e.next.value.Ended? {
      EndBalanced(jobs, now, b, n, r, e.next.value.outcome);
    } else if e.next.value.Started? {
      StartBalanced(jobs, now, b, n, r);
    }
  }

  lemma SettleBalanced(jobs: Jobs, now: nat, b: Book, n: nat, r: Run)
    requires r.phase.Ended? && RunOk(jobs, now, r)
    requires BookOk(jobs[r.jobId].value, b) && RunAccount(jobs[r.jobId], b, n, r.epoch, r.phase)
    ensures Balanced(jobs[r.jobId], b, n, r.epoch, DoSettle(jobs, r))
  {
    hide BackoffSum, Backoff, AccountsOk, AccountOk, NotExcused;
    NothingNoted(b, n, r.epoch);
    var e, j := DoSettle(jobs, r), jobs[r.jobId].value;
    BackoffSumMonotone(Min(j.attemptCount, j.maxAttempts - 1), Min(j.attemptCount + 1, j.maxAttempts - 1));
    BackoffAdds(j);
    if e.note.NoteBackoff? {
      var l := NotedIn(Open(b), n, e.note);
      OpenIsOk(e.write.value, l);
      OneAccount(e.write.value, b, |b| - 1, l);
      NotedGrows(b, n, r.epoch, e.note);
    }
  }

  lemma ResetBalanced(jobs: Jobs, now: nat, b: Book, n: nat, r: Run)
    requires r.phase.ToReset? && RunOk(jobs, now, r)
    requires BookOk(jobs[r.jobId].value, b) && RunAccount(jobs[r.jobId], b, n, r.epoch, r.phase)
    ensures Balanced(jobs[r.jobId], b, n, r.epoch, DoReset(jobs, r))
  {
    hide BackoffSum, AccountsOk, AccountOk;
    NothingNoted(b, n, r.epoch);
    NotedGrows(b, n, r.epoch, NoteReset);
    if CasWins(jobs, r.jobId, r.phase.row.version) {
      OneMoreAccount(jobs[r.jobId].value, b);
    }
  }

  lemma OneMoreAccount(j: Job, b: Book)
    requires AccountsOk(j.maxAttempts, b) && j.maxAttempts >= 1
    ensures AccountsOk(j.maxAttempts, b + [NEW_LEDGER]) && JobOk(ResetJob(j), NEW_LEDGER)
  {
    BackoffSumMonotone(0, j.maxAttempts - 1);
  }

  lemma DoBalanced(cfg: Config, jobs: Jobs, now: nat, b: Book, n: nat, r: Run, input: Input)
    requires r.jobId in jobs && NoLeaseOwner(jobs) && RunOk(jobs, now, r)
    requires r.phase.Entered? && r.kind.Execute? ==> !Terminal(jobs[r.jobId].value)
    requires BookOk(jobs[r.jobId].value, b) && RunAccount(jobs[r.jobId], b, n, r.epoch, r.phase)
    ensures Balanced(jobs[r.jobId], b, n, r.epoch, Do(cfg, jobs, now, r, input))
  {
    hide RunOk, JobOk, AccountsOk, RunAccount, Balanced, NoLeaseOwner;
    match r.phase
    case Entered => ReadBalanced(cfg, jobs, now, b, n, r);
    case Abandoned(_) => CountBalanced(cfg, jobs, now, b, n, r);
    case ToClaim(_, _) => ClaimBalanced(jobs, now, b, n, r);
    case Ended(_, _, _) => SettleBalanced(jobs, now, b, n, r);
    case ToReset(_) => ResetBalanced(jobs, now, b, n, r);
    case _ => HandlerBalanced(cfg, jobs, now, b, n, r, input);
  }

  // ---------------------------------------------------------------------------
  // All jobs and all runs
  // ---------------------------------------------------------------------------

  ghost predicate JobsOk(s: State) {
    forall id :: id in s.jobs ==> BookOk(s.jobs[id].value, BookOf(s, id))
  }

  ghost predicate RunsOk(s: State) {
    forall n :: n in s.runs ==>
      if s.runs[n].jobId in s.jobs
      then RunAccount(s.jobs[s.runs[n].jobId], BookOf(s, s.runs[n].jobId), n, s.runs[n].epoch, s.runs[n].phase)
      else s.runs[n].phase.Entered?
  }

  predicate Earlier(l: Ledger, nextRun: nat) {
    (forall n :: n in l.claimed ==> n < nextRun) && (forall n :: n in l.started ==> n < nextRun) && (forall n :: n in l.excused ==> n < nextRun)
  }

  /** Only runs that entered are in a book. */
  ghost predicate BooksOk(s: State) {
    forall id, e :: id in s.books && 0 <= e < |s.books[id]| ==> Earlier(s.books[id][e], s.nextRun)
  }

  ghost predicate AttemptInv(s: State) {
    JobsOk(s) && RunsOk(s) && BooksOk(s)
  }

  /** Another run's step never takes away what a run knows. */
  lemma OtherRunStays(row: Row<Job>, b: Book, n: nat, epoch: nat, p: Phase, actor: nat, at: nat, e: Effect)
    requires RunAccount(row, b, n, epoch, p) && n != actor && Balanced(row, b, actor, at, e)
    requires !p.Entered? ==> p.row.version <= row.version
    ensures RunAccount(if e.write.Some? then Row(e.write.value, row.version + 1) else row, Noted(b, actor, at, e.note), n, epoch, p)
  {
    hide BookOk, Charged, CanGoOn;
  }

  lemma BalancedGives(row: Row<Job>, b: Book, n: nat, epoch: nat, e: Effect)
    requires b != [] && Balanced(row, b, n, epoch, e)
    ensures BookOk(if e.write.Some? then e.write.value else row.value, Noted(b, n, epoch, e.note))
    ensures e.next.Some? ==>
              RunAccount(if e.write.Some? then Row(e.write.value, row.version + 1) else row, Noted(b, n, epoch, e.note), n,
                         if e.note.NoteClaim? then |b| - 1 else epoch, e.next.value)
  {}

  lemma StepKeepsBooks(cfg: Config, s: State, a: Action)
    requires Inv(s) && BooksOk(s) && Enabled(s, a)
    ensures BooksOk(Step(cfg, s, a))
  {
    hide Do, RunOk, ClaimsDistinct, NoLeaseOwner;
    var s' := Step(cfg, s, a);
    if a.Go? {
      var id := s.runs[a.run].jobId;
      forall e | 0 <= e < |s'.books[id]| ensures Earlier(s'.books[id][e], s'.nextRun) {
        assert e < |BookOf(s, id)| ==> Earlier(BookOf(s, id)[e], s.nextRun);
      }
    }
  }

  lemma GoKeepsAttempts(cfg: Config, s: State, a: Action)
    requires Inv(s) && AttemptInv(s) && Enabled(s, a) && Proper(s, a) && a.Go? && s.runs[a.run].jobId in s.jobs
    ensures AttemptInv(Step(cfg, s, a))
  {
    hide BookOk, RunAccount, Balanced, Do, Noted, ClaimsDistinct, Holding, LeaseExpired, Terminal, BooksOk;
    var r := s.runs[a.run];
    var b := BookOf(s, r.jobId);
    var e := EffectOf(cfg, s, a.run, a.input);
    var s' := Step(cfg, s, a);
    DoBalanced(cfg, s.jobs, s.clock, b, a.run, r, a.input);
    NotedIsNotEmpty(b, a.run, r.epoch, e.note);
    assert BookOf(s', r.jobId) == Noted(b, a.run, r.epoch, e.note);
    StepKeepsBooks(cfg, s, a);
    BalancedGives(s.jobs[r.jobId], b, a.run, r.epoch, e);
    forall n | n in s'.runs && s'.runs[n].jobId == r.jobId
      ensures RunAccount(s'.jobs[r.jobId], BookOf(s', r.jobId), n, s'.runs[n].epoch, s'.runs[n].phase)
    {
      if n != a.run {
        OtherRunStays(s.jobs[r.jobId], b, n, s.runs[n].epoch, s.runs[n].phase, a.run, r.epoch, e);
      }
    }
  }

  lemma NotedIsNotEmpty(b: Book, n: nat, epoch: nat, note: Note)
    requires b != []
    ensures Noted(b, n, epoch, note) != []
  {}

  lemma NoJobReturns(cfg: Config, s: State, run: nat, input: Input)
    requires run in s.runs && s.runs[run].jobId !in s.jobs && s.runs[run].phase.Entered?
    ensures EffectOf(cfg, s, run, input) == RETURNED
  {}

  lemma OthersKeepAttempts(cfg: Config, s: State, a: Action)
    requires Inv(s) && AttemptInv(s) && Enabled(s, a) && (a.Tick? || a.Crash? || (a.Go? && s.runs[a.run].jobId !in s.jobs))
    ensures AttemptInv(Step(cfg, s, a))
  {
    hide RunAccount, BookOk, Do, Noted, BooksOk, RunOk, ClaimsDistinct;
    StepKeepsBooks(cfg, s, a);
    if a.Go? {
      NoJobReturns(cfg, s, a.run, a.input);
    }
  }

  lemma OpenKeepsAttempts(cfg: Config, s: State, a: Action)
    requires Inv(s) && AttemptInv(s) && Enabled(s, a) && Proper(s, a) && (a.Enqueue? || a.Enter?)
    ensures AttemptInv(Step(cfg, s, a))
  {
    hide ClaimsDistinct, RunOk, BooksOk;
    var s' := Step(cfg, s, a);
    StepKeepsBooks(cfg, s, a);
    if a.Enqueue? {
      NewJobBookOk(a.job);
      forall n | n in s'.runs && s'.runs[n].jobId == a.id
        ensures RunAccount(s'.jobs[a.id], BookOf(s', a.id), n, s'.runs[n].epoch, s'.runs[n].phase)
      {}
    } else {
      NewRunAccount(s, a.jobId);
    }
  }

  lemma NewJobBookOk(j: Job)
    requires IsNewJob(j) && j.maxAttempts >= 1
    ensures BookOk(j, [NEW_LEDGER])
  {
    BackoffSumMonotone(0, j.maxAttempts - 1);
  }

  /** A run that just entered is in no book. */
  lemma NewRunAccount(s: State, id: string)
    requires BooksOk(s)
    ensures id in s.jobs ==> RunAccount(s.jobs[id], BookOf(s, id), s.nextRun, 0, Entered)
  {
    var b := BookOf(s, id);
    forall e | 0 <= e < |b| ensures s.nextRun !in b[e].excused {
      assert Earlier(b[e], s.nextRun);
    }
  }

  lemma StepKeepsAttempts(cfg: Config, s: State, a: Action)
    requires Inv(s) && AttemptInv(s) && Enabled(s, a) && Proper(s, a)
    ensures AttemptInv(Step(cfg, s, a))
  {
    hide AttemptInv, Inv, Step, Proper;
    if a.Enqueue? || a.Enter? {
      OpenKeepsAttempts(cfg, s, a);
    } else if a.Go? && s.runs[a.run].jobId in s.jobs {
      GoKeepsAttempts(cfg, s, a);
    } else {
      OthersKeepAttempts(cfg, s, a);
    }
  }

  lemma {:induction false} RunKeepsAttempts(cfg: Config, tr: seq<State>, acts: seq<Action>, i: nat)
    requires IsRun(cfg, tr, acts) && Inv(tr[0]) && AttemptInv(tr[0]) && IsProper(tr, acts) && i < |tr|
    ensures AttemptInv(tr[i])
  {
    hide Inv, AttemptInv, Enabled, Step, Proper;
    if i > 0 {
      RunKeepsAttempts(cfg, tr, acts, i - 1);
      RunKeepsInv(cfg, tr, acts, i - 1);
      StepKeepsAttempts(cfg, tr[i - 1], acts[i - 1]);
    }
  }

  lemma EmptyIsFine()
    ensures Inv(EMPTY) && AttemptInv(EMPTY) && LeaseInv(EMPTY)
  {}

  // ---------------------------------------------------------------------------
  // The bounds
  // ---------------------------------------------------------------------------

  /** A job that is not settled for good always has an attempt left. */
  lemma AttemptBound(cfg: Config, tr: seq<State>, acts: seq<Action>, i: nat, id: string)
    requires IsRun(cfg, tr, acts) && Inv(tr[0]) && AttemptInv(tr[0]) && IsProper(tr, acts) && i < |tr| && id in tr[i].jobs
    ensures var j := tr[i].jobs[id].value; !Terminal(j) ==> j.attemptCount < j.maxAttempts
  {
    hide IsRun, Inv, IsProper, RunsOk, BooksOk, Charged, AccountsOk;
    RunKeepsAttempts(cfg, tr, acts, i);
    assert BookOk(tr[i].jobs[id].value, BookOf(tr[i], id));
  }

  /** Every handler start is in the account of the epoch its run claimed in, from that step on. */
  lemma StartsAreCounted(cfg: Config, tr: seq<State>, acts: seq<Action>, i: nat, j: nat, run: nat, input: Input)
    requires IsRun(cfg, tr, acts) && Inv(tr[0]) && AttemptInv(tr[0]) && IsProper(tr, acts) && i < j < |tr|
    requires acts[i] == Go(run, input) && run in tr[i].runs && StartsNow(cfg, tr[i], run, input)
    ensures var r := tr[i].runs[run]; var b := BookOf(tr[j], r.jobId); r.epoch < |b| && run in b[r.epoch].started
    ensures tr[i].runs[run].jobId in tr[j].jobs
    decreases j
  {
    hide Inv, Enabled, IsProper, Proper, AttemptInv, Do, StartsNow;
    var id, epoch := tr[i].runs[run].jobId, tr[i].runs[run].epoch;
    RunKeepsAttempts(cfg, tr, acts, i);
    RunKeepsInv(cfg, tr, acts, i);
    if j == i + 1 {
      StartIsNoted(cfg, tr[i], run, input);
    } else {
      StartsAreCounted(cfg, tr, acts, i, j - 1, run, input);
      RunKeepsAttempts(cfg, tr, acts, j - 1);
      RunKeepsInv(cfg, tr, acts, j - 1);
      StartStays(cfg, tr[j - 1], acts[j - 1], id, epoch, run);
    }
  }

  lemma StartIsNoted(cfg: Config, s: State, run: nat, input: Input)
    requires Inv(s) && AttemptInv(s) && run in s.runs && StartsNow(cfg, s, run, input)
    ensures var r := s.runs[run]; var b := BookOf(Step(cfg, s, Go(run, input)), r.jobId); r.epoch < |b| && run in b[r.epoch].started
    ensures s.runs[run].jobId in Step(cfg, s, Go(run, input)).jobs
  {
    hide JobsOk, BooksOk, ClaimsDistinct, SettledJob;
    assert RunOk(s.jobs, s.clock, s.runs[run]);
  }

  lemma StartStays(cfg: Config, s: State, a: Action, id: string, epoch: nat, run: nat)
    requires Inv(s) && AttemptInv(s) && Enabled(s, a) && id in s.jobs
    requires epoch < |BookOf(s, id)| && run in BookOf(s, id)[epoch].started
    ensures var b := BookOf(Step(cfg, s, a), id); epoch < |b| && run in b[epoch].started
    ensures id in Step(cfg, s, a).jobs
  {
    hide Do, Inv, AttemptInv;
    if a.Go? && s.runs[a.run].jobId == id {
      NotedGrows(BookOf(s, id), a.run, s.runs[a.run].epoch, EffectOf(cfg, s, a.run, a.input).note);
    }
  }

  /**
   In every epoch between two resets, closed ones included, the handlers started by
   runs that claimed in it, less those excused because the authority was
   unavailable, number at most the job's attempts, crashes and abandonments included.
  */
  lemma StartsBound(cfg: Config, tr: seq<State>, acts: seq<Action>, i: nat, id: string, epoch: nat)
    requires IsRun(cfg, tr, acts) && Inv(tr[0]) && AttemptInv(tr[0]) && IsProper(tr, acts) && i < |tr| && id in tr[i].jobs
    requires epoch < |BookOf(tr[i], id)|
    ensures var l := BookOf(tr[i], id)[epoch]; |l.started - l.excused| <= tr[i].jobs[id].value.maxAttempts
  {
    hide IsRun, Inv, IsProper, RunsOk, BooksOk, BackoffSum, JobOk;
    RunKeepsAttempts(cfg, tr, acts, i);
    assert BookOk(tr[i].jobs[id].value, BookOf(tr[i], id));
    var l := BookOf(tr[i], id)[epoch];
    AccountAt(tr[i].jobs[id].value.maxAttempts, BookOf(tr[i], id), epoch);
    SubsetSize(l.started - l.excused, l.claimed - l.excused);
  }

  /** The failure backoffs of every epoch add up to at most 1000 * (2^(maxAttempts - 1) - 1) ms. */
  lemma BackoffBound(cfg: Config, tr: seq<State>, acts: seq<Action>, i: nat, id: string, epoch: nat)
    requires IsRun(cfg, tr, acts) && Inv(tr[0]) && AttemptInv(tr[0]) && IsProper(tr, acts) && i < |tr| && id in tr[i].jobs
    requires epoch < |BookOf(tr[i], id)|
    ensures tr[i].jobs[id].value.maxAttempts >= 1
    ensures BookOf(tr[i], id)[epoch].backoff <= INITIAL_RETRY_DELAY_MS * (Pow2(tr[i].jobs[id].value.maxAttempts - 1) - 1)
  {
    hide IsRun, Inv, IsProper, RunsOk, BooksOk, Charged, JobOk;
    RunKeepsAttempts(cfg, tr, acts, i);
    assert BookOk(tr[i].jobs[id].value, BookOf(tr[i], id));
    AccountAt(tr[i].jobs[id].value.maxAttempts, BookOf(tr[i], id), epoch);
  }
}

/**
 Background jobs: any number of workers read, possibly count an abandoned
 attempt, claim by version check with a lease, run, and settle by version check.
 A worker's `executeJob` is cut at its awaits; its local variables are its phase.
*/
module Jobs {
  import opened Common
  import opened FeltDb

  const INITIAL_RETRY_DELAY_MS := 1000

  datatype Status = Scheduled | Pending | Running | Retrying | Completed | Failed

  datatype Job = Job(
    tenant: string,
    typ: string,
    /** Tenant of the durable principal the job runs as, if it has one. */
    principal: Option<string>,
    status: Status,
    runAt: nat,
    nextAttemptAt: Option<nat>,
    attemptCount: nat,
    maxAttempts: nat,
    leaseOwner: Option<string>,
    leaseExpiresAt: Option<nat>)

  /** How a run ended. Unavailable: the authority could not be asked, or timed out. */
  datatype Outcome = Succeeded | Threw | Refused | Unavailable | NoHandler

  datatype Phase =
    | Entered
    | Abandoned(row: Row<Job>)
    | ToClaim(row: Row<Job>, lease: nat)
    | Claimed(row: Row<Job>)
    | Attested(row: Row<Job>)
    | Started(row: Row<Job>)
    | Ended(row: Row<Job>, outcome: Outcome, at: nat)
    | ToReset(row: Row<Job>)

  /** `executeJob` by a worker, or a manual `retry`. */
  datatype Kind = Execute(worker: string) | Reset

  /** `epoch` is auxiliary: the resets the job had seen when the run claimed it. */
  datatype Run = Run(kind: Kind, tenant: string, jobId: string, phase: Phase, epoch: nat)

  type Jobs = map<string, Row<Job>>

  /**
   Auxiliary account of the runs that claimed a job between two resets; nothing
   reads it: those runs, those of them whose handler started, however late, those
   excused because the authority was unavailable, and the failure backoffs granted.
  */
  datatype Ledger = Ledger(claimed: set<nat>, started: set<nat>, excused: set<nat>, backoff: nat)

  const NEW_LEDGER := Ledger({}, {}, {}, 0)

  /** One account per epoch; the last one is open. */
  type Book = seq<Ledger>

  datatype State = State(clock: nat, jobs: Jobs, runs: map<nat, Run>, nextRun: nat, books: map<string, Book>)

  datatype Config = Config(authority: bool, handlers: set<string>, leaseMs: nat)

  /** What the world answers: whether the record attests, whether the gateway lets the handler start, and how it ends. */
  datatype Input = Input(attests: bool, refusal: Option<Outcome>, outcome: Outcome)

  datatype Action =
    | Tick
    | Enqueue(id: string, job: Job)
    | Enter(kind: Kind, tenant: string, jobId: string)
    | Go(run: nat, input: Input)
    | Crash(run: nat)

  datatype Note = Nothing | NoteClaim | NoteStart | NoteExcuse | NoteBackoff(ms: nat) | NoteReset

  datatype Effect = Effect(write: Option<Job>, next: Option<Phase>, note: Note)

  const RETURNED := Effect(None, None, Nothing)

  // ---------------------------------------------------------------------------
  // The service's decisions
  // ---------------------------------------------------------------------------

  /** `listDue`: run time or retry time reached, or a lease that expired. */
  predicate Due(j: Job, now: nat) {
    || ((j.status.Pending? || j.status.Scheduled?) && j.runAt <= now)
    || (j.status.Retrying? && j.nextAttemptAt.Some? && j.nextAttemptAt.value <= now)
    || LeaseExpired(j, now)
  }

  /** A running job whose lease ran out: its attempt was abandoned. */
  predicate LeaseExpired(j: Job, now: nat) {
    j.status.Running? && j.leaseExpiresAt.Some? && j.leaseExpiresAt.value <= now
  }

  predicate Terminal(j: Job) {
    j.status.Completed? || j.status.Failed?
  }

  predicate IsSystemType(typ: string) {
    "appport." <= typ
  }

  /** What settling a run with an outcome writes over the claimed record. */
  function SettledJob(j: Job, outcome: Outcome, now: nat): Job {
    match outcome
    case Succeeded => j.(status := Completed)
    case Threw =>
      if j.attemptCount + 1 >= j.maxAttempts then j.(status := Failed, attemptCount := j.attemptCount + 1)
      else j.(status := Retrying, nextAttemptAt := Some(now + Backoff(j)), attemptCount := j.attemptCount + 1)
    case Unavailable => j.(status := Retrying, nextAttemptAt := Some(now + INITIAL_RETRY_DELAY_MS))
    case Refused => j.(status := Failed)
    case NoHandler => j.(status := Failed)
  }

  function Backoff(j: Job): nat {
    INITIAL_RETRY_DELAY_MS * Pow2(j.attemptCount)
  }

  function ResetJob(j: Job): Job {
    j.(status := Pending, attemptCount := 0, nextAttemptAt := None)
  }

  // ---------------------------------------------------------------------------
  // The steps of one run, from await to await
  // ---------------------------------------------------------------------------

  /** Read the record; a running job is held by its lease unless the lease ran out. */
  function DoRead(cfg: Config, jobs: Jobs, now: nat, r: Run): Effect {
    if r.jobId !in jobs || jobs[r.jobId].value.tenant != r.tenant then RETURNED
    else
      var row := jobs[r.jobId];
      match r.kind
      case Reset => Effect(None, Some(ToReset(row)), Nothing)
      case Execute(worker) =>
        var abandoned := LeaseExpired(row.value, now);
        if row.value.status.Running? && !abandoned && row.value.leaseOwner != Some(worker) then RETURNED
        else if abandoned then Effect(None, Some(Abandoned(row)), Nothing)
        else Effect(None, Some(ToClaim(row, now + cfg.leaseMs)), Nothing)
  }

  /** Count the abandoned attempt before taking the job over. */
  function DoCount(cfg: Config, jobs: Jobs, now: nat, r: Run): Effect
    requires r.phase.Abandoned?
  {
    var row := r.phase.row;
    if !CasWins(jobs, r.jobId, row.version) then RETURNED
    else
      var counted := row.value.(attemptCount := row.value.attemptCount + 1);
      if counted.attemptCount >= counted.maxAttempts then Effect(Some(counted.(status := Failed)), None, Nothing)
      else Effect(Some(counted), Some(ToClaim(Row(counted, row.version + 1), now + cfg.leaseMs)), Nothing)
  }

  function DoClaim(jobs: Jobs, r: Run): Effect
    requires r.phase.ToClaim?
  {
    var row := r.phase.row;
    if !CasWins(jobs, r.jobId, row.version) then RETURNED
    else
      // The lease owner is never written.
      var claimed := row.value.(status := Running, leaseExpiresAt := Some(r.phase.lease));
      Effect(Some(claimed), Some(Claimed(Row(claimed, row.version + 1))), NoteClaim)
  }

  /** After the claim: find the handler, then check whom the job runs as. */
  function DoDispatch(cfg: Config, now: nat, r: Run, input: Input): Effect
    requires r.phase.Claimed?
  {
    var row := r.phase.row;
    if row.value.typ !in cfg.handlers then Effect(None, Some(Ended(row, NoHandler, now)), Nothing)
    else if !cfg.authority || IsSystemType(row.value.typ) then Effect(None, Some(Started(row)), NoteStart)
    else if row.value.principal != Some(r.tenant) || !input.attests then Effect(None, Some(Ended(row, Refused, now)), Nothing)
    else Effect(None, Some(Attested(row)), Nothing)
  }

  /** The gateway authorizes the run, or the handler never starts. */
  function DoAuthorize(now: nat, r: Run, input: Input): Effect
    requires r.phase.Attested?
  {
    if input.refusal.Some? && !input.refusal.value.Succeeded? && !input.refusal.value.NoHandler?
    then End(r.phase.row, input.refusal.value, now)
    else Effect(None, Some(Started(r.phase.row)), NoteStart)
  }

  function End(row: Row<Job>, outcome: Outcome, now: nat): Effect {
    Effect(None, Some(Ended(row, outcome, now)), if outcome.Unavailable? then NoteExcuse else Nothing)
  }

  /** The handler returns. A legacy or system handler only succeeds or throws. */
  function DoHandler(cfg: Config, now: nat, r: Run, input: Input): Effect
    requires r.phase.Started?
  {
    var legacy := !cfg.authority || IsSystemType(r.phase.row.value.typ);
    var outcome := if input.outcome.Succeeded? then Succeeded
                   else if legacy || input.outcome.NoHandler? then Threw
                   else input.outcome;
    End(r.phase.row, outcome, now)
  }

  function DoSettle(jobs: Jobs, r: Run): Effect
    requires r.phase.Ended?
  {
    var row, outcome := r.phase.row, r.phase.outcome;
    if !CasWins(jobs, r.jobId, row.version) then RETURNED
    else
      var settled := SettledJob(row.value, outcome, r.phase.at);
      Effect(Some(settled), None, if outcome.Threw? && settled.status.Retrying? then NoteBackoff(Backoff(row.value)) else Nothing)
  }

  function DoReset(jobs: Jobs, r: Run): Effect
    requires r.phase.ToReset?
  {
    if CasWins(jobs, r.jobId, r.phase.row.version) then Effect(Some(ResetJob(r.phase.row.value)), None, NoteReset) else RETURNED
  }

  function Do(cfg: Config, jobs: Jobs, now: nat, r: Run, input: Input): Effect {
    match r.phase
    case Entered => DoRead(cfg, jobs, now, r)
    case Abandoned(_) => DoCount(cfg, jobs, now, r)
    case ToClaim(_, _) => DoClaim(jobs, r)
    case Claimed(_) => DoDispatch(cfg, now, r, input)
    case Attested(_) => DoAuthorize(now, r, input)
    case Started(_) => DoHandler(cfg, now, r, input)
    case Ended(_, _, _) => DoSettle(jobs, r)
    case ToReset(_) => DoReset(jobs, r)
  }

  // ---------------------------------------------------------------------------
  // The interleaving
  // ---------------------------------------------------------------------------

  /** A new job as `createJobRecord` and a due schedule write it. */
  predicate IsNewJob(j: Job) {
    (j.status.Pending? || j.status.Scheduled?) && j.attemptCount == 0 && j.leaseOwner.None? && j.leaseExpiresAt.None?
  }

  predicate Enabled(s: State, a: Action) {
    match a
    case Tick => true
    case Enqueue(id, job) => id !in s.jobs && IsNewJob(job)
    case Enter(_, _, _) => true
    case Go(run, _) => run in s.runs
    case Crash(run) => run in s.runs
  }

  function NotedIn(l: Ledger, run: nat, note: Note): Ledger {
    match note
    case NoteClaim => l.(claimed := l.claimed + {run})
    case NoteStart => l.(started := l.started + {run})
    case NoteExcuse => l.(excused := l.excused + {run})
    case NoteBackoff(ms) => l.(backoff := l.backoff + ms)
    case _ => l
  }

  /** A claim and a backoff go to the open account, a start and an excuse to the one the run claimed in, a reset opens a new one. */
  function Noted(b: Book, run: nat, epoch: nat, note: Note): Book
    requires b != []
  {
    var at := if note.NoteClaim? || note.NoteBackoff? then |b| - 1 else epoch;
    if note.NoteReset? then b + [NEW_LEDGER]
    else if at < |b| then b[at := NotedIn(b[at], run, note)]
    else b
  }

  function BookOf(s: State, id: string): (b: Book)
    ensures b != []
  {
    if id in s.books && s.books[id] != [] then s.books[id] else [NEW_LEDGER]
  }

  function EffectOf(cfg: Config, s: State, run: nat, input: Input): Effect
    requires run in s.runs
  {
    Do(cfg, s.jobs, s.clock, s.runs[run], input)
  }

  function Written(jobs: Jobs, id: string, write: Option<Job>): Jobs {
    if write.Some? && id in jobs then jobs[id := Row(write.value, jobs[id].version + 1)] else jobs
  }

  /** Where a run goes on; a claim binds it to the open epoch. */
  function Moved(r: Run, e: Effect, open: nat): Run
    requires e.next.Some?
  {
    r.(phase := e.next.value, epoch := if e.note.NoteClaim? then open else r.epoch)
  }

  function Perform(s: State, run: nat, e: Effect): State
    requires run in s.runs
  {
    var r := s.runs[run];
    s.(jobs := Written(s.jobs, r.jobId, e.write),
       runs := if e.next.Some? then s.runs[run := Moved(r, e, |BookOf(s, r.jobId)| - 1)] else s.runs - {run},
       books := s.books[r.jobId := Noted(BookOf(s, r.jobId), run, r.epoch, e.note)])
  }

  function Step(cfg: Config, s: State, a: Action): State
    requires Enabled(s, a)
  {
    match a
    case Tick => s.(clock := s.clock + 1)
    case Enqueue(id, job) => s.(jobs := s.jobs[id := Row(job, 1)], books := s.books[id := [NEW_LEDGER]])
    case Enter(kind, tenant, jobId) => s.(runs := s.runs[s.nextRun := Run(kind, tenant, jobId, Entered, 0)], nextRun := s.nextRun + 1)
    case Go(run, input) => Perform(s, run, EffectOf(cfg, s, run, input))
    case Crash(run) => s.(runs := s.runs - {run})
  }

  ghost predicate IsRun(cfg: Config, tr: seq<State>, acts: seq<Action>) {
    && |tr| == |acts| + 1
    && forall i :: 0 <= i < |acts| ==> Enabled(tr[i], acts[i]) && tr[i + 1] == Step(cfg, tr[i], acts[i])
  }

  /** The state a service starts in: nothing enqueued, nobody working. */
  const EMPTY := State(0, map[], map[], 0, map[])
}

/** Where the job protocol stops: what it does not guarantee, when exactly, each with the run that shows it. */
module JobLimits {
  import opened Common
  import opened FeltDb
  import opened Jobs
  import opened JobLeases
  import opened JobAttempts

  /** A read is turned away exactly when the job is not there or a lease that has not run out holds it; no other status is refused. */
  lemma ReadRefusedExactly(cfg: Config, tr: seq<State>, acts: seq<Action>, i: nat, r: Run)
    requires IsRun(cfg, tr, acts) && Inv(tr[0]) && i < |tr| && r.kind.Execute?
    ensures DoRead(cfg, tr[i].jobs, tr[i].clock, r) == RETURNED <==>
            || r.jobId !in tr[i].jobs
            || tr[i].jobs[r.jobId].value.tenant != r.tenant
            || (tr[i].jobs[r.jobId].value.status.Running? && !LeaseExpired(tr[i].jobs[r.jobId].value, tr[i].clock))
  {
    hide IsRun, RunOk, ClaimsDistinct;
    RunKeepsInv(cfg, tr, acts, i);
  }

  // ---------------------------------------------------------------------------
  // Continuations without a reset
  // ---------------------------------------------------------------------------

  /** Some actions, none of them a manual retry, lead from one state to the other. */
  ghost predicate Leads(cfg: Config, s: State, s': State) {
    exists tr, acts :: IsRun(cfg, tr, acts) && NoResets(acts) && tr[0] == s && tr[|acts|] == s'
  }

  lemma StepLeads(cfg: Config, s: State, a: Action)
    requires Enabled(s, a) && (a.Enter? ==> !a.kind.Reset?)
    ensures Leads(cfg, s, Step(cfg, s, a))
  {
    var tr, acts := [s, Step(cfg, s, a)], [a];
    assert IsRun(cfg, tr, acts) && NoResets(acts) && tr[0] == s && tr[|acts|] == Step(cfg, s, a);
  }

  lemma LeadsOn(cfg: Config, a: State, b: State, c: State)
    requires Leads(cfg, a, b) && Leads(cfg, b, c)
    ensures Leads(cfg, a, c)
  {
    hide Enabled, Step;
    var tr, acts :| IsRun(cfg, tr, acts) && NoResets(acts) && tr[0] == a && tr[|acts|] == b;
    var tr', acts' :| IsRun(cfg, tr', acts') && NoResets(acts') && tr'[0] == b && tr'[|acts'|] == c;
    var all, did := tr[..|acts|] + tr', acts + acts';
    forall i | 0 <= i < |did| ensures Enabled(all[i], did[i]) && all[i + 1] == Step(cfg, all[i], did[i]) {
      if i < |acts| {
        assert Enabled(tr[i], acts[i]) && tr[i + 1] == Step(cfg, tr[i], acts[i]);
      } else {
        assert Enabled(tr'[i - |acts|], acts'[i - |acts|]) && tr'[i - |acts| + 1] == Step(cfg, tr'[i - |acts|], acts'[i - |acts|]);
      }
    }
    assert IsRun(cfg, all, did) && NoResets(did) && all[0] == a && all[|did|] == c;
  }

  /** One more step of the continuation. */
  lemma Then(cfg: Config, s: State, s1: State, a: Action)
    requires Leads(cfg, s, s1) && Enabled(s1, a) && (a.Enter? ==> !a.kind.Reset?)
    ensures Leads(cfg, s, Step(cfg, s1, a))
  {
    hide Leads, Step;
    StepLeads(cfg, s1, a);
    LeadsOn(cfg, s, s1, Step(cfg, s1, a));
  }

  lemma LeadsKeepsInv(cfg: Config, s: State, s': State)
    requires Leads(cfg, s, s') && Inv(s)
    ensures Inv(s')
  {
    hide Inv, Enabled, Step;
    var tr, acts :| IsRun(cfg, tr, acts) && NoResets(acts) && tr[0] == s && tr[|acts|] == s';
    RunKeepsInv(cfg, tr, acts, |acts|);
  }

  lemma LeadsKeepsBooks(cfg: Config, s: State, s': State)
    requires Leads(cfg, s, s') && Inv(s) && BooksOk(s)
    ensures BooksOk(s')
  {
    hide Inv, Enabled, Step, BooksOk;
    var tr, acts :| IsRun(cfg, tr, acts) && NoResets(acts) && tr[0] == s && tr[|acts|] == s';
    for i := 0 to |acts|
      invariant BooksOk(tr[i])
    {
      RunKeepsInv(cfg, tr, acts, i);
      StepKeepsBooks(cfg, tr[i], acts[i]);
    }
  }

  lemma LeadsKeepsLeases(cfg: Config, s: State, s': State)
    requires Leads(cfg, s, s') && Inv(s) && LeaseInv(s)
    ensures Inv(s') && LeaseInv(s')
  {
    hide Inv, LeaseInv, Enabled, Step;
    var tr, acts :| IsRun(cfg, tr, acts) && NoResets(acts) && tr[0] == s && tr[|acts|] == s';
    RunKeepsLeases(cfg, tr, acts, |acts|);
  }

  // ---------------------------------------------------------------------------
  // A fresh worker takes a job
  // ---------------------------------------------------------------------------

  /** The job has a handler that may start: in authority mode it runs as a principal of its own tenant. */
  predicate Runnable(cfg: Config, j: Job) {
    j.typ in cfg.handlers && (!cfg.authority || IsSystemType(j.typ) || j.principal == Some(j.tenant))
  }

  /** The world lets the handler start, and it succeeds. */
  const ANSWER := Input(true, None, Succeeded)

  /** The row a claim leaves. */
  function ClaimedRow(row: Row<Job>, lease: nat): Row<Job> {
    Row(row.value.(status := Running, leaseExpiresAt := Some(lease)), row.version + 1)
  }

  /** The book after run `m` claimed and started. */
  function StartedBook(b: Book, m: nat): Book
    requires b != []
  {
    b[|b| - 1 := NotedIn(NotedIn(b[|b| - 1], m, NoteClaim), m, NoteStart)]
  }

  /** A worker has started the job over `row` under a fresh claim; everything else is as it was. */
  ghost predicate TookJob(s: State, s': State, m: nat, id: string, row: Row<Job>, lease: nat) {
    && s'.clock == s.clock && m < s'.nextRun && s.nextRun <= s'.nextRun
    && s'.jobs == s.jobs[id := ClaimedRow(row, lease)]
    && m in s'.runs && s'.runs == s.runs[m := s'.runs[m]]
    && s'.runs[m].kind.Execute? && s'.runs[m].jobId == id && s'.runs[m].tenant == row.value.tenant
    && s'.runs[m].phase == Started(ClaimedRow(row, lease))
    && s'.runs[m].epoch == |BookOf(s, id)| - 1
    && BookOf(s', id) == StartedBook(BookOf(s, id), m)
  }

  /** The run is a worker at the given phase of the job. */
  predicate At(s: State, m: nat, id: string, phase: Phase) {
    m in s.runs && m < s.nextRun && s.runs[m].kind.Execute? && s.runs[m].jobId == id && s.runs[m].phase == phase
    && id in s.jobs && s.runs[m].tenant == s.jobs[id].value.tenant
  }

  lemma ClaimStep(cfg: Config, s: State, m: nat, id: string, lease: nat)
    requires id in s.jobs && At(s, m, id, ToClaim(s.jobs[id], lease))
    ensures var s' := Step(cfg, s, Go(m, ANSWER)); var c := ClaimedRow(s.jobs[id], lease);
            var b := BookOf(s, id);
            && At(s', m, id, Claimed(c))
            && s' == s.(jobs := s.jobs[id := c],
                        runs := s.runs[m := s.runs[m].(phase := Claimed(c), epoch := |b| - 1)],
                        books := s.books[id := b[|b| - 1 := NotedIn(b[|b| - 1], m, NoteClaim)]])
  {}

  lemma DispatchStep(cfg: Config, s: State, m: nat, id: string, c: Row<Job>)
    requires At(s, m, id, Claimed(c)) && s.runs[m].tenant == c.value.tenant && Runnable(cfg, c.value)
    ensures var s' := Step(cfg, s, Go(m, ANSWER)); var b := BookOf(s, id);
            if !cfg.authority || IsSystemType(c.value.typ)
            then s' == s.(runs := s.runs[m := s.runs[m].(phase := Started(c))], books := s.books[id := Noted(b, m, s.runs[m].epoch, NoteStart)])
            else s' == s.(runs := s.runs[m := s.runs[m].(phase := Attested(c))], books := s.books[id := b])
  {
    NothingNoted(BookOf(s, id), m, s.runs[m].epoch);
  }

  lemma AuthorizeStep(cfg: Config, s: State, m: nat, id: string, c: Row<Job>)
    requires At(s, m, id, Attested(c))
    ensures var s' := Step(cfg, s, Go(m, ANSWER)); var b := BookOf(s, id);
            s' == s.(runs := s.runs[m := s.runs[m].(phase := Started(c))], books := s.books[id := Noted(b, m, s.runs[m].epoch, NoteStart)])
  {}

  /** A worker that is about to claim the record as it is claims it and starts. */
  lemma FromClaim(cfg: Config, s: State, m: nat, id: string, lease: nat) returns (s': State)
    requires id in s.jobs && At(s, m, id, ToClaim(s.jobs[id], lease)) && Runnable(cfg, s.jobs[id].value)
    ensures Leads(cfg, s, s') && TookJob(s, s', m, id, s.jobs[id], lease)
  {
    hide Leads, Do, IsSystemType;
    var b, c := BookOf(s, id), ClaimedRow(s.jobs[id], lease);
    StepLeads(cfg, s, Go(m, ANSWER));
    ClaimStep(cfg, s, m, id, lease);
    var s1 := Step(cfg, s, Go(m, ANSWER));
    Then(cfg, s, s1, Go(m, ANSWER));
    DispatchStep(cfg, s1, m, id, c);
    s' := Step(cfg, s1, Go(m, ANSWER));
    if s'.runs[m].phase.Attested? {
      Then(cfg, s, s', Go(m, ANSWER));
      AuthorizeStep(cfg, s', m, id, c);
      s' := Step(cfg, s', Go(m, ANSWER));
    }
    assert BookOf(s', id) == StartedBook(b, m);
  }

  lemma ReadStep(cfg: Config, s: State, m: nat, id: string)
    requires NoLeaseOwner(s.jobs) && At(s, m, id, Entered)
    requires s.jobs[id].value.status.Running? ==> LeaseExpired(s.jobs[id].value, s.clock)
    ensures var s' := Step(cfg, s, Go(m, ANSWER));
            var p := if s.jobs[id].value.status.Running? then Abandoned(s.jobs[id]) else ToClaim(s.jobs[id], s.clock + cfg.leaseMs);
            && At(s', m, id, p) && s' == s.(runs := s.runs[m := s.runs[m].(phase := p)], books := s.books[id := BookOf(s, id)])
  {
    NothingNoted(BookOf(s, id), m, s.runs[m].epoch);
  }

  /** A run that has just entered takes a job that is not running, whatever its status. */
  lemma FromRead(cfg: Config, s: State, m: nat, id: string) returns (s': State)
    requires NoLeaseOwner(s.jobs) && At(s, m, id, Entered) && !s.jobs[id].value.status.Running? && Runnable(cfg, s.jobs[id].value)
    ensures Leads(cfg, s, s') && TookJob(s, s', m, id, s.jobs[id], s.clock + cfg.leaseMs)
  {
    hide Leads, Do, Runnable;
    StepLeads(cfg, s, Go(m, ANSWER));
    ReadStep(cfg, s, m, id);
    var s1 := Step(cfg, s, Go(m, ANSWER));
    s' := FromClaim(cfg, s1, m, id, s.clock + cfg.leaseMs);
    LeadsOn(cfg, s, s1, s');
  }

  lemma EnterStep(cfg: Config, s: State, id: string) returns (s': State)
    requires Inv(s) && id in s.jobs
    ensures Leads(cfg, s, s') && At(s', s.nextRun, id, Entered) && s.nextRun !in s.runs
    ensures s' == s.(runs := s.runs[s.nextRun := s'.runs[s.nextRun]], nextRun := s.nextRun + 1)
  {
    hide Leads, RunOk, ClaimsDistinct, NoLeaseOwner;
    var a := Enter(Execute("w"), s.jobs[id].value.tenant, id);
    StepLeads(cfg, s, a);
    s' := Step(cfg, s, a);
  }

  /** A fresh worker enters, reads and takes a job that is not running. */
  lemma TakesJob(cfg: Config, s: State, id: string) returns (s': State)
    requires Inv(s) && id in s.jobs && !s.jobs[id].value.status.Running? && Runnable(cfg, s.jobs[id].value)
    ensures Leads(cfg, s, s') && s.nextRun !in s.runs
    ensures TookJob(s, s', s.nextRun, id, s.jobs[id], s.clock + cfg.leaseMs)
  {
    hide Leads, RunOk, ClaimsDistinct, Runnable;
    var s1 := EnterStep(cfg, s, id);
    s' := FromRead(cfg, s1, s.nextRun, id);
    LeadsOn(cfg, s, s1, s');
  }

  /** What counting an abandoned attempt leaves. */
  function CountedRow(row: Row<Job>): Row<Job> {
    var j := row.value.(attemptCount := row.value.attemptCount + 1);
    Row(if j.attemptCount >= j.maxAttempts then j.(status := Failed) else j, row.version + 1)
  }

  lemma CountStep(cfg: Config, s: State, m: nat, id: string)
    requires id in s.jobs && At(s, m, id, Abandoned(s.jobs[id])) && s.jobs[id].value.status.Running?
    ensures var s' := Step(cfg, s, Go(m, ANSWER)); var row := CountedRow(s.jobs[id]); var p := ToClaim(row, s.clock + cfg.leaseMs);
            if row.value.status.Failed?
            then s' == s.(jobs := s.jobs[id := row], runs := s.runs - {m}, books := s.books[id := BookOf(s, id)])
            else
              && At(s', m, id, p)
              && s' == s.(jobs := s.jobs[id := row], runs := s.runs[m := s.runs[m].(phase := p)], books := s.books[id := BookOf(s, id)])
  {
    NothingNoted(BookOf(s, id), m, s.runs[m].epoch);
  }

  /** A fresh worker counts the abandoned attempt and goes on to claim, unless it was the last. */
  lemma CountsAbandoned(cfg: Config, s: State, id: string) returns (s': State)
    requires Inv(s) && id in s.jobs && LeaseExpired(s.jobs[id].value, s.clock)
    ensures Leads(cfg, s, s') && s.nextRun !in s.runs
    ensures s'.clock == s.clock && s'.nextRun == s.nextRun + 1 && s'.jobs == s.jobs[id := CountedRow(s.jobs[id])] && BookOf(s', id) == BookOf(s, id)
    ensures if s'.jobs[id].value.status.Failed? then s'.runs == s.runs
            else At(s', s.nextRun, id, ToClaim(s'.jobs[id], s.clock + cfg.leaseMs)) && s'.runs == s.runs[s.nextRun := s'.runs[s.nextRun]]
  {
    hide Leads, RunOk, ClaimsDistinct, Do;
    var n := s.nextRun;
    var s1 := EnterStep(cfg, s, id);
    Then(cfg, s, s1, Go(n, ANSWER));
    ReadStep(cfg, s1, n, id);
    var s2 := Step(cfg, s1, Go(n, ANSWER));
    Then(cfg, s, s2, Go(n, ANSWER));
    CountStep(cfg, s2, n, id);
    s' := Step(cfg, s2, Go(n, ANSWER));
  }

  /** A fresh worker takes over a job whose lease ran out; at the last attempt, a second one runs the failed job. */
  lemma TakesOver(cfg: Config, s: State, id: string) returns (s': State, m: nat)
    requires Inv(s) && id in s.jobs && LeaseExpired(s.jobs[id].value, s.clock) && Runnable(cfg, s.jobs[id].value)
    ensures Leads(cfg, s, s') && m !in s.runs && TookJob(s, s', m, id, CountedRow(s.jobs[id]), s.clock + cfg.leaseMs)
  {
    hide Leads, Inv, Runnable;
    var s1 := CountsAbandoned(cfg, s, id);
    RunnableStays(cfg, s.jobs[id].value, s1.jobs[id].value);
    if s1.jobs[id].value.status.Failed? {
      LeadsKeepsInv(cfg, s, s1);
      m := s1.nextRun;
      s' := TakesJob(cfg, s1, id);
    } else {
      m := s.nextRun;
      s' := FromClaim(cfg, s1, m, id, s.clock + cfg.leaseMs);
    }
    LeadsOn(cfg, s, s1, s');
  }

  lemma RunnableStays(cfg: Config, j: Job, j': Job)
    requires Runnable(cfg, j) && j'.typ == j.typ && j'.principal == j.principal && j'.tenant == j.tenant
    ensures Runnable(cfg, j')
  {}

  // ---------------------------------------------------------------------------
  // A late start overlaps: exactly when its own lease has run out
  // ---------------------------------------------------------------------------

  predicate SameJob(a: Job, b: Job) {
    a.typ == b.typ && a.principal == b.principal && a.tenant == b.tenant && a.maxAttempts == b.maxAttempts
  }

  /** What a run read is the job it was asked to run, and past the attestation the job may start. */
  ghost predicate RunNamed(cfg: Config, jobs: Jobs, r: Run) {
    && (!r.phase.Entered? ==> r.jobId in jobs && SameJob(r.phase.row.value, jobs[r.jobId].value) && r.tenant == r.phase.row.value.tenant)
    && (r.phase.Attested? ==> Runnable(cfg, r.phase.row.value))
  }

  predicate JobNamed(j: Job) {
    j.status.Running? ==> j.leaseExpiresAt.Some?
  }

  ghost predicate Named(cfg: Config, s: State) {
    (forall n :: n in s.runs ==> RunNamed(cfg, s.jobs, s.runs[n])) && (forall id :: id in s.jobs ==> JobNamed(s.jobs[id].value))
  }

  lemma DoNamed(cfg: Config, jobs: Jobs, now: nat, r: Run, input: Input)
    requires RunOk(jobs, now, r) && RunNamed(cfg, jobs, r)
    ensures var e := Do(cfg, jobs, now, r, input);
            && (e.write.Some? ==> r.jobId in jobs && SameJob(e.write.value, jobs[r.jobId].value) && (JobNamed(jobs[r.jobId].value) ==> JobNamed(e.write.value)))
            && (e.next.Some? ==> RunNamed(cfg, Written(jobs, r.jobId, e.write), r.(phase := e.next.value)))
  {
    hide Backoff;
    match r.phase
    case Entered => {}
    case Abandoned(_) => {}
    case ToClaim(_, _) => {}
    case Claimed(_) => {}
    case Attested(_) => {}
    case Started(_) => {}
    case Ended(_, _, _) => {}
    case ToReset(_) => {}
  }

  lemma StepKeepsNamed(cfg: Config, s: State, a: Action)
    requires Inv(s) && Named(cfg, s) && Enabled(s, a)
    ensures Named(cfg, Step(cfg, s, a))
  {
    hide Do, Noted, ClaimsDistinct, NoLeaseOwner, RunOk, Runnable;
    if a.Go? {
      assert RunOk(s.jobs, s.clock, s.runs[a.run]);
      DoNamed(cfg, s.jobs, s.clock, s.runs[a.run], a.input);
    }
  }

  lemma {:induction false} RunKeepsNamed(cfg: Config, tr: seq<State>, acts: seq<Action>, i: nat)
    requires IsRun(cfg, tr, acts) && Inv(tr[0]) && Named(cfg, tr[0]) && i < |tr|
    ensures Named(cfg, tr[i])
  {
    hide Inv, Named, Enabled, Step;
    if i > 0 {
      RunKeepsNamed(cfg, tr, acts, i - 1);
      RunKeepsInv(cfg, tr, acts, i - 1);
      StepKeepsNamed(cfg, tr[i - 1], acts[i - 1]);
    }
  }

  /** `run` starts its handler now, while another handler of the job is running under a lease that has not run out. */
  predicate StartsBeside(cfg: Config, s: State, run: nat, input: Input, other: nat) {
    && run in s.runs && StartsNow(cfg, s, run, input)
    && other in s.runs && other != run && s.runs[other].jobId == s.runs[run].jobId
    && s.runs[other].phase.Started? && !LeaseExpired(s.runs[other].phase.row.value, s.clock)
  }

  /** Without a reset and before the clock reaches `until`, the run, still about to start, may find another handler running. */
  ghost predicate MayOverlap(cfg: Config, s: State, run: nat, input: Input, until: nat)
    requires run in s.runs
  {
    exists s', other :: Leads(cfg, s, s') && run in s'.runs && s'.runs[run] == s.runs[run] && StartsBeside(cfg, s', run, input, other) && s'.clock < until
  }

  lemma StartableIsRunnable(cfg: Config, s: State, run: nat, input: Input)
    requires Inv(s) && Named(cfg, s) && run in s.runs && StartsNow(cfg, s, run, input)
    ensures var r := s.runs[run]; Holding(r.phase) && r.jobId in s.jobs && Runnable(cfg, s.jobs[r.jobId].value)
  {
    hide ClaimsDistinct, NoLeaseOwner;
    assert RunNamed(cfg, s.jobs, s.runs[run]);
  }

  /** Whether a run starts its handler is up to the run and the world alone. */
  lemma StillStarts(cfg: Config, s: State, s': State, run: nat, input: Input)
    requires run in s.runs && run in s'.runs && s'.runs[run] == s.runs[run] && Holding(s.runs[run].phase) && StartsNow(cfg, s, run, input)
    ensures StartsNow(cfg, s', run, input)
  {}

  lemma NewcomerOverlaps(cfg: Config, s: State, s': State, run: nat, input: Input, m: nat, row: Row<Job>)
    requires run in s.runs && Holding(s.runs[run].phase) && StartsNow(cfg, s, run, input) && cfg.leaseMs >= 1
    requires m !in s.runs && TookJob(s, s', m, s.runs[run].jobId, row, s.clock + cfg.leaseMs)
    ensures run in s'.runs && s'.runs[run] == s.runs[run] && StartsBeside(cfg, s', run, input, m)
  {
    hide Do;
    StillStarts(cfg, s, s', run, input);
  }

  /** The converse of lease exclusion: past its lease, a run whose record nobody took over may start beside another at this very instant. */
  lemma LateStartMayOverlap(cfg: Config, s: State, run: nat, input: Input)
    requires Inv(s) && Named(cfg, s) && run in s.runs && StartsNow(cfg, s, run, input) && cfg.leaseMs >= 1
    requires var r := s.runs[run]; !r.phase.Entered? && CasWins(s.jobs, r.jobId, r.phase.row.version) && LeaseExpired(r.phase.row.value, s.clock)
    ensures MayOverlap(cfg, s, run, input, s.clock + 1)
  {
    hide Leads, ClaimsDistinct, NoLeaseOwner, Do, Named, StartsNow, Runnable;
    StartableIsRunnable(cfg, s, run, input);
    assert RunOk(s.jobs, s.clock, s.runs[run]);
    var s', m := TakesOver(cfg, s, s.runs[run].jobId);
    NewcomerOverlaps(cfg, s, s', run, input, m, CountedRow(s.jobs[s.runs[run].jobId]));
    assert StartsBeside(cfg, s', run, input, m);
  }

  /**
   A run that still owns its record and is about to start may start beside another
   handler at this instant exactly when its own lease has run out.
  */
  lemma OverlapExactly(cfg: Config, tr: seq<State>, acts: seq<Action>, i: nat, run: nat, input: Input)
    requires IsRun(cfg, tr, acts) && Inv(tr[0]) && LeaseInv(tr[0]) && Named(cfg, tr[0]) && NoResets(acts) && i < |tr|
    requires run in tr[i].runs && StartsNow(cfg, tr[i], run, input) && cfg.leaseMs >= 1
    requires var r := tr[i].runs[run]; !r.phase.Entered? && CasWins(tr[i].jobs, r.jobId, r.phase.row.version)
    ensures MayOverlap(cfg, tr[i], run, input, tr[i].clock + 1) <==> LeaseExpired(tr[i].runs[run].phase.row.value, tr[i].clock)
  {
    hide IsRun, Inv, LeaseInv, Named, Leads, StartsNow, LeaseExpired;
    var s := tr[i];
    RunKeepsLeases(cfg, tr, acts, i);
    RunKeepsNamed(cfg, tr, acts, i);
    if LeaseExpired(s.runs[run].phase.row.value, s.clock) {
      LateStartMayOverlap(cfg, s, run, input);
    } else if MayOverlap(cfg, s, run, input, s.clock + 1) {
      var s', other :| Leads(cfg, s, s') && run in s'.runs && s'.runs[run] == s.runs[run] && StartsBeside(cfg, s', run, input, other) && s'.clock < s.clock + 1;
      InTimeIsAlone(cfg, s, s', run, input, other);
      ExpiryLasts(s.runs[run].phase.row.value, s'.clock, s.clock);
    }
  }

  lemma ExpiryLasts(j: Job, now: nat, later: nat)
    requires LeaseExpired(j, now) && now <= later
    ensures LeaseExpired(j, later)
  {}

  lemma InTimeIsAlone(cfg: Config, s: State, s': State, run: nat, input: Input, other: nat)
    requires Inv(s) && LeaseInv(s) && Leads(cfg, s, s') && StartsBeside(cfg, s', run, input, other)
    ensures !s'.runs[run].phase.Entered? && LeaseExpired(s'.runs[run].phase.row.value, s'.clock)
  {
    hide Inv, LeaseInv, Leads;
    LeadsKeepsLeases(cfg, s, s');
    assert IsRun(cfg, [s'], []) && NoResets([]);
    if !LeaseExpired(s'.runs[run].phase.row.value, s'.clock) {
      NoOverlappingStart(cfg, [s'], [], 0, run, input, other);
    }
  }

  lemma {:induction false} Waits(cfg: Config, s: State, k: nat) returns (s': State)
    ensures Leads(cfg, s, s') && s' == s.(clock := s.clock + k)
  {
    hide Leads;
    if k == 0 {
      s' := s;
      NoStepLeads(cfg, s);
    } else {
      s' := Waits(cfg, s, k - 1);
      Then(cfg, s, s', Tick);
      s' := Step(cfg, s', Tick);
    }
  }

  lemma NoStepLeads(cfg: Config, s: State)
    ensures Leads(cfg, s, s)
  {
    var tr: seq<State>, acts: seq<Action> := [s], [];
    assert IsRun(cfg, tr, acts) && NoResets(acts) && tr[0] == s && tr[|acts|] == s;
  }

  /** Whatever has become of the record, every run about to start may be delayed until it starts beside another. */
  lemma EveryStartMayComeTooLate(cfg: Config, tr: seq<State>, acts: seq<Action>, i: nat, run: nat, input: Input)
    requires IsRun(cfg, tr, acts) && Inv(tr[0]) && Named(cfg, tr[0]) && i < |tr|
    requires run in tr[i].runs && StartsNow(cfg, tr[i], run, input) && cfg.leaseMs >= 1
    ensures exists until :: MayOverlap(cfg, tr[i], run, input, until)
  {
    hide IsRun, Inv, Named, Leads, StartsNow, Runnable;
    var s, id := tr[i], tr[i].runs[run].jobId;
    RunKeepsInv(cfg, tr, acts, i);
    RunKeepsNamed(cfg, tr, acts, i);
    StartableIsRunnable(cfg, s, run, input);
    assert JobNamed(s.jobs[id].value) by { JobIsNamed(cfg, s, id); }
    var job := s.jobs[id].value;
    var wait := if job.status.Running? && job.leaseExpiresAt.value > s.clock then job.leaseExpiresAt.value - s.clock else 0;
    var s1 := Waits(cfg, s, wait);
    LeadsKeepsInv(cfg, s, s1);
    StillStarts(cfg, s, s1, run, input);
    NobodyEnteredSince(s1);
    var s2, m, row := s1, s1.nextRun, s.jobs[id];
    if job.status.Running? {
      s2, m := TakesOver(cfg, s1, id);
      row := CountedRow(s.jobs[id]);
    } else {
      s2 := TakesJob(cfg, s1, id);
    }
    NewcomerOverlaps(cfg, s1, s2, run, input, m, row);
    LeadsOn(cfg, s, s1, s2);
    assert StartsBeside(cfg, s2, run, input, m) && s2.clock < s2.clock + 1;
    assert MayOverlap(cfg, s, run, input, s2.clock + 1);
  }

  lemma JobIsNamed(cfg: Config, s: State, id: string)
    requires Named(cfg, s) && id in s.jobs
    ensures JobNamed(s.jobs[id].value)
  {}

  lemma NobodyEnteredSince(s: State)
    requires Inv(s)
    ensures s.nextRun !in s.runs
  {}

  // ---------------------------------------------------------------------------
  // Reading a job that is settled for good breaks the bound on its attempts
  // ---------------------------------------------------------------------------

  lemma HandlerStep(cfg: Config, s: State, m: nat, id: string, c: Row<Job>)
    requires At(s, m, id, Started(c))
    ensures var s' := Step(cfg, s, Go(m, ANSWER)); var p := Ended(c, Succeeded, s.clock);
            At(s', m, id, p) && s' == s.(runs := s.runs[m := s.runs[m].(phase := p)], books := s.books[id := BookOf(s, id)])
  {
    NothingNoted(BookOf(s, id), m, s.runs[m].epoch);
  }

  lemma SettleStep(cfg: Config, s: State, m: nat, id: string, at: nat)
    requires id in s.jobs && At(s, m, id, Ended(s.jobs[id], Succeeded, at))
    ensures var s' := Step(cfg, s, Go(m, ANSWER)); var row := s.jobs[id];
            s' == s.(jobs := s.jobs[id := Row(row.value.(status := Completed), row.version + 1)], runs := s.runs - {m}, books := s.books[id := BookOf(s, id)])
  {
    NothingNoted(BookOf(s, id), m, s.runs[m].epoch);
  }

  /** The handler succeeds and the job is completed. */
  lemma Completes(cfg: Config, s: State, m: nat, id: string) returns (s': State)
    requires id in s.jobs && At(s, m, id, Started(s.jobs[id]))
    ensures Leads(cfg, s, s') && BookOf(s', id) == BookOf(s, id) && s'.runs == s.runs - {m} && s'.clock == s.clock && s'.nextRun == s.nextRun
    ensures s'.jobs == s.jobs[id := Row(s.jobs[id].value.(status := Completed), s.jobs[id].version + 1)]
  {
    hide Leads, Do;
    StepLeads(cfg, s, Go(m, ANSWER));
    HandlerStep(cfg, s, m, id, s.jobs[id]);
    var s1 := Step(cfg, s, Go(m, ANSWER));
    Then(cfg, s, s1, Go(m, ANSWER));
    SettleStep(cfg, s1, m, id, s.clock);
    s' := Step(cfg, s1, Go(m, ANSWER));
  }

  /** Starts that count against the open epoch. */
  ghost function OpenStarts(s: State, id: string): nat {
    var l := Open(BookOf(s, id)); |l.started - l.excused|
  }

  lemma OneMoreStart(s: State, s': State, m: nat, id: string, row: Row<Job>, lease: nat)
    requires BooksOk(s) && m == s.nextRun && TookJob(s, s', m, id, row, lease)
    ensures OpenStarts(s', id) == OpenStarts(s, id) + 1
  {
    var l, l' := Open(BookOf(s, id)), Open(BookOf(s', id));
    assert Earlier(l, s.nextRun);
    assert l'.started - l'.excused == (l.started - l.excused) + {m};
  }

  /**
   From any state in which a job that may run is settled for good, every number
   of handler starts can follow in one epoch: each worker that reads it runs it.
  */
  lemma {:induction false} TerminalReadsRunForever(cfg: Config, s: State, id: string, n: nat) returns (s': State)
    requires Inv(s) && BooksOk(s) && id in s.jobs && Terminal(s.jobs[id].value) && Runnable(cfg, s.jobs[id].value)
    ensures Leads(cfg, s, s') && OpenStarts(s', id) == OpenStarts(s, id) + n && |BookOf(s', id)| == |BookOf(s, id)|
    ensures id in s'.jobs && Terminal(s'.jobs[id].value) && SameJob(s'.jobs[id].value, s.jobs[id].value)
    decreases n
  {
    hide Leads, Inv, BooksOk, Runnable, OpenStarts;
    if n == 0 {
      NoStepLeads(cfg, s);
      s' := s;
    } else {
      var s0 := TerminalReadsRunForever(cfg, s, id, n - 1);
      LeadsKeepsInv(cfg, s, s0);
      LeadsKeepsBooks(cfg, s, s0);
      RunnableStays(cfg, s.jobs[id].value, s0.jobs[id].value);
      var s1 := TakesJob(cfg, s0, id);
      OneMoreStart(s0, s1, s0.nextRun, id, s0.jobs[id], s0.clock + cfg.leaseMs);
      LeadsOn(cfg, s, s0, s1);
      s' := Completes(cfg, s1, s0.nextRun, id);
      LeadsOn(cfg, s, s1, s');
      SameBookSameStarts(s1, s', id);
    }
  }

  lemma SameBookSameStarts(s: State, s': State, id: string)
    requires BookOf(s, id) == BookOf(s', id)
    ensures OpenStarts(s, id) == OpenStarts(s', id)
  {}

  /** The bound is exact in what it asks of reads: past any state with a terminal job that may run, it can be broken. */
  lemma TerminalReadBreaksTheBound(cfg: Config, tr: seq<State>, acts: seq<Action>, i: nat, id: string) returns (s': State)
    requires IsRun(cfg, tr, acts) && Inv(tr[0]) && BooksOk(tr[0]) && i < |tr| && id in tr[i].jobs
    requires Terminal(tr[i].jobs[id].value) && Runnable(cfg, tr[i].jobs[id].value)
    ensures Leads(cfg, tr[i], s') && id in s'.jobs && OpenStarts(s', id) > s'.jobs[id].value.maxAttempts
  {
    hide Leads, Inv, BooksOk, Runnable, OpenStarts, Enabled, Step;
    for k := 0 to i
      invariant BooksOk(tr[k])
    {
      RunKeepsInv(cfg, tr, acts, k);
      StepKeepsBooks(cfg, tr[k], acts[k]);
    }
    RunKeepsInv(cfg, tr, acts, i);
    s' := TerminalReadsRunForever(cfg, tr[i], id, tr[i].jobs[id].value.maxAttempts + 1);
  }

  /** Of two workers that entered together, the second reads the job when the first has completed it, and runs it again. */
  lemma SecondReaderRunsItAgain(cfg: Config, s: State, a: nat, b: nat, id: string) returns (s1: State, s2: State)
    requires Inv(s) && At(s, a, id, Entered) && At(s, b, id, Entered) && a != b
    requires !s.jobs[id].value.status.Running? && Runnable(cfg, s.jobs[id].value)
    ensures Leads(cfg, s, s1) && At(s1, b, id, Entered) && s1.jobs[id].value.status.Completed?
    ensures Leads(cfg, s1, s2) && TookJob(s1, s2, b, id, s1.jobs[id], s1.clock + cfg.leaseMs)
  {
    hide Leads, Inv, Runnable;
    LeaseOwnerIsNone(s);
    var s0 := FromRead(cfg, s, a, id);
    s1 := Completes(cfg, s0, a, id);
    LeadsOn(cfg, s, s0, s1);
    LeadsKeepsInv(cfg, s, s1);
    LeaseOwnerIsNone(s1);
    RunnableStays(cfg, s.jobs[id].value, s1.jobs[id].value);
    s2 := FromRead(cfg, s1, b, id);
  }

  lemma LeaseOwnerIsNone(s: State)
    requires Inv(s)
    ensures NoLeaseOwner(s.jobs)
  {}

  // ---------------------------------------------------------------------------
  // A manual retry lets a run that claimed before it start beside one that claims after it
  // ---------------------------------------------------------------------------

  /** The three steps of an undisturbed `retry`. */
  function Retried(cfg: Config, s: State, id: string): State
    requires id in s.jobs
  {
    var s1 := Step(cfg, s, Enter(Reset, s.jobs[id].value.tenant, id));
    var s2 := Step(cfg, s1, Go(s.nextRun, ANSWER));
    Step(cfg, s2, Go(s.nextRun, ANSWER))
  }

  lemma RetriedIs(cfg: Config, s: State, id: string)
    requires Inv(s) && id in s.jobs
    ensures Retried(cfg, s, id) == s.(jobs := s.jobs[id := Row(ResetJob(s.jobs[id].value), s.jobs[id].version + 1)],
                                      nextRun := s.nextRun + 1,
                                      books := s.books[id := BookOf(s, id) + [NEW_LEDGER]])
  {
    hide RunOk, ClaimsDistinct, NoLeaseOwner;
    NothingNoted(BookOf(s, id), s.nextRun, 0);
  }

  lemma RetryKeepsInv(cfg: Config, s: State, id: string)
    requires Inv(s) && id in s.jobs
    ensures Inv(Retried(cfg, s, id))
  {
    hide Inv, Noted;
    var s1 := Step(cfg, s, Enter(Reset, s.jobs[id].value.tenant, id));
    StepKeepsInv(cfg, s, Enter(Reset, s.jobs[id].value.tenant, id));
    StepKeepsInv(cfg, s1, Go(s.nextRun, ANSWER));
    StepKeepsInv(cfg, Step(cfg, s1, Go(s.nextRun, ANSWER)), Go(s.nextRun, ANSWER));
  }

  /** Any run about to start, in its lease or past it: one manual retry lets it start beside another at this very instant. */
  lemma RetryMayOverlap(cfg: Config, s: State, run: nat, input: Input) returns (s': State, other: nat)
    requires Inv(s) && Named(cfg, s) && run in s.runs && StartsNow(cfg, s, run, input) && cfg.leaseMs >= 1
    ensures s.runs[run].jobId in s.jobs && Leads(cfg, Retried(cfg, s, s.runs[run].jobId), s') && s'.clock == s.clock
    ensures run in s'.runs && s'.runs[run] == s.runs[run] && StartsBeside(cfg, s', run, input, other)
    ensures other !in Retried(cfg, s, s.runs[run].jobId).runs
    ensures s.runs[run].jobId in s'.jobs && s'.jobs[s.runs[run].jobId].value.maxAttempts == s.jobs[s.runs[run].jobId].value.maxAttempts
  {
    hide Leads, Inv, Named, StartsNow, Runnable, Retried;
    StartableIsRunnable(cfg, s, run, input);
    var id := s.runs[run].jobId;
    var s1 := Retried(cfg, s, id);
    RetriedIs(cfg, s, id);
    RetryKeepsInv(cfg, s, id);
    RunnableStays(cfg, s.jobs[id].value, s1.jobs[id].value);
    StillStarts(cfg, s, s1, run, input);
    s' := TakesJob(cfg, s1, id);
    other := s1.nextRun;
    NewcomerOverlaps(cfg, s1, s', run, input, other, s1.jobs[id]);
  }

  // ---------------------------------------------------------------------------
  // Runs from the empty state
  // ---------------------------------------------------------------------------

  const LEGACY := Config(false, {"t"}, 1)

  const JOB := Job("tenant", "t", None, Pending, 0, None, 0, 1, None, None)

  lemma EmptyIsNamed(cfg: Config)
    ensures Named(cfg, EMPTY)
  {}

  /** A job is enqueued, and two workers that found it due enter. */
  lemma TwoEntered() returns (s: State)
    ensures Leads(LEGACY, EMPTY, s) && Inv(s) && Named(LEGACY, s)
    ensures At(s, 0, "j", Entered) && At(s, 1, "j", Entered) && s.runs.Keys == {0, 1} && s.jobs["j"] == Row(JOB, 1) && Due(JOB, s.clock)
  {
    hide Leads, RunOk;
    EmptyIsFine();
    var s0 := Step(LEGACY, EMPTY, Enqueue("j", JOB));
    StepLeads(LEGACY, EMPTY, Enqueue("j", JOB));
    var s1 := Step(LEGACY, s0, Enter(Execute("a"), "tenant", "j"));
    Then(LEGACY, EMPTY, s0, Enter(Execute("a"), "tenant", "j"));
    s := Step(LEGACY, s1, Enter(Execute("b"), "tenant", "j"));
    Then(LEGACY, EMPTY, s1, Enter(Execute("b"), "tenant", "j"));
    LeadsKeepsInv(LEGACY, EMPTY, s);
  }

  /** Two workers find the job due; the second reads it when the first has completed it, and runs it again. */
  lemma CompletedJobRunsAgain() returns (s: State, s1: State, s2: State)
    ensures Leads(LEGACY, EMPTY, s) && At(s, 0, "j", Entered) && At(s, 1, "j", Entered) && Due(s.jobs["j"].value, s.clock)
    ensures Leads(LEGACY, s, s1) && At(s1, 1, "j", Entered) && s1.jobs["j"].value.status.Completed?
    ensures Leads(LEGACY, s1, s2) && 1 in s2.runs && s2.runs[1].phase.Started?
  {
    hide Leads, Inv, Named;
    s := TwoEntered();
    s1, s2 := SecondReaderRunsItAgain(LEGACY, s, 0, 1, "j");
  }

  /** The first worker reads and claims. */
  lemma FirstClaims() returns (s: State)
    ensures Leads(LEGACY, EMPTY, s) && Inv(s) && Named(LEGACY, s)
    ensures 0 in s.runs && s.runs[0].jobId == "j" && s.runs[0].phase.Claimed? && StartsNow(LEGACY, s, 0, ANSWER)
    ensures "j" in s.jobs && s.runs[0].phase.row == s.jobs["j"] == ClaimedRow(Row(JOB, 1), s.clock + LEGACY.leaseMs)
  {
    hide Leads, Inv, Named, Do;
    var s0 := TwoEntered();
    LeaseOwnerIsNone(s0);
    Then(LEGACY, EMPTY, s0, Go(0, ANSWER));
    ReadStep(LEGACY, s0, 0, "j");
    var s1 := Step(LEGACY, s0, Go(0, ANSWER));
    Then(LEGACY, EMPTY, s1, Go(0, ANSWER));
    ClaimStep(LEGACY, s1, 0, "j", s0.clock + LEGACY.leaseMs);
    s := Step(LEGACY, s1, Go(0, ANSWER));
    StepKeepsInv(LEGACY, s0, Go(0, ANSWER));
    StepKeepsInv(LEGACY, s1, Go(0, ANSWER));
    StepKeepsNamed(LEGACY, s0, Go(0, ANSWER));
    StepKeepsNamed(LEGACY, s1, Go(0, ANSWER));
    ClaimedStarts(s, 0);
  }

  lemma ClaimedStarts(s: State, run: nat)
    requires run in s.runs && s.runs[run].phase.Claimed? && s.runs[run].phase.row.value.typ in LEGACY.handlers
    ensures StartsNow(LEGACY, s, run, ANSWER)
  {}

  /** Worker 0 claims the job and waits past its lease; another takes the job over, and both handlers run at once. */
  lemma LateStartOverlaps() returns (s': State, other: nat)
    ensures Leads(LEGACY, EMPTY, s') && StartsBeside(LEGACY, s', 0, ANSWER, other)
  {
    hide Leads, Inv, Named, StartsNow;
    var s := FirstClaims();
    var s1 := Waits(LEGACY, s, 1);
    LeadsOn(LEGACY, EMPTY, s, s1);
    LeadsKeepsInv(LEGACY, s, s1);
    StillStarts(LEGACY, s, s1, 0, ANSWER);
    StepKeepsNamed(LEGACY, s, Tick);
    LateStartMayOverlap(LEGACY, s1, 0, ANSWER);
    s', other :| Leads(LEGACY, s1, s') && 0 in s'.runs && s'.runs[0] == s1.runs[0] && StartsBeside(LEGACY, s', 0, ANSWER, other) && s'.clock < s1.clock + 1;
    LeadsOn(LEGACY, EMPTY, s1, s');
  }

  /**
   Worker 0 claims a job of one attempt, a manual retry resets it, a newcomer claims
   and starts it, and worker 0 starts beside it: both within their leases, and two
   handlers of a job of one attempt started since the retry.
  */
  lemma ManualRetryOverlaps() returns (s: State, s': State, other: nat)
    ensures Leads(LEGACY, EMPTY, s) && "j" in s.jobs && Leads(LEGACY, Retried(LEGACY, s, "j"), s')
    ensures StartsBeside(LEGACY, s', 0, ANSWER, other) && !LeaseExpired(s'.runs[0].phase.row.value, s'.clock)
    ensures 0 in s.runs && s.runs[0].phase.Claimed? && other !in Retried(LEGACY, s, "j").runs
    ensures "j" in s'.jobs && s'.jobs["j"].value.maxAttempts == 1
  {
    hide Leads, Inv, Named, StartsNow, Retried;
    s := FirstClaims();
    s', other := RetryMayOverlap(LEGACY, s, 0, ANSWER);
  }
}

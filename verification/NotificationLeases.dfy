/**
 The lease of a delivery attempt: what it keeps apart, and exactly where it stops.
 An attempt reads the clock, then its notification, then claims, then calls its
 channel; its lease runs from the time it read.
*/
module NotificationLeases {
  import opened Common
  import opened FeltDb
  import opened Notifications
  import opened NotificationTheorems

  /** Each wait after a failed attempt is twice the one before, up to an hour. */
  lemma RetryDelaysDouble(cfg: Config, attemptCount: nat)
    requires attemptCount >= 1
    ensures RetryDelay(cfg, attemptCount + 1) == Min(2 * RetryDelay(cfg, attemptCount), MAX_RETRY_DELAY_MS)
    ensures RetryDelay(cfg, 1) == Min(cfg.retryDelayMs, 3_600_000)
  {
    var p := Pow2(attemptCount - 1);
    assert Pow2(attemptCount) == 2 * p;
    assert cfg.retryDelayMs * (2 * p) == 2 * (cfg.retryDelayMs * p);
  }

  // ---------------------------------------------------------------------------
  // Claims
  // ---------------------------------------------------------------------------

  /** The step claims this pending delivery, so its channel will be called. */
  predicate ClaimsPending(s: State, a: Action, k: DeliveryId) {
    && a.Go? && a.call in s.calls && s.calls[a.call].task.Attempt? && s.calls[a.call].task.delivery == k && s.calls[a.call].phase.Claiming?
    && CasWins(s.deliveries, k, s.calls[a.call].phase.row.version) && s.deliveries[k].value.status.Waiting?
  }

  lemma ClaimStamps(cfg: Config, s: State, a: Action, k: DeliveryId)
    requires Inv(s) && Enabled(s, a) && ClaimsPending(s, a, k)
    ensures var at := s.calls[a.call].phase.at; var last := s.deliveries[k].value.lastAttemptAt;
            && (last.Some? ==> at >= last.value + ATTEMPT_LEASE_MS)
            && k in Step(cfg, s, a).deliveries && Step(cfg, s, a).deliveries[k].value.lastAttemptAt == Some(at)
  {
    hide TablesOk;
    assert CallOk(s.notes, s.deliveries, s.clock, s.calls[a.call]);
  }

  /** Two claims of a delivery that is still pending are at least one lease apart, on the clock their workers read. */
  lemma PendingClaimsAreALeaseApart(cfg: Config, tr: seq<State>, acts: seq<Action>, i: nat, j: nat, k: DeliveryId)
    requires IsRun(cfg, tr, acts) && Inv(tr[0]) && i < j < |acts|
    requires ClaimsPending(tr[i], acts[i], k) && ClaimsPending(tr[j], acts[j], k)
    ensures tr[j].calls[acts[j].call].phase.at >= tr[i].calls[acts[i].call].phase.at + ATTEMPT_LEASE_MS
  {
    hide Inv, Step, NotesForward;
    RunStep(cfg, tr, acts, i);
    RunStep(cfg, tr, acts, j);
    RunKeepsInv(cfg, tr, acts, 0, i);
    ClaimStamps(cfg, tr[i], acts[i], k);
    RunKeepsInv(cfg, tr, acts, i + 1, j);
    ClaimStamps(cfg, tr[j], acts[j], k);
  }

  // ---------------------------------------------------------------------------
  // Calls of the channel
  // ---------------------------------------------------------------------------

  /** The attempt claimed this pending delivery, with a clock it read at `at`, and is about to call its channel or calling it. */
  predicate InCall(s: State, call: nat, k: DeliveryId, at: nat) {
    && call in s.calls && s.calls[call].task.Attempt? && s.calls[call].task.delivery == k
    && (s.calls[call].phase.Claimed? || s.calls[call].phase.Calling?)
    && s.calls[call].phase.row.value.status.Waiting? && s.calls[call].phase.row.value.lastAttemptAt == Some(at)
  }

  predicate AboutToCall(s: State, call: nat, k: DeliveryId, at: nat) {
    InCall(s, call, k, at) && s.calls[call].phase.Claimed?
  }

  /** The step calls the channel of this pending delivery. */
  predicate CallsChannel(s: State, a: Action, k: DeliveryId, at: nat) {
    a.Go? && AboutToCall(s, a.call, k, at)
  }

  /** Who is in a call got there by a claim step, and has been there since. */
  lemma {:induction false} Origin(cfg: Config, tr: seq<State>, acts: seq<Action>, i: nat, call: nat, k: DeliveryId, at: nat) returns (o: nat)
    requires IsRun(cfg, tr, acts) && tr[0] == EMPTY && i < |tr| && InCall(tr[i], call, k, at)
    ensures o < i && ClaimsPending(tr[o], acts[o], k) && acts[o].call == call && tr[o].calls[call].phase.at == at
    ensures forall m :: o < m <= i ==> InCall(tr[m], call, k, at)
    ensures tr[i].calls[call].phase.Claimed? ==> forall m :: o < m <= i ==> AboutToCall(tr[m], call, k, at)
  {
    hide Inv, Step, InCall, ClaimsPending;
    NotInTheEmptyState(call, k, at);
    RunStep(cfg, tr, acts, i - 1);
    EmptyIsFine();
    RunKeepsInv(cfg, tr, acts, 0, i - 1);
    EntersCall(cfg, tr[i - 1], acts[i - 1], call, k, at);
    if InCall(tr[i - 1], call, k, at) {
      o := Origin(cfg, tr, acts, i - 1, call, k, at);
    } else {
      o := i - 1;
    }
  }

  lemma NotInTheEmptyState(call: nat, k: DeliveryId, at: nat)
    ensures !InCall(EMPTY, call, k, at)
  {}

  lemma EntersCall(cfg: Config, s: State, a: Action, call: nat, k: DeliveryId, at: nat)
    requires Inv(s) && Enabled(s, a) && InCall(Step(cfg, s, a), call, k, at)
    ensures InCall(s, call, k, at) || (ClaimsPending(s, a, k) && a.call == call && s.calls[call].phase.at == at)
    ensures AboutToCall(Step(cfg, s, a), call, k, at) ==> InCall(s, call, k, at) ==> AboutToCall(s, call, k, at)
  {
    hide TablesOk, Finished, Changed, NewDeliveries, AnyArrived, AllGivenUp;
    if a.Go? && a.call == call {
      var c := s.calls[call];
      assert CallOk(s.notes, s.deliveries, s.clock, c);
      match c.phase
      case Claiming(row, _) => assert CasWins(s.deliveries, k, row.version) ==> s.deliveries[k] == row;
      case _ =>
    }
  }

  lemma {:induction false} ClockOnlyGrows(cfg: Config, tr: seq<State>, acts: seq<Action>, i: nat, j: nat)
    requires IsRun(cfg, tr, acts) && i <= j < |tr|
    ensures tr[i].clock <= tr[j].clock
    decreases j
  {
    hide Do;
    if i < j {
      ClockOnlyGrows(cfg, tr, acts, i, j - 1);
    }
  }

  /** A call comes no sooner than the clock its attempt read. */
  lemma CallsAfterRead(cfg: Config, tr: seq<State>, acts: seq<Action>, i: nat, o: nat, k: DeliveryId)
    requires IsRun(cfg, tr, acts) && tr[0] == EMPTY && o <= i < |tr| && o < |acts| && ClaimsPending(tr[o], acts[o], k)
    ensures tr[o].calls[acts[o].call].phase.at <= tr[i].clock
  {
    hide IsRun, TablesOk;
    EmptyIsFine();
    RunKeepsInv(cfg, tr, acts, 0, o);
    ClockOnlyGrows(cfg, tr, acts, o, i);
    assert CallOk(tr[o].notes, tr[o].deliveries, tr[o].clock, tr[o].calls[acts[o].call]);
  }

  predicate ALeaseApart(x: nat, y: nat) {
    x + ATTEMPT_LEASE_MS <= y || y + ATTEMPT_LEASE_MS <= x
  }

  predicate Within(now: nat, at: nat) {
    at <= now < at + ATTEMPT_LEASE_MS
  }

  /**
   The windows of any two channel calls for a pending delivery are disjoint, and a
   call made within its own window is in no other: of the calls made in time, each
   window of a lease holds at most one.
  */
  lemma PendingCallsKeepTheirWindows(cfg: Config, tr: seq<State>, acts: seq<Action>, i: nat, j: nat, k: DeliveryId, x: nat, y: nat)
    requires IsRun(cfg, tr, acts) && tr[0] == EMPTY && i < j < |acts|
    requires CallsChannel(tr[i], acts[i], k, x) && CallsChannel(tr[j], acts[j], k, y)
    ensures ALeaseApart(x, y) && x <= tr[i].clock && y <= tr[j].clock
    ensures Within(tr[i].clock, x) ==> !Within(tr[i].clock, y)
    ensures Within(tr[j].clock, y) ==> !Within(tr[j].clock, x)
  {
    hide ClaimsPending, Enabled, Step;
    var o := Origin(cfg, tr, acts, i, acts[i].call, k, x);
    var p := Origin(cfg, tr, acts, j, acts[j].call, k, y);
    CallsAfterRead(cfg, tr, acts, i, o, k);
    CallsAfterRead(cfg, tr, acts, j, p, k);
    if o == p {
      CallIsOver(cfg, tr, acts, i, k, x);
      assert false;
    }
    OriginsApart(cfg, tr, acts, o, p, k);
  }

  lemma CallIsOver(cfg: Config, tr: seq<State>, acts: seq<Action>, i: nat, k: DeliveryId, at: nat)
    requires IsRun(cfg, tr, acts) && i < |acts| && CallsChannel(tr[i], acts[i], k, at)
    ensures acts[i].call in tr[i + 1].calls && tr[i + 1].calls[acts[i].call].phase.Calling?
  {}

  lemma OriginsApart(cfg: Config, tr: seq<State>, acts: seq<Action>, o: nat, p: nat, k: DeliveryId)
    requires IsRun(cfg, tr, acts) && tr[0] == EMPTY && o < |acts| && p < |acts| && o != p
    requires ClaimsPending(tr[o], acts[o], k) && ClaimsPending(tr[p], acts[p], k)
    ensures ALeaseApart(tr[o].calls[acts[o].call].phase.at, tr[p].calls[acts[p].call].phase.at)
  {
    hide IsRun, ClaimsPending;
    EmptyIsFine();
    if o < p {
      PendingClaimsAreALeaseApart(cfg, tr, acts, o, p, k);
    } else {
      PendingClaimsAreALeaseApart(cfg, tr, acts, p, o, k);
    }
  }
}

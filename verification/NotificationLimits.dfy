/** Where the lease of a delivery attempt stops: when exactly two channel calls may meet, with the runs that show it. */
module NotificationLimits {
  import opened Common
  import opened FeltDb
  import opened Notifications
  import opened NotificationTheorems
  import opened NotificationLeases

  // ---------------------------------------------------------------------------
  // Continuations
  // ---------------------------------------------------------------------------

  /** Some actions lead from one state to the other. */
  ghost predicate Leads(cfg: Config, s: State, s': State) {
    exists tr, acts :: Path(cfg, tr, acts, s, s')
  }

  ghost predicate Path(cfg: Config, tr: seq<State>, acts: seq<Action>, s: State, s': State) {
    IsRun(cfg, tr, acts) && tr[0] == s && tr[|acts|] == s'
  }

  lemma NoStepLeads(cfg: Config, s: State)
    ensures Leads(cfg, s, s)
  {
    assert Path(cfg, [s], [], s, s);
  }

  lemma StepLeads(cfg: Config, s: State, a: Action)
    requires Enabled(s, a)
    ensures Leads(cfg, s, Step(cfg, s, a))
  {
    assert Path(cfg, [s, Step(cfg, s, a)], [a], s, Step(cfg, s, a));
  }

  lemma LeadsOn(cfg: Config, a: State, b: State, c: State)
    requires Leads(cfg, a, b) && Leads(cfg, b, c)
    ensures Leads(cfg, a, c)
  {
    hide Enabled, Step;
    var tr, acts :| Path(cfg, tr, acts, a, b);
    var tr', acts' :| Path(cfg, tr', acts', b, c);
    var all, did := tr[..|acts|] + tr', acts + acts';
    forall i | 0 <= i < |did| ensures Enabled(all[i], did[i]) && all[i + 1] == Step(cfg, all[i], did[i]) {
      if i < |acts| {
        assert Enabled(tr[i], acts[i]) && tr[i + 1] == Step(cfg, tr[i], acts[i]);
      } else {
        assert Enabled(tr'[i - |acts|], acts'[i - |acts|]) && tr'[i - |acts| + 1] == Step(cfg, tr'[i - |acts|], acts'[i - |acts|]);
      }
    }
    assert Path(cfg, all, did, a, c);
  }

  /** One more step of the continuation. */
  lemma Then(cfg: Config, s: State, s1: State, a: Action)
    requires Leads(cfg, s, s1) && Enabled(s1, a)
    ensures Leads(cfg, s, Step(cfg, s1, a))
  {
    hide Leads, Step;
    StepLeads(cfg, s1, a);
    LeadsOn(cfg, s, s1, Step(cfg, s1, a));
  }

  lemma {:induction false} Waits(cfg: Config, s: State, k: nat) returns (s': State)
    ensures Leads(cfg, s, s') && s' == s.(clock := s.clock + k)
  {
    hide Leads;
    if k == 0 {
      s' := s;
      NoStepLeads(cfg, s);
    } else {
      s' := Waits(cfg, s, k - 1);
      Then(cfg, s, s', Tick);
      s' := Step(cfg, s', Tick);
    }
  }

  lemma ReachableKeepsInv(cfg: Config, s: State)
    requires Leads(cfg, EMPTY, s)
    ensures Inv(s)
  {
    hide Inv, Enabled, Step;
    var tr, acts :| Path(cfg, tr, acts, EMPTY, s);
    EmptyIsFine();
    RunKeepsInv(cfg, tr, acts, 0, |acts|);
  }

  // ---------------------------------------------------------------------------
  // Before a claim wins its channel is known
  // ---------------------------------------------------------------------------

  predicate CallKnown(cfg: Config, c: Call) {
    c.phase.Claiming? || c.phase.Claimed? || c.phase.Calling? ==> c.phase.row.value.channel in cfg.channels
  }

  ghost predicate ChannelKnown(cfg: Config, s: State) {
    forall n :: n in s.calls ==> CallKnown(cfg, s.calls[n])
  }

  lemma DoKeepsChannel(cfg: Config, s: State, c: Call, outcome: Outcome)
    requires CallKnown(cfg, c)
    ensures var e := Do(cfg, s, c, outcome); e.next.Some? ==> CallKnown(cfg, e.next.value)
  {
    hide Finished, Changed, NewDeliveries, AnyArrived, AllGivenUp, Admitted;
  }

  lemma StepKeepsChannel(cfg: Config, s: State, a: Action)
    requires ChannelKnown(cfg, s) && Enabled(s, a)
    ensures ChannelKnown(cfg, Step(cfg, s, a))
  {
    hide Do;
    if a.Go? {
      DoKeepsChannel(cfg, s, s.calls[a.call], a.outcome);
    }
  }

  lemma ReachableKnowsChannel(cfg: Config, s: State)
    requires Leads(cfg, EMPTY, s)
    ensures ChannelKnown(cfg, s)
  {
    hide ChannelKnown, Enabled, Step;
    var tr: seq<State>, acts: seq<Action> :| Path(cfg, tr, acts, EMPTY, s);
    assert ChannelKnown(cfg, EMPTY) by { EmptyKnowsChannel(cfg); }
    for i := 0 to |acts|
      invariant ChannelKnown(cfg, tr[i])
    {
      StepKeepsChannel(cfg, tr[i], acts[i]);
    }
  }

  lemma EmptyKnowsChannel(cfg: Config)
    ensures ChannelKnown(cfg, EMPTY)
  {}

  // ---------------------------------------------------------------------------
  // A fresh attempt gets as far as its channel
  // ---------------------------------------------------------------------------

  lemma {:induction false} FreshNumber(keys: set<nat>) returns (n: nat)
    ensures forall k :: k in keys ==> k < n
  {
    if keys == {} {
      n := 0;
    } else {
      var k :| k in keys;
      var rest := keys - {k};
      var m := FreshNumber(rest);
      n := if k < m then m else k + 1;
      forall j | j in keys ensures j < n {
        assert j == k || j in rest;
      }
    }
  }

  /** The notification of the delivery has not expired, and its channel is configured. */
  predicate Callable(cfg: Config, s: State, k: DeliveryId) {
    k in s.deliveries && var d := s.deliveries[k].value;
    d.notification in s.notes && s.notes[d.notification].value.tenant == d.tenant && !PastExpiry(s.notes[d.notification].value, s.clock) && d.channel in cfg.channels
  }

  predicate At(s: State, n: nat, mode: Mode, k: DeliveryId, phase: Phase) {
    k in s.deliveries && n in s.calls && s.calls[n] == Call(Attempt(mode, s.deliveries[k].value.tenant, k), phase)
  }

  function ClaimedRow(row: Row<Delivery>, at: nat): Row<Delivery> {
    Row(ClaimedDelivery(row.value, at), row.version + 1)
  }

  lemma ReadStep(cfg: Config, s: State, n: nat, mode: Mode, k: DeliveryId)
    requires At(s, n, mode, k, Entered) && Admitted(s.deliveries[k].value, mode, s.clock)
    ensures var p := Examining(s.deliveries[k], s.clock);
            Step(cfg, s, Go(n, Success)) == s.(calls := s.calls[n := s.calls[n].(phase := p)])
  {}

  lemma ExamineStep(cfg: Config, s: State, n: nat, mode: Mode, k: DeliveryId, at: nat)
    requires k in s.deliveries && At(s, n, mode, k, Examining(s.deliveries[k], at)) && at <= s.clock && Callable(cfg, s, k)
    ensures var p := Claiming(s.deliveries[k], at);
            Step(cfg, s, Go(n, Success)) == s.(calls := s.calls[n := s.calls[n].(phase := p)])
  {}

  lemma ClaimStep(cfg: Config, s: State, n: nat, mode: Mode, k: DeliveryId, at: nat)
    requires k in s.deliveries && At(s, n, mode, k, Claiming(s.deliveries[k], at))
    ensures var row := ClaimedRow(s.deliveries[k], at);
            Step(cfg, s, Go(n, Success)) == s.(deliveries := s.deliveries[k := row], calls := s.calls[n := s.calls[n].(phase := Claimed(row))])
  {}

  lemma CallStep(cfg: Config, s: State, n: nat)
    requires n in s.calls && s.calls[n].phase.Claimed?
    ensures Step(cfg, s, Go(n, Success)) == s.(calls := s.calls[n := s.calls[n].(phase := Calling(s.calls[n].phase.row))])
  {}

  /** An attempt that is admitted reads its delivery and its notification. */
  lemma GetsAdmitted(cfg: Config, s: State, n: nat, mode: Mode, k: DeliveryId) returns (s': State)
    requires At(s, n, mode, k, Entered) && Admitted(s.deliveries[k].value, mode, s.clock) && Callable(cfg, s, k)
    ensures Leads(cfg, s, s') && s' == s.(calls := s.calls[n := s.calls[n].(phase := Claiming(s.deliveries[k], s.clock))])
  {
    hide Leads, Do, Admitted, PastExpiry;
    StepLeads(cfg, s, Go(n, Success));
    ReadStep(cfg, s, n, mode, k);
    var s1 := Step(cfg, s, Go(n, Success));
    Then(cfg, s, s1, Go(n, Success));
    ExamineStep(cfg, s1, n, mode, k, s.clock);
    s' := Step(cfg, s1, Go(n, Success));
  }

  /** It claims the delivery as it is. */
  lemma ClaimsIt(cfg: Config, s: State, n: nat, mode: Mode, k: DeliveryId) returns (s': State)
    requires At(s, n, mode, k, Entered) && Admitted(s.deliveries[k].value, mode, s.clock) && Callable(cfg, s, k)
    ensures var row := ClaimedRow(s.deliveries[k], s.clock);
            Leads(cfg, s, s') && s' == s.(deliveries := s.deliveries[k := row], calls := s.calls[n := s.calls[n].(phase := Claimed(row))])
  {
    hide Leads, Do, Admitted, PastExpiry;
    var s1 := GetsAdmitted(cfg, s, n, mode, k);
    Then(cfg, s, s1, Go(n, Success));
    ClaimStep(cfg, s1, n, mode, k, s.clock);
    s' := Step(cfg, s1, Go(n, Success));
  }

  /** A fresh attempt is calling the channel; everything else is as it was. */
  predicate NewcomerCalls(s: State, s': State, n: nat, k: DeliveryId) {
    && k in s.deliveries && n !in s.calls
    && var row := ClaimedRow(s.deliveries[k], s.clock);
       s' == s.(deliveries := s.deliveries[k := row], calls := s.calls[n := Call(Attempt(Initial, s.deliveries[k].value.tenant, k), Calling(row))])
  }

  lemma NewcomerGetsThrough(cfg: Config, s: State, k: DeliveryId) returns (s': State, n: nat)
    requires Callable(cfg, s, k) && Admitted(s.deliveries[k].value, Initial, s.clock)
    ensures Leads(cfg, s, s') && NewcomerCalls(s, s', n, k)
  {
    hide Leads, Do, Admitted, PastExpiry;
    n := FreshNumber(s.calls.Keys);
    var task := Attempt(Initial, s.deliveries[k].value.tenant, k);
    StepLeads(cfg, s, Begin(n, task));
    var s1 := Step(cfg, s, Begin(n, task));
    var s2 := ClaimsIt(cfg, s1, n, Initial, k);
    LeadsOn(cfg, s, s1, s2);
    Then(cfg, s, s2, Go(n, Success));
    CallStep(cfg, s2, n);
    s' := Step(cfg, s2, Go(n, Success));
  }

  // ---------------------------------------------------------------------------
  // A pending delivery: two calls may meet exactly when one of them comes too late
  // ---------------------------------------------------------------------------

  /** In every reachable state the windows of two attempts in a call are disjoint. */
  lemma WindowsApart(cfg: Config, s: State, a: nat, b: nat, k: DeliveryId, x: nat, y: nat)
    requires Leads(cfg, EMPTY, s) && InCall(s, a, k, x) && InCall(s, b, k, y) && a != b
    ensures ALeaseApart(x, y) && x <= s.clock && y <= s.clock
  {
    hide Inv, ClaimsPending, Enabled, Step, InCall;
    var tr: seq<State>, acts: seq<Action> :| Path(cfg, tr, acts, EMPTY, s);
    var o := Origin(cfg, tr, acts, |acts|, a, k, x);
    var p := Origin(cfg, tr, acts, |acts|, b, k, y);
    CallsAfterRead(cfg, tr, acts, |acts|, o, k);
    CallsAfterRead(cfg, tr, acts, |acts|, p, k);
    OriginsApart(cfg, tr, acts, o, p, k);
  }

  /** The attempt is about to call the channel of a pending delivery while another, in its window, is calling it. */
  predicate CallsBeside(s: State, call: nat, k: DeliveryId, at: nat, other: nat, y: nat) {
    AboutToCall(s, call, k, at) && other != call && InCall(s, other, k, y) && s.calls[other].phase.Calling? && Within(s.clock, y)
  }

  /** Before the clock reaches `until` the attempt, still about to call, may meet another calling in its window. */
  ghost predicate MayMeet(cfg: Config, s: State, call: nat, k: DeliveryId, at: nat, until: nat)
    requires call in s.calls
  {
    exists s', other, y :: Leads(cfg, s, s') && call in s'.calls && s'.calls[call] == s.calls[call] && CallsBeside(s', call, k, at, other, y) && s'.clock < until
  }

  /**
   An attempt about to call for a pending delivery may meet another call in its
   window, at this instant, only when its own lease has run out; and then it may,
   as long as nobody took the record over and the notification has not expired.
  */
  lemma OverlapExactly(cfg: Config, s: State, call: nat, k: DeliveryId, at: nat)
    requires Leads(cfg, EMPTY, s) && AboutToCall(s, call, k, at)
    ensures MayMeet(cfg, s, call, k, at, s.clock + 1) ==> s.clock >= at + ATTEMPT_LEASE_MS
    ensures Repeatable(s, call, k) ==> (MayMeet(cfg, s, call, k, at, s.clock + 1) <==> s.clock >= at + ATTEMPT_LEASE_MS)
  {
    hide Leads, Inv, Repeatable;
    if s.clock >= at + ATTEMPT_LEASE_MS {
      if Repeatable(s, call, k) {
        LateCallMayMeet(cfg, s, call, k, at);
      }
    } else if MayMeet(cfg, s, call, k, at, s.clock + 1) {
      var s', other, y :| Leads(cfg, s, s') && call in s'.calls && s'.calls[call] == s.calls[call] && CallsBeside(s', call, k, at, other, y) && s'.clock < s.clock + 1;
      LeadsOn(cfg, EMPTY, s, s');
      WindowsApart(cfg, s', call, other, k, at, y);
      assert false;
    }
  }

  /** The record is as the attempt claimed it, and its notification has not expired. */
  predicate Repeatable(s: State, call: nat, k: DeliveryId)
    requires call in s.calls && s.calls[call].phase.Claimed?
  {
    && k in s.deliveries && s.deliveries[k] == s.calls[call].phase.row
    && (s.deliveries[k].value.notification in s.notes ==> !PastExpiry(s.notes[s.deliveries[k].value.notification].value, s.clock))
  }

  lemma LateCallMayMeet(cfg: Config, s: State, call: nat, k: DeliveryId, at: nat)
    requires Leads(cfg, EMPTY, s) && AboutToCall(s, call, k, at) && s.clock >= at + ATTEMPT_LEASE_MS && Repeatable(s, call, k)
    ensures MayMeet(cfg, s, call, k, at, s.clock + 1)
  {
    hide Leads, Inv, ChannelKnown;
    ReachableKeepsInv(cfg, s);
    ReachableKnowsChannel(cfg, s);
    IsCallable(cfg, s, call, k);
    var s', n := NewcomerGetsThrough(cfg, s, k);
    assert CallsBeside(s', call, k, at, n, s.clock);
  }

  lemma IsCallable(cfg: Config, s: State, call: nat, k: DeliveryId)
    requires Inv(s) && ChannelKnown(cfg, s) && call in s.calls && s.calls[call].phase.Claimed? && Repeatable(s, call, k)
    ensures Callable(cfg, s, k)
  {
    assert Belongs(s.notes, k, s.deliveries[k].value);
  }

  // ---------------------------------------------------------------------------
  // A delivery that is being retried has no lease at all
  // ---------------------------------------------------------------------------

  /** Both attempts are calling the channel of the delivery, on this status. */
  predicate BothCalling(s: State, a: nat, b: nat, k: DeliveryId, status: DeliveryStatus) {
    && a in s.calls && b in s.calls && a != b
    && s.calls[a].task.Attempt? && s.calls[b].task.Attempt? && s.calls[a].task.delivery == s.calls[b].task.delivery == k
    && s.calls[a].phase.Calling? && s.calls[b].phase.Calling?
    && s.calls[a].phase.row.value.status == s.calls[b].phase.row.value.status == status
  }

  /** Any attempt about to call for a delivery that is being retried may meet another, at this very instant, at any time. */
  lemma RetryingHasNoLease(cfg: Config, s: State, call: nat, k: DeliveryId) returns (s': State, n: nat)
    requires Leads(cfg, EMPTY, s) && call in s.calls && s.calls[call].task.Attempt? && s.calls[call].task.delivery == k
    requires s.calls[call].phase.Claimed? && Repeatable(s, call, k) && s.deliveries[k].value.status.Retrying?
    ensures Leads(cfg, s, s') && s'.clock == s.clock && BothCalling(s', call, n, k, DeliveryStatus.Retrying)
  {
    hide Leads, Inv, ChannelKnown;
    ReachableKeepsInv(cfg, s);
    ReachableKnowsChannel(cfg, s);
    IsCallable(cfg, s, call, k);
    s', n := NewcomerGetsThrough(cfg, s, k);
    Then(cfg, s, s', Go(call, Success));
    CallStep(cfg, s', call);
    s' := Step(cfg, s', Go(call, Success));
  }

  // ---------------------------------------------------------------------------
  // Runs from the empty state
  // ---------------------------------------------------------------------------

  const NOTE := Keyed("tenant", "recipient", "key")
  const KEY := ForChannel(NOTE, "c")
  const CONFIG := Config(true, {"c"}, 3, 1)

  /** A notification on one channel is created, and its first attempt enters. */
  lemma FirstAttempt() returns (s: State)
    ensures Leads(CONFIG, EMPTY, s) && At(s, 1, Initial, KEY, Entered) && s.calls.Keys == {1} && s.clock == 0 && Callable(CONFIG, s, KEY)
    ensures s.deliveries == map[KEY := Row(Delivery("tenant", NOTE, "c", Waiting, 0, 3, None, None), 1)]
    ensures s.notes.Keys == {NOTE} && s.notes[NOTE].value.expiresAt.None?
  {
    hide Leads;
    var task := Task.Notify(NOTE, "tenant", "recipient", ["c"], None);
    StepLeads(CONFIG, EMPTY, Begin(0, task));
    var s0 := Step(CONFIG, EMPTY, Begin(0, task));
    Then(CONFIG, EMPTY, s0, Go(0, Success));
    var s1 := Step(CONFIG, s0, Go(0, Success));
    assert NewDeliveries(CONFIG, task) == map[KEY := Row(Delivery("tenant", NOTE, "c", Waiting, 0, 3, None, None), 1)];
    var attempt := Attempt(Initial, "tenant", KEY);
    Then(CONFIG, EMPTY, s1, Begin(1, attempt));
    s := Step(CONFIG, s1, Begin(1, attempt));
  }

  /** The first attempt reads at 0 and claims a lease later; the second reads, claims and calls at that instant; both are calling. */
  lemma PendingCallsOverlap() returns (s: State, n: nat)
    ensures Leads(CONFIG, EMPTY, s) && BothCalling(s, 1, n, KEY, Waiting)
    ensures s.calls[1].phase.row.value.lastAttemptAt == Some(0) && s.calls[n].phase.row.value.lastAttemptAt == Some(ATTEMPT_LEASE_MS) && s.clock == ATTEMPT_LEASE_MS
  {
    hide Leads, Do;
    var s0 := FirstAttempt();
    var s1 := ClaimsIt(CONFIG, s0, 1, Initial, KEY);
    LeadsOn(CONFIG, EMPTY, s0, s1);
    var s2 := Waits(CONFIG, s1, ATTEMPT_LEASE_MS);
    LeadsOn(CONFIG, EMPTY, s1, s2);
    s, n := NewcomerGetsThrough(CONFIG, s2, KEY);
    LeadsOn(CONFIG, EMPTY, s2, s);
    Then(CONFIG, EMPTY, s, Go(1, Success));
    CallStep(CONFIG, s, 1);
    s := Step(CONFIG, s, Go(1, Success));
  }

  /** The first attempt fails and the delivery is to be retried; a second attempt claims it. */
  lemma FirstRetry() returns (s: State)
    ensures Leads(CONFIG, EMPTY, s) && KEY in s.deliveries && s.deliveries[KEY].value.status.Retrying? && At(s, 2, Scheduled, KEY, Claimed(s.deliveries[KEY]))
    ensures s.notes.Keys == {NOTE} && s.notes[NOTE].value.expiresAt.None? && s.deliveries[KEY].value.notification == NOTE
  {
    hide Leads;
    var failure := Failure(true);
    var s0 := FirstAttempt();
    var s1 := ClaimsIt(CONFIG, s0, 1, Initial, KEY);
    LeadsOn(CONFIG, EMPTY, s0, s1);
    Then(CONFIG, EMPTY, s1, Go(1, Success));
    CallStep(CONFIG, s1, 1);
    var s2 := Step(CONFIG, s1, Go(1, Success));
    Then(CONFIG, EMPTY, s2, Go(1, failure));
    var s3 := Step(CONFIG, s2, Go(1, failure));
    Then(CONFIG, EMPTY, s3, Go(1, Success));
    var s4 := Step(CONFIG, s3, Go(1, Success));
    Then(CONFIG, EMPTY, s4, Tick);
    var s5 := Step(CONFIG, s4, Tick);
    var attempt := Attempt(Scheduled, "tenant", KEY);
    Then(CONFIG, EMPTY, s5, Begin(2, attempt));
    var s6 := Step(CONFIG, s5, Begin(2, attempt));
    s := ClaimsIt(CONFIG, s6, 2, Scheduled, KEY);
    LeadsOn(CONFIG, EMPTY, s6, s);
  }

  /** Right after the retry claimed the delivery another attempt is admitted, claims it too, and both call the channel. */
  lemma RetryingCallsOverlap() returns (s: State, n: nat)
    ensures Leads(CONFIG, EMPTY, s) && BothCalling(s, 2, n, KEY, DeliveryStatus.Retrying)
  {
    hide Leads;
    var s0 := FirstRetry();
    s, n := RetryingHasNoLease(CONFIG, s0, 2, KEY);
    LeadsOn(CONFIG, EMPTY, s0, s);
  }
}

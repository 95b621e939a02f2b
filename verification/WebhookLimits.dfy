/** Where the webhook protocol stops: what it does not guarantee, when exactly, each with the run that shows it. */
module WebhookLimits {
  import opened Common
  import opened FeltDb
  import opened Webhooks
  import opened WebhookTheorems

  /** A read is turned away exactly when the delivery is absent, another tenant's, delivered or being delivered. */
  lemma ReadRefusedExactly(deliveries: Deliveries, task: Task)
    requires task.Deliver?
    ensures DoRead(deliveries, task) == RETURNED <==>
            || task.id !in deliveries || deliveries[task.id].value.tenant != task.tenant
            || deliveries[task.id].value.status.Delivered? || deliveries[task.id].value.status.Delivering?
  {}

  // ---------------------------------------------------------------------------
  // Continuations without a replay
  // ---------------------------------------------------------------------------

  predicate IsReplay(a: Action) {
    a.Enter? && a.task.Replay?
  }

  /** Some actions, none of them a replay, lead from one state to the other. */
  ghost predicate Leads(maxAttempts: nat, s: State, s': State) {
    exists tr, acts :: Path(maxAttempts, tr, acts, s, s')
  }

  ghost predicate Path(maxAttempts: nat, tr: seq<State>, acts: seq<Action>, s: State, s': State) {
    IsRun(maxAttempts, tr, acts) && (forall a :: a in acts ==> !IsReplay(a)) && tr[0] == s && tr[|acts|] == s'
  }

  lemma NoStepLeads(maxAttempts: nat, s: State)
    ensures Leads(maxAttempts, s, s)
  {
    assert Path(maxAttempts, [s], [], s, s);
  }

  lemma StepLeads(maxAttempts: nat, s: State, a: Action)
    requires Enabled(s, a) && !IsReplay(a)
    ensures Leads(maxAttempts, s, Step(maxAttempts, s, a))
  {
    assert Path(maxAttempts, [s, Step(maxAttempts, s, a)], [a], s, Step(maxAttempts, s, a));
  }

  lemma LeadsOn(maxAttempts: nat, a: State, b: State, c: State)
    requires Leads(maxAttempts, a, b) && Leads(maxAttempts, b, c)
    ensures Leads(maxAttempts, a, c)
  {
    hide Enabled, Step;
    var tr, acts :| Path(maxAttempts, tr, acts, a, b);
    var tr', acts' :| Path(maxAttempts, tr', acts', b, c);
    var all, did := tr[..|acts|] + tr', acts + acts';
    forall i | 0 <= i < |did| ensures Enabled(all[i], did[i]) && all[i + 1] == Step(maxAttempts, all[i], did[i]) {
      if i < |acts| {
        assert Enabled(tr[i], acts[i]) && tr[i + 1] == Step(maxAttempts, tr[i], acts[i]);
      } else {
        assert Enabled(tr'[i - |acts|], acts'[i - |acts|]) && tr'[i - |acts| + 1] == Step(maxAttempts, tr'[i - |acts|], acts'[i - |acts|]);
      }
    }
    assert Path(maxAttempts, all, did, a, c);
  }

  /** One more step of the continuation. */
  lemma Then(maxAttempts: nat, s: State, s1: State, a: Action)
    requires Leads(maxAttempts, s, s1) && Enabled(s1, a) && !IsReplay(a)
    ensures Leads(maxAttempts, s, Step(maxAttempts, s1, a))
  {
    hide Leads, Step;
    StepLeads(maxAttempts, s1, a);
    LeadsOn(maxAttempts, s, s1, Step(maxAttempts, s1, a));
  }

  lemma LeadsKeepsInv(maxAttempts: nat, s: State, s': State)
    requires Leads(maxAttempts, s, s') && Inv(s)
    ensures Inv(s')
  {
    hide Inv, Enabled, Step;
    var tr, acts :| Path(maxAttempts, tr, acts, s, s');
    RunKeepsInv(maxAttempts, tr, acts, |acts|);
  }

  lemma LeadsKeepsBooks(maxAttempts: nat, s: State, s': State)
    requires Leads(maxAttempts, s, s') && Inv(s) && BooksOk(s)
    ensures BooksOk(s')
  {
    hide IsRun, Inv, BooksOk;
    var tr, acts :| Path(maxAttempts, tr, acts, s, s');
    PathIsRun(maxAttempts, tr, acts, s, s');
    RunKeepsBooks(maxAttempts, tr, acts, |acts|);
  }

  lemma PathIsRun(maxAttempts: nat, tr: seq<State>, acts: seq<Action>, s: State, s': State)
    requires Path(maxAttempts, tr, acts, s, s')
    ensures IsRun(maxAttempts, tr, acts) && |tr| == |acts| + 1 && tr[0] == s && tr[|acts|] == s'
  {}

  // ---------------------------------------------------------------------------
  // A fresh call claims a delivery and posts it
  // ---------------------------------------------------------------------------

  /** Everything is fine, and the attempt gets as far as the network. */
  const FINE := Input(Facts(true, true, true, false, true, true, None), true, Success)

  /** The receiver refuses the delivery for good. */
  const REFUSED := FINE.(outcome := Provider(Some(400)))

  predicate At(s: State, n: nat, id: string, phase: Phase) {
    id in s.deliveries && n in s.calls && s.calls[n].task == Deliver(s.deliveries[id].value.tenant, id) && s.calls[n].phase == phase
  }

  predicate Claimable(d: Delivery) {
    !d.status.Delivered? && !d.status.Delivering?
  }

  function ClaimedRow(row: Row<Delivery>): Row<Delivery> {
    Row(row.value.(status := Delivering), row.version + 1)
  }

  lemma EnterStep(maxAttempts: nat, s: State, id: string) returns (s': State)
    requires Inv(s) && id in s.deliveries
    ensures Leads(maxAttempts, s, s') && At(s', s.nextCall, id, Entered) && s.nextCall !in s.calls
    ensures s' == s.(calls := s.calls[s.nextCall := s'.calls[s.nextCall]], nextCall := s.nextCall + 1)
  {
    hide Leads, CallOk, HoldersDistinct;
    var a := Enter(Deliver(s.deliveries[id].value.tenant, id));
    StepLeads(maxAttempts, s, a);
    s' := Step(maxAttempts, s, a);
  }

  lemma ReadStep(maxAttempts: nat, s: State, n: nat, id: string)
    requires At(s, n, id, Entered) && Claimable(s.deliveries[id].value)
    ensures var s', p := Step(maxAttempts, s, Go(n, FINE)), Checking(s.deliveries[id]);
            At(s', n, id, p) && s' == s.(calls := s.calls[n := s.calls[n].(phase := p)], books := s.books[id := BookOf(s, id)])
  {}

  lemma CheckStep(maxAttempts: nat, s: State, n: nat, id: string, row: Row<Delivery>)
    requires At(s, n, id, Checking(row))
    ensures var s', p := Step(maxAttempts, s, Go(n, FINE)), ToClaim(row);
            At(s', n, id, p) && s' == s.(calls := s.calls[n := s.calls[n].(phase := p)], books := s.books[id := BookOf(s, id)])
  {}

  lemma ClaimStep(maxAttempts: nat, s: State, n: nat, id: string)
    requires id in s.deliveries && At(s, n, id, ToClaim(s.deliveries[id]))
    ensures var s', row := Step(maxAttempts, s, Go(n, FINE)), ClaimedRow(s.deliveries[id]);
            At(s', n, id, Claimed(row))
            && s' == s.(deliveries := s.deliveries[id := row],
                        calls := s.calls[n := s.calls[n].(phase := Claimed(row), epoch := Epoch(s, id))],
                        books := s.books[id := BookOf(s, id)])
  {}

  /** The call holds a claim of the record as it is; nothing else has moved. */
  ghost predicate TookDelivery(s: State, s': State, n: nat, id: string) {
    && id in s.deliveries && n in s'.calls && s'.calls == s.calls[n := s'.calls[n]]
    && s'.clock == s.clock && s.nextCall <= s'.nextCall && BookOf(s', id) == BookOf(s, id)
    && s'.deliveries == s.deliveries[id := ClaimedRow(s.deliveries[id])]
    && At(s', n, id, Claimed(s'.deliveries[id])) && s'.calls[n].epoch == Epoch(s, id)
  }

  /** A call that has entered claims the delivery it finds, pending, retrying or failed. */
  lemma Claims(maxAttempts: nat, s: State, n: nat, id: string) returns (s': State)
    requires At(s, n, id, Entered) && Claimable(s.deliveries[id].value)
    ensures Leads(maxAttempts, s, s') && TookDelivery(s, s', n, id)
  {
    hide Leads, Do;
    StepLeads(maxAttempts, s, Go(n, FINE));
    ReadStep(maxAttempts, s, n, id);
    var s1 := Step(maxAttempts, s, Go(n, FINE));
    Then(maxAttempts, s, s1, Go(n, FINE));
    CheckStep(maxAttempts, s1, n, id, s.deliveries[id]);
    var s2 := Step(maxAttempts, s1, Go(n, FINE));
    Then(maxAttempts, s, s2, Go(n, FINE));
    ClaimStep(maxAttempts, s2, n, id);
    s' := Step(maxAttempts, s2, Go(n, FINE));
  }

  /** A fresh call claims the delivery. */
  lemma TakesDelivery(maxAttempts: nat, s: State, id: string) returns (s': State)
    requires Inv(s) && id in s.deliveries && Claimable(s.deliveries[id].value)
    ensures Leads(maxAttempts, s, s') && s.nextCall !in s.calls && s.nextCall < s'.nextCall && TookDelivery(s, s', s.nextCall, id)
  {
    hide Leads, Inv;
    var s1 := EnterStep(maxAttempts, s, id);
    s' := Claims(maxAttempts, s1, s.nextCall, id);
    LeadsOn(maxAttempts, s, s1, s');
  }

  lemma PostStep(maxAttempts: nat, s: State, n: nat, id: string, row: Row<Delivery>)
    requires At(s, n, id, Claimed(row))
    ensures PostsNow(maxAttempts, s, n, FINE)
    ensures var s' := Step(maxAttempts, s, Go(n, FINE));
            At(s', n, id, Posted(row)) && s' == s.(calls := s.calls[n := s.calls[n].(phase := Posted(row))], books := s.books[id := Noted(BookOf(s, id), n, s.calls[n].epoch, NotePost)])
  {}

  lemma AnswerStep(maxAttempts: nat, s: State, n: nat, id: string, row: Row<Delivery>)
    requires At(s, n, id, Posted(row))
    ensures var s', p := Step(maxAttempts, s, Go(n, REFUSED)), Settling(row, REFUSED.outcome);
            At(s', n, id, p) && s' == s.(calls := s.calls[n := s.calls[n].(phase := p)], books := s.books[id := BookOf(s, id)])
  {}

  lemma SettleStep(maxAttempts: nat, s: State, n: nat, id: string)
    requires id in s.deliveries && At(s, n, id, Settling(s.deliveries[id], REFUSED.outcome))
    ensures var s', row := Step(maxAttempts, s, Go(n, FINE)), s.deliveries[id];
            s' == s.(deliveries := s.deliveries[id := Row(row.value.(status := Failed, attemptCount := row.value.attemptCount + 1), row.version + 1)],
                     calls := s.calls - {n}, books := s.books[id := BookOf(s, id)])
  {}

  /** The call posts, is refused for good, and records the failure. */
  lemma PostsAndFails(maxAttempts: nat, s: State, n: nat, id: string) returns (s': State)
    requires id in s.deliveries && At(s, n, id, Claimed(s.deliveries[id])) && s.calls[n].epoch == Epoch(s, id)
    ensures Leads(maxAttempts, s, s') && PostsNow(maxAttempts, s, n, FINE)
    ensures s'.calls == s.calls - {n} && s'.nextCall == s.nextCall && BookOf(s', id) == Noted(BookOf(s, id), n, Epoch(s, id), NotePost)
    ensures s'.deliveries.Keys == s.deliveries.Keys && s'.deliveries[id].value.status.Failed? && s'.deliveries[id].value.tenant == s.deliveries[id].value.tenant
  {
    hide Leads, Do, PostsNow;
    StepLeads(maxAttempts, s, Go(n, FINE));
    PostStep(maxAttempts, s, n, id, s.deliveries[id]);
    var s1 := Step(maxAttempts, s, Go(n, FINE));
    Then(maxAttempts, s, s1, Go(n, REFUSED));
    AnswerStep(maxAttempts, s1, n, id, s.deliveries[id]);
    var s2 := Step(maxAttempts, s1, Go(n, REFUSED));
    Then(maxAttempts, s, s2, Go(n, FINE));
    SettleStep(maxAttempts, s2, n, id);
    s' := Step(maxAttempts, s2, Go(n, FINE));
  }

  // ---------------------------------------------------------------------------
  // A failed delivery is attempted again, without bound
  // ---------------------------------------------------------------------------

  /**
   From any state in which a delivery failed for good, every number of posts can
   follow in one epoch: each call that reads it attempts it.
  */
  lemma {:induction false} FailedIsPostedForever(maxAttempts: nat, s: State, id: string, n: nat) returns (s': State)
    requires Inv(s) && BooksOk(s) && id in s.deliveries && s.deliveries[id].value.status.Failed?
    ensures Leads(maxAttempts, s, s') && |BookOf(s', id)| == |BookOf(s, id)| && |Open(BookOf(s', id))| == |Open(BookOf(s, id))| + n
    ensures id in s'.deliveries && s'.deliveries[id].value.status.Failed?
    decreases n
  {
    hide Leads, Inv;
    if n == 0 {
      NoStepLeads(maxAttempts, s);
      s' := s;
    } else {
      var s0 := FailedIsPostedForever(maxAttempts, s, id, n - 1);
      LeadsKeepsInv(maxAttempts, s, s0);
      LeadsKeepsBooks(maxAttempts, s, s0);
      NotPostedYet(s0, id, s0.nextCall);
      var s1 := TakesDelivery(maxAttempts, s0, id);
      s' := PostsAndFails(maxAttempts, s1, s0.nextCall, id);
      LeadsOn(maxAttempts, s, s0, s1);
      LeadsOn(maxAttempts, s, s1, s');
      assert Open(BookOf(s', id)) == Open(BookOf(s0, id)) + {s0.nextCall};
    }
  }

  /** The bound is exact in what it asks of reads: past any state with a failed delivery, it can be broken. */
  lemma FailedReadBreaksTheBound(maxAttempts: nat, tr: seq<State>, acts: seq<Action>, i: nat, id: string) returns (s': State)
    requires IsRun(maxAttempts, tr, acts) && Inv(tr[0]) && BooksOk(tr[0]) && i < |tr|
    requires id in tr[i].deliveries && tr[i].deliveries[id].value.status.Failed?
    ensures Leads(maxAttempts, tr[i], s') && |Open(BookOf(s', id))| > maxAttempts
  {
    hide IsRun, Leads, Inv, BooksOk;
    RunKeepsInv(maxAttempts, tr, acts, i);
    RunKeepsBooks(maxAttempts, tr, acts, i);
    s' := FailedIsPostedForever(maxAttempts, tr[i], id, maxAttempts + 1);
  }

  /** Of two calls that entered together, the second reads the delivery when the first has failed it, and posts it again. */
  lemma SecondCallPostsItAgain(maxAttempts: nat, s: State, a: nat, b: nat, id: string) returns (s1: State, s2: State, s3: State)
    requires At(s, a, id, Entered) && At(s, b, id, Entered) && a != b && Ready(s.deliveries[id].value)
    ensures Leads(maxAttempts, s, s1) && TookDelivery(s, s1, a, id) && PostsNow(maxAttempts, s1, a, FINE)
    ensures Leads(maxAttempts, s1, s2) && At(s2, b, id, Entered) && s2.deliveries[id].value.status.Failed?
    ensures Leads(maxAttempts, s2, s3) && TookDelivery(s2, s3, b, id) && PostsNow(maxAttempts, s3, b, FINE)
    ensures BookOf(s3, id) == Noted(BookOf(s, id), a, Epoch(s, id), NotePost)
  {
    hide Leads, Do;
    s1 := Claims(maxAttempts, s, a, id);
    s2 := PostsAndFails(maxAttempts, s1, a, id);
    s3 := Claims(maxAttempts, s2, b, id);
    PostStep(maxAttempts, s3, b, id, s3.deliveries[id]);
  }

  // ---------------------------------------------------------------------------
  // A replay fences the record, not the network
  // ---------------------------------------------------------------------------

  /** The four steps of an undisturbed `replayWebhookDelivery`. */
  function Replayed(maxAttempts: nat, s: State, id: string): State
    requires id in s.deliveries
  {
    var n := s.nextCall;
    var s1 := Step(maxAttempts, s, Enter(Replay(s.deliveries[id].value.tenant, id)));
    var s2 := Step(maxAttempts, s1, Go(n, FINE));
    var s3 := Step(maxAttempts, s2, Go(n, FINE));
    Step(maxAttempts, s3, Go(n, FINE))
  }

  lemma ReplayedIs(maxAttempts: nat, s: State, id: string)
    requires Inv(s) && id in s.deliveries
    ensures Replayed(maxAttempts, s, id) == s.(deliveries := s.deliveries[id := Row(ResetDelivery(s.deliveries[id].value), s.deliveries[id].version + 1)],
                                               nextCall := s.nextCall + 1,
                                               books := s.books[id := BookOf(s, id) + [{}]])
  {
    hide CallOk, HoldersDistinct;
  }

  lemma ReplayKeepsInv(maxAttempts: nat, s: State, id: string)
    requires Inv(s) && id in s.deliveries
    ensures Inv(Replayed(maxAttempts, s, id))
  {
    hide Inv, Noted;
    var n := s.nextCall;
    var s1 := Step(maxAttempts, s, Enter(Replay(s.deliveries[id].value.tenant, id)));
    StepKeepsInv(maxAttempts, s, Enter(Replay(s.deliveries[id].value.tenant, id)));
    var s2 := Step(maxAttempts, s1, Go(n, FINE));
    StepKeepsInv(maxAttempts, s1, Go(n, FINE));
    var s3 := Step(maxAttempts, s2, Go(n, FINE));
    StepKeepsInv(maxAttempts, s2, Go(n, FINE));
    StepKeepsInv(maxAttempts, s3, Go(n, FINE));
  }

  /**
   Any call about to post: a replay lets a newcomer claim the delivery, and then both
   post at this very instant, two posts since the replay whatever the attempts allowed.
  */
  lemma ReplayedPostOverlaps(maxAttempts: nat, s: State, n: nat, id: string) returns (s1: State, m: nat, s2: State)
    requires Inv(s) && id in s.deliveries && n in s.calls && s.calls[n].phase.Claimed? && s.calls[n].task == Deliver(s.deliveries[id].value.tenant, id)
    ensures Leads(maxAttempts, Replayed(maxAttempts, s, id), s1) && s1.clock == s.clock && m !in Replayed(maxAttempts, s, id).calls
    ensures n in s1.calls && s1.calls[n] == s.calls[n] && id in s1.deliveries && At(s1, m, id, Claimed(s1.deliveries[id]))
    ensures PostsNow(maxAttempts, s1, n, FINE) && PostsNow(maxAttempts, s1, m, FINE)
    ensures s2 == Step(maxAttempts, Step(maxAttempts, s1, Go(m, FINE)), Go(n, FINE)) && n in s2.calls && s2.calls[n].phase.Posted? && s2.calls[m].phase.Posted?
    ensures Open(BookOf(s2, id)) == {m}
  {
    hide Leads, Inv, Do, Replayed;
    NextIsFresh(s);
    var s0 := Replayed(maxAttempts, s, id);
    ReplayedIs(maxAttempts, s, id);
    ReplayKeepsInv(maxAttempts, s, id);
    s1 := TakesDelivery(maxAttempts, s0, id);
    m := s0.nextCall;
    PostStep(maxAttempts, s1, m, id, s1.deliveries[id]);
    var s' := Step(maxAttempts, s1, Go(m, FINE));
    PostStep(maxAttempts, s1, n, id, s.calls[n].phase.row);
    PostStep(maxAttempts, s', n, id, s.calls[n].phase.row);
    s2 := Step(maxAttempts, s', Go(n, FINE));
    HolderIsOlder(s, n, id);
  }

  lemma NextIsFresh(s: State)
    requires Inv(s)
    ensures s.nextCall !in s.calls
  {}

  lemma HolderIsOlder(s: State, n: nat, id: string)
    requires Inv(s) && n in s.calls && Holding(s.calls[n].phase) && s.calls[n].task.id == id
    ensures s.calls[n].epoch <= Epoch(s, id)
  {
    assert CallOk(s.deliveries, Epoch(s, id), s.calls[n]);
  }

  // ---------------------------------------------------------------------------
  // A claim without a lease: a crash leaves the delivery delivering
  // ---------------------------------------------------------------------------

  /** The delivery says it is being delivered, and nobody is delivering it or about to replay it. */
  ghost predicate Stuck(s: State, id: string) {
    && id in s.deliveries && s.deliveries[id].value.status.Delivering?
    && forall n :: n in s.calls && s.calls[n].task.id == id ==> s.calls[n].task.Deliver? && (Holding(s.calls[n].phase) ==> s.calls[n].epoch != Epoch(s, id))
  }

  lemma StepKeepsStuck(maxAttempts: nat, s: State, a: Action, id: string)
    requires Inv(s) && Stuck(s, id) && Enabled(s, a) && !IsReplay(a)
    ensures var s' := Step(maxAttempts, s, a); Stuck(s', id) && s'.deliveries[id] == s.deliveries[id] && Open(BookOf(s', id)) == Open(BookOf(s, id))
  {
    hide Do, HoldersDistinct;
    if a.Go? && s.calls[a.call].task.id == id {
      Writes(maxAttempts, s, a.call, a.input);
      PostsHold(maxAttempts, s, a.call, a.input);
      assert CallOk(s.deliveries, Epoch(s, id), s.calls[a.call]);
    }
  }

  /** After a crash behind the claim, and until a replay, the record never moves, nothing is posted in its epoch, and every call for it is turned away. */
  lemma CrashedDeliveryIsStuck(maxAttempts: nat, s: State, s': State, id: string, tenant: string)
    requires Inv(s) && Stuck(s, id) && Leads(maxAttempts, s, s')
    ensures Stuck(s', id) && s'.deliveries[id] == s.deliveries[id] && Open(BookOf(s', id)) == Open(BookOf(s, id))
    ensures DoRead(s'.deliveries, Deliver(tenant, id)) == RETURNED
  {
    hide Inv, Enabled, Step, Stuck;
    var tr: seq<State>, acts: seq<Action> :| Path(maxAttempts, tr, acts, s, s');
    IsDelivering(s, id);
    for k := 0 to |acts|
      invariant Stuck(tr[k], id) && id in tr[k].deliveries && tr[k].deliveries[id] == s.deliveries[id] && Open(BookOf(tr[k], id)) == Open(BookOf(s, id))
    {
      RunKeepsInv(maxAttempts, tr, acts, k);
      StepKeepsStuck(maxAttempts, tr[k], acts[k], id);
      IsDelivering(tr[k + 1], id);
    }
  }

  lemma IsDelivering(s: State, id: string)
    requires Stuck(s, id)
    ensures id in s.deliveries && s.deliveries[id].value.status.Delivering?
  {}

  // ---------------------------------------------------------------------------
  // Runs from the empty state
  // ---------------------------------------------------------------------------

  const QUEUED := Delivery("tenant", Pending, 0, None)

  /** A delivery is queued, and two calls that found it pending enter. */
  lemma TwoEntered(maxAttempts: nat) returns (s: State)
    ensures Leads(maxAttempts, EMPTY, s) && Inv(s)
    ensures s == State(0, map["id" := Row(QUEUED, 1)], map[0 := Call(Deliver("tenant", "id"), Entered, 0), 1 := Call(Deliver("tenant", "id"), Entered, 0)], 2, map["id" := [{}]])
  {
    hide Leads;
    EmptyIsFine(maxAttempts);
    var a := Enter(Deliver("tenant", "id"));
    StepLeads(maxAttempts, EMPTY, Queue("id", QUEUED));
    var s0 := Step(maxAttempts, EMPTY, Queue("id", QUEUED));
    Then(maxAttempts, EMPTY, s0, a);
    var s1 := Step(maxAttempts, s0, a);
    Then(maxAttempts, EMPTY, s1, a);
    s := Step(maxAttempts, s1, a);
    LeadsKeepsInv(maxAttempts, EMPTY, s);
  }

  /** Two calls find the delivery pending with one attempt allowed; both post it, the second after it failed for good. */
  lemma FailedIsClaimedAgain() returns (s: State, s1: State, s2: State, s3: State)
    ensures Leads(1, EMPTY, s) && At(s, 0, "id", Entered) && At(s, 1, "id", Entered) && s.deliveries["id"].value.status.Pending?
    ensures Leads(1, s, s1) && 0 in s1.calls && PostsNow(1, s1, 0, FINE)
    ensures Leads(1, s1, s2) && At(s2, 1, "id", Entered) && s2.deliveries["id"].value.status.Failed?
    ensures Leads(1, s2, s3) && 1 in s3.calls && PostsNow(1, s3, 1, FINE) && 0 in Open(BookOf(s3, "id"))
  {
    hide Leads, Inv, PostsNow;
    s := TwoEntered(1);
    s1, s2, s3 := SecondCallPostsItAgain(1, s, 0, 1, "id");
  }

  /** A call claims and its process dies: from then on every call reports a delivery nobody ever posted. */
  lemma CrashedIsReportedDelivered() returns (s: State)
    ensures Leads(1, EMPTY, s) && Inv(s) && Stuck(s, "id") && BookOf(s, "id") == [{}]
  {
    hide Leads, Inv;
    var s0 := TwoEntered(1);
    var s1 := Claims(1, s0, 0, "id");
    LeadsOn(1, EMPTY, s0, s1);
    LeadsKeepsInv(1, s0, s1);
    Then(1, EMPTY, s1, Crash(0));
    StepKeepsInv(1, s1, Crash(0));
    s := Step(1, s1, Crash(0));
  }

  /** A call claims, a replay frees the delivery, and both the old holder and a newcomer post, with one attempt allowed. */
  lemma ReplayedPostBreaksTheLiteralBound() returns (s: State, s1: State, m: nat)
    ensures Leads(1, EMPTY, s) && "id" in s.deliveries && Leads(1, Replayed(1, s, "id"), s1)
    ensures 0 in s1.calls && m in s1.calls && m !in Replayed(1, s, "id").calls && PostsNow(1, s1, 0, FINE) && PostsNow(1, s1, m, FINE)
  {
    hide Leads, Inv, PostsNow, Replayed;
    var s0 := TwoEntered(1);
    s := Claims(1, s0, 0, "id");
    LeadsOn(1, EMPTY, s0, s);
    LeadsKeepsInv(1, s0, s);
    var s2: State;
    s1, m, s2 := ReplayedPostOverlaps(1, s, 0, "id");
  }
}

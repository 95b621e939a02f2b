/** What holds over every run of the webhook deliveries. */
module WebhookTheorems {
  import opened Common
  import opened FeltDb
  import opened Webhooks

  // ---------------------------------------------------------------------------
  // One holder per epoch
  // ---------------------------------------------------------------------------

  /** The call has claimed the delivery and not settled it. */
  predicate Holding(p: Phase) {
    p.Claimed? || p.Posted? || p.Settling?
  }

  /** A claim of the current epoch holds the record; a claim of an older one was fenced out. */
  ghost predicate CallOk(deliveries: Deliveries, epoch: nat, c: Call) {
    && (!c.phase.Entered? ==> Pinned(deliveries, c.task.id, c.phase.row))
    && (c.phase.ToReset? ==> c.task.Replay?)
    && (c.task.Deliver? && (c.phase.Checking? || c.phase.Rejecting? || c.phase.ToClaim?) ==> !c.phase.row.value.status.Delivering?)
    && (c.phase.Rejecting? || c.phase.ToClaim? || Holding(c.phase) ==> c.task.Deliver?)
    && (Holding(c.phase) ==>
          && c.phase.row.value.status.Delivering? && c.epoch <= epoch
          && (c.epoch == epoch <==> deliveries[c.task.id].version == c.phase.row.version))
  }

  ghost predicate CallsOk(s: State) {
    forall n :: n in s.calls ==> n < s.nextCall && CallOk(s.deliveries, Epoch(s, s.calls[n].task.id), s.calls[n])
  }

  /** No two claims of one delivery belong to the same epoch. */
  ghost predicate HoldersDistinct(s: State) {
    forall a, b :: a in s.calls && b in s.calls && a != b && s.calls[a].task.id == s.calls[b].task.id
                   && Holding(s.calls[a].phase) && Holding(s.calls[b].phase) ==>
      s.calls[a].epoch != s.calls[b].epoch
  }

  ghost predicate Inv(s: State) {
    CallsOk(s) && HoldersDistinct(s)
  }

  /** A write over a record that is being delivered is its holder's, or a replay. */
  lemma Writes(maxAttempts: nat, s: State, call: nat, input: Input)
    requires Inv(s) && call in s.calls
    ensures var c := s.calls[call]; var e := EffectOf(maxAttempts, s, call, input);
            && (e.write.Some? ==> c.task.id in s.deliveries && (s.deliveries[c.task.id].value.status.Delivering? ==> c.phase.Settling? || c.phase.ToReset?))
            && (e.note.NoteReplay? ==> c.phase.ToReset? && e.write.Some? && e.next.None?)
            && (e.note.NoteClaim? ==> c.phase.ToClaim? && e.write.Some? && e.next == Some(Claimed(Row(e.write.value, s.deliveries[c.task.id].version + 1))) && e.write.value.status.Delivering?)
            && (c.phase.Settling? && e.write.Some? ==> e.next.None? && c.epoch == Epoch(s, c.task.id))
            && (c.phase.ToReset? && e.write.Some? ==> e.note.NoteReplay?)
            && (e.next.Some? && Holding(e.next.value) ==> e.note.NoteClaim? || (Holding(c.phase) && e.write.None? && e.next.value.row == c.phase.row))
  {
    hide Settled, HoldersDistinct;
    assert CallOk(s.deliveries, Epoch(s, s.calls[call].task.id), s.calls[call]);
  }

  lemma NextOk(maxAttempts: nat, s: State, call: nat, input: Input)
    requires Inv(s) && call in s.calls
    ensures var s' := Perform(s, call, EffectOf(maxAttempts, s, call, input));
            call in s'.calls ==> s'.calls[call].task == s.calls[call].task && CallOk(s'.deliveries, Epoch(s', s'.calls[call].task.id), s'.calls[call])
  {
    hide Settled, HoldersDistinct, IsTerminal;
    assert CallOk(s.deliveries, Epoch(s, s.calls[call].task.id), s.calls[call]);
  }

  lemma OtherOk(maxAttempts: nat, s: State, call: nat, input: Input, n: nat)
    requires Inv(s) && call in s.calls && n in s.calls && n != call
    ensures var s' := Perform(s, call, EffectOf(maxAttempts, s, call, input));
            CallOk(s'.deliveries, Epoch(s', s.calls[n].task.id), s.calls[n])
  {
    hide Do, Settled;
    Writes(maxAttempts, s, call, input);
    var c, o := s.calls[call], s.calls[n];
    assert CallOk(s.deliveries, Epoch(s, o.task.id), o);
    assert CallOk(s.deliveries, Epoch(s, c.task.id), c);
  }

  lemma HoldersStayDistinct(maxAttempts: nat, s: State, call: nat, input: Input)
    requires Inv(s) && call in s.calls
    ensures HoldersDistinct(Perform(s, call, EffectOf(maxAttempts, s, call, input)))
  {
    hide Do, Settled;
    Writes(maxAttempts, s, call, input);
    var s' := Perform(s, call, EffectOf(maxAttempts, s, call, input));
    forall n | n in s.calls && Holding(s.calls[n].phase) && s.calls[n].task.id == s.calls[call].task.id && EffectOf(maxAttempts, s, call, input).note.NoteClaim?
      ensures s.calls[n].epoch != Epoch(s, s.calls[n].task.id)
    {
      assert CallOk(s.deliveries, Epoch(s, s.calls[n].task.id), s.calls[n]);
    }
  }

  lemma StepKeepsInv(maxAttempts: nat, s: State, a: Action)
    requires Inv(s) && Enabled(s, a)
    ensures Inv(Step(maxAttempts, s, a)) && Evolves(s.deliveries, Step(maxAttempts, s, a).deliveries)
  {
    hide Do, CallOk, Noted;
    var s' := Step(maxAttempts, s, a);
    if a.Go? {
      HoldersStayDistinct(maxAttempts, s, a.call, a.input);
      NextOk(maxAttempts, s, a.call, a.input);
    }
    forall n | n in s'.calls ensures n < s'.nextCall && CallOk(s'.deliveries, Epoch(s', s'.calls[n].task.id), s'.calls[n]) {
      if a.Go? && n != a.call {
        OtherOk(maxAttempts, s, a.call, a.input, n);
      } else if a.Queue? && n in s.calls {
        QueueOk(s, a.id, a.delivery, n);
      } else if a.Enter? && n == s.nextCall {
        EnterOk(s'.deliveries, Epoch(s', a.task.id), a.task);
      }
    }
  }

  lemma EnterOk(deliveries: Deliveries, epoch: nat, task: Task)
    ensures CallOk(deliveries, epoch, Call(task, Entered, 0))
  {}

  lemma QueueOk(s: State, id: string, d: Delivery, n: nat)
    requires Inv(s) && id !in s.deliveries && n in s.calls
    ensures CallOk(s.deliveries[id := Row(d, 1)], if s.calls[n].task.id == id then 0 else Epoch(s, s.calls[n].task.id), s.calls[n])
  {}

  lemma {:induction false} RunKeepsInv(maxAttempts: nat, tr: seq<State>, acts: seq<Action>, i: nat)
    requires IsRun(maxAttempts, tr, acts) && Inv(tr[0]) && i < |tr|
    ensures Inv(tr[i])
  {
    hide Inv, Enabled, Step;
    if i > 0 {
      RunKeepsInv(maxAttempts, tr, acts, i - 1);
      StepKeepsInv(maxAttempts, tr[i - 1], acts[i - 1]);
    }
  }

  /** A replay fences out every claim made before it: whatever its holder does next leaves the record as it is. */
  lemma ReplayFences(maxAttempts: nat, tr: seq<State>, acts: seq<Action>, i: nat, a: nat, input: Input)
    requires IsRun(maxAttempts, tr, acts) && Inv(tr[0]) && i < |tr|
    requires a in tr[i].calls && Holding(tr[i].calls[a].phase) && tr[i].calls[a].epoch < Epoch(tr[i], tr[i].calls[a].task.id)
    ensures Step(maxAttempts, tr[i], Go(a, input)).deliveries == tr[i].deliveries
  {
    hide IsRun, Settled, HoldersDistinct;
    RunKeepsInv(maxAttempts, tr, acts, i);
    assert CallOk(tr[i].deliveries, Epoch(tr[i], tr[i].calls[a].task.id), tr[i].calls[a]);
  }

  ghost predicate NoReplays(s: State) {
    forall n :: n in s.calls ==> s.calls[n].task.Deliver?
  }

  ghost predicate NeverReplayed(s: State) {
    && NoReplays(s)
    && (forall id :: id in s.books ==> |s.books[id]| <= 1)
    && (forall n :: n in s.calls ==> s.calls[n].epoch == 0)
  }

  lemma {:induction false} RunNeverReplayed(maxAttempts: nat, tr: seq<State>, acts: seq<Action>, i: nat)
    requires IsRun(maxAttempts, tr, acts) && Inv(tr[0]) && NeverReplayed(tr[0]) && i < |tr|
    requires forall a :: a in acts && a.Enter? ==> a.task.Deliver?
    ensures NeverReplayed(tr[i])
  {
    hide Inv, Enabled, Step, NeverReplayed;
    if i > 0 {
      RunNeverReplayed(maxAttempts, tr, acts, i - 1);
      RunKeepsInv(maxAttempts, tr, acts, i - 1);
      StepNeverReplayed(maxAttempts, tr[i - 1], acts[i - 1]);
    }
  }

  lemma StepNeverReplayed(maxAttempts: nat, s: State, a: Action)
    requires Inv(s) && Enabled(s, a) && NeverReplayed(s) && (a.Enter? ==> a.task.Deliver?)
    ensures NeverReplayed(Step(maxAttempts, s, a))
  {
    hide Do, HoldersDistinct;
    if a.Go? {
      assert CallOk(s.deliveries, Epoch(s, s.calls[a.call].task.id), s.calls[a.call]);
      Writes(maxAttempts, s, a.call, a.input);
    }
  }

  /** Without replays, a call that is about to post or has posted is the only one, and its delivery says so. */
  lemma DeliveringIsExclusive(maxAttempts: nat, tr: seq<State>, acts: seq<Action>, i: nat, a: nat, b: nat)
    requires IsRun(maxAttempts, tr, acts) && Inv(tr[0]) && NeverReplayed(tr[0]) && i < |tr|
    requires forall x :: x in acts && x.Enter? ==> x.task.Deliver?
    requires a in tr[i].calls && Holding(tr[i].calls[a].phase)
    ensures var id := tr[i].calls[a].task.id; id in tr[i].deliveries && tr[i].deliveries[id] == tr[i].calls[a].phase.row && tr[i].deliveries[id].value.status.Delivering?
    ensures b in tr[i].calls && Holding(tr[i].calls[b].phase) && tr[i].calls[b].task.id == tr[i].calls[a].task.id ==> a == b
  {
    hide IsRun;
    RunKeepsInv(maxAttempts, tr, acts, i);
    RunNeverReplayed(maxAttempts, tr, acts, i);
    var s := tr[i];
    assert CallOk(s.deliveries, Epoch(s, s.calls[a].task.id), s.calls[a]);
  }

  // ---------------------------------------------------------------------------
  // Posts per epoch
  // ---------------------------------------------------------------------------

  predicate Ready(d: Delivery) {
    d.status.Pending? || d.status.Retrying?
  }

  /** `deliverWebhook` is not entered on a delivery that failed for good. */
  predicate ReadyRead(s: State, a: Action) {
    a.Go? && a.call in s.calls && s.calls[a.call].phase.Entered? && s.calls[a.call].task.Deliver? && s.calls[a.call].task.id in s.deliveries ==>
      !s.deliveries[s.calls[a.call].task.id].value.status.Failed?
  }

  ghost predicate ReadyReads(tr: seq<State>, acts: seq<Action>)
    requires |tr| == |acts| + 1
  {
    forall i :: 0 <= i < |acts| ==> ReadyRead(tr[i], acts[i])
  }

  function Open(b: Book): set<nat>
    requires b != []
  {
    b[|b| - 1]
  }

  /** Every account is within the bound, closed ones included. */
  ghost predicate AccountsOk(maxAttempts: nat, b: Book) {
    forall e :: 0 <= e < |b| ==> |b[e]| <= maxAttempts
  }

  /** The open account agrees with the record. */
  ghost predicate DeliveryOk(maxAttempts: nat, d: Delivery, open: set<nat>) {
    && |open| <= d.attemptCount + (if d.status.Delivering? then 1 else 0)
    && d.attemptCount <= maxAttempts
    && (Ready(d) || d.status.Delivering? ==> d.attemptCount < maxAttempts)
  }

  ghost predicate BookOk(maxAttempts: nat, d: Delivery, b: Book) {
    b != [] && DeliveryOk(maxAttempts, d, Open(b)) && AccountsOk(maxAttempts, b)
  }

  /** What a call knows about the posts of the epoch it claimed in. */
  ghost predicate PhaseCounted(maxAttempts: nat, b: Book, deliver: bool, epoch: nat, p: Phase) {
    && (deliver && (p.Checking? || p.Rejecting? || p.ToClaim?) ==> Ready(p.row.value) && p.row.value.attemptCount < maxAttempts)
    && (Holding(p) ==>
          && epoch < |b| && p.row.value.attemptCount < maxAttempts && |b[epoch]| <= p.row.value.attemptCount + 1
          && (p.Claimed? || (p.Settling? && !p.outcome.Success? && !p.outcome.Provider?) ==> |b[epoch]| <= p.row.value.attemptCount))
  }

  ghost predicate CallCounted(maxAttempts: nat, b: Book, c: Call) {
    PhaseCounted(maxAttempts, b, c.task.Deliver?, c.epoch, c.phase)
  }

  ghost predicate PostInv(maxAttempts: nat, s: State) {
    && (forall id :: id in s.deliveries ==> BookOk(maxAttempts, s.deliveries[id].value, BookOf(s, id)))
    && (forall n :: n in s.calls ==>
          (s.calls[n].phase.Entered? || s.calls[n].task.id in s.deliveries) && CallCounted(maxAttempts, BookOf(s, s.calls[n].task.id), s.calls[n]))
  }

  lemma AddOne(s: set<nat>, n: nat)
    ensures |s + {n}| <= |s| + 1
  {
    if n in s {
      assert s + {n} == s;
    }
  }

  /** The step leaves the book in order, whatever it wrote and wherever the call goes on. */
  ghost predicate Balanced(maxAttempts: nat, row: Row<Delivery>, b: Book, n: nat, c: Call, e: Effect)
    requires b != []
  {
    var row' := if e.write.Some? then e.write.value else row.value;
    var b' := Noted(b, n, c.epoch, e.note);
    && BookOk(maxAttempts, row', b')
    && (e.next.Some? ==> PhaseCounted(maxAttempts, b', c.task.Deliver?, if e.note.NoteClaim? then |b| - 1 else c.epoch, e.next.value))
  }

  lemma ReadBalanced(maxAttempts: nat, deliveries: Deliveries, b: Book, n: nat, c: Call)
    requires c.phase.Entered? && c.task.id in deliveries && BookOk(maxAttempts, deliveries[c.task.id].value, b)
    requires c.task.Deliver? ==> !deliveries[c.task.id].value.status.Failed?
    ensures Balanced(maxAttempts, deliveries[c.task.id], b, n, c, DoRead(deliveries, c.task))
  {
    hide AccountsOk;
  }

  lemma ClaimBalanced(maxAttempts: nat, deliveries: Deliveries, b: Book, n: nat, c: Call)
    requires b != [] && c.phase.ToClaim? && CallOk(deliveries, |b| - 1, c) && CallCounted(maxAttempts, b, c)
    requires BookOk(maxAttempts, deliveries[c.task.id].value, b)
    ensures Balanced(maxAttempts, deliveries[c.task.id], b, n, c, DoClaim(deliveries, c.task.id, c.phase.row))
  {
    hide AccountsOk;
  }

  /** A post counts in the epoch its call claimed in, however late it comes. */
  lemma PostBalanced(maxAttempts: nat, deliveries: Deliveries, b: Book, n: nat, c: Call, input: Input)
    requires b != [] && c.phase.Claimed? && CallOk(deliveries, |b| - 1, c) && CallCounted(maxAttempts, b, c)
    requires BookOk(maxAttempts, deliveries[c.task.id].value, b)
    ensures Balanced(maxAttempts, deliveries[c.task.id], b, n, c, DoPost(c.phase.row, input))
  {
    AddOne(b[c.epoch], n);
  }

  lemma SettleBalanced(maxAttempts: nat, deliveries: Deliveries, now: nat, b: Book, n: nat, c: Call)
    requires b != [] && c.phase.Settling? && CallOk(deliveries, |b| - 1, c) && CallCounted(maxAttempts, b, c)
    requires BookOk(maxAttempts, deliveries[c.task.id].value, b)
    ensures Balanced(maxAttempts, deliveries[c.task.id], b, n, c,
                     DoWrite(deliveries, c.task.id, c.phase.row, Settled(maxAttempts, c.phase.row.value, c.phase.outcome, now), None, Nothing))
  {
    hide IsTerminal, Pow2, AccountsOk;
  }

  lemma OtherBalanced(maxAttempts: nat, deliveries: Deliveries, now: nat, b: Book, n: nat, c: Call, input: Input)
    requires c.phase.Checking? || c.phase.Rejecting? || c.phase.Posted? || c.phase.ToReset?
    requires b != [] && maxAttempts >= 1 && CallOk(deliveries, |b| - 1, c) && CallCounted(maxAttempts, b, c)
    requires BookOk(maxAttempts, deliveries[c.task.id].value, b)
    ensures Balanced(maxAttempts, deliveries[c.task.id], b, n, c, Do(maxAttempts, deliveries, now, c, input))
  {
    hide Settled, DoRead, DoClaim, DoPost;
  }

  lemma DoBalanced(maxAttempts: nat, deliveries: Deliveries, now: nat, b: Book, n: nat, c: Call, input: Input)
    requires b != [] && c.task.id in deliveries && maxAttempts >= 1 && CallOk(deliveries, |b| - 1, c) && CallCounted(maxAttempts, b, c)
    requires BookOk(maxAttempts, deliveries[c.task.id].value, b)
    requires c.phase.Entered? && c.task.Deliver? ==> !deliveries[c.task.id].value.status.Failed?
    ensures Balanced(maxAttempts, deliveries[c.task.id], b, n, c, Do(maxAttempts, deliveries, now, c, input))
  {
    hide Balanced, CallOk, CallCounted, BookOk, DoRead, DoClaim, DoPost, DoWrite, DoCheck, DoAnswer, Settled;
    match c.phase
    case Entered => ReadBalanced(maxAttempts, deliveries, b, n, c);
    case ToClaim(_) => ClaimBalanced(maxAttempts, deliveries, b, n, c);
    case Claimed(_) => PostBalanced(maxAttempts, deliveries, b, n, c, input);
    case Settling(_, _) => SettleBalanced(maxAttempts, deliveries, now, b, n, c);
    case _ => OtherBalanced(maxAttempts, deliveries, now, b, n, c, input);
  }

  /** One step keeps its delivery's book and its own place in it. */
  lemma ActorCounted(maxAttempts: nat, s: State, a: Action)
    requires Inv(s) && PostInv(maxAttempts, s) && maxAttempts >= 1 && Enabled(s, a) && ReadyRead(s, a) && a.Go?
    ensures var s' := Step(maxAttempts, s, a); var id := s.calls[a.call].task.id;
            && (id in s'.deliveries ==> BookOk(maxAttempts, s'.deliveries[id].value, BookOf(s', id)))
            && (a.call in s'.calls ==>
                  (s'.calls[a.call].phase.Entered? || id in s'.deliveries) && s'.calls[a.call].task.id == id
                  && CallCounted(maxAttempts, BookOf(s', id), s'.calls[a.call]))
  {
    hide HoldersDistinct, Do, PhaseCounted, BookOk, CallOk, Noted;
    var c := s.calls[a.call];
    var id, b := c.task.id, BookOf(s, c.task.id);
    assert CallOk(s.deliveries, |b| - 1, c) && CallCounted(maxAttempts, b, c);
    if id in s.deliveries {
      DoBalanced(maxAttempts, s.deliveries, s.clock, b, a.call, c, a.input);
    } else {
      NothingThere(maxAttempts, s.deliveries, s.clock, c, a.input);
    }
  }

  lemma NothingThere(maxAttempts: nat, deliveries: Deliveries, now: nat, c: Call, input: Input)
    requires c.phase.Entered? && c.task.id !in deliveries
    ensures Do(maxAttempts, deliveries, now, c, input) == RETURNED
  {}

  /** What a call knows of its own epoch is moved by nobody else. */
  lemma OtherCounted(maxAttempts: nat, s: State, a: Action, n: nat)
    requires Inv(s) && PostInv(maxAttempts, s) && Enabled(s, a) && a.Go? && n in s.calls && n != a.call
    ensures var s' := Step(maxAttempts, s, a);
            && (s.calls[n].phase.Entered? || s.calls[n].task.id in s'.deliveries)
            && CallCounted(maxAttempts, BookOf(s', s.calls[n].task.id), s.calls[n])
  {
    hide Settled, Do, CallOk, BookOk, Ready;
    var c, o := s.calls[a.call], s.calls[n];
    PostsHold(maxAttempts, s, a.call, a.input);
    assert CallCounted(maxAttempts, BookOf(s, o.task.id), o);
  }

  lemma PostsHold(maxAttempts: nat, s: State, call: nat, input: Input)
    requires call in s.calls
    ensures EffectOf(maxAttempts, s, call, input).note.NotePost? ==> s.calls[call].phase.Claimed?
  {
    hide Settled;
  }

  lemma StepCounts(maxAttempts: nat, s: State, a: Action)
    requires Inv(s) && PostInv(maxAttempts, s) && maxAttempts >= 1 && Enabled(s, a) && ReadyRead(s, a)
    ensures PostInv(maxAttempts, Step(maxAttempts, s, a))
  {
    hide Do, BookOk, CallCounted, Inv, Noted, ReadyRead;
    var s' := Step(maxAttempts, s, a);
    if a.Go? {
      ActorCounted(maxAttempts, s, a);
      forall n | n in s'.calls
        ensures (s'.calls[n].phase.Entered? || s'.calls[n].task.id in s'.deliveries)
                && CallCounted(maxAttempts, BookOf(s', s'.calls[n].task.id), s'.calls[n])
      {
        if n != a.call {
          OtherCounted(maxAttempts, s, a, n);
        }
      }
    } else if a.Queue? {
      QueueCounts(maxAttempts, s, a);
    } else if a.Enter? {
      EnterCounts(maxAttempts, s, a);
    } else {
      IdleCounts(maxAttempts, s, a);
    }
  }

  lemma QueueCounts(maxAttempts: nat, s: State, a: Action)
    requires Inv(s) && PostInv(maxAttempts, s) && maxAttempts >= 1 && Enabled(s, a) && a.Queue?
    ensures PostInv(maxAttempts, Step(maxAttempts, s, a))
  {
    hide HoldersDistinct, CallOk;
    var s' := Step(maxAttempts, s, a);
    NewIsOk(maxAttempts, a.delivery);
    forall n | n in s'.calls
      ensures (s'.calls[n].phase.Entered? || s'.calls[n].task.id in s'.deliveries)
              && CallCounted(maxAttempts, BookOf(s', s'.calls[n].task.id), s'.calls[n])
    {
      if s.calls[n].task.id == a.id {
        EnteredCounts(maxAttempts, BookOf(s', a.id), s.calls[n]);
      } else {
        assert CallCounted(maxAttempts, BookOf(s, s.calls[n].task.id), s.calls[n]);
      }
    }
  }

  lemma NewIsOk(maxAttempts: nat, d: Delivery)
    requires maxAttempts >= 1 && d.status.Pending? && d.attemptCount == 0
    ensures BookOk(maxAttempts, d, [{}])
  {}

  lemma EnteredCounts(maxAttempts: nat, b: Book, c: Call)
    requires c.phase.Entered?
    ensures CallCounted(maxAttempts, b, c)
  {}

  lemma EnterCounts(maxAttempts: nat, s: State, a: Action)
    requires PostInv(maxAttempts, s) && Enabled(s, a) && a.Enter?
    ensures PostInv(maxAttempts, Step(maxAttempts, s, a))
  {
    hide BookOk;
    EnteredCounts(maxAttempts, BookOf(s, a.task.id), Call(a.task, Entered, 0));
  }

  lemma IdleCounts(maxAttempts: nat, s: State, a: Action)
    requires PostInv(maxAttempts, s) && Enabled(s, a) && (a.Tick? || a.Crash?)
    ensures PostInv(maxAttempts, Step(maxAttempts, s, a))
  {
    hide BookOk;
  }

  lemma {:induction false} RunCounts(maxAttempts: nat, tr: seq<State>, acts: seq<Action>, i: nat)
    requires IsRun(maxAttempts, tr, acts) && Inv(tr[0]) && PostInv(maxAttempts, tr[0]) && maxAttempts >= 1 && ReadyReads(tr, acts) && i < |tr|
    ensures PostInv(maxAttempts, tr[i])
  {
    hide Inv, PostInv, Enabled, Step, ReadyRead;
    if i > 0 {
      RunCounts(maxAttempts, tr, acts, i - 1);
      RunKeepsInv(maxAttempts, tr, acts, i - 1);
      StepCounts(maxAttempts, tr[i - 1], acts[i - 1]);
    }
  }

  /**
   In every epoch between two replays, closed ones included, the posts of the calls
   that claimed in it number at most `maxRetryAttempts`, crashes included; a delivery
   waiting for an attempt always has one left.
  */
  lemma PostsBound(maxAttempts: nat, tr: seq<State>, acts: seq<Action>, i: nat, id: string, epoch: nat)
    requires IsRun(maxAttempts, tr, acts) && Inv(tr[0]) && PostInv(maxAttempts, tr[0]) && maxAttempts >= 1 && ReadyReads(tr, acts) && i < |tr|
    requires id in tr[i].deliveries && epoch < |BookOf(tr[i], id)|
    ensures |BookOf(tr[i], id)[epoch]| <= maxAttempts
    ensures Ready(tr[i].deliveries[id].value) ==> |Open(BookOf(tr[i], id))| < maxAttempts
  {
    hide IsRun, ReadyReads, Inv;
    RunCounts(maxAttempts, tr, acts, i);
    assert BookOk(maxAttempts, tr[i].deliveries[id].value, BookOf(tr[i], id));
  }

  predicate PostsNow(maxAttempts: nat, s: State, call: nat, input: Input)
    requires call in s.calls
  {
    EffectOf(maxAttempts, s, call, input).note.NotePost?
  }

  /** Every post is in the account of the epoch its call claimed in, from that step on. */
  lemma {:induction false} PostsAreCounted(maxAttempts: nat, tr: seq<State>, acts: seq<Action>, i: nat, j: nat, call: nat, input: Input)
    requires IsRun(maxAttempts, tr, acts) && Inv(tr[0]) && i < j < |tr|
    requires acts[i] == Go(call, input) && call in tr[i].calls && PostsNow(maxAttempts, tr[i], call, input)
    ensures var c := tr[i].calls[call]; c.task.id in tr[j].deliveries && c.epoch <= Epoch(tr[j], c.task.id) && call in BookOf(tr[j], c.task.id)[c.epoch]
    decreases j
  {
    hide Inv, Enabled, Do, PostsNow;
    var c := tr[i].calls[call];
    if j == i + 1 {
      RunKeepsInv(maxAttempts, tr, acts, i);
      PostIsNoted(maxAttempts, tr[i], call, input);
    } else {
      PostsAreCounted(maxAttempts, tr, acts, i, j - 1, call, input);
      PostStays(maxAttempts, tr[j - 1], acts[j - 1], c.task.id, c.epoch, call);
    }
  }

  lemma PostIsNoted(maxAttempts: nat, s: State, call: nat, input: Input)
    requires Inv(s) && call in s.calls && PostsNow(maxAttempts, s, call, input)
    ensures var s', c := Step(maxAttempts, s, Go(call, input)), s.calls[call];
            c.task.id in s'.deliveries && c.epoch <= Epoch(s', c.task.id) && call in BookOf(s', c.task.id)[c.epoch]
  {
    hide HoldersDistinct, Settled;
    assert CallOk(s.deliveries, Epoch(s, s.calls[call].task.id), s.calls[call]);
  }

  lemma PostStays(maxAttempts: nat, s: State, a: Action, id: string, epoch: nat, call: nat)
    requires Enabled(s, a) && id in s.deliveries && epoch <= Epoch(s, id) && call in BookOf(s, id)[epoch]
    ensures var s' := Step(maxAttempts, s, a); id in s'.deliveries && epoch <= Epoch(s', id) && call in BookOf(s', id)[epoch]
  {
    hide Do;
  }

  /** The call is in an account of the delivery: it posted. */
  predicate InBook(s: State, id: string, call: nat) {
    exists e :: 0 <= e < |BookOf(s, id)| && call in BookOf(s, id)[e]
  }

  /** Only calls that entered have posted, and only what was queued. */
  ghost predicate BooksOk(s: State) {
    forall id, call: nat :: id in s.books && InBook(s, id, call) ==> call < s.nextCall && id in s.deliveries
  }

  lemma NotPostedYet(s: State, id: string, call: nat)
    requires BooksOk(s) && s.nextCall <= call
    ensures !InBook(s, id, call)
  {}

  lemma AbsentUnposted(s: State, id: string, call: nat)
    requires BooksOk(s) && id !in s.deliveries
    ensures !InBook(s, id, call)
  {}

  /** A step puts nobody into a book but the call that posts, and takes nobody out. */
  lemma StepOnBooks(maxAttempts: nat, s: State, a: Action, id: string, call: nat)
    requires Inv(s) && BooksOk(s) && Enabled(s, a)
    ensures InBook(Step(maxAttempts, s, a), id, call) <==>
            InBook(s, id, call) || (a.Go? && a.call == call && s.calls[call].task.id == id && PostsNow(maxAttempts, s, call, a.input))
  {
    hide Do, HoldersDistinct;
    var s' := Step(maxAttempts, s, a);
    var b, b' := BookOf(s, id), BookOf(s', id);
    if a.Go? && s.calls[a.call].task.id == id {
      PostsHold(maxAttempts, s, a.call, a.input);
      assert CallOk(s.deliveries, Epoch(s, id), s.calls[a.call]);
      NotedOnBook(b, a.call, s.calls[a.call].epoch, EffectOf(maxAttempts, s, a.call, a.input).note, call);
    } else if a.Queue? && a.id == id {
      AbsentUnposted(s, id, call);
    } else {
      assert b == b';
    }
  }

  lemma NotedOnBook(b: Book, n: nat, epoch: nat, note: Note, call: nat)
    requires b != [] && (note.NotePost? ==> epoch < |b|)
    ensures var b' := Noted(b, n, epoch, note);
            (exists e :: 0 <= e < |b'| && call in b'[e]) <==> (exists e :: 0 <= e < |b| && call in b[e]) || (note.NotePost? && n == call)
  {
    var b' := Noted(b, n, epoch, note);
    if note.NotePost? && n == call {
      assert call in b'[epoch];
    }
    if e :| 0 <= e < |b| && call in b[e] {
      assert call in b'[e];
    }
  }

  lemma StepKeepsBooks(maxAttempts: nat, s: State, a: Action)
    requires Inv(s) && BooksOk(s) && Enabled(s, a)
    ensures BooksOk(Step(maxAttempts, s, a))
  {
    hide Do, CallOk, HoldersDistinct, InBook, PostsNow, Noted;
    var s' := Step(maxAttempts, s, a);
    forall id, call: nat | id in s'.books && InBook(s', id, call) ensures call < s'.nextCall && id in s'.deliveries {
      StepOnBooks(maxAttempts, s, a, id, call);
      if a.Go? && a.call == call && s.calls[call].task.id == id && PostsNow(maxAttempts, s, call, a.input) {
        PostedIsThere(maxAttempts, s, call, a.input);
      } else {
        EmptyBook(s, id, call);
      }
    }
  }

  lemma EmptyBook(s: State, id: string, call: nat)
    requires InBook(s, id, call)
    ensures id in s.books
  {}

  lemma PostedIsThere(maxAttempts: nat, s: State, call: nat, input: Input)
    requires Inv(s) && call in s.calls && PostsNow(maxAttempts, s, call, input)
    ensures s.calls[call].task.id in s.deliveries && call < s.nextCall
  {
    hide HoldersDistinct, Settled;
    assert CallOk(s.deliveries, Epoch(s, s.calls[call].task.id), s.calls[call]);
  }

  lemma {:induction false} RunKeepsBooks(maxAttempts: nat, tr: seq<State>, acts: seq<Action>, i: nat)
    requires IsRun(maxAttempts, tr, acts) && Inv(tr[0]) && BooksOk(tr[0]) && i < |tr|
    ensures BooksOk(tr[i])
  {
    hide Inv, BooksOk, Enabled, Step;
    if i > 0 {
      RunKeepsBooks(maxAttempts, tr, acts, i - 1);
      RunKeepsInv(maxAttempts, tr, acts, i - 1);
      StepKeepsBooks(maxAttempts, tr[i - 1], acts[i - 1]);
    }
  }

  lemma EmptyIsFine(maxAttempts: nat)
    ensures BooksOk(EMPTY) && Inv(EMPTY) && NeverReplayed(EMPTY) && PostInv(maxAttempts, EMPTY)
  {}
}

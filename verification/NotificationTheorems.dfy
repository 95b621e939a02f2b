/** What holds over every run of the notification service. */
module NotificationTheorems {
  import opened Common
  import opened FeltDb
  import opened Notifications

  // ---------------------------------------------------------------------------
  // Invariants
  // ---------------------------------------------------------------------------

  /** The two stamps agree with the status. */
  predicate NoteOk(n: Notification) {
    && (n.readAt.Some? <==> n.status.Read? || n.status.Acknowledged?)
    && (n.acknowledgedAt.Some? <==> n.status.Acknowledged?)
  }

  ghost predicate NotesOk(notes: Notes) {
    forall n :: n in notes ==> NoteOk(notes[n].value)
  }

  /** A notification that says delivered has a delivery that arrived. */
  ghost predicate SummaryOk(notes: Notes, deliveries: Deliveries) {
    forall n :: n in notes && notes[n].value.status.Delivered? ==> AnyArrived(deliveries, n)
  }

  predicate Belongs(notes: Notes, k: DeliveryId, d: Delivery) {
    && (k.ForChannel? ==> k == ForChannel(d.notification, d.channel))
    && d.notification in notes && d.tenant == notes[d.notification].value.tenant
    && d.channel in notes[d.notification].value.channels
  }

  predicate HasDelivery(deliveries: Deliveries, n: NotificationId, channel: string) {
    exists k :: k in deliveries && deliveries[k].value.notification == n && deliveries[k].value.channel == channel
  }

  /** Exactly one delivery per channel of each notification, and no other. */
  ghost predicate IndexOk(notes: Notes, deliveries: Deliveries) {
    && (forall k :: k in deliveries ==> Belongs(notes, k, deliveries[k].value))
    && (forall n, c :: n in notes && c in notes[n].value.channels ==> HasDelivery(deliveries, n, c))
    && (forall j, k :: j in deliveries && k in deliveries && j != k && deliveries[j].value.notification == deliveries[k].value.notification ==>
          deliveries[j].value.channel != deliveries[k].value.channel)
  }

  predicate InHand(d: Delivery) {
    d.status.Waiting? || d.status.Retrying?
  }

  predicate SameNotification(a: Notification, b: Notification) {
    a.tenant == b.tenant && a.recipient == b.recipient && a.channels == b.channels && a.expiresAt == b.expiresAt
  }

  /** A write to a notification moves its status up, or leaves it. */
  predicate Higher(a: Notification, b: Notification) {
    SameNotification(a, b) && (a.status == b.status || Rank(a.status) < Rank(b.status))
  }

  ghost predicate ChangeOk(deliveries: Deliveries, note: NotificationId, base: Notification, next: Notification) {
    && Higher(base, next) && (NoteOk(base) ==> NoteOk(next))
    && (next.status.Delivered? && !base.status.Delivered? ==> AnyArrived(deliveries, note))
  }

  ghost predicate CallOk(notes: Notes, deliveries: Deliveries, now: nat, c: Call) {
    match c.phase
    case Entered => c.task.Mutate? ==> !c.task.change.Refresh?
    case Examining(row, at) => c.task.Attempt? && Pinned(deliveries, c.task.delivery, row) && at <= now && Admitted(row.value, c.task.mode, at)
    case Claiming(row, at) => c.task.Attempt? && Pinned(deliveries, c.task.delivery, row) && at <= now && Admitted(row.value, c.task.mode, at)
    case Claimed(row) => c.task.Attempt? && Pinned(deliveries, c.task.delivery, row) && InHand(row.value)
    case Calling(row) => c.task.Attempt? && Pinned(deliveries, c.task.delivery, row) && InHand(row.value)
    case Finishing(row, _, _, _) => c.task.Attempt? && Pinned(deliveries, c.task.delivery, row) && InHand(row.value)
    case Retried(row, _) => c.task.RetryDelivery? && Pinned(deliveries, c.task.delivery, row) && row.value.status.GivenUp?
    case Listing(_, _) => true
    case Changing(note, change, _, _) => change.Refresh? && change.anyArrived ==> AnyArrived(deliveries, note)
    case Committing(note, change, base, next, _, _) =>
      && Pinned(notes, note, base) && ChangeOk(deliveries, note, base.value, next)
      && (change.Refresh? && change.anyArrived ==> AnyArrived(deliveries, note))
  }

  ghost predicate TablesOk(notes: Notes, deliveries: Deliveries) {
    NotesOk(notes) && SummaryOk(notes, deliveries) && IndexOk(notes, deliveries)
  }

  ghost predicate Inv(s: State) {
    && TablesOk(s.notes, s.deliveries)
    && forall n :: n in s.calls ==> CallOk(s.notes, s.deliveries, s.clock, s.calls[n])
  }

  // ---------------------------------------------------------------------------
  // The tables only move forward
  // ---------------------------------------------------------------------------

  predicate DeliveryKept(a: Delivery, b: Delivery) {
    && b.tenant == a.tenant && b.notification == a.notification && b.channel == a.channel
    && (a.status.Arrived? ==> b.status.Arrived?)
    // A delivery never returns to pending, and while it is pending its attempts only move on.
    && (b.status.Waiting? ==> a.status.Waiting? && (a.lastAttemptAt.Some? ==> b.lastAttemptAt.Some? && a.lastAttemptAt.value <= b.lastAttemptAt.value))
  }

  ghost predicate NotesForward(a: Notes, b: Notes) {
    Evolves(a, b) && forall n :: n in a ==> Higher(a[n].value, b[n].value)
  }

  ghost predicate DeliveriesForward(a: Deliveries, b: Deliveries) {
    Evolves(a, b) && forall k :: k in a ==> DeliveryKept(a[k].value, b[k].value)
  }

  lemma ArrivedStays(a: Deliveries, b: Deliveries, n: NotificationId)
    requires DeliveriesForward(a, b) && AnyArrived(a, n)
    ensures AnyArrived(b, n)
  {
    var k :| k in a && a[k].value.notification == n && a[k].value.status.Arrived?;
    assert DeliveryKept(a[k].value, b[k].value);
    assert k in b && b[k].value.notification == n && b[k].value.status.Arrived?;
  }

  lemma CallStays(na: Notes, da: Deliveries, nb: Notes, db: Deliveries, now: nat, later: nat, c: Call)
    requires CallOk(na, da, now, c) && NotesForward(na, nb) && DeliveriesForward(da, db) && now <= later
    ensures CallOk(nb, db, later, c)
  {
    hide AnyArrived, Admitted, NoteOk, Higher;
    match c.phase
    case Changing(note, change, _, _) => if AnyArrived(da, note) { ArrivedStays(da, db, note); }
    case Committing(note, _, _, _, _, _) => if AnyArrived(da, note) { ArrivedStays(da, db, note); }
    case _ =>
  }

  lemma ForwardReflexive(notes: Notes, deliveries: Deliveries)
    ensures NotesForward(notes, notes) && DeliveriesForward(deliveries, deliveries)
  {}

  lemma ForwardTransitive(na: Notes, da: Deliveries, nb: Notes, db: Deliveries, nc: Notes, dc: Deliveries)
    requires NotesForward(na, nb) && NotesForward(nb, nc) && DeliveriesForward(da, db) && DeliveriesForward(db, dc)
    ensures NotesForward(na, nc) && DeliveriesForward(da, dc)
  {}

  // ---------------------------------------------------------------------------
  // The three kinds of write
  // ---------------------------------------------------------------------------

  /** Rewriting one delivery over the row that was read. */
  lemma DeliveryWrite(notes: Notes, deliveries: Deliveries, k: DeliveryId, row: Row<Delivery>, next: Delivery)
    requires TablesOk(notes, deliveries) && Pinned(deliveries, k, row) && CasWins(deliveries, k, row.version) && DeliveryKept(row.value, next)
    ensures TablesOk(notes, Cas(deliveries, k, row.version, next)) && DeliveriesForward(deliveries, Cas(deliveries, k, row.version, next))
  {
    hide AnyArrived, NotesOk, HasDelivery;
    var after := Cas(deliveries, k, row.version, next);
    assert DeliveriesForward(deliveries, after);
    forall n | n in notes && notes[n].value.status.Delivered? ensures AnyArrived(after, n) {
      ArrivedStays(deliveries, after, n);
    }
    forall n, c | n in notes && c in notes[n].value.channels ensures HasDelivery(after, n, c) {
      HasDeliveryStays(deliveries, after, n, c);
    }
  }

  lemma HasDeliveryStays(a: Deliveries, b: Deliveries, n: NotificationId, c: string)
    requires DeliveriesForward(a, b) && HasDelivery(a, n, c)
    ensures HasDelivery(b, n, c)
  {
    var k :| k in a && a[k].value.notification == n && a[k].value.channel == c;
    assert DeliveryKept(a[k].value, b[k].value);
    assert k in b && b[k].value.notification == n && b[k].value.channel == c;
  }

  /** Rewriting one notification over the row that was read. */
  lemma NoteWrite(notes: Notes, deliveries: Deliveries, n: NotificationId, base: Row<Notification>, next: Notification)
    requires TablesOk(notes, deliveries) && Pinned(notes, n, base) && CasWins(notes, n, base.version) && ChangeOk(deliveries, n, base.value, next)
    ensures TablesOk(Cas(notes, n, base.version, next), deliveries) && NotesForward(notes, Cas(notes, n, base.version, next))
  {
    hide AnyArrived, HasDelivery;
    var after := Cas(notes, n, base.version, next);
    assert notes[n] == base;
    forall k | k in deliveries ensures Belongs(after, k, deliveries[k].value) {
      assert Belongs(notes, k, deliveries[k].value);
    }
  }

  /** A notification and one delivery for each of its channels, all new. */
  lemma Creation(notes: Notes, deliveries: Deliveries, n: NotificationId, note: Notification, born: Deliveries)
    requires TablesOk(notes, deliveries) && n !in notes && born.Keys !! deliveries.Keys && NoteOk(note)
    requires forall k :: k in born && k.ForChannel? ==> k == ForChannel(born[k].value.notification, born[k].value.channel)
    requires forall k :: k in born ==> born[k].value.notification == n && born[k].value.tenant == note.tenant && born[k].value.channel in note.channels
    requires forall c :: c in note.channels ==> HasDelivery(born, n, c)
    requires forall j, k :: j in born && k in born && j != k ==> born[j].value.channel != born[k].value.channel
    requires note.status.Delivered? ==> AnyArrived(born, n)
    ensures TablesOk(notes[n := Row(note, 1)], deliveries + born)
    ensures NotesForward(notes, notes[n := Row(note, 1)]) && DeliveriesForward(deliveries, deliveries + born)
  {
    hide AnyArrived, HasDelivery;
    var notes', deliveries' := notes[n := Row(note, 1)], deliveries + born;
    forall x | x in notes' && notes'[x].value.status.Delivered? ensures AnyArrived(deliveries', x) {
      if x == n {
        AnyArrivedIn(born, deliveries', n);
      } else {
        ArrivedStays(deliveries, deliveries', x);
      }
    }
    forall k | k in deliveries' ensures Belongs(notes', k, deliveries'[k].value) {
      if k in deliveries {
        assert Belongs(notes, k, deliveries[k].value);
      }
    }
    forall x, c | x in notes' && c in notes'[x].value.channels ensures HasDelivery(deliveries', x, c) {
      if x == n {
        HasDeliveryIn(born, deliveries', n, c);
      } else {
        HasDeliveryStays(deliveries, deliveries', x, c);
      }
    }
    forall j, k | j in deliveries' && k in deliveries' && j != k && deliveries'[j].value.notification == deliveries'[k].value.notification
      ensures deliveries'[j].value.channel != deliveries'[k].value.channel
    {
      if j in deliveries {
        assert Belongs(notes, j, deliveries[j].value);
      }
      if k in deliveries {
        assert Belongs(notes, k, deliveries[k].value);
      }
    }
  }

  lemma AnyArrivedIn(part: Deliveries, whole: Deliveries, n: NotificationId)
    requires AnyArrived(part, n) && forall k :: k in part ==> k in whole && whole[k] == part[k]
    ensures AnyArrived(whole, n)
  {
    var k :| k in part && part[k].value.notification == n && part[k].value.status.Arrived?;
    assert k in whole && whole[k].value.notification == n && whole[k].value.status.Arrived?;
  }

  lemma HasDeliveryIn(part: Deliveries, whole: Deliveries, n: NotificationId, c: string)
    requires HasDelivery(part, n, c) && forall k :: k in part ==> k in whole && whole[k] == part[k]
    ensures HasDelivery(whole, n, c)
  {
    var k :| k in part && part[k].value.notification == n && part[k].value.channel == c;
    assert k in whole && whole[k].value.notification == n && whole[k].value.channel == c;
  }

  // ---------------------------------------------------------------------------
  // One step of one call
  // ---------------------------------------------------------------------------

  ghost predicate EffectOk(s: State, e: Effect) {
    && TablesOk(e.notes, e.deliveries) && NotesForward(s.notes, e.notes) && DeliveriesForward(s.deliveries, e.deliveries)
    && (e.next.Some? ==> CallOk(e.notes, e.deliveries, s.clock, e.next.value))
  }

  /** The status only rises and keeps agreeing with its stamps, whatever change is made to it. */
  lemma ChangedIsOk(deliveries: Deliveries, note: NotificationId, n: Notification, change: Change, now: nat)
    requires Changed(n, change, now).Some? && NoteOk(n)
    requires change.Refresh? && change.anyArrived ==> AnyArrived(deliveries, note)
    ensures ChangeOk(deliveries, note, n, Changed(n, change, now).value)
  {
    hide AnyArrived;
  }

  lemma CreateOk(cfg: Config, s: State, c: Call)
    requires Inv(s) && c.task.Notify? && c.phase.Entered?
    ensures EffectOk(s, DoCreate(cfg, s, c))
  {
    hide TablesOk, HasDelivery, AnyArrived, NotesForward, DeliveriesForward;
    var t := c.task;
    var born := NewDeliveries(cfg, t);
    ForwardReflexive(s.notes, s.deliveries);
    forall ch | ch in t.channels ensures HasDelivery(born, t.id, ch) {
      NewDeliveryExists(cfg, t, ch);
    }
    if t.id !in s.notes && born.Keys * s.deliveries.Keys == {} {
      forall k | k in born.Keys ensures k !in s.deliveries.Keys {
        assert k in born.Keys * s.deliveries.Keys <==> k in s.deliveries.Keys;
      }
      Creation(s.notes, s.deliveries, t.id, NewNotification(t), born);
    }
  }

  lemma NewDeliveryExists(cfg: Config, t: Task, channel: string)
    requires t.Notify? && channel in t.channels
    ensures HasDelivery(NewDeliveries(cfg, t), t.id, channel)
  {
    var k := ForChannel(t.id, channel);
    assert k in NewDeliveries(cfg, t);
  }

  lemma AttemptOk(cfg: Config, s: State, c: Call, outcome: Outcome)
    requires Inv(s) && c.task.Attempt? && CallOk(s.notes, s.deliveries, s.clock, c)
    requires c.phase.Entered? || c.phase.Examining? || c.phase.Claiming? || c.phase.Claimed? || c.phase.Calling? || c.phase.Finishing?
    ensures EffectOk(s, Do(cfg, s, c, outcome))
  {
    hide TablesOk, AnyArrived, NotesForward, DeliveriesForward, RetryDelay, DoCreate, DoRetry, DoMutate, DoList, DoChange, DoCommit;
    ForwardReflexive(s.notes, s.deliveries);
    if c.phase.Claiming? && CasWins(s.deliveries, c.task.delivery, c.phase.row.version) {
      DeliveryWrite(s.notes, s.deliveries, c.task.delivery, c.phase.row, ClaimedDelivery(c.phase.row.value, c.phase.at));
    } else if c.phase.Finishing? && CasWins(s.deliveries, c.task.delivery, c.phase.row.version) {
      DeliveryWrite(s.notes, s.deliveries, c.task.delivery, c.phase.row, Finished(cfg, c.phase.row.value, c.phase.outcome, s.clock));
    }
  }

  lemma RetryOk(cfg: Config, s: State, c: Call)
    requires Inv(s) && c.task.RetryDelivery? && (c.phase.Entered? || c.phase.Retried?) && CallOk(s.notes, s.deliveries, s.clock, c)
    ensures EffectOk(s, DoRetry(cfg, s, c))
  {
    hide TablesOk, AnyArrived, NotesForward, DeliveriesForward;
    ForwardReflexive(s.notes, s.deliveries);
    if c.phase.Retried? && CasWins(s.deliveries, c.task.delivery, c.phase.row.version) {
      var row := c.phase.row;
      DeliveryWrite(s.notes, s.deliveries, c.task.delivery, row,
                    row.value.(status := Retrying, maxAttempts := row.value.attemptCount + cfg.maxAttempts, nextAttemptAt := Some(c.phase.at)));
    }
  }

  lemma ChangingOk(s: State, c: Call)
    requires Inv(s) && (c.phase.Listing? || c.phase.Changing? || c.phase.Committing?) && CallOk(s.notes, s.deliveries, s.clock, c)
    ensures c.phase.Listing? ==> EffectOk(s, DoList(s, c))
    ensures c.phase.Changing? ==> EffectOk(s, DoChange(s, c))
    ensures c.phase.Committing? ==> EffectOk(s, DoCommit(s, c))
  {
    hide AnyArrived, AllGivenUp, NotesForward, DeliveriesForward, ChangeOk, Changed, NoteOk, IndexOk, SummaryOk;
    ForwardReflexive(s.notes, s.deliveries);
    if c.phase.Changing? && c.phase.note in s.notes {
      var n := s.notes[c.phase.note].value;
      if Changed(n, c.phase.change, s.clock).Some? {
        ChangedIsOk(s.deliveries, c.phase.note, n, c.phase.change, s.clock);
      }
    } else if c.phase.Committing? && CasWins(s.notes, c.phase.note, c.phase.base.version) {
      NoteWrite(s.notes, s.deliveries, c.phase.note, c.phase.base, c.phase.next);
    }
  }

  lemma MutateOk(s: State, c: Call)
    requires Inv(s) && c.task.Mutate? && c.phase.Entered? && CallOk(s.notes, s.deliveries, s.clock, c)
    ensures EffectOk(s, DoMutate(s, c))
  {
    hide TablesOk, AnyArrived, NotesForward, DeliveriesForward;
    ForwardReflexive(s.notes, s.deliveries);
  }

  lemma DoOk(cfg: Config, s: State, c: Call, outcome: Outcome)
    requires Inv(s) && CallOk(s.notes, s.deliveries, s.clock, c)
    ensures EffectOk(s, Do(cfg, s, c, outcome))
  {
    hide Inv, EffectOk, Pinned, ChangeOk, AnyArrived, Admitted, DoCreate, DoRead, DoExamine, DoClaim, DoFinish, DoRetry, DoMutate, DoList, DoChange, DoCommit;
    match c.phase
    case Entered =>
      if c.task.Notify? {
        CreateOk(cfg, s, c);
      } else if c.task.Attempt? {
        AttemptOk(cfg, s, c, outcome);
      } else if c.task.RetryDelivery? {
        RetryOk(cfg, s, c);
      } else {
        MutateOk(s, c);
      }
    case Retried(_, _) => RetryOk(cfg, s, c);
    case Listing(_, _) => ChangingOk(s, c);
    case Changing(_, _, _, _) => ChangingOk(s, c);
    case Committing(_, _, _, _, _, _) => ChangingOk(s, c);
    case _ => AttemptOk(cfg, s, c, outcome);
  }

  lemma QueuedOk(cfg: Config, s: State, a: Action)
    requires Inv(s) && Enabled(s, a) && a.QueueNotification?
    ensures var s' := Step(cfg, s, a);
            TablesOk(s'.notes, s'.deliveries) && NotesForward(s.notes, s'.notes) && DeliveriesForward(s.deliveries, s'.deliveries)
  {
    hide TablesOk, NotesForward, DeliveriesForward, AnyArrived, HasDelivery;
    var s' := Step(cfg, s, a);
    var n, k := FreshNotification(a.uuid), FreshDelivery(a.deliveryUuid);
    var d := Delivery(a.tenant, n, "in-app", Arrived, 1, 1, None, Some(s.clock));
    var born: Deliveries := map[k := Row(d, 1)];
    SingleDelivery(born, k, n);
    Creation(s.notes, s.deliveries, n, Notification(a.tenant, a.recipient, ["in-app"], Delivered, None, None, None, None), born);
    assert s'.deliveries == s.deliveries + born;
  }

  lemma SingleDelivery(born: Deliveries, k: DeliveryId, n: NotificationId)
    requires k in born && born[k].value.notification == n && born[k].value.status.Arrived?
    ensures AnyArrived(born, n) && HasDelivery(born, n, born[k].value.channel)
  {}

  lemma StepKeepsInv(cfg: Config, s: State, a: Action)
    requires Inv(s) && Enabled(s, a)
    ensures var s' := Step(cfg, s, a); Inv(s') && NotesForward(s.notes, s'.notes) && DeliveriesForward(s.deliveries, s'.deliveries)
  {
    hide TablesOk, CallOk, NotesForward, DeliveriesForward, Do;
    var s' := Step(cfg, s, a);
    ForwardReflexive(s.notes, s.deliveries);
    match a {
      case Go(call, outcome) => DoOk(cfg, s, s.calls[call], outcome);
      case QueueNotification(_, _, _, _) => QueuedOk(cfg, s, a);
      case Begin(call, task) => BegunOk(s, task);
      case _ =>
    }
    forall n | n in s'.calls ensures CallOk(s'.notes, s'.deliveries, s'.clock, s'.calls[n]) {
      if n in s.calls && s.calls[n] == s'.calls[n] {
        CallStays(s.notes, s.deliveries, s'.notes, s'.deliveries, s.clock, s'.clock, s.calls[n]);
      }
    }
  }

  lemma BegunOk(s: State, task: Task)
    requires task.Mutate? ==> !task.change.Refresh?
    ensures CallOk(s.notes, s.deliveries, s.clock, Call(task, Entered))
  {}

  lemma {:induction false} RunKeepsInv(cfg: Config, tr: seq<State>, acts: seq<Action>, i: nat, j: nat)
    requires IsRun(cfg, tr, acts) && Inv(tr[0]) && i <= j < |tr|
    ensures Inv(tr[i]) && Inv(tr[j])
    ensures NotesForward(tr[i].notes, tr[j].notes) && DeliveriesForward(tr[i].deliveries, tr[j].deliveries)
    decreases j
  {
    hide Inv, NotesForward, DeliveriesForward, Enabled, Step;
    if j == 0 {
      ForwardReflexive(tr[0].notes, tr[0].deliveries);
    } else {
      RunKeepsInv(cfg, tr, acts, if i < j then i else j - 1, j - 1);
      StepKeepsInv(cfg, tr[j - 1], acts[j - 1]);
      if i < j {
        ForwardTransitive(tr[i].notes, tr[i].deliveries, tr[j - 1].notes, tr[j - 1].deliveries, tr[j].notes, tr[j].deliveries);
      } else {
        ForwardReflexive(tr[j].notes, tr[j].deliveries);
      }
    }
  }

  lemma EmptyIsFine()
    ensures Inv(EMPTY)
  {}

  // ---------------------------------------------------------------------------
  // The life of a notification
  // ---------------------------------------------------------------------------

  /** Every write to a notification strictly raises its status or leaves it, and its stamps agree with it. */
  lemma StatusOnlyRises(cfg: Config, tr: seq<State>, acts: seq<Action>, i: nat, j: nat, n: NotificationId)
    requires IsRun(cfg, tr, acts) && Inv(tr[0]) && i <= j < |tr| && n in tr[i].notes
    ensures n in tr[j].notes
    ensures tr[i].notes[n].value.status == tr[j].notes[n].value.status || Rank(tr[i].notes[n].value.status) < Rank(tr[j].notes[n].value.status)
    ensures tr[j].notes[n].value.readAt.Some? <==> tr[j].notes[n].value.status.Read? || tr[j].notes[n].value.status.Acknowledged?
    ensures tr[j].notes[n].value.acknowledgedAt.Some? <==> tr[j].notes[n].value.status.Acknowledged?
  {
    hide IsRun, SummaryOk, IndexOk, CallOk, DeliveriesForward;
    RunKeepsInv(cfg, tr, acts, i, j);
    assert NoteOk(tr[j].notes[n].value);
  }

  /** A delivery that arrived stays arrived, and a notification that says delivered has one. */
  lemma DeliveredIsTrue(cfg: Config, tr: seq<State>, acts: seq<Action>, i: nat, j: nat)
    requires IsRun(cfg, tr, acts) && Inv(tr[0]) && i <= j < |tr|
    ensures forall k :: k in tr[i].deliveries && tr[i].deliveries[k].value.status.Arrived? ==>
              k in tr[j].deliveries && tr[j].deliveries[k].value.status.Arrived?
    ensures forall n :: n in tr[j].notes && tr[j].notes[n].value.status.Delivered? ==>
              exists k :: k in tr[j].deliveries && tr[j].deliveries[k].value.notification == n && tr[j].deliveries[k].value.status.Arrived?
  {
    hide IsRun, NotesOk, IndexOk, CallOk, NotesForward;
    RunKeepsInv(cfg, tr, acts, i, j);
  }

  // ---------------------------------------------------------------------------
  // Idempotent notify
  // ---------------------------------------------------------------------------

  /** The step is the one transaction that creates this notification. */
  predicate Creates(s: State, a: Action, n: NotificationId) {
    a.Go? && a.call in s.calls && s.calls[a.call].task.Notify? && s.calls[a.call].phase.Entered? && s.calls[a.call].task.id == n && n !in s.notes
  }

  lemma CreatesCreates(cfg: Config, s: State, a: Action, n: NotificationId)
    requires Inv(s) && Enabled(s, a) && Creates(s, a, n)
    ensures var s' := Step(cfg, s, a); n in s'.notes && s'.notes[n].value == NewNotification(s.calls[a.call].task)
  {
    NothingInTheWay(cfg, s, s.calls[a.call].task);
  }

  /** A notification that is not there has no deliveries either, so nothing blocks its creation. */
  lemma NothingInTheWay(cfg: Config, s: State, t: Task)
    requires Inv(s) && t.Notify? && t.id !in s.notes
    ensures NewDeliveries(cfg, t).Keys * s.deliveries.Keys == {}
  {
    hide CallOk, NotesOk, SummaryOk;
    var born := NewDeliveries(cfg, t);
    forall k | k in born ensures k !in s.deliveries {
      if k in s.deliveries {
        DeliveryHasNotification(s, k);
        assert false;
      }
    }
  }

  /** No delivery exists before its notification does. */
  lemma DeliveryHasNotification(s: State, k: DeliveryId)
    requires Inv(s) && k in s.deliveries && k.ForChannel?
    ensures k.notification in s.notes
  {
    assert Belongs(s.notes, k, s.deliveries[k].value);
  }

  /** Any number of concurrent calls with one tenant, recipient and key create exactly one notification. */
  lemma CreatedOnce(cfg: Config, tr: seq<State>, acts: seq<Action>, i: nat, j: nat, n: NotificationId)
    requires IsRun(cfg, tr, acts) && Inv(tr[0]) && i < |acts| && j < |acts|
    requires Creates(tr[i], acts[i], n) && Creates(tr[j], acts[j], n)
    ensures i == j
  {
    hide Inv, Step, DeliveriesForward;
    var x, y := if i < j then i else j, if i < j then j else i;
    RunKeepsInv(cfg, tr, acts, 0, x);
    CreatesCreates(cfg, tr[x], acts[x], n);
    if x < y {
      RunKeepsInv(cfg, tr, acts, x + 1, y);
    }
  }

  /** A notify call that reaches its transaction leaves its notification there, its own or the one that won. */
  lemma NotifyLeavesOne(cfg: Config, tr: seq<State>, acts: seq<Action>, i: nat)
    requires IsRun(cfg, tr, acts) && Inv(tr[0]) && i < |acts|
    requires var a := acts[i]; a.Go? && tr[i].calls[a.call].task.Notify? && tr[i].calls[a.call].phase.Entered?
    ensures tr[i].calls[acts[i].call].task.id in tr[i + 1].notes
  {
    hide Inv, DeliveriesForward;
    RunKeepsInv(cfg, tr, acts, 0, i);
    var n := tr[i].calls[acts[i].call].task.id;
    if n in tr[i].notes {
      RunKeepsInv(cfg, tr, acts, i, i + 1);
    } else {
      CreatesCreates(cfg, tr[i], acts[i], n);
    }
  }

  /** From its creation on, a notification has exactly one delivery on each channel the winning call named, and none on another. */
  lemma OneDeliveryPerChannel(cfg: Config, tr: seq<State>, acts: seq<Action>, i: nat, j: nat, n: NotificationId, channel: string)
    requires IsRun(cfg, tr, acts) && Inv(tr[0]) && i < j < |tr| && Creates(tr[i], acts[i], n)
    ensures n in tr[j].notes && tr[j].notes[n].value.channels == tr[i].calls[acts[i].call].task.channels
    ensures channel in tr[i].calls[acts[i].call].task.channels <==>
            exists k :: k in tr[j].deliveries && tr[j].deliveries[k].value.notification == n && tr[j].deliveries[k].value.channel == channel
    ensures forall a, b :: a in tr[j].deliveries && b in tr[j].deliveries && a != b
                           && tr[j].deliveries[a].value.notification == n && tr[j].deliveries[b].value.notification == n
                           && tr[j].deliveries[a].value.channel == channel ==>
              tr[j].deliveries[b].value.channel != channel
  {
    hide NotesOk, SummaryOk, CallOk, DeliveriesForward, Step;
    RunKeepsInv(cfg, tr, acts, 0, i);
    RunStep(cfg, tr, acts, i);
    CreatesCreates(cfg, tr[i], acts[i], n);
    RunKeepsInv(cfg, tr, acts, i + 1, j);
    if channel in tr[j].notes[n].value.channels {
      assert HasDelivery(tr[j].deliveries, n, channel);
    }
    forall k | k in tr[j].deliveries && tr[j].deliveries[k].value.notification == n ensures tr[j].deliveries[k].value.channel in tr[j].notes[n].value.channels {
      assert Belongs(tr[j].notes, k, tr[j].deliveries[k].value);
    }
  }

  lemma RunStep(cfg: Config, tr: seq<State>, acts: seq<Action>, i: nat)
    requires IsRun(cfg, tr, acts) && i < |acts|
    ensures Enabled(tr[i], acts[i]) && tr[i + 1] == Step(cfg, tr[i], acts[i])
  {}
}

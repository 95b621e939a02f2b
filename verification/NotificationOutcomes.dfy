/**
 What each step of the notification service comes to, read off the stored records:
 which deliveries are attempted, when a channel is called, how a delivery settles and
 what becomes of a notification.
*/
module NotificationOutcomes {
  import opened Common
  import opened FeltDb
  import opened Notifications
  import opened NotificationTheorems

  // ---------------------------------------------------------------------------
  // Creation
  // ---------------------------------------------------------------------------

  /** A delivery nobody has attempted, with all its attempts. */
  predicate IsFresh(d: Delivery, tenant: string, note: NotificationId, channel: string, maxAttempts: nat) {
    && d.tenant == tenant && d.notification == note && d.channel == channel && d.status == Waiting
    && d.attemptCount == 0 && d.maxAttempts == maxAttempts && d.nextAttemptAt.None? && d.lastAttemptAt.None?
  }

  /** A notification nobody has seen, as it was asked for. */
  predicate IsUnseen(n: Notification, tenant: string, recipient: string, channels: seq<string>, expiresAt: Option<nat>) {
    && n.tenant == tenant && n.recipient == recipient && n.channels == channels && n.expiresAt == expiresAt
    && n.status == Status.Pending && n.readAt.None? && n.acknowledgedAt.None? && n.dismissedAt.None?
  }

  /** The notification is new, with one new delivery on each of its channels; nothing else is. */
  ghost predicate IsBorn(cfg: Config, t: Task, notes: Notes, deliveries: Deliveries, notes': Notes, deliveries': Deliveries)
    requires t.Notify?
  {
    && t.id in notes' && notes' == notes[t.id := notes'[t.id]] && notes'[t.id].version == 1
    && IsUnseen(notes'[t.id].value, t.tenant, t.recipient, t.channels, t.expiresAt)
    && (forall k :: k in deliveries' <==> k in deliveries || (k.ForChannel? && k.notification == t.id && k.channel in t.channels))
    && (forall k :: k in deliveries' ==>
          if k in deliveries then deliveries'[k] == deliveries[k]
          else deliveries'[k].version == 1 && IsFresh(deliveries'[k].value, t.tenant, t.id, k.channel, cfg.maxAttempts))
  }

  /** A notify call creates its notification exactly when there is none of its id, and otherwise writes nothing. */
  lemma CreateDecides(cfg: Config, s: State, call: nat, outcome: Outcome)
    requires Inv(s) && call in s.calls && s.calls[call].task.Notify? && s.calls[call].phase.Entered?
    ensures var t, s' := s.calls[call].task, Step(cfg, s, Go(call, outcome));
            && call !in s'.calls
            && if t.id in s.notes then s'.notes == s.notes && s'.deliveries == s.deliveries
               else IsBorn(cfg, t, s.notes, s.deliveries, s'.notes, s'.deliveries)
  {
    hide Inv;
    var t := s.calls[call].task;
    if t.id !in s.notes {
      NothingInTheWay(cfg, s, t);
      var born := NewDeliveries(cfg, t);
      forall k ensures k in born <==> k.ForChannel? && k.notification == t.id && k.channel in t.channels {
        if k.ForChannel? && k.notification == t.id && k.channel in t.channels {
          assert k == ForChannel(t.id, k.channel);
        }
      }
      forall k | k in born ensures k !in s.deliveries {
        assert k !in born.Keys * s.deliveries.Keys;
      }
    }
  }

  /** A notification queued in a transaction is delivered in the app from the start. */
  lemma QueuedArrives(cfg: Config, s: State, uuid: string, deliveryUuid: string, tenant: string, recipient: string)
    requires Enabled(s, QueueNotification(uuid, deliveryUuid, tenant, recipient))
    ensures var s' := Step(cfg, s, QueueNotification(uuid, deliveryUuid, tenant, recipient)); var n, k := FreshNotification(uuid), FreshDelivery(deliveryUuid);
            && n in s'.notes && s'.notes == s.notes[n := s'.notes[n]] && k in s'.deliveries && s'.deliveries == s.deliveries[k := s'.deliveries[k]]
            && s'.calls == s.calls
            && var note, d := s'.notes[n].value, s'.deliveries[k].value;
               && note.tenant == tenant && note.recipient == recipient && note.channels == ["in-app"] && note.status.Delivered? && note.expiresAt.None?
               && d.tenant == tenant && d.notification == n && d.channel == "in-app" && d.status.Arrived? && d.attemptCount == 1
  {}

  // ---------------------------------------------------------------------------
  // The attempt
  // ---------------------------------------------------------------------------

  /**
   A waiting delivery may be attempted unless it was attempted in the last half minute;
   one to be retried may be at any time by hand and from its next attempt on by schedule.
  */
  predicate MayBeAttempted(d: Delivery, mode: Mode, now: nat) {
    match d.status
    case Waiting => d.lastAttemptAt.None? || now - d.lastAttemptAt.value >= 30_000
    case Retrying => !mode.Scheduled? || d.nextAttemptAt.None? || d.nextAttemptAt.value <= now
    case Arrived => false
    case GivenUp => false
  }

  /** The step wrote nothing. */
  predicate WroteNothing(s: State, s': State) {
    s'.notes == s.notes && s'.deliveries == s.deliveries
  }

  predicate GoesOn(s: State, s': State, call: nat, phase: Phase)
    requires call in s.calls
  {
    call in s'.calls && s'.calls[call] == s.calls[call].(phase := phase)
  }

  /** An attempt goes on exactly with a delivery of its tenant that may be attempted now. */
  lemma ReadDecides(cfg: Config, s: State, call: nat, outcome: Outcome)
    requires call in s.calls && s.calls[call].task.Attempt? && s.calls[call].phase.Entered?
    ensures var t, s' := s.calls[call].task, Step(cfg, s, Go(call, outcome)); var k := t.delivery;
            && WroteNothing(s, s')
            && if k in s.deliveries && s.deliveries[k].value.tenant == t.deliveryTenant && MayBeAttempted(s.deliveries[k].value, t.mode, s.clock)
               then GoesOn(s, s', call, Examining(s.deliveries[k], s.clock))
               else call !in s'.calls
  {}

  /** The notification is there for the delivery's tenant, had not expired when the attempt began, and its channel is set up. */
  predicate MayBeDelivered(cfg: Config, notes: Notes, d: Delivery, at: nat) {
    && d.notification in notes && notes[d.notification].value.tenant == d.tenant
    && (notes[d.notification].value.expiresAt.Some? ==> at < notes[d.notification].value.expiresAt.value)
    && d.channel in cfg.channels
  }

  /** An attempt is claimed exactly if it may be delivered; otherwise it fails for good, and what has expired is expired next. */
  lemma ExamineDecides(cfg: Config, s: State, call: nat, outcome: Outcome)
    requires call in s.calls && s.calls[call].phase.Examining?
    ensures var p, s' := s.calls[call].phase, Step(cfg, s, Go(call, outcome)); var d := p.row.value;
            var there := d.notification in s.notes && s.notes[d.notification].value.tenant == d.tenant;
            var expired := there && s.notes[d.notification].value.expiresAt.Some? && s.notes[d.notification].value.expiresAt.value <= p.at;
            && WroteNothing(s, s')
            && GoesOn(s, s', call, if MayBeDelivered(cfg, s.notes, d, p.at) then Claiming(p.row, p.at) else Finishing(p.row, Failure(false), there, expired))
  {}

  /** A claim counts the attempt and its time over the version read, or ends the call. */
  lemma ClaimDecides(cfg: Config, s: State, call: nat, outcome: Outcome)
    requires Inv(s) && call in s.calls && s.calls[call].phase.Claiming?
    ensures var c, s' := s.calls[call], Step(cfg, s, Go(call, outcome)); var k, row := c.task.delivery, c.phase.row;
            && s'.notes == s.notes
            && if k in s.deliveries && s.deliveries[k].version == row.version
               then
                 && s.deliveries[k] == row && k in s'.deliveries && s'.deliveries == s.deliveries[k := s'.deliveries[k]]
                 && GoesOn(s, s', call, Claimed(s'.deliveries[k])) && s'.deliveries[k].version == row.version + 1
                 && var d := s'.deliveries[k].value;
                    d.attemptCount == row.value.attemptCount + 1 && d.lastAttemptAt == Some(c.phase.at)
                    && d == row.value.(attemptCount := d.attemptCount, lastAttemptAt := d.lastAttemptAt)
               else call !in s'.calls && s'.deliveries == s.deliveries
  {
    assert CallOk(s.notes, s.deliveries, s.clock, s.calls[call]);
  }

  /** A claimed delivery's channel is called, and what it answers is what the delivery is settled with. */
  lemma CallDecides(cfg: Config, s: State, call: nat, outcome: Outcome)
    requires call in s.calls && (s.calls[call].phase.Claimed? || s.calls[call].phase.Calling?)
    ensures var p, s' := s.calls[call].phase, Step(cfg, s, Go(call, outcome));
            WroteNothing(s, s') && GoesOn(s, s', call, if p.Claimed? then Calling(p.row) else Finishing(p.row, outcome, true, false))
  {}

  /** What an answer makes of a delivery, read off the stored record. */
  ghost predicate SettlesAs(cfg: Config, d: Delivery, outcome: Outcome, now: nat, d': Delivery) {
    && d' == d.(status := d'.status, nextAttemptAt := d'.nextAttemptAt)
    && (d'.status.Arrived? <==> outcome.Success?) && !d'.status.Waiting?
    // It is retried exactly while the answer allows it, there are jobs to do so, and attempts are left.
    && (d'.status.Retrying? <==> outcome == Failure(true) && cfg.jobs && d.attemptCount < d.maxAttempts)
    && (!d'.status.Retrying? ==> d'.nextAttemptAt.None?)
    // The wait doubles with each attempt after the first, up to an hour.
    && (d'.status.Retrying? && d.attemptCount > 0 ==>
          d'.nextAttemptAt == Some(now + (if cfg.retryDelayMs * Pow2(d.attemptCount - 1) > 3_600_000 then 3_600_000 else cfg.retryDelayMs * Pow2(d.attemptCount - 1))))
    && (d'.status.Retrying? && d.attemptCount == 0 ==>
          d'.nextAttemptAt == Some(now + if cfg.retryDelayMs > 3_600_000 then 3_600_000 else cfg.retryDelayMs))
  }

  lemma FinishedSettles(cfg: Config, d: Delivery, outcome: Outcome, now: nat)
    ensures SettlesAs(cfg, d, outcome, now, Finished(cfg, d, outcome, now))
  {}

  /** An answer settles the record the call still holds; a newer writer's record is left alone. */
  lemma FinishDecides(cfg: Config, s: State, call: nat, outcome: Outcome)
    requires Inv(s) && call in s.calls && s.calls[call].phase.Finishing?
    ensures var c, s' := s.calls[call], Step(cfg, s, Go(call, outcome)); var k, row, n := c.task.delivery, c.phase.row, c.phase.row.value.notification;
            && s'.notes == s.notes
            && if k in s.deliveries && s.deliveries[k].version == row.version
               then
                 && s.deliveries[k] == row && k in s'.deliveries && s'.deliveries == s.deliveries[k := s'.deliveries[k]]
                 && s'.deliveries[k].version == row.version + 1 && SettlesAs(cfg, row.value, c.phase.outcome, s.clock, s'.deliveries[k].value)
                 && if c.phase.noted then GoesOn(s, s', call, Listing(n, c.phase.expire)) else call !in s'.calls
               else
                 && s'.deliveries == s.deliveries
                 && if c.phase.expire then GoesOn(s, s', call, Changing(n, Expire, 0, false)) else call !in s'.calls
  {
    hide Finished, SettlesAs;
    var c := s.calls[call];
    assert CallOk(s.notes, s.deliveries, s.clock, c);
    FinishedSettles(cfg, c.phase.row.value, c.phase.outcome, s.clock);
  }

  /** It is due now, with a full round of attempts beyond those it had. */
  predicate HasANewRound(cfg: Config, d: Delivery, now: nat, d': Delivery) {
    && d'.status.Retrying? && d'.nextAttemptAt == Some(now) && d'.maxAttempts - d'.attemptCount == cfg.maxAttempts
    && d' == d.(status := d'.status, maxAttempts := d'.maxAttempts, nextAttemptAt := d'.nextAttemptAt)
  }

  /** A delivery that was given up gets a new round of attempts, at once by hand or by a job that is due now. */
  lemma RetryDecides(cfg: Config, s: State, call: nat, outcome: Outcome)
    requires Inv(s) && call in s.calls && s.calls[call].task.RetryDelivery? && (s.calls[call].phase.Entered? || s.calls[call].phase.Retried?)
    ensures var c, s' := s.calls[call], Step(cfg, s, Go(call, outcome)); var t, k := c.task, c.task.delivery;
            && s'.notes == s.notes
            && if c.phase.Entered? then
                 && s'.deliveries == s.deliveries
                 && if k in s.deliveries && s.deliveries[k].value.tenant == t.deliveryTenant && s.deliveries[k].value.status.GivenUp?
                    then GoesOn(s, s', call, Retried(s.deliveries[k], s.clock)) else call !in s'.calls
               else if k in s.deliveries && s.deliveries[k].version == c.phase.row.version then
                 && s.deliveries[k] == c.phase.row && k in s'.deliveries && s'.deliveries == s.deliveries[k := s'.deliveries[k]]
                 && HasANewRound(cfg, s.deliveries[k].value, c.phase.at, s'.deliveries[k].value)
                 && if cfg.jobs then call !in s'.calls else call in s'.calls && s'.calls[call] == Call(Attempt(Manual, t.deliveryTenant, k), Entered)
               else call !in s'.calls && s'.deliveries == s.deliveries
  {
    assert CallOk(s.notes, s.deliveries, s.clock, s.calls[call]);
  }

  // ---------------------------------------------------------------------------
  // What becomes of a notification
  // ---------------------------------------------------------------------------

  predicate IsUnread(n: Notification) {
    n.status.Pending? || n.status.Failed? || n.status.Delivered?
  }

  /** Whether a change has something to do. */
  predicate Applies(n: Notification, change: Change, now: nat) {
    match change
    case Refresh(anyArrived, allGivenUp) =>
      (anyArrived && (n.status.Pending? || n.status.Failed?)) || (!anyArrived && allGivenUp && n.status.Pending?)
    case Expire => n.expiresAt.Some? && now >= n.expiresAt.value && IsUnread(n)
    case MarkRead => n.readAt.None?
    case Acknowledge => n.acknowledgedAt.None?
    case Dismiss => n.dismissedAt.None?
  }

  /** What a change leaves: it stamps what it is, moves the status to it, and touches nothing else. */
  predicate ChangesTo(n: Notification, change: Change, now: nat, n': Notification) {
    && n' == n.(status := n'.status, readAt := n'.readAt, acknowledgedAt := n'.acknowledgedAt, dismissedAt := n'.dismissedAt)
    && n'.acknowledgedAt == (if change.Acknowledge? then Some(now) else n.acknowledgedAt)
    && n'.dismissedAt == (if change.Dismiss? then Some(now) else n.dismissedAt)
    // Whoever acknowledges has read.
    && n'.readAt == (if (change.MarkRead? || change.Acknowledge?) && n.readAt.None? then Some(now) else n.readAt)
    && match change
       case Refresh(anyArrived, _) => n'.status == if anyArrived then Delivered else Status.Failed
       case Expire => n'.status.Expired?
       case MarkRead => n'.status == if n.status.Acknowledged? then Acknowledged else Read
       case Acknowledge => n'.status.Acknowledged?
       case Dismiss => n'.status == n.status
  }

  lemma ChangedExactly(n: Notification, change: Change, now: nat)
    ensures Changed(n, change, now).Some? <==> Applies(n, change, now)
    ensures Changed(n, change, now).Some? ==> ChangesTo(n, change, now, Changed(n, change, now).value)
  {}

  /** After the deliveries settle, the notification is refreshed with whether one arrived and whether all were given up. */
  lemma ListDecides(cfg: Config, s: State, call: nat, outcome: Outcome)
    requires call in s.calls && s.calls[call].phase.Listing?
    ensures var p, s' := s.calls[call].phase, Step(cfg, s, Go(call, outcome));
            && WroteNothing(s, s') && call in s'.calls && s'.calls[call].phase.Changing?
            && var q := s'.calls[call].phase;
               && GoesOn(s, s', call, Changing(p.note, q.change, 0, p.expire)) && q.change.Refresh?
               && (q.change.anyArrived <==> exists k :: k in s.deliveries && s.deliveries[k].value.notification == p.note && s.deliveries[k].value.status.Arrived?)
               && (q.change.allGivenUp <==>
                     && (exists k :: k in s.deliveries && s.deliveries[k].value.notification == p.note)
                     && (forall k :: k in s.deliveries && s.deliveries[k].value.notification == p.note ==> s.deliveries[k].value.status.GivenUp?))
  {}

  /** A user's change begins on a notification of its tenant, as asked for. */
  lemma MutateDecides(cfg: Config, s: State, call: nat, outcome: Outcome)
    requires call in s.calls && s.calls[call].task.Mutate? && s.calls[call].phase.Entered?
    ensures var t, s' := s.calls[call].task, Step(cfg, s, Go(call, outcome));
            && WroteNothing(s, s')
            && if t.note in s.notes && s.notes[t.note].value.tenant == t.noteTenant
               then GoesOn(s, s', call, Changing(t.note, t.change, 0, false)) else call !in s'.calls
  {}

  /** The call goes on to the expiry that was due, or ends. */
  predicate EndsChange(s: State, s': State, call: nat, note: NotificationId, expire: bool)
    requires call in s.calls
  {
    if expire then GoesOn(s, s', call, Changing(note, Expire, 0, false)) else call !in s'.calls
  }

  /** A change is decided on the notification as it stands; with nothing to do it is over. */
  lemma ChangeDecides(cfg: Config, s: State, call: nat, outcome: Outcome)
    requires call in s.calls && s.calls[call].phase.Changing?
    ensures var p, s' := s.calls[call].phase, Step(cfg, s, Go(call, outcome));
            && WroteNothing(s, s')
            && if p.note in s.notes && Applies(s.notes[p.note].value, p.change, s.clock)
               then
                 && call in s'.calls && s'.calls[call].phase.Committing?
                 && var next := s'.calls[call].phase.next;
                    && GoesOn(s, s', call, Committing(p.note, p.change, s.notes[p.note], next, p.attempt, p.expire))
                    && ChangesTo(s.notes[p.note].value, p.change, s.clock, next)
               else EndsChange(s, s', call, p.note, p.expire)
  {
    hide Changed, Applies, ChangesTo;
    var p := s.calls[call].phase;
    if p.note in s.notes {
      ChangedExactly(s.notes[p.note].value, p.change, s.clock);
    }
  }

  /** A change is written over the version it was decided on, or decided again, five times in all. */
  lemma CommitDecides(cfg: Config, s: State, call: nat, outcome: Outcome)
    requires Inv(s) && call in s.calls && s.calls[call].phase.Committing?
    ensures var p, s' := s.calls[call].phase, Step(cfg, s, Go(call, outcome));
            && s'.deliveries == s.deliveries
            && if p.note in s.notes && s.notes[p.note].version == p.base.version
               then
                 && s.notes[p.note] == p.base && s'.notes == s.notes[p.note := Row(p.next, p.base.version + 1)]
                 && EndsChange(s, s', call, p.note, p.expire)
               else
                 && s'.notes == s.notes
                 && if p.attempt < 4 then GoesOn(s, s', call, Changing(p.note, p.change, p.attempt + 1, p.expire))
                    else EndsChange(s, s', call, p.note, p.expire)
  {
    assert CallOk(s.notes, s.deliveries, s.clock, s.calls[call]);
  }

  // ---------------------------------------------------------------------------
  // No channel is called unexamined
  // ---------------------------------------------------------------------------

  /** At instant `i` the call read a delivery of its tenant that might be attempted then. */
  ghost predicate ReadAt(tr: seq<State>, acts: seq<Action>, i: nat, call: nat, k: DeliveryId, row: Row<Delivery>) {
    && i < |acts| < |tr| && acts[i].Go? && acts[i].call == call && k in tr[i].deliveries && tr[i].deliveries[k] == row
    && call in tr[i].calls && tr[i].calls[call].task.Attempt? && tr[i].calls[call].task.delivery == k
    && row.value.tenant == tr[i].calls[call].task.deliveryTenant && MayBeAttempted(row.value, tr[i].calls[call].task.mode, tr[i].clock)
  }

  /** At instant `i` the call found that the delivery it had read might be delivered. */
  ghost predicate ExaminedAt(cfg: Config, tr: seq<State>, acts: seq<Action>, i: nat, call: nat, row: Row<Delivery>, at: nat) {
    i < |acts| < |tr| && acts[i].Go? && acts[i].call == call && MayBeDelivered(cfg, tr[i].notes, row.value, at)
  }

  ghost predicate WasRead(tr: seq<State>, acts: seq<Action>, i: nat, call: nat, k: DeliveryId, row: Row<Delivery>, at: nat) {
    exists j: nat :: j < i && ReadAt(tr, acts, j, call, k, row) && at == tr[j].clock
  }

  ghost predicate WasExamined(cfg: Config, tr: seq<State>, acts: seq<Action>, i: nat, call: nat, k: DeliveryId, row: Row<Delivery>, at: nat) {
    exists j: nat :: j < i && ExaminedAt(cfg, tr, acts, j, call, row, at) && WasRead(tr, acts, j, call, k, row, at)
  }

  /** The claimed record is the one that was read and examined, with the attempt counted at the time it was read. */
  ghost predicate ClaimHasPast(cfg: Config, tr: seq<State>, acts: seq<Action>, i: nat, call: nat, k: DeliveryId, claimed: Row<Delivery>) {
    exists row: Row<Delivery>, at: nat ::
      WasExamined(cfg, tr, acts, i, call, k, row, at) && claimed.value == row.value.(attemptCount := row.value.attemptCount + 1, lastAttemptAt := Some(at))
  }

  ghost predicate HasPast(cfg: Config, tr: seq<State>, acts: seq<Action>, i: nat, call: nat)
    requires i < |tr| && call in tr[i].calls
  {
    var c := tr[i].calls[call];
    match c.phase
    case Examining(row, at) => c.task.Attempt? && WasRead(tr, acts, i, call, c.task.delivery, row, at)
    case Claiming(row, at) => c.task.Attempt? && WasExamined(cfg, tr, acts, i, call, c.task.delivery, row, at)
    case Claimed(row) => c.task.Attempt? && ClaimHasPast(cfg, tr, acts, i, call, c.task.delivery, row)
    case Calling(row) => c.task.Attempt? && ClaimHasPast(cfg, tr, acts, i, call, c.task.delivery, row)
    case _ => true
  }

  lemma PastGrows(cfg: Config, tr: seq<State>, acts: seq<Action>, i: nat, call: nat)
    requires i + 1 < |tr| && call in tr[i].calls && call in tr[i + 1].calls && tr[i + 1].calls[call] == tr[i].calls[call]
    requires HasPast(cfg, tr, acts, i, call)
    ensures HasPast(cfg, tr, acts, i + 1, call)
  {
    hide ReadAt, ExaminedAt;
    var c := tr[i].calls[call];
    if c.phase.Claimed? || c.phase.Calling? {
      ClaimGrows(cfg, tr, acts, i, call, c.task.delivery, c.phase.row);
    }
  }

  lemma ClaimGrows(cfg: Config, tr: seq<State>, acts: seq<Action>, i: nat, call: nat, k: DeliveryId, claimed: Row<Delivery>)
    requires ClaimHasPast(cfg, tr, acts, i, call, k, claimed)
    ensures ClaimHasPast(cfg, tr, acts, i + 1, call, k, claimed)
  {
    hide ReadAt, ExaminedAt, WasRead;
    var row: Row<Delivery>, at: nat :|
      WasExamined(cfg, tr, acts, i, call, k, row, at) && claimed.value == row.value.(attemptCount := row.value.attemptCount + 1, lastAttemptAt := Some(at));
    assert WasExamined(cfg, tr, acts, i + 1, call, k, row, at);
  }

  lemma NextPast(cfg: Config, tr: seq<State>, acts: seq<Action>, i: nat, call: nat, outcome: Outcome)
    requires i < |acts| && |tr| == |acts| + 1 && Inv(tr[i]) && call in tr[i].calls && HasPast(cfg, tr, acts, i, call)
    requires acts[i] == Go(call, outcome) && tr[i + 1] == Step(cfg, tr[i], acts[i]) && call in tr[i + 1].calls
    ensures HasPast(cfg, tr, acts, i + 1, call)
  {
    hide Step, ReadAt, WasRead, WasExamined, ExaminedAt, MayBeAttempted, MayBeDelivered, SettlesAs, Applies, ChangesTo, Inv, ClaimHasPast;
    var s, c := tr[i], tr[i].calls[call];
    match c.phase
    case Entered =>
      if c.task.Attempt? {
        ReadDecides(cfg, s, call, outcome);
        ReadHere(tr, acts, i, call, s.deliveries[c.task.delivery]);
      } else if c.task.Notify? {
        CreateDecides(cfg, s, call, outcome);
      } else if c.task.RetryDelivery? {
        RetryDecides(cfg, s, call, outcome);
      } else {
        MutateDecides(cfg, s, call, outcome);
      }
    case Examining(row, at) =>
      ExamineDecides(cfg, s, call, outcome);
      if MayBeDelivered(cfg, s.notes, row.value, at) {
        ExaminedHere(cfg, tr, acts, i, call, c.task.delivery, row, at);
      }
    case Claiming(row, at) =>
      ClaimDecides(cfg, s, call, outcome);
      ClaimedHere(cfg, tr, acts, i, call, c.task.delivery, row, at, tr[i + 1].calls[call].phase.row);
    case Claimed(row) =>
      CallDecides(cfg, s, call, outcome);
      ClaimGrows(cfg, tr, acts, i, call, c.task.delivery, row);
    case Calling(_) => CallDecides(cfg, s, call, outcome);
    case Finishing(_, _, _, _) => FinishDecides(cfg, s, call, outcome);
    case Retried(_, _) => RetriedIsARetry(s, call); RetryDecides(cfg, s, call, outcome);
    case Listing(_, _) => ListDecides(cfg, s, call, outcome);
    case Changing(_, _, _, _) => ChangeDecides(cfg, s, call, outcome);
    case Committing(_, _, _, _, _, _) => CommitDecides(cfg, s, call, outcome);
  }

  lemma RetriedIsARetry(s: State, call: nat)
    requires Inv(s) && call in s.calls && s.calls[call].phase.Retried?
    ensures s.calls[call].task.RetryDelivery?
  {
    assert CallOk(s.notes, s.deliveries, s.clock, s.calls[call]);
  }

  lemma ReadHere(tr: seq<State>, acts: seq<Action>, i: nat, call: nat, row: Row<Delivery>)
    requires i < |acts| < |tr| && acts[i].Go? && acts[i].call == call && call in tr[i].calls
    requires var t := tr[i].calls[call].task;
             && t.Attempt? && t.delivery in tr[i].deliveries && tr[i].deliveries[t.delivery] == row
             && row.value.tenant == t.deliveryTenant && MayBeAttempted(row.value, t.mode, tr[i].clock)
    ensures WasRead(tr, acts, i + 1, call, tr[i].calls[call].task.delivery, row, tr[i].clock)
  {
    assert ReadAt(tr, acts, i, call, tr[i].calls[call].task.delivery, row);
  }

  lemma ExaminedHere(cfg: Config, tr: seq<State>, acts: seq<Action>, i: nat, call: nat, k: DeliveryId, row: Row<Delivery>, at: nat)
    requires i < |acts| < |tr| && acts[i].Go? && acts[i].call == call && MayBeDelivered(cfg, tr[i].notes, row.value, at)
    requires WasRead(tr, acts, i, call, k, row, at)
    ensures WasExamined(cfg, tr, acts, i + 1, call, k, row, at)
  {
    hide WasRead;
    assert ExaminedAt(cfg, tr, acts, i, call, row, at);
  }

  lemma ClaimedHere(cfg: Config, tr: seq<State>, acts: seq<Action>, i: nat, call: nat, k: DeliveryId, row: Row<Delivery>, at: nat, claimed: Row<Delivery>)
    requires WasExamined(cfg, tr, acts, i, call, k, row, at)
    requires claimed.value == row.value.(attemptCount := row.value.attemptCount + 1, lastAttemptAt := Some(at))
    ensures ClaimHasPast(cfg, tr, acts, i + 1, call, k, claimed)
  {
    hide WasRead, ExaminedAt;
    assert WasExamined(cfg, tr, acts, i + 1, call, k, row, at);
  }

  /** Every call's past, over every run. */
  lemma {:induction false} CallsHavePasts(cfg: Config, tr: seq<State>, acts: seq<Action>, i: nat, call: nat)
    requires IsRun(cfg, tr, acts) && tr[0] == EMPTY && i < |tr| && call in tr[i].calls
    ensures HasPast(cfg, tr, acts, i, call)
  {
    hide Inv, Do, WasRead, WasExamined, ClaimHasPast;
    if i > 0 {
      EmptyIsFine();
      RunKeepsInv(cfg, tr, acts, 0, i - 1);
      var s, a := tr[i - 1], acts[i - 1];
      if a.Go? && a.call == call {
        CallsHavePasts(cfg, tr, acts, i - 1, call);
        NextPast(cfg, tr, acts, i - 1, call, a.outcome);
      } else if call in s.calls {
        CallsHavePasts(cfg, tr, acts, i - 1, call);
        PastGrows(cfg, tr, acts, i - 1, call);
      }
    }
  }

  /**
   Over every run a channel is only called for a delivery that this very attempt read
   when it might be attempted, found deliverable after that, and then claimed, with
   the attempt counted.
  */
  lemma NoCallUnexamined(cfg: Config, tr: seq<State>, acts: seq<Action>, i: nat, call: nat) returns (read: nat, examined: nat, row: Row<Delivery>)
    requires IsRun(cfg, tr, acts) && tr[0] == EMPTY && i < |tr| && call in tr[i].calls && tr[i].calls[call].phase.Calling?
    ensures read < examined < i && tr[i].calls[call].task.Attempt?
    ensures ReadAt(tr, acts, read, call, tr[i].calls[call].task.delivery, row) && ExaminedAt(cfg, tr, acts, examined, call, row, tr[read].clock)
    ensures tr[i].calls[call].phase.row.value == row.value.(attemptCount := row.value.attemptCount + 1, lastAttemptAt := Some(tr[read].clock))
  {
    hide ReadAt, ExaminedAt, IsRun;
    CallsHavePasts(cfg, tr, acts, i, call);
    var k, claimed := tr[i].calls[call].task.delivery, tr[i].calls[call].phase.row;
    var r: Row<Delivery>, at: nat :|
      WasExamined(cfg, tr, acts, i, call, k, r, at) && claimed.value == r.value.(attemptCount := r.value.attemptCount + 1, lastAttemptAt := Some(at));
    row := r;
    examined :| examined < i && ExaminedAt(cfg, tr, acts, examined, call, row, at) && WasRead(tr, acts, examined, call, k, row, at);
    read :| read < examined && ReadAt(tr, acts, read, call, k, row) && at == tr[read].clock;
  }
}

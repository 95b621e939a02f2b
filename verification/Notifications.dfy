/**
 Notifications and their deliveries: idempotent creation, leased attempts, retries,
 and a status that sums up the deliveries. Every call is cut at its awaits; calls
 interleave freely. Deletion is not part of the model.
*/
module Notifications {
  import opened Common
  import opened FeltDb

  const ATTEMPT_LEASE_MS := 30_000
  const MAX_RETRY_DELAY_MS := 60 * 60 * 1000
  const MAX_TRANSITIONS := 5

  // ---------------------------------------------------------------------------
  // Data
  // ---------------------------------------------------------------------------

  datatype Status = Pending | Failed | Delivered | Expired | Read | Acknowledged

  datatype DeliveryStatus = Waiting | Retrying | Arrived | GivenUp

  /** A hash of what makes the notification the same one, or a fresh id. */
  datatype NotificationId = Keyed(tenant: string, recipient: string, key: string) | FreshNotification(uuid: string)

  datatype DeliveryId = ForChannel(notification: NotificationId, channel: string) | FreshDelivery(uuid: string)

  datatype Notification = Notification(
    tenant: string,
    recipient: string,
    channels: seq<string>,
    status: Status,
    expiresAt: Option<nat>,
    readAt: Option<nat>,
    acknowledgedAt: Option<nat>,
    dismissedAt: Option<nat>)

  datatype Delivery = Delivery(
    tenant: string,
    notification: NotificationId,
    channel: string,
    status: DeliveryStatus,
    attemptCount: nat,
    maxAttempts: nat,
    nextAttemptAt: Option<nat>,
    lastAttemptAt: Option<nat>)

  type Notes = map<NotificationId, Row<Notification>>
  type Deliveries = map<DeliveryId, Row<Delivery>>

  datatype Mode = Initial | Scheduled | Manual

  datatype Task =
    | Notify(id: NotificationId, tenant: string, recipient: string, channels: seq<string>, expiresAt: Option<nat>)
    | Attempt(mode: Mode, deliveryTenant: string, delivery: DeliveryId)
    | RetryDelivery(deliveryTenant: string, delivery: DeliveryId)
    | Mutate(change: Change, noteTenant: string, note: NotificationId)

  /** What the channel answered. */
  datatype Outcome = Success | Failure(retryable: bool)

  datatype Change =
    | Refresh(anyArrived: bool, allGivenUp: bool)
    | Expire
    | MarkRead
    | Acknowledge
    | Dismiss

  datatype Phase =
    | Entered
    | Examining(row: Row<Delivery>, at: nat)
    | Claiming(row: Row<Delivery>, at: nat)
    | Claimed(row: Row<Delivery>)
    | Calling(row: Row<Delivery>)
    | Finishing(row: Row<Delivery>, outcome: Outcome, noted: bool, expire: bool)
    | Retried(row: Row<Delivery>, at: nat)
    | Listing(note: NotificationId, expire: bool)
    | Changing(note: NotificationId, change: Change, attempt: nat, expire: bool)
    | Committing(note: NotificationId, change: Change, base: Row<Notification>, next: Notification, attempt: nat, expire: bool)

  datatype Call = Call(task: Task, phase: Phase)

  datatype State = State(clock: nat, notes: Notes, deliveries: Deliveries, calls: map<nat, Call>)

  datatype Config = Config(jobs: bool, channels: set<string>, maxAttempts: nat, retryDelayMs: nat)

  datatype Action =
    | Tick
    | Begin(call: nat, task: Task)
    | Go(call: nat, outcome: Outcome)
    /** A committed transaction that queued a notification: delivered in the app at once. */
    | QueueNotification(uuid: string, deliveryUuid: string, tenant: string, recipient: string)
    | Crash(call: nat)

  datatype Effect = Effect(notes: Notes, deliveries: Deliveries, next: Option<Call>)

  // ---------------------------------------------------------------------------
  // Decisions
  // ---------------------------------------------------------------------------

  function Rank(s: Status): nat {
    match s case Pending => 0 case Failed => 1 case Delivered => 2 case Expired => 3 case Read => 4 case Acknowledged => 5
  }

  predicate Open(s: Status) {
    s.Pending? || s.Delivered? || s.Failed?
  }

  predicate PastExpiry(n: Notification, now: nat) {
    n.expiresAt.Some? && n.expiresAt.value <= now
  }

  /** What a change makes of a notification; None when there is nothing to do. */
  function Changed(n: Notification, change: Change, now: nat): Option<Notification> {
    match change
    case Refresh(anyArrived, allGivenUp) =>
      if !n.status.Pending? && !n.status.Failed? then None
      else if anyArrived then Some(n.(status := Delivered))
      else if n.status.Pending? && allGivenUp then Some(n.(status := Failed))
      else None
    case Expire => if PastExpiry(n, now) && Open(n.status) then Some(n.(status := Expired)) else None
    case MarkRead =>
      if n.readAt.Some? then None
      else if n.status.Acknowledged? then Some(n.(readAt := Some(now)))
      else Some(n.(readAt := Some(now), status := Read))
    case Acknowledge =>
      if n.acknowledgedAt.Some? then None
      else Some(n.(acknowledgedAt := Some(now), readAt := if n.readAt.Some? then n.readAt else Some(now), status := Acknowledged))
    case Dismiss => if n.dismissedAt.Some? then None else Some(n.(dismissedAt := Some(now)))
  }

  /** A pending delivery that was attempted less than a lease ago is in somebody's hands. */
  predicate Leased(d: Delivery, now: nat) {
    d.status.Waiting? && d.lastAttemptAt.Some? && now < d.lastAttemptAt.value + ATTEMPT_LEASE_MS
  }

  /** `attemptDelivery` goes on with the delivery it read. */
  predicate Admitted(d: Delivery, mode: Mode, now: nat) {
    && (d.status.Waiting? || d.status.Retrying?)
    && !(mode.Scheduled? && d.status.Retrying? && d.nextAttemptAt.Some? && now < d.nextAttemptAt.value)
    && !Leased(d, now)
  }

  function RetryDelay(cfg: Config, attemptCount: nat): nat {
    Min(cfg.retryDelayMs * Pow2(if attemptCount == 0 then 0 else attemptCount - 1), MAX_RETRY_DELAY_MS)
  }

  /** `finishDelivery`: arrived, to be retried, or given up. */
  function Finished(cfg: Config, d: Delivery, outcome: Outcome, now: nat): Delivery {
    match outcome
    case Success => d.(status := Arrived, nextAttemptAt := None)
    case Failure(retryable) =>
      if retryable && cfg.jobs && d.attemptCount < d.maxAttempts
      then d.(status := Retrying, nextAttemptAt := Some(now + RetryDelay(cfg, d.attemptCount)))
      else d.(status := GivenUp, nextAttemptAt := None)
  }

  function NewNotification(t: Task): Notification
    requires t.Notify?
  {
    Notification(t.tenant, t.recipient, t.channels, Pending, t.expiresAt, None, None, None)
  }

  function NewDelivery(cfg: Config, t: Task, channel: string): Delivery
    requires t.Notify?
  {
    Delivery(t.tenant, t.id, channel, Waiting, 0, cfg.maxAttempts, None, None)
  }

  function NewDeliveries(cfg: Config, t: Task): Deliveries
    requires t.Notify?
  {
    map k | k in (set c | c in t.channels :: ForChannel(t.id, c)) :: Row(NewDelivery(cfg, t, k.channel), 1)
  }

  predicate AnyArrived(deliveries: Deliveries, note: NotificationId) {
    exists k :: k in deliveries && deliveries[k].value.notification == note && deliveries[k].value.status.Arrived?
  }

  predicate AllGivenUp(deliveries: Deliveries, note: NotificationId) {
    && (exists k :: k in deliveries && deliveries[k].value.notification == note)
    && (forall k :: k in deliveries && deliveries[k].value.notification == note ==> deliveries[k].value.status.GivenUp?)
  }

  // ---------------------------------------------------------------------------
  // The steps of a call, from await to await
  // ---------------------------------------------------------------------------

  function GoOn(s: State, c: Call, phase: Phase): Effect {
    Effect(s.notes, s.deliveries, Some(c.(phase := phase)))
  }

  function Returned(s: State): Effect {
    Effect(s.notes, s.deliveries, None)
  }

  /** After one change: expire the notification as well, or return. */
  function ThenExpire(c: Call, note: NotificationId, expire: bool): Option<Call> {
    if expire then Some(c.(phase := Changing(note, Expire, 0, false))) else None
  }

  /** One transaction: the notification and all its deliveries, or nothing. */
  function DoCreate(cfg: Config, s: State, c: Call): Effect
    requires c.task.Notify?
  {
    var t := c.task;
    var born := NewDeliveries(cfg, t);
    if t.id in s.notes || born.Keys * s.deliveries.Keys != {} then Returned(s)
    else Effect(s.notes[t.id := Row(NewNotification(t), 1)], s.deliveries + born, None)
  }

  function DoRead(s: State, c: Call): Effect
    requires c.task.Attempt?
  {
    var k := c.task.delivery;
    if k !in s.deliveries || s.deliveries[k].value.tenant != c.task.deliveryTenant then Returned(s)
    else if !Admitted(s.deliveries[k].value, c.task.mode, s.clock) then Returned(s)
    else GoOn(s, c, Examining(s.deliveries[k], s.clock))
  }

  function DoExamine(cfg: Config, s: State, c: Call): Effect
    requires c.phase.Examining?
  {
    var row, n := c.phase.row, c.phase.row.value.notification;
    if n !in s.notes || s.notes[n].value.tenant != row.value.tenant then GoOn(s, c, Finishing(row, Failure(false), false, false))
    else if PastExpiry(s.notes[n].value, c.phase.at) then GoOn(s, c, Finishing(row, Failure(false), true, true))
    else if row.value.channel !in cfg.channels then GoOn(s, c, Finishing(row, Failure(false), true, false))
    else GoOn(s, c, Claiming(row, c.phase.at))
  }

  function ClaimedDelivery(d: Delivery, at: nat): Delivery {
    d.(attemptCount := d.attemptCount + 1, lastAttemptAt := Some(at))
  }

  function DoClaim(s: State, c: Call): Effect
    requires c.task.Attempt? && c.phase.Claiming?
  {
    var k, row := c.task.delivery, c.phase.row;
    if !CasWins(s.deliveries, k, row.version) then Returned(s)
    else
      var claimed := ClaimedDelivery(row.value, c.phase.at);
      Effect(s.notes, Cas(s.deliveries, k, row.version, claimed), Some(c.(phase := Claimed(Row(claimed, row.version + 1)))))
  }

  function DoFinish(cfg: Config, s: State, c: Call): Effect
    requires c.task.Attempt? && c.phase.Finishing?
  {
    var k, row, n := c.task.delivery, c.phase.row, c.phase.row.value.notification;
    if !CasWins(s.deliveries, k, row.version) then Effect(s.notes, s.deliveries, ThenExpire(c, n, c.phase.expire))
    else
      Effect(s.notes, Cas(s.deliveries, k, row.version, Finished(cfg, row.value, c.phase.outcome, s.clock)),
             if c.phase.noted then Some(c.(phase := Listing(n, c.phase.expire))) else None)
  }

  /** `refreshStatus` lists the deliveries first and changes the notification later. */
  function DoList(s: State, c: Call): Effect
    requires c.phase.Listing?
  {
    var n := c.phase.note;
    GoOn(s, c, Changing(n, Refresh(AnyArrived(s.deliveries, n), AllGivenUp(s.deliveries, n)), 0, c.phase.expire))
  }

  function DoChange(s: State, c: Call): Effect
    requires c.phase.Changing?
  {
    var n := c.phase.note;
    if n !in s.notes then Effect(s.notes, s.deliveries, ThenExpire(c, n, c.phase.expire))
    else
      match Changed(s.notes[n].value, c.phase.change, s.clock)
      case None => Effect(s.notes, s.deliveries, ThenExpire(c, n, c.phase.expire))
      case Some(next) => GoOn(s, c, Committing(n, c.phase.change, s.notes[n], next, c.phase.attempt, c.phase.expire))
  }

  function DoCommit(s: State, c: Call): Effect
    requires c.phase.Committing?
  {
    var p := c.phase;
    if CasWins(s.notes, p.note, p.base.version)
    then Effect(Cas(s.notes, p.note, p.base.version, p.next), s.deliveries, ThenExpire(c, p.note, p.expire))
    else if p.attempt + 1 < MAX_TRANSITIONS then GoOn(s, c, Changing(p.note, p.change, p.attempt + 1, p.expire))
    else Effect(s.notes, s.deliveries, ThenExpire(c, p.note, p.expire))
  }

  /** A manual retry gives a delivery that was given up a new round of attempts. */
  function DoRetry(cfg: Config, s: State, c: Call): Effect
    requires c.task.RetryDelivery? && (c.phase.Entered? || c.phase.Retried?)
  {
    var k := c.task.delivery;
    if c.phase.Entered? then
      if k !in s.deliveries || s.deliveries[k].value.tenant != c.task.deliveryTenant || !s.deliveries[k].value.status.GivenUp? then Returned(s)
      else GoOn(s, c, Retried(s.deliveries[k], s.clock))
    else
      var row := c.phase.row;
      if !CasWins(s.deliveries, k, row.version) then Returned(s)
      else
        var retrying := row.value.(status := Retrying, maxAttempts := row.value.attemptCount + cfg.maxAttempts, nextAttemptAt := Some(c.phase.at));
        Effect(s.notes, Cas(s.deliveries, k, row.version, retrying),
               if cfg.jobs then None else Some(Call(Attempt(Manual, c.task.deliveryTenant, k), Entered)))
  }

  function DoMutate(s: State, c: Call): Effect
    requires c.task.Mutate?
  {
    if c.task.note in s.notes && s.notes[c.task.note].value.tenant == c.task.noteTenant
    then GoOn(s, c, Changing(c.task.note, c.task.change, 0, false))
    else Returned(s)
  }

  function Do(cfg: Config, s: State, c: Call, outcome: Outcome): Effect {
    match c.phase
    case Entered =>
      (match c.task
       case Notify(_, _, _, _, _) => DoCreate(cfg, s, c)
       case Attempt(_, _, _) => DoRead(s, c)
       case RetryDelivery(_, _) => DoRetry(cfg, s, c)
       case Mutate(_, _, _) => DoMutate(s, c))
    case Examining(_, _) => DoExamine(cfg, s, c)
    case Claiming(_, _) => if c.task.Attempt? then DoClaim(s, c) else Returned(s)
    // The claim won; the channel is called when its answer arrives.
    case Claimed(row) => GoOn(s, c, Calling(row))
    case Calling(row) => GoOn(s, c, Finishing(row, outcome, true, false))
    case Finishing(_, _, _, _) => if c.task.Attempt? then DoFinish(cfg, s, c) else Returned(s)
    case Retried(_, _) => if c.task.RetryDelivery? then DoRetry(cfg, s, c) else Returned(s)
    case Listing(_, _) => DoList(s, c)
    case Changing(_, _, _, _) => DoChange(s, c)
    case Committing(_, _, _, _, _, _) => DoCommit(s, c)
  }

  // ---------------------------------------------------------------------------
  // The interleaving
  // ---------------------------------------------------------------------------

  predicate Enabled(s: State, a: Action) {
    match a
    case Tick => true
    case Begin(call, task) => call !in s.calls && (task.Mutate? ==> !task.change.Refresh?)
    case Go(call, _) => call in s.calls
    case QueueNotification(uuid, deliveryUuid, _, _) => FreshNotification(uuid) !in s.notes && FreshDelivery(deliveryUuid) !in s.deliveries
    case Crash(call) => call in s.calls
  }

  function Perform(s: State, call: nat, e: Effect): State {
    State(s.clock, e.notes, e.deliveries, if e.next.Some? then s.calls[call := e.next.value] else s.calls - {call})
  }

  function Step(cfg: Config, s: State, a: Action): State
    requires Enabled(s, a)
  {
    match a
    case Tick => s.(clock := s.clock + 1)
    case Begin(call, task) => s.(calls := s.calls[call := Call(task, Entered)])
    case Go(call, outcome) => Perform(s, call, Do(cfg, s, s.calls[call], outcome))
    case QueueNotification(uuid, deliveryUuid, tenant, recipient) =>
      s.(notes := s.notes[FreshNotification(uuid) := Row(Notification(tenant, recipient, ["in-app"], Delivered, None, None, None, None), 1)],
         deliveries := s.deliveries[FreshDelivery(deliveryUuid) :=
                                      Row(Delivery(tenant, FreshNotification(uuid), "in-app", Arrived, 1, 1, None, Some(s.clock)), 1)])
    case Crash(call) => s.(calls := s.calls - {call})
  }

  ghost predicate IsRun(cfg: Config, tr: seq<State>, acts: seq<Action>) {
    && |tr| == |acts| + 1
    && forall i :: 0 <= i < |acts| ==> Enabled(tr[i], acts[i]) && tr[i + 1] == Step(cfg, tr[i], acts[i])
  }

  const EMPTY := State(0, map[], map[], map[])
}

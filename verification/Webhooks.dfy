/**
 Outbound webhook deliveries: claimed without a lease, posted, settled against the
 claimed version, and replayed by hand. Calls are cut at their awaits and
 interleave freely. Endpoints and the authority answer as they like.
*/
module Webhooks {
  import opened Common
  import opened FeltDb

  const INITIAL_RETRY_DELAY_MS := 5000

  datatype Status = Pending | Delivering | Delivered | Retrying | Failed

  datatype Delivery = Delivery(tenant: string, status: Status, attemptCount: nat, nextAttemptAt: Option<nat>)

  /** What an attempt came to. A provider error may carry a status code. */
  datatype Outcome = Success | Denied | Unfit | Unavailable | Provider(code: Option<nat>)

  datatype Task = Deliver(tenant: string, id: string) | Replay(tenant: string, id: string)

  datatype Phase =
    | Entered
    | Checking(row: Row<Delivery>)
    | Rejecting(row: Row<Delivery>)
    | ToClaim(row: Row<Delivery>)
    | Claimed(row: Row<Delivery>)
    | Posted(row: Row<Delivery>)
    | Settling(row: Row<Delivery>, outcome: Outcome)
    | ToReset(row: Row<Delivery>)

  /** `epoch` is auxiliary: the replays the delivery had seen when the call claimed it. */
  datatype Call = Call(task: Task, phase: Phase, epoch: nat)

  type Deliveries = map<string, Row<Delivery>>

  /** Auxiliary: per epoch between two replays, the calls that claimed in it and posted, however late; the last epoch is open. */
  type Book = seq<set<nat>>

  datatype State = State(clock: nat, deliveries: Deliveries, calls: map<nat, Call>, nextCall: nat, books: map<string, Book>)

  /**
   What stands about a delivery when it is checked: its endpoint and whose it is, a
   durable principal of the tenant, a signing reference, and the authority's refusal
   to attest it or to authorize its replay, if it refuses.
  */
  datatype Facts = Facts(endpoint: bool, ofTenant: bool, ofApplication: bool, disabled: bool, principal: bool, signingRef: bool, refusal: Option<Outcome>)

  /** Answered without a write, failed for good, or fine. */
  datatype Check = Gone(why: Outcome) | Refused(why: Outcome) | Fine

  /** The facts; whether the attempt gets as far as the network; how it ends. */
  datatype Input = Input(facts: Facts, posts: bool, outcome: Outcome)

  datatype Action =
    | Tick
    | Queue(id: string, delivery: Delivery)
    | Enter(task: Task)
    | Go(call: nat, input: Input)
    | Crash(call: nat)

  datatype Note = Nothing | NoteClaim | NotePost | NoteReplay

  datatype Effect = Effect(write: Option<Delivery>, next: Option<Phase>, note: Note)

  const RETURNED := Effect(None, None, Nothing)

  // ---------------------------------------------------------------------------
  // Decisions
  // ---------------------------------------------------------------------------

  /** Redirects and client errors are final, except a timeout and a rate limit. */
  predicate IsTerminal(code: Option<nat>) {
    code.Some? && (300 <= code.value < 400 || (400 <= code.value < 500 && code.value != 408 && code.value != 429))
  }

  /** `recordAttempt`: what an outcome makes of the claimed delivery. */
  function Settled(maxAttempts: nat, d: Delivery, outcome: Outcome, now: nat): Delivery {
    match outcome
    case Success => d.(status := Delivered, attemptCount := d.attemptCount + 1)
    case Denied => d.(status := Failed)
    case Unfit => d.(status := Failed)
    case Unavailable => d.(status := Retrying, nextAttemptAt := Some(now + INITIAL_RETRY_DELAY_MS))
    case Provider(code) =>
      if IsTerminal(code) || d.attemptCount + 1 >= maxAttempts then d.(status := Failed, attemptCount := d.attemptCount + 1)
      else d.(status := Retrying, nextAttemptAt := Some(now + INITIAL_RETRY_DELAY_MS * Pow2(d.attemptCount)), attemptCount := d.attemptCount + 1)
  }

  function ResetDelivery(d: Delivery): Delivery {
    d.(status := Pending, attemptCount := 0, nextAttemptAt := None)
  }

  // ---------------------------------------------------------------------------
  // The steps of a call, from await to await
  // ---------------------------------------------------------------------------

  function DoRead(deliveries: Deliveries, task: Task): Effect {
    if task.id !in deliveries || deliveries[task.id].value.tenant != task.tenant then RETURNED
    else
      var row := deliveries[task.id];
      // Nothing else is refused: a failed delivery is attempted again.
      if task.Deliver? && (row.value.status.Delivered? || row.value.status.Delivering?) then RETURNED
      else Effect(None, Some(Checking(row)), Nothing)
  }

  function Failing(outcome: Outcome): Outcome {
    if outcome.Success? then Provider(None) else outcome
  }

  /** The checks in their order. */
  function CheckOf(task: Task, f: Facts): Check {
    if task.Replay? then
      if !f.endpoint || f.disabled || !f.ofApplication then Gone(Unfit)
      else if f.refusal.Some? then Gone(Failing(f.refusal.value))
      else Fine
    else if !f.endpoint || !f.ofTenant then Gone(Unfit)
    else if !f.ofApplication then Gone(Denied)
    else if f.disabled then Refused(Unfit)
    else if !f.principal then Refused(Denied)
    else if !f.signingRef then Refused(Unfit)
    else if f.refusal.Some? then Refused(Failing(f.refusal.value))
    else Fine
  }

  /** The endpoint, and for a delivery its principal; a replay that is refused writes nothing. */
  function DoCheck(task: Task, row: Row<Delivery>, facts: Facts): Effect {
    var check := CheckOf(task, facts);
    if check.Fine? then Effect(None, Some(if task.Replay? then ToReset(row) else ToClaim(row)), Nothing)
    else if check.Refused? && task.Deliver? then Effect(None, Some(Rejecting(row)), Nothing)
    else RETURNED
  }

  function DoWrite(deliveries: Deliveries, id: string, row: Row<Delivery>, next: Delivery, then_: Option<Phase>, note: Note): Effect {
    if CasWins(deliveries, id, row.version) then Effect(Some(next), then_, note) else RETURNED
  }

  function DoClaim(deliveries: Deliveries, id: string, row: Row<Delivery>): Effect {
    var claimed := row.value.(status := Delivering);
    DoWrite(deliveries, id, row, claimed, Some(Claimed(Row(claimed, row.version + 1))), NoteClaim)
  }

  /** Under its authorization the attempt reaches the network, or it ends before. */
  function DoPost(row: Row<Delivery>, input: Input): Effect {
    if input.posts then Effect(None, Some(Posted(row)), NotePost)
    else Effect(None, Some(Settling(row, Failing(input.outcome))), Nothing)
  }

  /** Once posted, the outcome is a success or the provider's error. */
  function DoAnswer(row: Row<Delivery>, outcome: Outcome): Effect {
    Effect(None, Some(Settling(row, if outcome.Success? || outcome.Provider? then outcome else Provider(None))), Nothing)
  }

  function Do(maxAttempts: nat, deliveries: Deliveries, now: nat, c: Call, input: Input): Effect {
    match c.phase
    case Entered => DoRead(deliveries, c.task)
    case Checking(row) => DoCheck(c.task, row, input.facts)
    case Rejecting(row) => DoWrite(deliveries, c.task.id, row, row.value.(status := Failed), None, Nothing)
    case ToClaim(row) => DoClaim(deliveries, c.task.id, row)
    case Claimed(row) => DoPost(row, input)
    case Posted(row) => DoAnswer(row, input.outcome)
    case Settling(row, outcome) => DoWrite(deliveries, c.task.id, row, Settled(maxAttempts, row.value, outcome, now), None, Nothing)
    case ToReset(row) => DoWrite(deliveries, c.task.id, row, ResetDelivery(row.value), None, NoteReplay)
  }

  // ---------------------------------------------------------------------------
  // The interleaving
  // ---------------------------------------------------------------------------

  predicate Enabled(s: State, a: Action) {
    match a
    case Queue(id, delivery) => id !in s.deliveries && delivery.status.Pending? && delivery.attemptCount == 0
    case Go(call, _) => call in s.calls
    case Crash(call) => call in s.calls
    case _ => true
  }

  function BookOf(s: State, id: string): (b: Book)
    ensures b != []
  {
    if id in s.books && s.books[id] != [] then s.books[id] else [{}]
  }

  /** The replays a delivery has seen. */
  function Epoch(s: State, id: string): nat {
    |BookOf(s, id)| - 1
  }

  /** A post counts in the epoch its call claimed in, open or closed. */
  function Noted(b: Book, call: nat, epoch: nat, note: Note): (b': Book)
    requires b != []
    ensures b' != []
  {
    match note
    case NotePost => if epoch < |b| then b[epoch := b[epoch] + {call}] else b
    case NoteReplay => b + [{}]
    case _ => b
  }

  function EffectOf(maxAttempts: nat, s: State, call: nat, input: Input): Effect
    requires call in s.calls
  {
    Do(maxAttempts, s.deliveries, s.clock, s.calls[call], input)
  }

  function Written(deliveries: Deliveries, id: string, write: Option<Delivery>): Deliveries {
    if write.Some? && id in deliveries then deliveries[id := Row(write.value, deliveries[id].version + 1)] else deliveries
  }

  function Perform(s: State, call: nat, e: Effect): State
    requires call in s.calls
  {
    var c := s.calls[call];
    var id := c.task.id;
    s.(deliveries := Written(s.deliveries, id, e.write),
       calls := if e.next.Some?
                then s.calls[call := c.(phase := e.next.value, epoch := if e.note.NoteClaim? then Epoch(s, id) else c.epoch)]
                else s.calls - {call},
       books := s.books[id := Noted(BookOf(s, id), call, c.epoch, e.note)])
  }

  function Step(maxAttempts: nat, s: State, a: Action): State
    requires Enabled(s, a)
  {
    match a
    case Tick => s.(clock := s.clock + 1)
    case Queue(id, delivery) => s.(deliveries := s.deliveries[id := Row(delivery, 1)], books := s.books[id := [{}]])
    case Enter(task) => s.(calls := s.calls[s.nextCall := Call(task, Entered, 0)], nextCall := s.nextCall + 1)
    case Go(call, input) => Perform(s, call, EffectOf(maxAttempts, s, call, input))
    case Crash(call) => s.(calls := s.calls - {call})
  }

  ghost predicate IsRun(maxAttempts: nat, tr: seq<State>, acts: seq<Action>) {
    && |tr| == |acts| + 1
    && forall i :: 0 <= i < |acts| ==> Enabled(tr[i], acts[i]) && tr[i + 1] == Step(maxAttempts, tr[i], acts[i])
  }

  const EMPTY := State(0, map[], map[], 0, map[])
}

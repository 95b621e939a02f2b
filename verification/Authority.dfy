/**
 The policy enforcement point: an authorizer answers, contexts are minted, effects
 run between a `started` evidence row and its completion, transactions commit
 evidence and effect together, and durable principals are attested later against
 the evidence. Several applications may share one store.
*/
module Authority {
  import opened Common

  const CONTEXT_TTL_MS := 60_000

  const EVIDENCE := "service_effect_evidence"
  const JOBS := "jobs"
  const SCHEDULES := "job_schedules"
  const DELIVERIES := "webhook_deliveries"
  const NOTIFICATIONS := "notifications"
  const NOTIFICATION_DELIVERIES := "notification_deliveries"

  /** Collections only the services' own authorized paths write. */
  const SERVICE_OWNED_COLLECTIONS: set<string> := {
    "api_keys", "api_key_prefixes", "api_key_audit_events",
    "webhook_endpoints", "webhook_deliveries", "webhook_audit_events", "webhook_integrations", "inbound_webhook_events",
    "jobs", "job_schedules", "job_audit_events",
    "notifications", "notification_deliveries", "notification_audit_events",
    "files", "file_audit_events",
    "ConfigurationVariables", "ConfigurationSecrets", "ConfigurationAuditEvents",
    "service_effect_evidence"}

  // ---------------------------------------------------------------------------
  // Data
  // ---------------------------------------------------------------------------

  datatype Principal = Principal(id: string, kind: string, tenant: string, app: Option<string>, delegation: Option<string>)

  datatype Target = Target(typ: string, tenant: string, id: Option<string>, attributes: map<string, string>)

  datatype Uri = Uri(app: string, tenant: string, typ: string, id: Option<string>)

  datatype Request = Request(app: string, tenant: string, kind: string, subject: string, capability: string, uri: Uri,
                             attributes: map<string, string>, delegation: Option<string>)

  /** What the authorizer answers, if it answers; nothing in it is trusted. */
  datatype Answer = Unreachable | Answer(id: string, allowed: bool, capability: string, tenant: string, app: string, subject: string, uri: Uri)

  datatype Context = Context(app: string, principal: Principal, capability: string, target: Target, decisionId: string, expiresAt: nat)

  datatype Decision = Allow | Deny | NoDecision
  datatype Outcome = InProgress | Succeeded | Failed

  datatype Evidence = Evidence(app: string, tenant: string, principalId: string, kind: string, delegation: Option<string>,
                               capability: string, decision: Decision, decisionId: Option<string>, outcome: Outcome)

  datatype Durable = Durable(principalId: string, kind: string, tenant: string, delegation: Option<string>, authorizedBy: Option<string>)

  /**
   A job, schedule or delivery; a delivery queued in a transaction names its endpoint.
   `creator` is auxiliary: the evidence row of the effect that wrote it; nothing reads it.
  */
  datatype Work = Work(principal: Option<Durable>, creator: string, endpoint: Option<string> := None)

  datatype Doc = EvidenceDoc(row: Evidence) | WorkDoc(work: Work) | OtherDoc(data: Json, version: nat)

  type Key = (string, string)
  type Docs = map<Key, Doc>

  /** One operation of a transaction, with what it asks of the record it writes. */
  datatype Op = Op(collection: string, id: string, doc: Doc, requireAbsent: bool,
                   requirePresent: bool := false, expectedVersion: Option<nat> := None)

  // ---------------------------------------------------------------------------
  // Decisions
  // ---------------------------------------------------------------------------

  function NonEmpty(text: Option<string>): Option<string> {
    if text == Some("") then None else text
  }

  function Or<T>(a: Option<T>, b: Option<T>): Option<T> {
    if a.Some? then a else b
  }

  function Attribute(attributes: map<string, string>, name: string): Option<string> {
    if name in attributes then Some(attributes[name]) else None
  }

  function RequestFor(app: string, principal: Principal, capability: string, target: Target): Request {
    Request(app, target.tenant, principal.kind, principal.id, capability,
            Uri(app, target.tenant, target.typ, target.id), target.attributes, principal.delegation)
  }

  /** The answer is about this request. The kind of the subject is not compared. */
  predicate ValidDecision(request: Request, answer: Answer) {
    && answer.Answer? && answer.id != ""
    && answer.capability == request.capability && answer.tenant == request.tenant && answer.app == request.app
    && answer.subject == request.subject && answer.uri == request.uri
  }

  datatype Verdict = Unfit | Refusal(decisionId: Option<string>) | Granted(context: Context)

  /** `authorize`: validate, check ownership and credential, ask, and mint a context only for a valid allow. */
  function Authorize(manifest: map<string, string>, now: nat, app: string, principal: Principal, capability: string, target: Target,
                     credentialOk: bool, answer: Answer): Verdict {
    if capability !in manifest || manifest[capability] != target.typ then Unfit
    else if target.tenant == "" || principal.tenant != target.tenant then Refusal(None)
    else if principal.app.Some? && principal.app != Some(app) then Refusal(None)
    else if !credentialOk then Refusal(None)
    else if !ValidDecision(RequestFor(app, principal, capability, target), answer) then Refusal(None)
    else if !answer.allowed then Refusal(Some(answer.id))
    else Granted(Context(app, principal, capability, target, answer.id, now + CONTEXT_TTL_MS))
  }

  /** The delegation an authorized request bound: an explicit attribute, else the principal's own. */
  function EffectiveDelegation(c: Context): Option<string> {
    Or(Attribute(c.target.attributes, "delegationId"), c.principal.delegation)
  }

  function EvidenceFor(c: Context, outcome: Outcome): Evidence {
    Evidence(c.app, c.target.tenant, c.principal.id, c.principal.kind, NonEmpty(EffectiveDelegation(c)),
             c.capability, Allow, Some(c.decisionId), outcome)
  }

  function RefusalRow(app: string, principal: Principal, capability: string, target: Target, decisionId: Option<string>): Evidence {
    Evidence(app, target.tenant, principal.id, principal.kind, NonEmpty(principal.delegation), capability,
             if decisionId.Some? then Deny else NoDecision, decisionId, Failed)
  }

  /** `toDurablePrincipal`: an omitted delegation means the principal's own; an empty one means none. */
  function ToDurable(p: Principal, delegation: Option<string>, authorizedBy: string): Durable {
    Durable(p.id, p.kind, p.tenant, NonEmpty(Or(delegation, p.delegation)), NonEmpty(Some(authorizedBy)))
  }

  const JOB_CREATORS: set<string> := {"jobs.create", "schedules.create"}
  const DELIVERY_CREATORS: set<string> := {"webhooks.emit", "webhooks.replay"}

  predicate RowAttests(row: Evidence, app: string, d: Durable, creators: set<string>) {
    && d.authorizedBy.Some? && row.decisionId == d.authorizedBy
    && row.decision.Allow? && row.app == app && row.tenant == d.tenant
    && row.principalId == d.principalId && row.kind == d.kind && row.delegation == d.delegation
    && row.capability in creators
    && (row.outcome.InProgress? || row.outcome.Succeeded?)
  }

  /** `attest`: some evidence row backs the durable principal. */
  predicate Attests(docs: Docs, app: string, d: Durable, creators: set<string>) {
    exists k :: k in docs && k.0 == EVIDENCE && docs[k].EvidenceDoc? && RowAttests(docs[k].row, app, d, creators)
  }

  // ---------------------------------------------------------------------------
  // Effects
  // ---------------------------------------------------------------------------

  datatype Effect =
    | EnqueueJob(jobType: string, delegation: Option<string>)
    | CreateSchedule(jobType: string, delegation: Option<string>)
    | Emit(eventType: string)
    | Replay(delivery: string, endpoint: string)
    | Other(capability: string, target: Target)

  function Capability(e: Effect): string {
    match e
    case EnqueueJob(_, _) => "jobs.create"
    case CreateSchedule(_, _) => "schedules.create"
    case Emit(_) => "webhooks.emit"
    case Replay(_, _) => "webhooks.replay"
    case Other(capability, _) => capability
  }

  /** What is authorized. Enqueueing names the delegation the work will run under, if there is one. */
  function TargetOf(e: Effect, p: Principal): Target {
    match e
    case EnqueueJob(jobType, delegation) => Target("job", p.tenant, None, WorkAttributes(jobType, Or(delegation, p.delegation)))
    case CreateSchedule(jobType, delegation) => Target("schedule", p.tenant, None, WorkAttributes(jobType, Or(delegation, p.delegation)))
    case Emit(eventType) => Target("webhook_event", p.tenant, None, map["eventType" := eventType])
    case Replay(delivery, endpoint) => Target("webhook_delivery", p.tenant, Some(delivery), map["endpointId" := endpoint])
    case Other(_, target) => target
  }

  function WorkAttributes(jobType: string, delegation: Option<string>): map<string, string> {
    if NonEmpty(delegation).Some? then map["jobType" := jobType, "delegationId" := delegation.value] else map["jobType" := jobType]
  }

  function Put(collection: string, id: string, d: Durable, creator: string): Op {
    Op(collection, id, WorkDoc(Work(Some(d), creator)), true)
  }

  /** Deliveries of one event, one per endpoint, all of one principal. */
  function DeliveryOps(ids: seq<string>, d: Durable, creator: string): (ops: seq<Op>)
    ensures forall op :: op in ops ==> op.collection == DELIVERIES && op.doc == WorkDoc(Work(Some(d), creator))
  {
    if ids == [] then [] else [Put(DELIVERIES, ids[0], d, creator)] + DeliveryOps(ids[1..], d, creator)
  }

  /** What the effect writes under its context. A replay that lost the version check writes nothing. */
  function EffectOps(e: Effect, c: Context, creator: string, ids: seq<string>, wins: bool): seq<Op> {
    match e
    case EnqueueJob(_, delegation) =>
      [Put(JOBS, IdAt(ids, 0), ToDurable(c.principal, Or(delegation, c.principal.delegation), c.decisionId), creator)]
    case CreateSchedule(_, delegation) =>
      [Put(SCHEDULES, IdAt(ids, 0), ToDurable(c.principal, Or(delegation, c.principal.delegation), c.decisionId), creator)]
    case Emit(_) => DeliveryOps(ids, ToDurable(c.principal, None, c.decisionId), creator)
    case Replay(delivery, _) =>
      if wins then [Put(DELIVERIES, delivery, ToDurable(c.principal, None, c.decisionId), creator).(requireAbsent := false, requirePresent := true)] else []
    case Other(_, _) => []
  }

  function IdAt(ids: seq<string>, k: nat): string {
    if k < |ids| then ids[k] else ""
  }

  function KeyOf(op: Op): Key {
    (op.collection, op.id)
  }

  /** The version of a record of the application; 0 when there is none. */
  function VersionOf(docs: Docs, k: Key): nat {
    if k in docs && docs[k].OtherDoc? then docs[k].version else 0
  }

  predicate OpHolds(docs: Docs, op: Op) {
    && (op.requireAbsent ==> KeyOf(op) !in docs)
    && (op.requirePresent ==> KeyOf(op) in docs)
    && (op.expectedVersion.Some? ==> KeyOf(op) in docs && VersionOf(docs, KeyOf(op)) == op.expectedVersion.value)
  }

  /** Writing a record of the application moves its version on. */
  function Stamped(doc: Doc, version: nat): Doc {
    if doc.OtherDoc? then doc.(version := version) else doc
  }

  function Applied(docs: Docs, op: Op): Docs {
    docs[KeyOf(op) := Stamped(op.doc, VersionOf(docs, KeyOf(op)) + 1)]
  }

  /** A transaction: every precondition holds, in order, or nothing is written. */
  function Commit(docs: Docs, ops: seq<Op>): Option<Docs>
    decreases ops
  {
    if ops == [] then Some(docs)
    else if !OpHolds(docs, ops[0]) then None
    else Commit(Applied(docs, ops[0]), ops[1..])
  }

  // ---------------------------------------------------------------------------
  // Transactions
  // ---------------------------------------------------------------------------

  datatype Item =
    | QueueJob(tenant: string, jobType: string, delegation: Option<string>)
    /** `registered` is what the endpoint store answers for the tenant. */
    | QueueDeliveries(tenant: string, eventType: string, endpoints: seq<string>, registered: seq<Subscriber>)
    | QueueNotification(tenant: string, recipient: string)

  datatype Subscriber = Subscriber(id: string, tenant: string, app: string, disabled: bool, events: seq<string>)

  function ItemCapability(i: Item): string {
    match i
    case QueueJob(_, _, _) => "jobs.create"
    case QueueDeliveries(_, _, _, _) => "webhooks.emit"
    case QueueNotification(_, _) => "notifications.send"
  }

  function ItemType(i: Item): string {
    match i
    case QueueJob(_, _, _) => "job"
    case QueueDeliveries(_, _, _, _) => "webhook_event"
    case QueueNotification(_, _) => "notification"
  }

  /** The first registered endpoint of this id. */
  function FindSubscriber(registered: seq<Subscriber>, id: string): (r: Option<Subscriber>)
    ensures r.Some? ==> r.value in registered && r.value.id == id
  {
    if registered == [] then None
    else if registered[0].id == id then Some(registered[0])
    else FindSubscriber(registered[1..], id)
  }

  /** A registered, enabled endpoint of this tenant and application that subscribes to the event. */
  predicate Subscribes(registered: seq<Subscriber>, id: string, tenant: string, app: string, eventType: string) {
    var e := FindSubscriber(registered, id);
    e.Some? && e.value.tenant == tenant && e.value.app == app && !e.value.disabled && eventType in e.value.events
  }

  predicate EndpointsFit(i: Item, app: string)
    requires i.QueueDeliveries?
  {
    forall id :: id in i.endpoints ==> Subscribes(i.registered, id, i.tenant, app, i.eventType)
  }

  /** The item is for what the context was issued for. */
  predicate ItemAllowed(i: Item, c: Context) {
    match i
    case QueueJob(_, jobType, delegation) =>
      && Attribute(c.target.attributes, "jobType") == Some(jobType)
      && (delegation.Some? ==> delegation == EffectiveDelegation(c))
    case QueueDeliveries(_, eventType, _, _) => Attribute(c.target.attributes, "eventType") == Some(eventType)
    case QueueNotification(_, recipient) => Attribute(c.target.attributes, "recipient") == Some(recipient)
  }

  function ItemOps(i: Item, c: Context, creator: string, ids: seq<string>): seq<Op> {
    match i
    case QueueJob(_, _, _) => [Put(JOBS, IdAt(ids, 0), ToDurable(c.principal, EffectiveDelegation(c), c.decisionId), creator)]
    case QueueDeliveries(_, _, endpoints, _) => TargetedOps(endpoints, ids, ToDurable(c.principal, None, c.decisionId), creator)
    case QueueNotification(tenant, recipient) =>
      [Op(NOTIFICATIONS, IdAt(ids, 0), OtherDoc(NotificationData(tenant, recipient), 1), true),
       Op(NOTIFICATION_DELIVERIES, IdAt(ids, 1), OtherDoc(NotificationDeliveryData(tenant, IdAt(ids, 0), recipient), 1), true)]
  }

  /** One delivery per endpoint, in order. */
  function TargetedOps(endpoints: seq<string>, ids: seq<string>, d: Durable, creator: string): (ops: seq<Op>)
    ensures |ops| == |endpoints|
    ensures forall k :: 0 <= k < |ops| ==> ops[k] == Put(DELIVERIES, IdAt(ids, k), d, creator).(doc := WorkDoc(Work(Some(d), creator, Some(endpoints[k]))))
  {
    if endpoints == [] then []
    else
      [Put(DELIVERIES, IdAt(ids, 0), d, creator).(doc := WorkDoc(Work(Some(d), creator, Some(endpoints[0]))))]
      + TargetedOps(endpoints[1..], if ids == [] then [] else ids[1..], d, creator)
  }

  /** An in-app notification and its delivery are there, delivered, from the commit on. */
  function NotificationData(tenant: string, recipient: string): Json {
    Object(map["tenantId" := Text(tenant), "recipient" := Text(recipient), "channels" := Array([Text("in-app")]), "status" := Text("delivered")])
  }

  function NotificationDeliveryData(tenant: string, notification: string, recipient: string): Json {
    Object(map["tenantId" := Text(tenant), "notificationId" := Text(notification), "recipient" := Text(recipient),
               "channel" := Text("in-app"), "status" := Text("delivered"), "attemptCount" := Number(1)])
  }

  /** `assertExecutionContext` and the single use: issued, for this capability and tenant, live, and not used before. */
  predicate Usable(c: Context, used: bool, capability: string, tenant: string, now: nat) {
    c.capability == capability && c.target.tenant == tenant && now < c.expiresAt && !used
  }

  /** Queued, denied on the spot, or denied in a validation the commit waits for. */
  datatype Queueing = Accepted | Rejected | Blocking

  function QueueingOf(i: Item, c: Context): Queueing {
    if c.target.typ != ItemType(i) || !ItemAllowed(i, c) then Rejected
    else if i.QueueDeliveries? && !EndpointsFit(i, c.app) then Blocking
    else Accepted
  }

  /**
   Queue one item: the context is used up first; evidence is queued once the
   resource type fits, and stays queued even if the item itself is then denied.
  */
  function Queued(i: Item, c: Context, evidenceId: string, ids: seq<string>): seq<Op> {
    if c.target.typ != ItemType(i) then []
    else
      var evidence := [Op(EVIDENCE, evidenceId, EvidenceDoc(EvidenceFor(c, Succeeded)), true)];
      if QueueingOf(i, c).Accepted? then evidence + ItemOps(i, c, evidenceId, ids) else evidence
  }

  // ---------------------------------------------------------------------------
  // The interleaving
  // ---------------------------------------------------------------------------

  datatype Phase =
    | Asking
    | Refused(row: Evidence)
    | Allowed(context: Context)
    | Started(context: Context, evidence: string)
    | Finishing(evidence: string, outcome: Outcome)

  datatype Call =
    | Executing(app: string, principal: Principal, effect: Effect, phase: Phase)
    /** A validation that failed blocks the commit for good. */
    | Transacting(ops: seq<Op>, blocked: bool)

  /** Auxiliary: every valid allow the authorizer ever gave. */
  datatype Grant = Grant(request: Request, answer: Answer)

  datatype State = State(clock: nat, docs: Docs, contexts: map<nat, Context>, used: set<nat>, calls: map<nat, Call>, grants: set<Grant>)

  datatype Input = Input(answer: Answer, credentialOk: bool, ids: seq<string>, wins: bool, fails: bool, outcome: Outcome)

  datatype Action =
    | Tick
    | Mint(context: nat, app: string, principal: Principal, capability: string, target: Target, input: Input)
    | Execute(call: nat, app: string, principal: Principal, effect: Effect)
    | Go(call: nat, input: Input)
    | Open(call: nat)
    | Queue(call: nat, item: Item, context: nat, evidence: string, ids: seq<string>)
    | AddOperation(call: nat, op: Op)
    | CommitAll(call: nat)
    | Materialize(schedule: string, job: string)
    | SystemJob(job: string)
    | Stop(call: nat)

  predicate Enabled(s: State, a: Action) {
    match a
    case Tick => true
    case Mint(context, _, principal, _, _, _) => context !in s.contexts && Minted(principal)
    case Execute(call, _, principal, _) => call !in s.calls && Minted(principal)
    case Go(call, input) => call in s.calls && s.calls[call].Executing?
    case Open(call) => call !in s.calls
    case Queue(call, _, _, _, _) => call in s.calls && s.calls[call].Transacting?
    case AddOperation(call, op) => call in s.calls && s.calls[call].Transacting? && op.doc.OtherDoc?
    case CommitAll(call) => call in s.calls && s.calls[call].Transacting?
    case Materialize(schedule, job) => (SCHEDULES, schedule) in s.docs && (JOBS, job) !in s.docs
    case SystemJob(job) => (JOBS, job) !in s.docs
    case Stop(call) => call in s.calls
  }

  /** Minting drops an empty delegation. */
  predicate Minted(p: Principal) {
    p.delegation != Some("")
  }

  /** What one step does: the store it leaves, where the call goes on (None: it returned), and a grant it obtained. */
  datatype StepResult = StepResult(docs: Docs, next: Option<Call>, grant: Option<Grant>)

  function DoAsk(manifest: map<string, string>, s: State, c: Call, input: Input): StepResult
    requires c.Executing? && c.phase.Asking?
  {
    var capability, target := Capability(c.effect), TargetOf(c.effect, c.principal);
    match Authorize(manifest, s.clock, c.app, c.principal, capability, target, input.credentialOk, input.answer)
    case Unfit => StepResult(s.docs, None, None)
    case Refusal(decisionId) =>
      StepResult(s.docs, Some(c.(phase := Refused(RefusalRow(c.app, c.principal, capability, target, decisionId)))), None)
    case Granted(context) =>
      StepResult(s.docs, Some(c.(phase := Allowed(context))), Some(Grant(RequestFor(c.app, c.principal, capability, target), input.answer)))
  }

  function DoRefused(s: State, c: Call, input: Input): StepResult
    requires c.Executing? && c.phase.Refused?
  {
    var written := Commit(s.docs, [Op(EVIDENCE, IdAt(input.ids, 0), EvidenceDoc(c.phase.row), true)]);
    StepResult(if written.Some? then written.value else s.docs, None, None)
  }

  function DoStart(s: State, c: Call, input: Input): StepResult
    requires c.Executing? && c.phase.Allowed?
  {
    var id := IdAt(input.ids, 0);
    var written := Commit(s.docs, [Op(EVIDENCE, id, EvidenceDoc(EvidenceFor(c.phase.context, InProgress)), true)]);
    if c.phase.context.expiresAt <= s.clock || written.None? then StepResult(s.docs, None, None)
    else StepResult(written.value, Some(c.(phase := Started(c.phase.context, id))), None)
  }

  /** The effect throws before it writes, or writes and then returns or throws. */
  function DoEffect(s: State, c: Call, input: Input): StepResult
    requires c.Executing? && c.phase.Started?
  {
    var written := Commit(s.docs, EffectOps(c.effect, c.phase.context, c.phase.evidence, input.ids, input.wins));
    if input.fails || written.None? then StepResult(s.docs, Some(c.(phase := Finishing(c.phase.evidence, Failed))), None)
    else
      var outcome := if input.outcome.InProgress? then Failed else input.outcome;
      StepResult(written.value, Some(c.(phase := Finishing(c.phase.evidence, outcome))), None)
  }

  function DoFinish(s: State, c: Call): StepResult
    requires c.Executing? && c.phase.Finishing?
  {
    var k := (EVIDENCE, c.phase.evidence);
    if k in s.docs && s.docs[k].EvidenceDoc?
    then StepResult(s.docs[k := EvidenceDoc(s.docs[k].row.(outcome := c.phase.outcome))], None, None)
    else StepResult(s.docs, None, None)
  }

  function Do(manifest: map<string, string>, s: State, c: Call, input: Input): StepResult
    requires c.Executing?
  {
    match c.phase
    case Asking => DoAsk(manifest, s, c, input)
    case Refused(_) => DoRefused(s, c, input)
    case Allowed(_) => DoStart(s, c, input)
    case Started(_, _) => DoEffect(s, c, input)
    case Finishing(_, _) => DoFinish(s, c)
  }

  function After(s: State, call: nat, r: StepResult): State {
    s.(docs := r.docs,
       calls := if r.next.Some? then s.calls[call := r.next.value] else s.calls - {call},
       grants := if r.grant.Some? then s.grants + {r.grant.value} else s.grants)
  }

  function DoMint(manifest: map<string, string>, s: State, context: nat, app: string, principal: Principal, capability: string, target: Target, input: Input): State {
    var verdict := Authorize(manifest, s.clock, app, principal, capability, target, input.credentialOk, input.answer);
    if verdict.Granted?
    then s.(contexts := s.contexts[context := verdict.context],
            grants := s.grants + {Grant(RequestFor(app, principal, capability, target), input.answer)})
    else s
  }

  predicate CanQueue(s: State, item: Item, context: nat) {
    context in s.contexts && Usable(s.contexts[context], context in s.used, ItemCapability(item), item.tenant, s.clock)
  }

  function DoQueue(s: State, call: nat, item: Item, context: nat, evidence: string, ids: seq<string>): State
    requires call in s.calls && s.calls[call].Transacting?
  {
    if !CanQueue(s, item, context) then s
    else
      var c, ops := s.contexts[context], Queued(item, s.contexts[context], evidence, ids);
      s.(used := s.used + {context},
         calls := s.calls[call := Transacting(s.calls[call].ops + ops, s.calls[call].blocked || QueueingOf(item, c).Blocking?)])
  }

  function DoAdd(s: State, call: nat, op: Op): State
    requires call in s.calls && s.calls[call].Transacting?
  {
    if op.collection in SERVICE_OWNED_COLLECTIONS then s
    else s.(calls := s.calls[call := s.calls[call].(ops := s.calls[call].ops + [op])])
  }

  function DoCommit(s: State, call: nat): State
    requires call in s.calls && s.calls[call].Transacting?
  {
    var written := Commit(s.docs, s.calls[call].ops);
    s.(docs := if written.Some? && !s.calls[call].blocked then written.value else s.docs, calls := s.calls - {call})
  }

  function Step(manifest: map<string, string>, s: State, a: Action): State
    requires Enabled(s, a)
  {
    match a
    case Tick => s.(clock := s.clock + 1)
    case Mint(context, app, principal, capability, target, input) => DoMint(manifest, s, context, app, principal, capability, target, input)
    case Execute(call, app, principal, effect) => s.(calls := s.calls[call := Executing(app, principal, effect, Asking)])
    case Go(call, input) => After(s, call, Do(manifest, s, s.calls[call], input))
    case Open(call) => s.(calls := s.calls[call := Transacting([], false)])
    case Queue(call, item, context, evidence, ids) => DoQueue(s, call, item, context, evidence, ids)
    case AddOperation(call, op) => DoAdd(s, call, op)
    case CommitAll(call) => DoCommit(s, call)
    case Materialize(schedule, job) => s.(docs := s.docs[(JOBS, job) := s.docs[(SCHEDULES, schedule)]])
    case SystemJob(job) => s.(docs := s.docs[(JOBS, job) := WorkDoc(Work(None, ""))])
    case Stop(call) => s.(calls := s.calls - {call})
  }

  ghost predicate IsRun(manifest: map<string, string>, tr: seq<State>, acts: seq<Action>) {
    && |tr| == |acts| + 1
    && forall i :: 0 <= i < |acts| ==> Enabled(tr[i], acts[i]) && tr[i + 1] == Step(manifest, tr[i], acts[i])
  }

  const EMPTY := State(0, map[], map[], {}, map[], {})
}

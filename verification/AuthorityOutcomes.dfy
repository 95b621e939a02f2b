/**
 What the gateway's steps come to, read off the stored documents: when a request is
 granted, refused or unfit, what each effect leaves in which collection, and what
 queueing an item adds to a transaction.
*/
module AuthorityOutcomes {
  import opened Common
  import opened Authority
  import opened AuthorityTheorems

  // ---------------------------------------------------------------------------
  // When a request is granted
  // ---------------------------------------------------------------------------

  /** The capability is declared for resources of this type. */
  predicate IsDeclared(manifest: map<string, string>, capability: string, target: Target) {
    capability in manifest && manifest[capability] == target.typ
  }

  /** The resource is of the principal's own tenant, the principal is not another application's, and its credential stands. */
  predicate MayAsk(app: string, p: Principal, target: Target, credentialOk: bool) {
    target.tenant != "" && target.tenant == p.tenant && (p.app.Some? ==> p.app.value == app) && credentialOk
  }

  /** The authorizer answered this very question. */
  predicate AnswersThis(app: string, p: Principal, capability: string, target: Target, answer: Answer) {
    && answer.Answer? && answer.id != "" && answer.capability == capability && answer.tenant == target.tenant && answer.app == app
    && answer.subject == p.id && answer.uri == Uri(app, target.tenant, target.typ, target.id)
  }

  /** A request is unfit exactly when undeclared, granted exactly when it may be asked and the authorizer allowed this very request, and refused otherwise. */
  lemma AuthorizesExactly(manifest: map<string, string>, now: nat, app: string, p: Principal, capability: string, target: Target, credentialOk: bool, answer: Answer)
    ensures var v := Authorize(manifest, now, app, p, capability, target, credentialOk, answer);
            var about := MayAsk(app, p, target, credentialOk) && AnswersThis(app, p, capability, target, answer);
            if !IsDeclared(manifest, capability, target) then v == Unfit
            else if about && answer.allowed then v == Granted(Context(app, p, capability, target, answer.id, now + 60_000))
            else v == Refusal(if about then Some(answer.id) else None)
  {}

  /** A refusal's row denies with its decision or has none, and never allows. */
  predicate DeniesFor(row: Evidence, app: string, p: Principal, capability: string, target: Target, decisionId: Option<string>) {
    && row.app == app && row.tenant == target.tenant && row.principalId == p.id && row.kind == p.kind && row.capability == capability
    && row.decisionId == decisionId && row.decision == (if decisionId.Some? then Deny else NoDecision) && row.outcome == Failed
  }

  /** The evidence of an effect: allowed by this decision, for this application, tenant, principal and capability. */
  predicate AllowsFor(row: Evidence, c: Context, outcome: Outcome) {
    && row.app == c.app && row.tenant == c.target.tenant && row.principalId == c.principal.id && row.kind == c.principal.kind
    && row.capability == c.capability && row.decision == Allow && row.decisionId == Some(c.decisionId) && row.outcome == outcome
    && row.delegation == (var asked := if "delegationId" in c.target.attributes then Some(c.target.attributes["delegationId"]) else c.principal.delegation;
                          if asked == Some("") then None else asked)
  }

  // ---------------------------------------------------------------------------
  // What a transaction does
  // ---------------------------------------------------------------------------

  /** What the operation asks of the record it writes is so. */
  predicate MayWrite(docs: Docs, op: Op) {
    var k := (op.collection, op.id);
    && (k in docs ==> !op.requireAbsent)
    && (k !in docs ==> !op.requirePresent && op.expectedVersion.None?)
    && (k in docs && op.expectedVersion.Some? ==> op.expectedVersion.value == if docs[k].OtherDoc? then docs[k].version else 0)
  }

  /** The record shows what the operation wrote, one version on. */
  predicate IsWritten(docs: Docs, op: Op, doc: Doc) {
    var k := (op.collection, op.id);
    if op.doc.OtherDoc? then doc == OtherDoc(op.doc.data, 1 + if k in docs && docs[k].OtherDoc? then docs[k].version else 0) else doc == op.doc
  }

  predicate Touches(op: Op, k: Key) {
    op.collection == k.0 && op.id == k.1
  }

  /** Commits exactly if each operation may write over what those before it left. */
  lemma {:induction false} CommitsExactly(docs: Docs, ops: seq<Op>)
    ensures Commit(docs, ops).Some? <==> forall i :: 0 <= i < |ops| ==> Commit(docs, ops[..i]).Some? && MayWrite(Commit(docs, ops[..i]).value, ops[i])
    decreases ops
  {
    hide MayWrite, OpHolds, Applied;
    if ops != [] {
      assert ops[..0] == [];
      FirstMay(docs, ops[0]);
      forall i | 1 <= i <= |ops| ensures Commit(docs, ops[..i]) == if OpHolds(docs, ops[0]) then Commit(Applied(docs, ops[0]), ops[1..][..i - 1]) else None {
        assert ops[..i][0] == ops[0] && ops[..i][1..] == ops[1..][..i - 1];
      }
      if OpHolds(docs, ops[0]) {
        var next, rest := Applied(docs, ops[0]), ops[1..];
        CommitsExactly(next, rest);
        LaterOps(docs, ops, next);
      } else {
        assert !(Commit(docs, ops[..0]).Some? && MayWrite(Commit(docs, ops[..0]).value, ops[0]));
      }
    }
  }

  lemma FirstMay(docs: Docs, op: Op)
    ensures OpHolds(docs, op) <==> MayWrite(docs, op)
  {}

  lemma LaterOps(docs: Docs, ops: seq<Op>, next: Docs)
    requires ops != [] && MayWrite(docs, ops[0]) && Commit(docs, []) == Some(docs)
    requires forall i :: 1 <= i <= |ops| ==> Commit(docs, ops[..i]) == Commit(next, ops[1..][..i - 1])
    ensures (forall i :: 0 <= i < |ops| ==> Commit(docs, ops[..i]).Some? && MayWrite(Commit(docs, ops[..i]).value, ops[i]))
       <==> (forall i :: 0 <= i < |ops[1..]| ==> Commit(next, ops[1..][..i]).Some? && MayWrite(Commit(next, ops[1..][..i]).value, ops[1..][i]))
  {
    hide MayWrite, Commit;
    assert ops[..0] == [];
    if forall i :: 0 <= i < |ops| ==> Commit(docs, ops[..i]).Some? && MayWrite(Commit(docs, ops[..i]).value, ops[i]) {
      forall i | 0 <= i < |ops[1..]| ensures Commit(next, ops[1..][..i]).Some? && MayWrite(Commit(next, ops[1..][..i]).value, ops[1..][i]) {
        assert Commit(docs, ops[..i + 1]) == Commit(next, ops[1..][..i]) && ops[1..][i] == ops[i + 1];
      }
    } else if forall i :: 0 <= i < |ops[1..]| ==> Commit(next, ops[1..][..i]).Some? && MayWrite(Commit(next, ops[1..][..i]).value, ops[1..][i]) {
      forall i | 0 <= i < |ops| ensures Commit(docs, ops[..i]).Some? && MayWrite(Commit(docs, ops[..i]).value, ops[i]) {
        if i > 0 {
          assert Commit(docs, ops[..i]) == Commit(next, ops[1..][..i - 1]) && ops[1..][i - 1] == ops[i];
        }
      }
    }
  }

  /** A key no operation touches is as it was. */
  lemma {:induction false} CommitKeeps(docs: Docs, ops: seq<Op>, k: Key)
    requires Commit(docs, ops).Some? && forall i :: 0 <= i < |ops| ==> !Touches(ops[i], k)
    ensures var after := Commit(docs, ops).value; (k in after <==> k in docs) && (k in docs ==> after[k] == docs[k])
    decreases ops
  {
    hide OpHolds, Stamped;
    if ops != [] {
      assert !Touches(ops[0], k);
      CommitKeeps(Applied(docs, ops[0]), ops[1..], k);
    }
  }

  /** Under each other key stands the record of the last operation that touches it, written over what those before it left. */
  lemma {:induction false} CommitLeaves(docs: Docs, ops: seq<Op>, i: nat, k: Key)
    requires Commit(docs, ops).Some? && i < |ops| && Touches(ops[i], k) && forall j :: i < j < |ops| ==> !Touches(ops[j], k)
    ensures Commit(docs, ops[..i]).Some? && k in Commit(docs, ops).value && IsWritten(Commit(docs, ops[..i]).value, ops[i], Commit(docs, ops).value[k])
    decreases ops
  {
    hide OpHolds, IsWritten;
    var next, rest := Applied(docs, ops[0]), ops[1..];
    assert forall j :: 0 <= j < |rest| ==> rest[j] == ops[j + 1];
    if i == 0 {
      assert ops[..0] == [];
      FirstWritten(docs, ops[0]);
      CommitKeeps(next, rest, k);
    } else {
      assert ops[..i][0] == ops[0] && ops[..i][1..] == rest[..i - 1];
      CommitLeaves(next, rest, i - 1, k);
    }
  }

  lemma FirstWritten(docs: Docs, op: Op)
    ensures IsWritten(docs, op, Applied(docs, op)[(op.collection, op.id)])
  {}

  // ---------------------------------------------------------------------------
  // What an effect leaves
  // ---------------------------------------------------------------------------

  /** The durable principal: who caused it, under which delegation, by which decision. */
  predicate IsDurable(d: Durable, c: Context, delegation: Option<string>) {
    && d.principalId == c.principal.id && d.kind == c.principal.kind && d.tenant == c.principal.tenant
    && d.delegation == (if delegation == Some("") then None else delegation)
    && d.authorizedBy == (if c.decisionId == "" then None else Some(c.decisionId))
  }

  /** Exactly one document is new, in this collection. */
  predicate AddsOne(docs: Docs, after: Docs, collection: string, id: string, c: Context, creator: string, delegation: Option<string>) {
    && (collection, id) !in docs && (collection, id) in after && after == docs[(collection, id) := after[(collection, id)]]
    && IsWorkOf(after[(collection, id)], c, creator, delegation)
  }

  predicate IsWorkOf(doc: Doc, c: Context, creator: string, delegation: Option<string>) {
    doc.WorkDoc? && doc.work.creator == creator && doc.work.principal.Some? && IsDurable(doc.work.principal.value, c, delegation)
  }

  function AskedDelegation(delegation: Option<string>, c: Context): Option<string> {
    if delegation.Some? then delegation else c.principal.delegation
  }

  /** What an effect that wrote leaves of the documents it found. */
  ghost predicate Leaves(e: Effect, c: Context, creator: string, ids: seq<string>, wins: bool, docs: Docs, after: Docs) {
    match e
    case EnqueueJob(_, delegation) => AddsOne(docs, after, "jobs", IdAt(ids, 0), c, creator, AskedDelegation(delegation, c))
    case CreateSchedule(_, delegation) => AddsOne(docs, after, "job_schedules", IdAt(ids, 0), c, creator, AskedDelegation(delegation, c))
    case Emit(_) =>
      // One new delivery for each id, and nothing else.
      && (forall i :: 0 <= i < |ids| ==> ("webhook_deliveries", ids[i]) !in docs && ("webhook_deliveries", ids[i]) in after
                                         && IsWorkOf(after[("webhook_deliveries", ids[i])], c, creator, c.principal.delegation))
      && (forall i, j :: 0 <= i < j < |ids| ==> ids[i] != ids[j])
      && (forall k :: k in docs ==> k in after && after[k] == docs[k])
      && (forall k :: k in after && k !in docs ==> k.0 == "webhook_deliveries" && k.1 in ids)
    case Replay(delivery, _) =>
      var k := ("webhook_deliveries", delivery);
      if wins then k in docs && k in after && after == docs[k := after[k]] && IsWorkOf(after[k], c, creator, c.principal.delegation)
      else after == docs
    case Other(_, _) => after == docs
  }

  lemma {:induction false} DeliveriesLeave(ids: seq<string>, d: Durable, creator: string, docs: Docs)
    requires Commit(docs, DeliveryOps(ids, d, creator)).Some?
    ensures var after := Commit(docs, DeliveryOps(ids, d, creator)).value;
            && (forall i :: 0 <= i < |ids| ==> (DELIVERIES, ids[i]) !in docs && (DELIVERIES, ids[i]) in after && after[(DELIVERIES, ids[i])] == WorkDoc(Work(Some(d), creator)))
            && (forall i, j :: 0 <= i < j < |ids| ==> ids[i] != ids[j])
            && (forall k :: k in docs ==> k in after && after[k] == docs[k])
            && (forall k :: k in after && k !in docs ==> k.0 == DELIVERIES && k.1 in ids)
    decreases ids
  {
    if ids != [] {
      var op := Put(DELIVERIES, ids[0], d, creator);
      var ops := DeliveryOps(ids, d, creator);
      assert ops[0] == op && ops[1..] == DeliveryOps(ids[1..], d, creator);
      DeliveriesLeave(ids[1..], d, creator, Applied(docs, op));
      assert ids == [ids[0]] + ids[1..];
    }
  }

  lemma OneLeaves(docs: Docs, op: Op)
    requires !op.doc.OtherDoc?
    ensures Commit(docs, [op]) == if OpHolds(docs, op) then Some(docs[KeyOf(op) := op.doc]) else None
  {
    assert [op][1..] == [];
  }

  /** What an effect writes, it writes in one transaction that leaves exactly its own documents. */
  lemma OpsLeave(e: Effect, c: Context, creator: string, ids: seq<string>, wins: bool, docs: Docs)
    ensures var written := Commit(docs, EffectOps(e, c, creator, ids, wins)); written.Some? ==> Leaves(e, c, creator, ids, wins, docs, written.value)
  {
    var ops := EffectOps(e, c, creator, ids, wins);
    match e
    case Emit(_) =>
      if Commit(docs, ops).Some? {
        DeliveriesLeave(ids, ToDurable(c.principal, None, c.decisionId), creator, docs);
      }
    case EnqueueJob(_, _) => OneLeaves(docs, ops[0]);
    case CreateSchedule(_, _) => OneLeaves(docs, ops[0]);
    case Replay(_, _) =>
      if wins {
        OneLeaves(docs, ops[0]);
      }
    case Other(_, _) =>
  }

  /** An effect that returned left exactly what it stands for; one that failed left that or nothing. */
  lemma EffectLeaves(manifest: map<string, string>, s: State, call: nat, input: Input)
    requires call in s.calls && s.calls[call].Executing? && s.calls[call].phase.Started?
    ensures var c, s' := s.calls[call], Step(manifest, s, Go(call, input));
            && call in s'.calls && s'.calls[call].Executing? && s'.calls[call].phase.Finishing? && s'.calls[call].phase.evidence == c.phase.evidence
            && var left := Leaves(c.effect, c.phase.context, c.phase.evidence, input.ids, input.wins, s.docs, s'.docs);
               && (s'.calls[call].phase.outcome.Succeeded? ==> left)
               && (left || s'.docs == s.docs)
  {
    hide Commit, EffectOps, Leaves;
    var c := s.calls[call];
    OpsLeave(c.effect, c.phase.context, c.phase.evidence, input.ids, input.wins, s.docs);
  }

  /** Every other step of a call writes evidence alone. */
  lemma OnlyEffectsWriteWork(manifest: map<string, string>, s: State, call: nat, input: Input)
    requires call in s.calls && s.calls[call].Executing? && !s.calls[call].phase.Started?
    ensures var docs := Step(manifest, s, Go(call, input)).docs;
            && (forall k :: k in s.docs ==> k in docs)
            && (forall k :: k in docs && !(k in s.docs && docs[k] == s.docs[k]) ==> k.0 == "service_effect_evidence" && docs[k].EvidenceDoc?)
  {
    hide Authorize, RefusalRow, EvidenceFor;
    var c, id := s.calls[call], IdAt(input.ids, 0);
    if c.phase.Refused? {
      OneLeaves(s.docs, Op(EVIDENCE, id, EvidenceDoc(c.phase.row), true));
    } else if c.phase.Allowed? {
      OneLeaves(s.docs, Op(EVIDENCE, id, EvidenceDoc(EvidenceFor(c.phase.context, InProgress)), true));
    }
  }

  /** Asking ends in a context, a refusal to record, or nothing, and writes nothing. */
  lemma AskDecides(manifest: map<string, string>, s: State, call: nat, input: Input)
    requires call in s.calls && s.calls[call].Executing? && s.calls[call].phase.Asking?
    ensures var c, s' := s.calls[call], Step(manifest, s, Go(call, input));
            var capability, target, answer := Capability(c.effect), TargetOf(c.effect, c.principal), input.answer;
            var about := MayAsk(c.app, c.principal, target, input.credentialOk) && AnswersThis(c.app, c.principal, capability, target, answer);
            && s'.docs == s.docs
            && if !IsDeclared(manifest, capability, target) then call !in s'.calls
               else if about && answer.allowed
               then call in s'.calls && s'.calls[call] == c.(phase := Allowed(Context(c.app, c.principal, capability, target, answer.id, s.clock + 60_000)))
               else
                 && call in s'.calls && s'.calls[call].Executing? && s'.calls[call].phase.Refused?
                 && DeniesFor(s'.calls[call].phase.row, c.app, c.principal, capability, target, if about then Some(answer.id) else None)
  {
    hide Capability, TargetOf, Authorize, MayAsk, AnswersThis, IsDeclared;
    var c := s.calls[call];
    AuthorizesExactly(manifest, s.clock, c.app, c.principal, Capability(c.effect), TargetOf(c.effect, c.principal), input.credentialOk, input.answer);
  }

  /** The evidence that precedes an effect is there exactly under a live context and a fresh number, and says what was allowed. */
  lemma StartDecides(manifest: map<string, string>, s: State, call: nat, input: Input)
    requires call in s.calls && s.calls[call].Executing? && s.calls[call].phase.Allowed?
    ensures var c, s', k := s.calls[call], Step(manifest, s, Go(call, input)), ("service_effect_evidence", IdAt(input.ids, 0));
            if s.clock < c.phase.context.expiresAt && k !in s.docs
            then
              && call in s'.calls && s'.calls[call] == c.(phase := Started(c.phase.context, IdAt(input.ids, 0)))
              && k in s'.docs && s'.docs == s.docs[k := s'.docs[k]] && s'.docs[k].EvidenceDoc? && AllowsFor(s'.docs[k].row, c.phase.context, InProgress)
            else call !in s'.calls && s'.docs == s.docs
  {
    var c := s.calls[call];
    OneLeaves(s.docs, Op(EVIDENCE, IdAt(input.ids, 0), EvidenceDoc(EvidenceFor(c.phase.context, InProgress)), true));
  }

  /** What each effect asks the authorizer about. */
  lemma EffectsAskAbout(e: Effect, p: Principal)
    ensures e.EnqueueJob? || e.CreateSchedule? ==>
              var t := TargetOf(e, p); var d := if e.delegation.Some? then e.delegation else p.delegation;
              && Capability(e) == (if e.EnqueueJob? then "jobs.create" else "schedules.create") && t.typ == (if e.EnqueueJob? then "job" else "schedule")
              && t.tenant == p.tenant && t.id == None && "jobType" in t.attributes && t.attributes["jobType"] == e.jobType
              && ("delegationId" in t.attributes <==> d.Some? && d != Some("")) && ("delegationId" in t.attributes ==> Some(t.attributes["delegationId"]) == d)
    ensures e.Emit? ==> Capability(e) == "webhooks.emit" && TargetOf(e, p) == Target("webhook_event", p.tenant, None, map["eventType" := e.eventType])
    ensures e.Replay? ==> Capability(e) == "webhooks.replay" && TargetOf(e, p) == Target("webhook_delivery", p.tenant, Some(e.delivery), map["endpointId" := e.endpoint])
  {}

  // ---------------------------------------------------------------------------
  // What queueing adds to a transaction
  // ---------------------------------------------------------------------------

  /** The context was issued for exactly this item. */
  predicate IssuedFor(c: Context, i: Item) {
    match i
    case QueueJob(_, jobType, delegation) =>
      && c.target.typ == "job" && "jobType" in c.target.attributes && c.target.attributes["jobType"] == jobType
      && (delegation.Some? ==> delegation == BoundDelegation(c))
    case QueueDeliveries(_, eventType, _, _) => c.target.typ == "webhook_event" && "eventType" in c.target.attributes && c.target.attributes["eventType"] == eventType
    case QueueNotification(_, recipient) => c.target.typ == "notification" && "recipient" in c.target.attributes && c.target.attributes["recipient"] == recipient
  }

  function BoundDelegation(c: Context): Option<string> {
    if "delegationId" in c.target.attributes then Some(c.target.attributes["delegationId"]) else c.principal.delegation
  }

  predicate KindOf(i: Item, typ: string, capability: string) {
    match i
    case QueueJob(_, _, _) => typ == "job" && capability == "jobs.create"
    case QueueDeliveries(_, _, _, _) => typ == "webhook_event" && capability == "webhooks.emit"
    case QueueNotification(_, _) => typ == "notification" && capability == "notifications.send"
  }

  /** A new document under this key, which must not be there yet. */
  predicate IsInsert(op: Op, collection: string, id: string) {
    op.collection == collection && op.id == id && op.requireAbsent && !op.requirePresent && op.expectedVersion.None?
  }

  predicate IsSubscriber(i: Item, id: string, app: string)
    requires i.QueueDeliveries?
  {
    exists k :: 0 <= k < |i.registered| && IsFirstOf(i.registered, k, id)
                && var e := i.registered[k]; e.tenant == i.tenant && e.app == app && !e.disabled && i.eventType in e.events
  }

  predicate IsFirstOf(registered: seq<Subscriber>, k: nat, id: string)
    requires k < |registered|
  {
    registered[k].id == id && forall j :: 0 <= j < k ==> registered[j].id != id
  }

  /** A record of the application says this of itself. */
  predicate Tells(doc: Doc, name: string, text: string) {
    doc.OtherDoc? && doc.data.Object? && name in doc.data.fields && doc.data.fields[name] == Text(text)
  }

  /** The operations an accepted item adds behind its evidence. */
  ghost predicate AddsFor(i: Item, c: Context, evidence: string, ids: seq<string>, ops: seq<Op>) {
    match i
    case QueueJob(_, _, _) =>
      |ops| == 1 && IsInsert(ops[0], "jobs", IdAt(ids, 0)) && IsWorkOf(ops[0].doc, c, evidence, BoundDelegation(c))
    case QueueDeliveries(_, _, endpoints, _) =>
      && |ops| == |endpoints|
      && forall k :: 0 <= k < |ops| ==>
           IsInsert(ops[k], "webhook_deliveries", IdAt(ids, k)) && IsWorkOf(ops[k].doc, c, evidence, c.principal.delegation)
           && ops[k].doc.work.endpoint == Some(endpoints[k]) && IsSubscriber(i, endpoints[k], c.app)
    case QueueNotification(_, _) =>
      |ops| == 2 && IsInsert(ops[0], "notifications", IdAt(ids, 0)) && IsInsert(ops[1], "notification_deliveries", IdAt(ids, 1))
      && Tells(ops[0].doc, "tenantId", i.tenant) && Tells(ops[0].doc, "recipient", i.recipient) && Tells(ops[0].doc, "status", "delivered")
      && Tells(ops[1].doc, "tenantId", i.tenant) && Tells(ops[1].doc, "recipient", i.recipient) && Tells(ops[1].doc, "status", "delivered")
      && Tells(ops[1].doc, "notificationId", IdAt(ids, 0)) && Tells(ops[1].doc, "channel", "in-app")
  }

  lemma {:induction false} FindsFirst(registered: seq<Subscriber>, id: string)
    ensures FindSubscriber(registered, id).Some? ==> exists k :: 0 <= k < |registered| && IsFirstOf(registered, k, id) && registered[k] == FindSubscriber(registered, id).value
    ensures FindSubscriber(registered, id).None? ==> forall k :: 0 <= k < |registered| ==> registered[k].id != id
  {
    if registered != [] && registered[0].id != id {
      FindsFirst(registered[1..], id);
      if FindSubscriber(registered, id).Some? {
        var k :| 0 <= k < |registered| - 1 && IsFirstOf(registered[1..], k, id) && registered[1..][k] == FindSubscriber(registered, id).value;
        assert IsFirstOf(registered, k + 1, id);
      } else {
        forall k | 0 <= k < |registered| ensures registered[k].id != id {
          if k > 0 {
            assert registered[1..][k - 1] == registered[k];
          }
        }
      }
    } else if registered != [] {
      assert IsFirstOf(registered, 0, id);
    }
  }

  lemma SubscribesMeans(i: Item, id: string, app: string)
    requires i.QueueDeliveries?
    ensures Subscribes(i.registered, id, i.tenant, app, i.eventType) <==> IsSubscriber(i, id, app)
  {
    FindsFirst(i.registered, id);
  }

  /**
   Queueing uses the context up exactly when it was issued for this capability and
   tenant, is live and was not used; it adds the evidence once the resource type
   fits, and the item's own documents exactly when it is for what the context was
   issued for and every endpoint is a subscriber; an endpoint that is not blocks.
  */
  lemma QueueDecides(manifest: map<string, string>, s: State, call: nat, item: Item, context: nat, evidence: string, ids: seq<string>)
    requires call in s.calls && s.calls[call].Transacting?
    ensures var t, s' := s.calls[call], Step(manifest, s, Queue(call, item, context, evidence, ids));
            var usable := context in s.contexts && var c := s.contexts[context];
                          KindOf(item, ItemType(item), c.capability) && c.target.tenant == item.tenant && s.clock < c.expiresAt && context !in s.used;
            && s'.docs == s.docs && s'.used == (if usable then s.used + {context} else s.used)
            && call in s'.calls && s'.calls[call].Transacting?
            && if !usable || !KindOf(item, s.contexts[context].target.typ, ItemCapability(item)) then s'.calls[call] == t
               else
                 var c := s.contexts[context];
                 var subscribed := item.QueueDeliveries? ==> forall id :: id in item.endpoints ==> IsSubscriber(item, id, c.app);
                 exists added ::
                   && s'.calls[call].ops == t.ops + added && AddedFor(item, c, evidence, ids, added, IssuedFor(c, item) && subscribed)
                   && s'.calls[call].blocked == (t.blocked || (IssuedFor(c, item) && !subscribed))
  {
    hide Queued, QueueingOf, AddedFor, IsSubscriber, ToDurable, EvidenceFor;
    if CanQueue(s, item, context) {
      var c := s.contexts[context];
      QueuedAdds(item, c, evidence, ids);
      assert Step(manifest, s, Queue(call, item, context, evidence, ids)).calls[call].ops == s.calls[call].ops + Queued(item, c, evidence, ids);
    }
  }

  /** The evidence, and behind it the item's own operations if it is accepted. */
  ghost predicate AddedFor(i: Item, c: Context, evidence: string, ids: seq<string>, added: seq<Op>, accepted: bool) {
    && added != [] && IsInsert(added[0], "service_effect_evidence", evidence) && added[0].doc.EvidenceDoc? && AllowsFor(added[0].doc.row, c, Succeeded)
    && if accepted then AddsFor(i, c, evidence, ids, added[1..]) else |added| == 1
  }

  lemma ItemAdds(i: Item, c: Context, evidence: string, ids: seq<string>)
    requires i.QueueDeliveries? ==> forall id :: id in i.endpoints ==> IsSubscriber(i, id, c.app)
    ensures AddsFor(i, c, evidence, ids, ItemOps(i, c, evidence, ids))
  {
    hide IsSubscriber, ToDurable, NotificationData, NotificationDeliveryData, Tells;
    DurableIs(c);
    if i.QueueNotification? {
      NotificationTells(i.tenant, IdAt(ids, 0), i.recipient);
    }
  }

  lemma DurableIs(c: Context)
    ensures IsDurable(ToDurable(c.principal, None, c.decisionId), c, c.principal.delegation)
    ensures IsDurable(ToDurable(c.principal, EffectiveDelegation(c), c.decisionId), c, BoundDelegation(c))
  {}

  lemma NotificationTells(tenant: string, note: string, recipient: string)
    ensures var n, d := OtherDoc(NotificationData(tenant, recipient), 1), OtherDoc(NotificationDeliveryData(tenant, note, recipient), 1);
            && Tells(n, "tenantId", tenant) && Tells(n, "recipient", recipient) && Tells(n, "status", "delivered")
            && Tells(d, "tenantId", tenant) && Tells(d, "recipient", recipient) && Tells(d, "status", "delivered")
            && Tells(d, "notificationId", note) && Tells(d, "channel", "in-app")
  {}

  lemma QueuedAdds(i: Item, c: Context, evidence: string, ids: seq<string>)
    ensures var subscribed := i.QueueDeliveries? ==> forall id :: id in i.endpoints ==> IsSubscriber(i, id, c.app);
            && (QueueingOf(i, c).Blocking? <==> IssuedFor(c, i) && !subscribed)
            && if !KindOf(i, c.target.typ, ItemCapability(i)) then Queued(i, c, evidence, ids) == []
               else AddedFor(i, c, evidence, ids, Queued(i, c, evidence, ids), IssuedFor(c, i) && subscribed)
  {
    hide Subscribes, IsSubscriber, AddsFor, ItemOps;
    if i.QueueDeliveries? {
      forall id | id in i.endpoints ensures Subscribes(i.registered, id, i.tenant, c.app, i.eventType) <==> IsSubscriber(i, id, c.app) {
        SubscribesMeans(i, id, c.app);
      }
    }
    var ops := Queued(i, c, evidence, ids);
    if QueueingOf(i, c).Accepted? {
      ItemAdds(i, c, evidence, ids);
      assert ops[1..] == ItemOps(i, c, evidence, ids);
    }
  }
}

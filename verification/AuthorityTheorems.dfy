/** Attestation is sound and complete in every reachable state, and a context is used once. */
module AuthorityTheorems {
  import opened Common
  import opened Authority

  // ---------------------------------------------------------------------------
  // Soundness: what is recorded as allowed was allowed
  // ---------------------------------------------------------------------------

  /** The grant is a valid allow for this row's tenant, application, principal, delegation and capability. */
  ghost predicate Backs(g: Grant, row: Evidence) {
    && ValidDecision(g.request, g.answer) && g.answer.allowed && row.decisionId == Some(g.answer.id)
    && g.request.app == row.app && g.request.tenant == row.tenant && g.request.capability == row.capability
    && g.request.subject == row.principalId && g.request.kind == row.kind
    && NonEmpty(Or(Attribute(g.request.attributes, "delegationId"), g.request.delegation)) == row.delegation
  }

  ghost predicate RowBacked(grants: set<Grant>, row: Evidence) {
    row.decision.Allow? ==> exists g :: g in grants && Backs(g, row)
  }

  ghost predicate ContextBacked(grants: set<Grant>, c: Context) {
    RowBacked(grants, EvidenceFor(c, InProgress))
  }

  ghost predicate OpBacked(grants: set<Grant>, op: Op) {
    op.collection == EVIDENCE ==> op.doc.EvidenceDoc? && RowBacked(grants, op.doc.row)
  }

  ghost predicate CallBacked(grants: set<Grant>, c: Call) {
    match c
    case Transacting(ops, _) => forall op :: op in ops ==> OpBacked(grants, op)
    case Executing(_, _, _, phase) =>
      match phase
      case Refused(row) => !row.decision.Allow?
      case Allowed(context) => ContextBacked(grants, context)
      case Started(context, _) => ContextBacked(grants, context)
      case _ => true
  }

  ghost predicate DocsBacked(grants: set<Grant>, docs: Docs) {
    forall k :: k in docs && k.0 == EVIDENCE ==> docs[k].EvidenceDoc? && RowBacked(grants, docs[k].row)
  }

  ghost predicate SoundInv(s: State) {
    && DocsBacked(s.grants, s.docs)
    && (forall c :: c in s.contexts ==> ContextBacked(s.grants, s.contexts[c]))
    && (forall n :: n in s.calls ==> CallBacked(s.grants, s.calls[n]))
  }

  lemma GrantsGrow(a: set<Grant>, b: set<Grant>, row: Evidence)
    requires RowBacked(a, row) && a <= b
    ensures RowBacked(b, row)
  {}

  lemma CallBackedGrows(a: set<Grant>, b: set<Grant>, c: Call)
    requires CallBacked(a, c) && a <= b
    ensures CallBacked(b, c)
  {
    if c.Transacting? {
      forall op | op in c.ops ensures OpBacked(b, op) {
        assert OpBacked(a, op);
      }
    }
  }

  /** A context is only minted on a valid allow for what it says. */
  lemma AuthorizeIsBacked(manifest: map<string, string>, now: nat, app: string, p: Principal, capability: string, target: Target, ok: bool, answer: Answer, grants: set<Grant>)
    requires var v := Authorize(manifest, now, app, p, capability, target, ok, answer); v.Granted?
    requires Grant(RequestFor(app, p, capability, target), answer) in grants
    ensures ContextBacked(grants, Authorize(manifest, now, app, p, capability, target, ok, answer).context)
  {
    var c := Authorize(manifest, now, app, p, capability, target, ok, answer).context;
    assert Backs(Grant(RequestFor(app, p, capability, target), answer), EvidenceFor(c, InProgress));
  }

  lemma OutcomeDoesNotMatter(grants: set<Grant>, row: Evidence, outcome: Outcome)
    requires RowBacked(grants, row)
    ensures RowBacked(grants, row.(outcome := outcome))
  {
    if row.decision.Allow? {
      var g :| g in grants && Backs(g, row);
      assert Backs(g, row.(outcome := outcome));
    }
  }

  lemma {:induction false} CommitBacked(grants: set<Grant>, docs: Docs, ops: seq<Op>)
    requires DocsBacked(grants, docs) && forall op :: op in ops ==> OpBacked(grants, op)
    ensures Commit(docs, ops).Some? ==> DocsBacked(grants, Commit(docs, ops).value)
    decreases ops
  {
    hide RowBacked;
    if ops != [] && OpHolds(docs, ops[0]) {
      assert OpBacked(grants, ops[0]);
      CommitBacked(grants, Applied(docs, ops[0]), ops[1..]);
    }
  }

  lemma EffectOpsBacked(grants: set<Grant>, e: Effect, c: Context, creator: string, ids: seq<string>, wins: bool)
    ensures forall op :: op in EffectOps(e, c, creator, ids, wins) ==> OpBacked(grants, op)
  {}

  lemma QueuedBacked(grants: set<Grant>, i: Item, c: Context, evidence: string, ids: seq<string>)
    requires ContextBacked(grants, c)
    ensures forall op :: op in Queued(i, c, evidence, ids) ==> OpBacked(grants, op)
  {
    hide RowBacked;
    OutcomeDoesNotMatter(grants, EvidenceFor(c, InProgress), Succeeded);
    assert EvidenceFor(c, InProgress).(outcome := Succeeded) == EvidenceFor(c, Succeeded);
    assert forall op :: op in ItemOps(i, c, evidence, ids) ==> OpBacked(grants, op);
  }

  /** The grants a step leaves. */
  function GrantsAfter(s: State, r: StepResult): set<Grant> {
    if r.grant.Some? then s.grants + {r.grant.value} else s.grants
  }

  lemma DoBacked(manifest: map<string, string>, s: State, c: Call, input: Input)
    requires SoundInv(s) && c.Executing? && CallBacked(s.grants, c)
    ensures var r := Do(manifest, s, c, input);
            DocsBacked(GrantsAfter(s, r), r.docs) && (r.next.Some? ==> CallBacked(GrantsAfter(s, r), r.next.value))
  {
    hide RowBacked, Authorize, EvidenceFor;
    var r := Do(manifest, s, c, input);
    match c.phase
    case Asking =>
      if r.grant.Some? {
        var target := TargetOf(c.effect, c.principal);
        AuthorizeIsBacked(manifest, s.clock, c.app, c.principal, Capability(c.effect), target, input.credentialOk, input.answer, GrantsAfter(s, r));
        DocsBackedGrow(s.grants, GrantsAfter(s, r), s.docs);
      }
    case Refused(row) =>
      RefusalBacked(s.grants, row);
      CommitBacked(s.grants, s.docs, [Op(EVIDENCE, IdAt(input.ids, 0), EvidenceDoc(row), true)]);
    case Allowed(context) =>
      CommitBacked(s.grants, s.docs, [Op(EVIDENCE, IdAt(input.ids, 0), EvidenceDoc(EvidenceFor(context, InProgress)), true)]);
    case Started(context, evidence) =>
      EffectOpsBacked(s.grants, c.effect, context, evidence, input.ids, input.wins);
      CommitBacked(s.grants, s.docs, EffectOps(c.effect, context, evidence, input.ids, input.wins));
    case Finishing(evidence, outcome) =>
      if (EVIDENCE, evidence) in s.docs {
        OutcomeDoesNotMatter(s.grants, s.docs[(EVIDENCE, evidence)].row, outcome);
      }
  }

  lemma RefusalBacked(grants: set<Grant>, row: Evidence)
    requires !row.decision.Allow?
    ensures RowBacked(grants, row)
  {}

  lemma DocsBackedGrow(a: set<Grant>, b: set<Grant>, docs: Docs)
    requires DocsBacked(a, docs) && a <= b
    ensures DocsBacked(b, docs)
  {
    hide RowBacked;
    forall k | k in docs && k.0 == EVIDENCE ensures RowBacked(b, docs[k].row) {
      GrantsGrow(a, b, docs[k].row);
    }
  }

  /** Everything that is carried over stays backed when the step only adds grants. */
  lemma CarriedOver(s: State, grants: set<Grant>)
    requires SoundInv(s) && s.grants <= grants
    ensures DocsBacked(grants, s.docs)
    ensures forall c :: c in s.contexts ==> ContextBacked(grants, s.contexts[c])
    ensures forall n :: n in s.calls ==> CallBacked(grants, s.calls[n])
  {
    hide RowBacked, CallBacked;
    DocsBackedGrow(s.grants, grants, s.docs);
    forall c | c in s.contexts ensures ContextBacked(grants, s.contexts[c]) {
      GrantsGrow(s.grants, grants, EvidenceFor(s.contexts[c], InProgress));
    }
    forall n | n in s.calls ensures CallBacked(grants, s.calls[n]) {
      CallBackedGrows(s.grants, grants, s.calls[n]);
    }
  }

  lemma StepIsSound(manifest: map<string, string>, s: State, a: Action)
    requires SoundInv(s) && Enabled(s, a)
    ensures SoundInv(Step(manifest, s, a)) && s.grants <= Step(manifest, s, a).grants
  {
    hide RowBacked, ContextBacked, Do, Authorize, Queued, Commit, CanQueue;
    var s' := Step(manifest, s, a);
    CarriedOver(s, s'.grants);
    match a
    case Mint(_, app, p, capability, target, input) =>
      if Authorize(manifest, s.clock, app, p, capability, target, input.credentialOk, input.answer).Granted? {
        AuthorizeIsBacked(manifest, s.clock, app, p, capability, target, input.credentialOk, input.answer, s'.grants);
      }
    case Go(call, input) => DoBacked(manifest, s, s.calls[call], input);
    case Queue(call, item, context, evidence, ids) =>
      if CanQueue(s, item, context) {
        QueueIsSound(s, call, item, context, evidence, ids);
      }
    case CommitAll(call) => CommitBacked(s.grants, s.docs, s.calls[call].ops);
    case _ =>
  }

  lemma QueueIsSound(s: State, call: nat, item: Item, context: nat, evidence: string, ids: seq<string>)
    requires SoundInv(s) && call in s.calls && s.calls[call].Transacting? && CanQueue(s, item, context)
    ensures CallBacked(s.grants, Transacting(s.calls[call].ops + Queued(item, s.contexts[context], evidence, ids), false))
  {
    hide RowBacked, Queued, OpBacked;
    QueuedBacked(s.grants, item, s.contexts[context], evidence, ids);
  }

  lemma {:induction false} RunIsSound(manifest: map<string, string>, tr: seq<State>, acts: seq<Action>, i: nat)
    requires IsRun(manifest, tr, acts) && SoundInv(tr[0]) && i < |tr|
    ensures SoundInv(tr[i])
  {
    hide SoundInv, Enabled, Step;
    if i > 0 {
      RunIsSound(manifest, tr, acts, i - 1);
      StepIsSound(manifest, tr[i - 1], acts[i - 1]);
    }
  }

  /**
   Whatever passes `attest`, however it got into the store, was allowed: the
   authorizer gave a valid allow for the same tenant, application, principal,
   delegation and one of the creating capabilities.
  */
  lemma AttestIsSound(manifest: map<string, string>, tr: seq<State>, acts: seq<Action>, i: nat, app: string, d: Durable, creators: set<string>) returns (g: Grant)
    requires IsRun(manifest, tr, acts) && SoundInv(tr[0]) && i < |tr|
    requires Attests(tr[i].docs, app, d, creators)
    ensures g in tr[i].grants && ValidDecision(g.request, g.answer) && g.answer.allowed && Some(g.answer.id) == d.authorizedBy
    ensures g.request.app == app && g.request.tenant == d.tenant && g.request.subject == d.principalId && g.request.kind == d.kind
    ensures NonEmpty(Or(Attribute(g.request.attributes, "delegationId"), g.request.delegation)) == d.delegation
    ensures g.request.capability in creators
    // The evidence that says so is not of an effect that failed.
    ensures exists k: Key :: k in tr[i].docs && k.0 == "service_effect_evidence" && tr[i].docs[k].EvidenceDoc?
                             && tr[i].docs[k].row.decisionId == d.authorizedBy && !tr[i].docs[k].row.outcome.Failed?
    // What the authorizer itself answered is about that tenant, application, principal and capability.
    ensures g.answer.tenant == d.tenant && g.answer.app == app && g.answer.subject == d.principalId && g.answer.capability in creators
  {
    hide IsRun, Step;
    RunIsSound(manifest, tr, acts, i);
    var k :| k in tr[i].docs && k.0 == EVIDENCE && tr[i].docs[k].EvidenceDoc? && RowAttests(tr[i].docs[k].row, app, d, creators);
    g :| g in tr[i].grants && Backs(g, tr[i].docs[k].row);
  }

  // ---------------------------------------------------------------------------
  // Completeness: three writers, one checker
  // ---------------------------------------------------------------------------

  function CreatorsOf(collection: string): set<string> {
    if collection == JOBS then JOB_CREATORS else if collection == SCHEDULES then {"schedules.create"}
    else if collection == DELIVERIES then DELIVERY_CREATORS else {}
  }

  predicate IsWork(collection: string) {
    collection == JOBS || collection == SCHEDULES || collection == DELIVERIES
  }

  /** The row backs the durable principal, whatever has become of its outcome. */
  predicate Fits(row: Evidence, d: Durable, creators: set<string>) {
    RowAttests(row.(outcome := Succeeded), row.app, d, creators)
  }

  predicate Supports(docs: Docs, creator: string, d: Durable, creators: set<string>) {
    (EVIDENCE, creator) in docs && docs[(EVIDENCE, creator)].EvidenceDoc? && Fits(docs[(EVIDENCE, creator)].row, d, creators)
  }

  predicate DocFits(docs: Docs, k: Key)
    requires k in docs
  {
    && (k.0 == EVIDENCE ==> docs[k].EvidenceDoc?)
    && (IsWork(k.0) ==> docs[k].WorkDoc? && (docs[k].work.principal.Some? ==>
                                               Supports(docs, docs[k].work.creator, docs[k].work.principal.value, CreatorsOf(k.0))))
  }

  ghost predicate DocsFit(docs: Docs) {
    forall k :: k in docs ==> DocFits(docs, k)
  }

  /** A delegation of the empty text is only asked for by a caller that has none. */
  predicate PlainEffect(e: Effect, p: Principal) {
    e.EnqueueJob? || e.CreateSchedule? ==> !(e.delegation == Some("") && p.delegation.Some?)
  }

  /** An emit context binds no delegation but the caller's own. */
  predicate PlainItem(i: Item, c: Context) {
    i.QueueDeliveries? ==> NonEmpty(EffectiveDelegation(c)) == c.principal.delegation
  }

  /** An effect's record agrees with its evidence exactly when the caller did not ask for the empty delegation over its own. */
  lemma EffectFitsExactly(e: Effect, c: Context, creator: string, ids: seq<string>, op: Op)
    requires Minted(c.principal) && c.decisionId != "" && c.capability == Capability(e) && c.target == TargetOf(e, c.principal)
    requires op in EffectOps(e, c, creator, ids, true)
    ensures op.doc.WorkDoc? && op.doc.work.principal.Some? && op.doc.work.creator == creator
    ensures Fits(EvidenceFor(c, Succeeded), op.doc.work.principal.value, CreatorsOf(op.collection)) <==> PlainEffect(e, c.principal)
  {}

  /** A queued item's record agrees with its evidence exactly when an emit context carries no other delegation than the caller's. */
  lemma ItemFitsExactly(i: Item, c: Context, creator: string, ids: seq<string>, op: Op)
    requires Minted(c.principal) && c.principal.tenant == c.target.tenant && c.decisionId != "" && c.capability == ItemCapability(i)
    requires op in ItemOps(i, c, creator, ids) && IsWork(op.collection)
    ensures op.doc.WorkDoc? && op.doc.work.principal.Some? && op.doc.work.creator == creator
    ensures Fits(EvidenceFor(c, Succeeded), op.doc.work.principal.value, CreatorsOf(op.collection)) <==> PlainItem(i, c)
  {}

  ghost predicate ContextFits(c: Context) {
    Minted(c.principal) && c.decisionId != "" && c.principal.tenant == c.target.tenant
  }

  ghost predicate ExecutionFits(docs: Docs, c: Call)
    requires c.Executing?
  {
    && Minted(c.principal) && PlainEffect(c.effect, c.principal)
    && (c.phase.Allowed? || c.phase.Started? ==>
          && ContextFits(c.phase.context) && c.phase.context.principal == c.principal
          && c.phase.context.capability == Capability(c.effect) && c.phase.context.target == TargetOf(c.effect, c.principal))
    && (c.phase.Started? ==>
          && (EVIDENCE, c.phase.evidence) in docs && docs[(EVIDENCE, c.phase.evidence)].EvidenceDoc?
          && var row := docs[(EVIDENCE, c.phase.evidence)].row; row == EvidenceFor(c.phase.context, row.outcome))
  }

  /** An operation that may be committed: evidence never overwrites, and work names evidence. */
  predicate OpShape(op: Op) {
    && (op.collection == EVIDENCE ==> op.requireAbsent && op.doc.EvidenceDoc?)
    && (IsWork(op.collection) ==> op.doc.WorkDoc? && op.doc.work.principal.Some?)
  }

  predicate IsEvidenceFor(op: Op, creator: string, d: Durable, creators: set<string>) {
    op.collection == EVIDENCE && op.id == creator && op.requireAbsent && op.doc.EvidenceDoc? && Fits(op.doc.row, d, creators)
  }

  /** Every record is backed by evidence in the store or earlier in the same transaction. */
  ghost predicate OpsFit(docs: Docs, ops: seq<Op>) {
    forall k :: 0 <= k < |ops| ==> OpFits(docs, ops, k)
  }

  ghost predicate OpFits(docs: Docs, ops: seq<Op>, k: nat)
    requires k < |ops|
  {
    && OpShape(ops[k])
    && (IsWork(ops[k].collection) ==>
          var w := ops[k].doc.work;
          || Supports(docs, w.creator, w.principal.value, CreatorsOf(ops[k].collection))
          || exists j :: 0 <= j < k && IsEvidenceFor(ops[j], w.creator, w.principal.value, CreatorsOf(ops[k].collection)))
  }

  ghost predicate CallFits(docs: Docs, c: Call) {
    if c.Executing? then ExecutionFits(docs, c) else OpsFit(map[], c.ops)
  }

  ghost predicate FitInv(s: State) {
    && DocsFit(s.docs)
    && (forall c :: c in s.contexts ==> ContextFits(s.contexts[c]))
    && (forall n :: n in s.calls ==> CallFits(s.docs, s.calls[n]))
  }

  /** Evidence stays, and only its outcome moves. */
  ghost predicate EvidenceStays(a: Docs, b: Docs) {
    forall k :: k in a && k.0 == EVIDENCE && a[k].EvidenceDoc? ==>
      k in b && b[k].EvidenceDoc? && b[k].row == a[k].row.(outcome := b[k].row.outcome)
  }

  lemma SupportsStays(a: Docs, b: Docs, creator: string, d: Durable, creators: set<string>)
    requires Supports(a, creator, d, creators) && EvidenceStays(a, b)
    ensures Supports(b, creator, d, creators)
  {
    var k := (EVIDENCE, creator);
    assert b[k].row == a[k].row.(outcome := b[k].row.outcome);
  }

  lemma DocFitsStays(a: Docs, b: Docs, k: Key)
    requires k in a && DocFits(a, k) && EvidenceStays(a, b) && k in b && (a[k] == b[k] || k.0 == EVIDENCE)
    ensures DocFits(b, k)
  {
    hide Supports;
    if IsWork(k.0) && a[k].work.principal.Some? {
      SupportsStays(a, b, a[k].work.creator, a[k].work.principal.value, CreatorsOf(k.0));
    }
  }

  lemma CallFitsStays(a: Docs, b: Docs, c: Call)
    requires CallFits(a, c) && EvidenceStays(a, b)
    ensures CallFits(b, c)
  {
    if c.Executing? && c.phase.Started? {
      var k := (EVIDENCE, c.phase.evidence);
      assert b[k].row == a[k].row.(outcome := b[k].row.outcome);
    }
  }

  /** Applying one operation that fits leaves a store that fits. */
  lemma ApplyFits(docs: Docs, op: Op)
    requires DocsFit(docs) && OpShape(op) && OpHolds(docs, op)
    requires IsWork(op.collection) ==> Supports(docs, op.doc.work.creator, op.doc.work.principal.value, CreatorsOf(op.collection))
    ensures DocsFit(Applied(docs, op)) && EvidenceStays(docs, Applied(docs, op))
  {
    hide Supports;
    var after := Applied(docs, op);
    forall k | k in after ensures DocFits(after, k) {
      if k == (op.collection, op.id) {
        if IsWork(op.collection) {
          SupportsStays(docs, after, op.doc.work.creator, op.doc.work.principal.value, CreatorsOf(op.collection));
        }
      } else {
        DocFitsStays(docs, after, k);
      }
    }
  }

  lemma {:induction false} CommitFits(docs: Docs, ops: seq<Op>)
    requires DocsFit(docs) && OpsFit(docs, ops)
    ensures Commit(docs, ops).Some? ==> DocsFit(Commit(docs, ops).value) && EvidenceStays(docs, Commit(docs, ops).value)
    decreases ops
  {
    hide DocsFit, OpShape, Supports, IsEvidenceFor;
    if ops != [] && OpHolds(docs, ops[0]) {
      var after := Applied(docs, ops[0]);
      assert OpFits(docs, ops, 0);
      ApplyFits(docs, ops[0]);
      RestFits(docs, ops);
      CommitFits(after, ops[1..]);
      if Commit(docs, ops).Some? {
        StaysTransitive(docs, after, Commit(docs, ops).value);
      }
    }
  }

  lemma StaysTransitive(a: Docs, b: Docs, c: Docs)
    requires EvidenceStays(a, b) && EvidenceStays(b, c)
    ensures EvidenceStays(a, c)
  {}

  lemma RestFits(docs: Docs, ops: seq<Op>)
    requires ops != [] && OpsFit(docs, ops) && EvidenceStays(docs, Applied(docs, ops[0]))
    ensures OpsFit(Applied(docs, ops[0]), ops[1..])
  {
    hide Fits;
    var after := Applied(docs, ops[0]);
    forall k | 0 <= k < |ops| - 1 ensures OpFits(after, ops[1..], k) {
      assert OpFits(docs, ops, k + 1);
      if IsWork(ops[k + 1].collection) {
        var w, creators := ops[k + 1].doc.work, CreatorsOf(ops[k + 1].collection);
        if Supports(docs, w.creator, w.principal.value, creators) {
          SupportsStays(docs, after, w.creator, w.principal.value, creators);
        } else {
          var j :| 0 <= j < k + 1 && IsEvidenceFor(ops[j], w.creator, w.principal.value, creators);
          if j > 0 {
            assert ops[1..][j - 1] == ops[j];
          }
        }
      }
    }
  }

  lemma OpsFitAnywhere(docs: Docs, ops: seq<Op>)
    requires OpsFit(map[], ops)
    ensures OpsFit(docs, ops)
  {
    hide OpShape, IsEvidenceFor;
    forall k | 0 <= k < |ops| ensures OpFits(docs, ops, k) {
      assert OpFits(map[], ops, k);
    }
  }

  /** Two lists of operations that fit, one after the other. */
  lemma OpsFitConcat(a: seq<Op>, b: seq<Op>)
    requires OpsFit(map[], a) && OpsFit(map[], b)
    ensures OpsFit(map[], a + b)
  {
    hide OpShape, IsEvidenceFor, Supports;
    var ops := a + b;
    forall k | 0 <= k < |ops| ensures OpFits(map[], ops, k) {
      if k < |a| {
        OpFitsIn(a, ops, 0, k);
      } else {
        OpFitsIn(b, ops, |a|, k - |a|);
      }
    }
  }

  lemma OpFitsIn(part: seq<Op>, whole: seq<Op>, offset: nat, k: nat)
    requires OpsFit(map[], part) && k < |part| && offset + |part| <= |whole| && whole[offset..offset + |part|] == part
    ensures OpFits(map[], whole, offset + k)
  {
    hide IsEvidenceFor;
    assert OpFits(map[], part, k);
    assert part[k] == whole[offset + k];
    if IsWork(part[k].collection) {
      var w := part[k].doc.work;
      var j :| 0 <= j < k && IsEvidenceFor(part[j], w.creator, w.principal.value, CreatorsOf(part[k].collection));
      assert whole[offset + j] == part[j];
    }
  }

  lemma QueuedFits(i: Item, c: Context, evidence: string, ids: seq<string>)
    requires ContextFits(c) && c.capability == ItemCapability(i) && PlainItem(i, c)
    ensures OpsFit(map[], Queued(i, c, evidence, ids))
  {
    hide EffectiveDelegation, Fits, EvidenceFor, ToDurable, Supports;
    var ops := Queued(i, c, evidence, ids);
    forall k | 0 <= k < |ops| ensures OpFits(map[], ops, k) {
      if k > 0 {
        assert ops[k] in ItemOps(i, c, evidence, ids);
        if IsWork(ops[k].collection) {
          ItemFitsExactly(i, c, evidence, ids, ops[k]);
          assert IsEvidenceFor(ops[0], evidence, ops[k].doc.work.principal.value, CreatorsOf(ops[k].collection));
        }
      }
    }
  }

  lemma EffectOpsFit(docs: Docs, e: Effect, c: Context, evidence: string, ids: seq<string>, wins: bool)
    requires ContextFits(c) && c.capability == Capability(e) && c.target == TargetOf(e, c.principal) && PlainEffect(e, c.principal)
    requires (EVIDENCE, evidence) in docs && docs[(EVIDENCE, evidence)].EvidenceDoc?
    requires docs[(EVIDENCE, evidence)].row == EvidenceFor(c, docs[(EVIDENCE, evidence)].row.outcome)
    ensures OpsFit(docs, EffectOps(e, c, evidence, ids, wins))
  {
    hide EffectiveDelegation, ToDurable, TargetOf;
    var ops := EffectOps(e, c, evidence, ids, wins);
    forall k | 0 <= k < |ops| ensures OpFits(docs, ops, k) {
      assert ops[k] in EffectOps(e, c, evidence, ids, true);
      EffectFitsExactly(e, c, evidence, ids, ops[k]);
      assert Supports(docs, evidence, ops[k].doc.work.principal.value, CreatorsOf(ops[k].collection));
    }
  }

  lemma EvidenceOpFits(docs: Docs, id: string, row: Evidence)
    ensures OpsFit(docs, [Op(EVIDENCE, id, EvidenceDoc(row), true)])
  {}

  lemma DoFits(manifest: map<string, string>, s: State, c: Call, input: Input)
    requires DocsFit(s.docs) && c.Executing? && ExecutionFits(s.docs, c)
    ensures var r := Do(manifest, s, c, input);
            DocsFit(r.docs) && EvidenceStays(s.docs, r.docs) && (r.next.Some? ==> r.next.value.Executing? && ExecutionFits(r.docs, r.next.value))
  {
    hide DocsFit, EvidenceFor, RefusalRow, PlainEffect, TargetOf, EffectOps, OpsFit, Commit;
    var id := IdAt(input.ids, 0);
    match c.phase
    case Asking => {}
    case Refused(row) =>
      EvidenceOpFits(s.docs, id, row);
      CommitFits(s.docs, [Op(EVIDENCE, id, EvidenceDoc(row), true)]);
    case Allowed(context) =>
      EvidenceOpFits(s.docs, id, EvidenceFor(context, InProgress));
      CommitFits(s.docs, [Op(EVIDENCE, id, EvidenceDoc(EvidenceFor(context, InProgress)), true)]);
      RecordedRow(s.docs, id, context);
    case Started(context, evidence) =>
      EffectOpsFit(s.docs, c.effect, context, evidence, input.ids, input.wins);
      CommitFits(s.docs, EffectOps(c.effect, context, evidence, input.ids, input.wins));
    case Finishing(evidence, outcome) => FinishFits(s.docs, evidence, outcome);
  }

  lemma RecordedRow(docs: Docs, id: string, context: Context)
    ensures var written := Commit(docs, [Op(EVIDENCE, id, EvidenceDoc(EvidenceFor(context, InProgress)), true)]);
            written.Some? ==> written.value == docs[(EVIDENCE, id) := EvidenceDoc(EvidenceFor(context, InProgress))]
    ensures EvidenceFor(context, InProgress).outcome == InProgress
  {}

  lemma FinishFits(docs: Docs, evidence: string, outcome: Outcome)
    requires DocsFit(docs)
    ensures var k := (EVIDENCE, evidence);
            k in docs && docs[k].EvidenceDoc? ==>
              var after := docs[k := EvidenceDoc(docs[k].row.(outcome := outcome))];
              DocsFit(after) && EvidenceStays(docs, after)
  {
    hide Supports;
    var k := (EVIDENCE, evidence);
    if k in docs && docs[k].EvidenceDoc? {
      var after := docs[k := EvidenceDoc(docs[k].row.(outcome := outcome))];
      forall x | x in after ensures DocFits(after, x) {
        DocFitsStays(docs, after, x);
      }
    }
  }

  /** Nobody asks for the empty delegation over its own, and no emit context is used that binds another delegation. */
  ghost predicate Plain(s: State, a: Action) {
    && (a.Execute? ==> PlainEffect(a.effect, a.principal))
    && (a.Queue? && a.context in s.contexts ==> PlainItem(a.item, s.contexts[a.context]))
  }

  lemma CallsStay(s: State, docs: Docs)
    requires FitInv(s) && EvidenceStays(s.docs, docs)
    ensures forall n :: n in s.calls ==> CallFits(docs, s.calls[n])
  {
    hide EvidenceStays, CallFits;
    forall n | n in s.calls ensures CallFits(docs, s.calls[n]) {
      CallFitsStays(s.docs, docs, s.calls[n]);
    }
  }

  lemma StaysReflexive(docs: Docs)
    ensures EvidenceStays(docs, docs)
  {}

  lemma MintFits(manifest: map<string, string>, s: State, a: Action)
    requires FitInv(s) && Enabled(s, a) && a.Mint?
    ensures FitInv(Step(manifest, s, a))
  {
    hide DocsFit, CallFits;
  }

  lemma EntryFits(docs: Docs, app: string, p: Principal, e: Effect)
    requires Minted(p) && PlainEffect(e, p)
    ensures CallFits(docs, Executing(app, p, e, Asking))
  {}

  lemma QueueFits(s: State, call: nat, item: Item, context: nat, evidence: string, ids: seq<string>)
    requires FitInv(s) && call in s.calls && s.calls[call].Transacting? && (context in s.contexts ==> PlainItem(item, s.contexts[context]))
    ensures FitInv(DoQueue(s, call, item, context, evidence, ids))
  {
    hide DocsFit, OpsFit, ExecutionFits, Queued, PlainItem, ContextFits;
    if CanQueue(s, item, context) {
      assert CallFits(s.docs, s.calls[call]);
      QueuedFits(item, s.contexts[context], evidence, ids);
      OpsFitConcat(s.calls[call].ops, Queued(item, s.contexts[context], evidence, ids));
    }
  }

  lemma AddFits(s: State, call: nat, op: Op)
    requires FitInv(s) && call in s.calls && s.calls[call].Transacting?
    ensures FitInv(DoAdd(s, call, op))
  {
    hide DocsFit, ExecutionFits, ContextFits;
    assert CallFits(s.docs, s.calls[call]);
    if op.collection !in SERVICE_OWNED_COLLECTIONS {
      assert OpFits(map[], [op], 0);
      OpsFitConcat(s.calls[call].ops, [op]);
    }
  }

  lemma CommitAllFits(s: State, call: nat)
    requires FitInv(s) && call in s.calls && s.calls[call].Transacting?
    ensures FitInv(DoCommit(s, call))
  {
    hide DocsFit, OpsFit, ExecutionFits, ContextFits, EvidenceStays, Commit;
    assert CallFits(s.docs, s.calls[call]);
    OpsFitAnywhere(s.docs, s.calls[call].ops);
    CommitFits(s.docs, s.calls[call].ops);
    StaysReflexive(s.docs);
    CallsStay(s, DoCommit(s, call).docs);
  }

  /** A job copied from its schedule, or a system job with no principal, fits. */
  lemma NewJobFits(docs: Docs, job: string, doc: Doc)
    requires DocsFit(docs) && (JOBS, job) !in docs
    requires doc == WorkDoc(Work(None, "")) || exists k :: k in docs && k.0 == SCHEDULES && doc == docs[k]
    ensures DocsFit(docs[(JOBS, job) := doc]) && EvidenceStays(docs, docs[(JOBS, job) := doc])
  {
    var after := docs[(JOBS, job) := doc];
    forall k | k in after && k != (JOBS, job) ensures DocFits(after, k) {
      DocFitsStays(docs, after, k);
    }
    if k :| k in docs && k.0 == SCHEDULES && doc == docs[k] {
      assert DocFits(docs, k);
    }
  }

  lemma GoFits(manifest: map<string, string>, s: State, call: nat, input: Input)
    requires FitInv(s) && call in s.calls && s.calls[call].Executing?
    ensures FitInv(After(s, call, Do(manifest, s, s.calls[call], input)))
  {
    hide DocsFit, OpsFit, ExecutionFits, ContextFits, EvidenceStays, Do;
    assert CallFits(s.docs, s.calls[call]);
    DoFits(manifest, s, s.calls[call], input);
    CallsStay(s, Do(manifest, s, s.calls[call], input).docs);
  }

  lemma StepFits(manifest: map<string, string>, s: State, a: Action)
    requires FitInv(s) && Enabled(s, a) && Plain(s, a)
    ensures FitInv(Step(manifest, s, a))
  {
    hide DocsFit, CallFits, ContextFits, EvidenceStays, After, DoMint, DoQueue, DoAdd, DoCommit, PlainItem, PlainEffect, Minted;
    match a
    case Tick => {}
    case Mint(_, app, p, capability, target, input) => MintFits(manifest, s, a);
    case Execute(call, app, p, effect) => EntryFits(s.docs, app, p, effect);
    case Go(call, input) => GoFits(manifest, s, call, input);
    case Open(call) => EmptyOpsFit(s.docs);
    case Queue(call, item, context, evidence, ids) => QueueFits(s, call, item, context, evidence, ids);
    case AddOperation(call, op) => AddFits(s, call, op);
    case CommitAll(call) => CommitAllFits(s, call);
    case Materialize(schedule, job) =>
      NewJobFits(s.docs, job, s.docs[(SCHEDULES, schedule)]);
      CallsStay(s, Step(manifest, s, a).docs);
    case SystemJob(job) =>
      NewJobFits(s.docs, job, WorkDoc(Work(None, "")));
      CallsStay(s, Step(manifest, s, a).docs);
    case Stop(call) => {}
  }

  lemma EmptyOpsFit(docs: Docs)
    ensures CallFits(docs, Transacting([], false))
  {}

  ghost predicate AllPlain(tr: seq<State>, acts: seq<Action>)
    requires |tr| == |acts| + 1
  {
    forall i :: 0 <= i < |acts| ==> Plain(tr[i], acts[i])
  }

  lemma {:induction false} RunFits(manifest: map<string, string>, tr: seq<State>, acts: seq<Action>, i: nat)
    requires IsRun(manifest, tr, acts) && FitInv(tr[0]) && AllPlain(tr, acts) && i < |tr|
    ensures FitInv(tr[i])
  {
    hide FitInv, Enabled, Step, Plain;
    if i > 0 {
      RunFits(manifest, tr, acts, i - 1);
      StepFits(manifest, tr[i - 1], acts[i - 1]);
    }
  }

  /**
   Every job, schedule or delivery with a durable principal, whichever of the
   writers made it, passes `attest` of the application that made it as long as the
   effect that created it is in progress or succeeded.
  */
  lemma AttestIsComplete(manifest: map<string, string>, tr: seq<State>, acts: seq<Action>, i: nat, k: Key)
    requires IsRun(manifest, tr, acts) && FitInv(tr[0]) && AllPlain(tr, acts) && i < |tr|
    requires k in tr[i].docs && IsWork(k.0)
    ensures tr[i].docs[k].WorkDoc?
    ensures var w := tr[i].docs[k].work;
            w.principal.Some? ==>
              && (EVIDENCE, w.creator) in tr[i].docs && tr[i].docs[(EVIDENCE, w.creator)].EvidenceDoc?
              && var row := tr[i].docs[(EVIDENCE, w.creator)].row;
                 (row.outcome.Failed? || Attests(tr[i].docs, row.app, w.principal.value, CreatorsOf(k.0)))
  {
    hide IsRun, Step, AllPlain;
    RunFits(manifest, tr, acts, i);
    assert DocFits(tr[i].docs, k);
    var w := tr[i].docs[k].work;
    if w.principal.Some? && !tr[i].docs[(EVIDENCE, w.creator)].row.outcome.Failed? {
      var row := tr[i].docs[(EVIDENCE, w.creator)].row;
      assert RowAttests(row, row.app, w.principal.value, CreatorsOf(k.0));
    }
  }

  lemma EmptyIsFine()
    ensures SoundInv(EMPTY) && FitInv(EMPTY) && AppInv(EMPTY)
  {}

  // ---------------------------------------------------------------------------
  // Single use
  // ---------------------------------------------------------------------------

  /** The step used up the context. */
  predicate UsesUp(s: State, a: Action, context: nat) {
    a.Queue? && a.context == context && CanQueue(s, a.item, context)
  }

  lemma UsedStaysUsed(manifest: map<string, string>, s: State, a: Action)
    requires Enabled(s, a)
    ensures s.used <= Step(manifest, s, a).used
    ensures forall c :: UsesUp(s, a, c) ==> c in Step(manifest, s, a).used
  {
    hide Do, Queued, Authorize, Commit;
  }

  lemma {:induction false} UsedMonotone(manifest: map<string, string>, tr: seq<State>, acts: seq<Action>, i: nat, j: nat)
    requires IsRun(manifest, tr, acts) && i <= j < |tr|
    ensures tr[i].used <= tr[j].used
    decreases j
  {
    hide Enabled, Step;
    if i < j {
      UsedMonotone(manifest, tr, acts, i, j - 1);
      UsedStaysUsed(manifest, tr[j - 1], acts[j - 1]);
    }
  }

  /** Over a whole run a context lets at most one queued effect through. */
  lemma ContextUsedOnce(manifest: map<string, string>, tr: seq<State>, acts: seq<Action>, i: nat, j: nat, context: nat)
    requires IsRun(manifest, tr, acts) && i < |acts| && j < |acts|
    requires UsesUp(tr[i], acts[i], context) && UsesUp(tr[j], acts[j], context)
    ensures i == j
  {
    hide Step;
    if i < j {
      UsedStaysUsed(manifest, tr[i], acts[i]);
      UsedMonotone(manifest, tr, acts, i + 1, j);
    } else if j < i {
      UsedStaysUsed(manifest, tr[j], acts[j]);
      UsedMonotone(manifest, tr, acts, j + 1, i);
    }
  }

  lemma ContextsStay(manifest: map<string, string>, s: State, a: Action)
    requires Enabled(s, a)
    ensures s.clock <= Step(manifest, s, a).clock
    ensures forall c :: c in s.contexts ==> c in Step(manifest, s, a).contexts && Step(manifest, s, a).contexts[c] == s.contexts[c]
  {
    hide Do, Queued, Authorize, Commit;
  }

  lemma {:induction false} ContextsKept(manifest: map<string, string>, tr: seq<State>, acts: seq<Action>, i: nat, j: nat, c: nat)
    requires IsRun(manifest, tr, acts) && i <= j < |tr| && c in tr[i].contexts
    ensures c in tr[j].contexts && tr[j].contexts[c] == tr[i].contexts[c]
    decreases j
  {
    hide Enabled, Step;
    if i < j {
      ContextsKept(manifest, tr, acts, i, j - 1, c);
      ContextsStay(manifest, tr[j - 1], acts[j - 1]);
    }
  }

  /** A context is used for the capability and tenant that were allowed, by the same principal, within a minute of the allow. */
  lemma ContextIsBoundAndShortLived(manifest: map<string, string>, tr: seq<State>, acts: seq<Action>, i: nat, j: nat)
    requires IsRun(manifest, tr, acts) && i < j < |acts| && acts[i].Mint? && acts[j].Queue? && acts[j].context == acts[i].context
    requires acts[i].context in tr[i + 1].contexts && UsesUp(tr[j], acts[j], acts[j].context)
    ensures var m, input := acts[i], acts[i].input;
            && ItemCapability(acts[j].item) == m.capability && acts[j].item.tenant == m.principal.tenant == m.target.tenant
            && input.answer.Answer? && input.answer.allowed && input.answer.capability == m.capability && input.answer.tenant == m.principal.tenant
            && input.answer.subject == m.principal.id && input.credentialOk
    ensures tr[j].clock < tr[i].clock + 60_000
  {
    hide IsRun;
    var c := acts[i].context;
    OneStep(manifest, tr, acts, i);
    OneStep(manifest, tr, acts, j);
    ContextsKept(manifest, tr, acts, i + 1, j, c);
  }

  lemma OneStep(manifest: map<string, string>, tr: seq<State>, acts: seq<Action>, i: nat)
    requires IsRun(manifest, tr, acts) && i < |acts|
    ensures i + 1 < |tr| && Enabled(tr[i], acts[i]) && tr[i + 1] == Step(manifest, tr[i], acts[i])
  {}

  // ---------------------------------------------------------------------------
  // Application records and their versions
  // ---------------------------------------------------------------------------

  predicate IsApplications(k: Key) {
    k.0 !in SERVICE_OWNED_COLLECTIONS
  }

  ghost predicate AppDocs(docs: Docs) {
    forall k :: k in docs && IsApplications(k) ==> docs[k].OtherDoc?
  }

  ghost predicate AppOps(ops: seq<Op>) {
    forall op :: op in ops && IsApplications(KeyOf(op)) ==> op.doc.OtherDoc?
  }

  ghost predicate AppInv(s: State) {
    AppDocs(s.docs) && forall n :: n in s.calls && s.calls[n].Transacting? ==> AppOps(s.calls[n].ops)
  }

  /** No record of the application falls back to an earlier version. */
  ghost predicate VersionsGrow(a: Docs, b: Docs) {
    forall k :: IsApplications(k) ==> VersionOf(a, k) <= VersionOf(b, k)
  }

  lemma {:induction false} CommitMovesOn(docs: Docs, ops: seq<Op>)
    requires AppDocs(docs) && AppOps(ops) && Commit(docs, ops).Some?
    ensures AppDocs(Commit(docs, ops).value) && VersionsGrow(docs, Commit(docs, ops).value)
    ensures forall op :: op in ops && IsApplications(KeyOf(op)) && op.expectedVersion.Some? ==>
              VersionOf(Commit(docs, ops).value, KeyOf(op)) > op.expectedVersion.value
    decreases ops
  {
    if ops != [] {
      var after := Applied(docs, ops[0]);
      assert ops == [ops[0]] + ops[1..];
      CommitMovesOn(after, ops[1..]);
    }
  }

  lemma ServiceOps(e: Effect, c: Context, creator: string, ids: seq<string>, wins: bool)
    ensures AppOps(EffectOps(e, c, creator, ids, wins))
  {}

  lemma QueuedOps(i: Item, c: Context, evidence: string, ids: seq<string>)
    ensures AppOps(Queued(i, c, evidence, ids))
  {
    hide ToDurable, EvidenceFor, NotificationData, NotificationDeliveryData;
  }

  lemma DoMovesOn(manifest: map<string, string>, s: State, c: Call, input: Input)
    requires AppDocs(s.docs) && c.Executing?
    ensures var r := Do(manifest, s, c, input);
            AppDocs(r.docs) && VersionsGrow(s.docs, r.docs) && (r.next.Some? ==> r.next.value.Executing?)
  {
    hide Commit, EffectOps, EvidenceFor, Authorize, RefusalRow, VersionOf;
    var id := IdAt(input.ids, 0);
    match c.phase
    case Asking => {}
    case Refused(row) => OpMovesOn(s.docs, [Op(EVIDENCE, id, EvidenceDoc(row), true)]);
    case Allowed(context) => OpMovesOn(s.docs, [Op(EVIDENCE, id, EvidenceDoc(EvidenceFor(context, InProgress)), true)]);
    case Started(context, evidence) =>
      ServiceOps(c.effect, context, evidence, input.ids, input.wins);
      OpMovesOn(s.docs, EffectOps(c.effect, context, evidence, input.ids, input.wins));
    case Finishing(evidence, outcome) =>
      var k := (EVIDENCE, evidence);
      if k in s.docs && s.docs[k].EvidenceDoc? {
        ServiceWrite(s.docs, k, EvidenceDoc(s.docs[k].row.(outcome := outcome)));
      }
  }

  lemma OpMovesOn(docs: Docs, ops: seq<Op>)
    requires AppDocs(docs) && AppOps(ops)
    ensures Commit(docs, ops).Some? ==> AppDocs(Commit(docs, ops).value) && VersionsGrow(docs, Commit(docs, ops).value)
  {
    if Commit(docs, ops).Some? {
      CommitMovesOn(docs, ops);
    }
  }

  /** Writing what the services own moves no record of the application. */
  lemma ServiceWrite(docs: Docs, k: Key, doc: Doc)
    requires AppDocs(docs) && !IsApplications(k)
    ensures AppDocs(docs[k := doc]) && VersionsGrow(docs, docs[k := doc])
  {}

  lemma StepMovesOn(manifest: map<string, string>, s: State, a: Action)
    requires AppInv(s) && Enabled(s, a)
    ensures AppInv(Step(manifest, s, a)) && VersionsGrow(s.docs, Step(manifest, s, a).docs)
  {
    hide Do, Commit, Queued, Authorize, VersionOf;
    match a
    case Go(call, input) => DoMovesOn(manifest, s, s.calls[call], input);
    case Queue(call, item, context, evidence, ids) =>
      if CanQueue(s, item, context) {
        QueuedOps(item, s.contexts[context], evidence, ids);
      }
    case CommitAll(call) => OpMovesOn(s.docs, s.calls[call].ops);
    case Materialize(schedule, job) => ServiceWrite(s.docs, (JOBS, job), s.docs[(SCHEDULES, schedule)]);
    case SystemJob(job) => ServiceWrite(s.docs, (JOBS, job), WorkDoc(Work(None, "")));
    case _ =>
  }

  lemma {:induction false} RunMovesOn(manifest: map<string, string>, tr: seq<State>, acts: seq<Action>, i: nat, j: nat)
    requires IsRun(manifest, tr, acts) && AppInv(tr[0]) && i <= j < |tr|
    ensures AppInv(tr[j]) && VersionsGrow(tr[i].docs, tr[j].docs)
    decreases j
  {
    hide AppInv, VersionOf, Enabled, Step;
    if j > 0 {
      RunMovesOn(manifest, tr, acts, if i < j then i else j - 1, j - 1);
      StepMovesOn(manifest, tr[j - 1], acts[j - 1]);
    }
  }

  /** The step commits a transaction that expects this record of the application at this version. */
  ghost predicate CommitsOver(s: State, a: Action, k: Key, version: nat) {
    && a.CommitAll? && a.call in s.calls && s.calls[a.call].Transacting? && !s.calls[a.call].blocked && Commit(s.docs, s.calls[a.call].ops).Some?
    && IsApplications(k) && exists op :: op in s.calls[a.call].ops && KeyOf(op) == k && op.expectedVersion == Some(version)
  }

  /** Of all the transactions that expect one version of a record, at most one ever commits. */
  lemma ExpectedVersionOnce(manifest: map<string, string>, tr: seq<State>, acts: seq<Action>, i: nat, j: nat, k: Key, version: nat)
    requires IsRun(manifest, tr, acts) && AppInv(tr[0]) && i < |acts| && j < |acts|
    requires CommitsOver(tr[i], acts[i], k, version) && CommitsOver(tr[j], acts[j], k, version)
    ensures i == j
  {
    hide AppInv, Step;
    var x, y := if i < j then i else j, if i < j then j else i;
    if x < y {
      RunMovesOn(manifest, tr, acts, 0, x);
      OneStep(manifest, tr, acts, x);
      CommitGoesPast(manifest, tr[x], acts[x], k, version);
      RunMovesOn(manifest, tr, acts, x + 1, y);
      CommitNeeds(tr[y], acts[y], k, version);
    }
  }

  lemma CommitGoesPast(manifest: map<string, string>, s: State, a: Action, k: Key, version: nat)
    requires AppInv(s) && Enabled(s, a) && CommitsOver(s, a, k, version)
    ensures VersionOf(Step(manifest, s, a).docs, k) > version
  {
    hide Commit;
    CommitMovesOn(s.docs, s.calls[a.call].ops);
  }

  lemma CommitNeeds(s: State, a: Action, k: Key, version: nat)
    requires AppInv(s) && CommitsOver(s, a, k, version)
    ensures VersionOf(s.docs, k) <= version
  {
    var op :| op in s.calls[a.call].ops && KeyOf(op) == k && op.expectedVersion == Some(version);
    CommitStartsBelow(s.docs, s.calls[a.call].ops, op);
  }

  /** A version that is expected somewhere in a transaction that commits was not passed before it began. */
  lemma {:induction false} CommitStartsBelow(docs: Docs, ops: seq<Op>, op: Op)
    requires AppDocs(docs) && AppOps(ops) && Commit(docs, ops).Some? && op in ops && IsApplications(KeyOf(op)) && op.expectedVersion.Some?
    ensures VersionOf(docs, KeyOf(op)) <= op.expectedVersion.value
    decreases ops
  {
    if op != ops[0] {
      assert op in ops[1..];
      CommitStartsBelow(Applied(docs, ops[0]), ops[1..], op);
    }
  }

  /** A delivery queued in a transaction goes to a registered, enabled endpoint of the context's tenant and application that subscribes to the event. */
  lemma QueuedDeliveriesHaveSubscribers(i: Item, c: Context, evidence: string, ids: seq<string>, op: Op) returns (e: Subscriber)
    requires op in Queued(i, c, evidence, ids) && op.collection == DELIVERIES
    ensures i.QueueDeliveries? && op.doc.WorkDoc? && op.doc.work.endpoint == Some(e.id)
    ensures e in i.registered && e.tenant == i.tenant && e.app == c.app && !e.disabled && i.eventType in e.events
    ensures Attribute(c.target.attributes, "eventType") == Some(i.eventType)
  {
    hide ToDurable, EvidenceFor;
    var ops := TargetedOps(i.endpoints, ids, ToDurable(c.principal, None, c.decisionId), evidence);
    var k :| 0 <= k < |ops| && ops[k] == op;
    assert i.endpoints[k] in i.endpoints;
    e := FindSubscriber(i.registered, i.endpoints[k]).value;
  }

  // ---------------------------------------------------------------------------
  // Where attestation refuses what it should honour
  // ---------------------------------------------------------------------------

  lemma Then(manifest: map<string, string>, tr: seq<State>, acts: seq<Action>, a: Action) returns (tr': seq<State>, acts': seq<Action>)
    requires IsRun(manifest, tr, acts) && Enabled(tr[|tr| - 1], a)
    ensures tr' == tr + [Step(manifest, tr[|tr| - 1], a)] && acts' == acts + [a] && IsRun(manifest, tr', acts')
  {
    tr', acts' := tr + [Step(manifest, tr[|tr| - 1], a)], acts + [a];
  }

  const AGENT := Principal("agent", "agent", "tenant", None, Some("delegation"))

  const EMPTY_DELEGATION := EnqueueJob("type", Some(""))
  const ENQUEUEING: map<string, string> := map["jobs.create" := "job"]
  const ALLOWED_ANSWER := Answer("decision", true, "jobs.create", "tenant", "app", "agent", Uri("app", "tenant", "job", None))

  function EnqueueContext(): Context {
    Context("app", AGENT, "jobs.create", TargetOf(EMPTY_DELEGATION, AGENT), "decision", CONTEXT_TTL_MS)
  }

  /** The call is allowed and its evidence started. */
  lemma EnqueueStarts() returns (tr: seq<State>, acts: seq<Action>)
    ensures IsRun(ENQUEUEING, tr, acts) && tr[0] == EMPTY
    ensures var s := tr[|tr| - 1];
            && s.docs == map[(EVIDENCE, "evidence") := EvidenceDoc(EvidenceFor(EnqueueContext(), InProgress))]
            && s.calls == map[0 := Executing("app", AGENT, EMPTY_DELEGATION, Started(EnqueueContext(), "evidence"))]
  {
    tr, acts := [EMPTY], [];
    tr, acts := Then(ENQUEUEING, tr, acts, Execute(0, "app", AGENT, EMPTY_DELEGATION));
    tr, acts := Then(ENQUEUEING, tr, acts, Go(0, Input(ALLOWED_ANSWER, true, [], false, false, Succeeded)));
    assert tr[|tr| - 1].calls[0].phase == Allowed(EnqueueContext());
    RecordedRow(map[], "evidence", EnqueueContext());
    tr, acts := Then(ENQUEUEING, tr, acts, Go(0, Input(ALLOWED_ANSWER, true, ["evidence"], false, false, Succeeded)));
  }

  /** Enqueueing with the empty delegation by a caller that has one writes a job that no attestation honours, though its effect was allowed and is in progress. */
  lemma EmptyDelegationIsRefused() returns (tr: seq<State>, acts: seq<Action>)
    ensures IsRun(ENQUEUEING, tr, acts) && tr[0] == EMPTY
    ensures var docs := tr[|tr| - 1].docs;
            && (JOBS, "job") in docs && docs[(JOBS, "job")].WorkDoc? && docs[(JOBS, "job")].work.principal.Some?
            && (EVIDENCE, "evidence") in docs && docs[(EVIDENCE, "evidence")].EvidenceDoc? && docs[(EVIDENCE, "evidence")].row.outcome.InProgress?
            && !Attests(docs, "app", docs[(JOBS, "job")].work.principal.value, JOB_CREATORS)
  {
    tr, acts := EnqueueStarts();
    var docs := tr[|tr| - 1].docs;
    var d := ToDurable(AGENT, Some(""), "decision");
    var ops := EffectOps(EMPTY_DELEGATION, EnqueueContext(), "evidence", ["job"], false);
    assert ops == [Put(JOBS, "job", d, "evidence")] && ops[1..] == [];
    assert Commit(docs, ops) == Some(docs[(JOBS, "job") := WorkDoc(Work(Some(d), "evidence"))]);
    tr, acts := Then(ENQUEUEING, tr, acts, Go(0, Input(ALLOWED_ANSWER, true, ["job"], false, false, Succeeded)));
    assert d.delegation == None && EvidenceFor(EnqueueContext(), InProgress).delegation == Some("delegation");
  }
}

/**
 Transactions as they are written: a builder that grows, contexts that are used
 up, and one commit that writes everything or nothing. Each method does what the
 state machine of module Authority says, so its theorems are about these methods.
*/
module Transactions {
  import opened Common
  import opened Authority

  /** The issued and used contexts of a process. */
  class Contexts {
    var issued: map<nat, Context>
    var used: set<nat>

    constructor ()
      ensures issued == map[] && used == {}
    {
      issued, used := map[], {};
    }

    /** `consumeExecutionContext`: a context authorizes one effect only. */
    method Consume(context: nat, capability: string, tenant: string, now: nat) returns (r: Option<Context>)
      modifies this`used
      // Issued here, for this capability and tenant, live, and not used before.
      ensures r.Some? <==> context in issued && issued[context].capability == capability && issued[context].target.tenant == tenant
                           && now < issued[context].expiresAt && context !in old(used)
      ensures r.Some? ==> r.value == issued[context] && used == old(used) + {context}
      ensures r.None? ==> used == old(used)
    {
      if context !in issued {
        return None;
      }
      var c := issued[context];
      if c.capability != capability || c.target.tenant != tenant || c.expiresAt <= now {
        return None;
      }
      if context in used {
        return None;
      }
      used := used + {context};
      r := Some(c);
    }
  }

  class Database {
    var docs: Docs

    constructor ()
      ensures docs == map[]
    {
      docs := map[];
    }

    /** Every precondition holds, or nothing is written. */
    method Transaction(ops: seq<Op>) returns (ok: bool)
      modifies this
      ensures ok == Commit(old(docs), ops).Some?
      ensures docs == if ok then Commit(old(docs), ops).value else old(docs)
    {
      var staged := docs;
      for i := 0 to |ops|
        invariant docs == old(docs)
        invariant Commit(docs, ops) == Commit(staged, ops[i..])
      {
        var op, k := ops[i], KeyOf(ops[i]);
        assert ops[i..][1..] == ops[i + 1..];
        if (op.requireAbsent && k in staged) || (op.requirePresent && k !in staged)
           || (op.expectedVersion.Some? && (k !in staged || VersionOf(staged, k) != op.expectedVersion.value)) {
          return false;
        }
        staged := staged[k := Stamped(op.doc, VersionOf(staged, k) + 1)];
      }
      docs := staged;
      ok := true;
    }
  }

  class TransactionContext {
    var operations: seq<Op>
    /** A validation the commit waits for has failed. */
    var blocked: bool
    const contexts: Contexts

    constructor (contexts: Contexts)
      ensures operations == [] && !blocked && this.contexts == contexts
    {
      operations, blocked := [], false;
      this.contexts := contexts;
    }

    /** Wait for the validations, then commit everything in one transaction, or nothing. */
    method Commit(db: Database) returns (ok: bool)
      modifies db
      ensures ok == (!blocked && Authority.Commit(old(db.docs), operations).Some?)
      ensures db.docs == if ok then Authority.Commit(old(db.docs), operations).value else old(db.docs)
    {
      if blocked {
        return false;
      }
      ok := db.Transaction(operations);
    }

    /** An application operation; a collection the services own is refused. */
    method AddOperation(op: Op) returns (ok: bool)
      modifies this`operations
      ensures ok == (op.collection !in SERVICE_OWNED_COLLECTIONS)
      ensures operations == if ok then old(operations) + [op] else old(operations)
    {
      if op.collection in SERVICE_OWNED_COLLECTIONS {
        return false;
      }
      operations := operations + [op];
      ok := true;
    }

    /** Use the context up and queue its evidence, once it is for this kind of resource. */
    method Authorized(context: nat, i: Item, evidence: string, now: nat) returns (r: Option<Context>)
      modifies this`operations, contexts`used
      ensures var can := context in contexts.issued && Usable(contexts.issued[context], context in old(contexts.used), ItemCapability(i), i.tenant, now);
              && contexts.used == (if can then old(contexts.used) + {context} else old(contexts.used))
              && (r.Some? <==> can && contexts.issued[context].target.typ == ItemType(i))
      ensures r.Some? ==> r.value == contexts.issued[context]
      ensures operations == if r.Some? then old(operations) + [Op(EVIDENCE, evidence, EvidenceDoc(EvidenceFor(r.value, Succeeded)), true)] else old(operations)
    {
      r := contexts.Consume(context, ItemCapability(i), i.tenant, now);
      if r.None? || r.value.target.typ != ItemType(i) {
        return None;
      }
      operations := operations + [Op(EVIDENCE, evidence, EvidenceDoc(EvidenceFor(r.value, Succeeded)), true)];
    }

    /** What queueing an item does to the builder and the contexts. */
    ghost predicate QueuedAs(i: Item, context: nat, evidence: string, ids: seq<string>, now: nat, was: seq<Op>, used: set<nat>, ok: bool)
      reads this, contexts
    {
      if context in contexts.issued && Usable(contexts.issued[context], context in used, ItemCapability(i), i.tenant, now)
      then
        && operations == was + Queued(i, contexts.issued[context], evidence, ids)
        && ok == QueueingOf(i, contexts.issued[context]).Accepted?
        && contexts.used == used + {context}
      else operations == was && !ok && contexts.used == used
    }

    /** The item was denied in a validation the commit waits for. */
    ghost predicate Blocks(i: Item, context: nat, used: set<nat>, now: nat)
      reads contexts
    {
      context in contexts.issued && Usable(contexts.issued[context], context in used, ItemCapability(i), i.tenant, now) && QueueingOf(i, contexts.issued[context]).Blocking?
    }

    method QueueJob(tenant: string, jobType: string, delegation: Option<string>, context: nat, evidence: string, id: string, now: nat) returns (ok: bool)
      modifies this`operations, contexts`used
      ensures QueuedAs(Item.QueueJob(tenant, jobType, delegation), context, evidence, [id], now, old(operations), old(contexts.used), ok)
    {
      ghost var was := operations;
      var item := Item.QueueJob(tenant, jobType, delegation);
      var authorized := Authorized(context, item, evidence, now);
      if authorized.None? {
        return false;
      }
      var c := authorized.value;
      if Attribute(c.target.attributes, "jobType") != Some(jobType) {
        return false;
      }
      // The delegation must be the one that was authorized, never chosen afterwards.
      var effective := Or(Attribute(c.target.attributes, "delegationId"), c.principal.delegation);
      if delegation.Some? && delegation != effective {
        return false;
      }
      operations := operations + [Put(JOBS, id, ToDurable(c.principal, effective, c.decisionId), evidence)];
      assert operations == was + Queued(item, c, evidence, [id]);
      ok := true;
    }

    /** Deliveries to the endpoints the caller names, once each is found to be a registered, enabled subscriber. */
    method QueueWebhookDeliveries(tenant: string, eventType: string, endpoints: seq<string>, registered: seq<Subscriber>,
                                  context: nat, evidence: string, ids: seq<string>, now: nat) returns (ok: bool)
      modifies this, contexts`used
      ensures QueuedAs(QueueDeliveries(tenant, eventType, endpoints, registered), context, evidence, ids, now, old(operations), old(contexts.used), ok)
      ensures blocked == (old(blocked) || Blocks(QueueDeliveries(tenant, eventType, endpoints, registered), context, old(contexts.used), now))
    {
      hide TargetedOps, ToDurable, EvidenceFor, Subscribes;
      ghost var was := operations;
      var item := QueueDeliveries(tenant, eventType, endpoints, registered);
      var authorized := Authorized(context, item, evidence, now);
      if authorized.None? || Attribute(authorized.value.target.attributes, "eventType") != Some(eventType) {
        return false;
      }
      ok := AllSubscribe(item, authorized.value.app);
      if !ok {
        blocked := true;
        return;
      }
      AddDeliveries(endpoints, ids, ToDurable(authorized.value.principal, None, authorized.value.decisionId), evidence);
    }

    /** Each id must be a registered, enabled endpoint of this tenant and application that subscribes to the event. */
    method AllSubscribe(i: Item, app: string) returns (ok: bool)
      requires i.QueueDeliveries?
      ensures ok == EndpointsFit(i, app)
    {
      for k := 0 to |i.endpoints|
        invariant forall j :: 0 <= j < k ==> Subscribes(i.registered, i.endpoints[j], i.tenant, app, i.eventType)
      {
        var e := FindSubscriber(i.registered, i.endpoints[k]);
        if e.None? || e.value.tenant != i.tenant || e.value.app != app || e.value.disabled || i.eventType !in e.value.events {
          assert !Subscribes(i.registered, i.endpoints[k], i.tenant, app, i.eventType);
          return false;
        }
      }
      ok := true;
    }

    /** One delivery per endpoint, in order. */
    method AddDeliveries(endpoints: seq<string>, ids: seq<string>, d: Durable, evidence: string)
      modifies this`operations
      ensures operations == old(operations) + TargetedOps(endpoints, ids, d, evidence)
    {
      hide TargetedOps;
      ghost var was, all := operations, TargetedOps(endpoints, ids, d, evidence);
      for k := 0 to |endpoints|
        invariant operations == was + all[..k]
      {
        var delivery := DeliveryTo(IdAt(ids, k), endpoints[k], d, evidence);
        assert all[k] == delivery;
        OneMore(was, all, k);
        operations := operations + [delivery];
      }
      assert all[..|endpoints|] == all;
    }

    function DeliveryTo(id: string, endpoint: string, d: Durable, evidence: string): Op {
      Put(DELIVERIES, id, d, evidence).(doc := WorkDoc(Work(Some(d), evidence, Some(endpoint))))
    }

    /** The notification and its in-app delivery, both delivered by the commit itself. */
    method QueueNotification(tenant: string, recipient: string, context: nat, evidence: string, id: string, delivery: string, now: nat) returns (ok: bool)
      modifies this`operations, contexts`used
      ensures QueuedAs(Item.QueueNotification(tenant, recipient), context, evidence, [id, delivery], now, old(operations), old(contexts.used), ok)
    {
      hide NotificationData, NotificationDeliveryData, EvidenceFor;
      ghost var was := operations;
      var item := Item.QueueNotification(tenant, recipient);
      var authorized := Authorized(context, item, evidence, now);
      if authorized.None? || Attribute(authorized.value.target.attributes, "recipient") != Some(recipient) {
        return false;
      }
      operations := operations + [Op(NOTIFICATIONS, id, OtherDoc(NotificationData(tenant, recipient), 1), true)];
      operations := operations + [Op(NOTIFICATION_DELIVERIES, delivery, OtherDoc(NotificationDeliveryData(tenant, id, recipient), 1), true)];
      assert operations == was + Queued(item, authorized.value, evidence, [id, delivery]);
      ok := true;
    }
  }

  lemma OneMore(was: seq<Op>, all: seq<Op>, k: nat)
    requires k < |all|
    ensures was + all[..k] + [all[k]] == was + all[..k + 1]
  {}
}

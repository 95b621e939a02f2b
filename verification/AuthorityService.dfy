/**
 The gateway's program: authorize, record that the effect started, perform it, and
 record how it ended; or record the refusal. Between two steps every other call
 does whatever it likes. Each step is a step of the machine in module Authority.
*/
module AuthorityService {
  import opened Common
  import opened Authority
  import opened AuthorityTheorems
  import opened AuthorityOutcomes

  /** Other calls' steps and the passing of time leave a call where it is. */
  lemma OthersLeaveCall(manifest: map<string, string>, s: State, a: Action, me: nat)
    requires Enabled(s, a) && me in s.calls && s.calls[me].Executing? && a != Stop(me) && !(a.Go? && a.call == me)
    ensures var s' := Step(manifest, s, a); me in s'.calls && s'.calls[me] == s.calls[me]
  {
    hide Do, Authorize, Queued, Commit, CanQueue;
  }

  /** The call reached its end with this outcome somewhere in the history. */
  ghost predicate EndedWith(tr: seq<State>, call: nat, outcome: Outcome) {
    exists k :: 0 <= k < |tr| && call in tr[k].calls && tr[k].calls[call].Executing? && tr[k].calls[call].phase.Finishing?
                && tr[k].calls[call].phase.outcome == outcome
  }

  class Gateway {
    const manifest: map<string, string>
    const application: string
    var s: State
    ghost var tr: seq<State>
    ghost var acts: seq<Action>

    ghost predicate Valid()
      reads this
    {
      |tr| == |acts| + 1 && IsRun(manifest, tr, acts) && tr[0] == EMPTY && tr[|tr| - 1] == s
    }

    /** The history so far is a prefix of the history now. */
    ghost predicate Extends(was: seq<State>, did: seq<Action>)
      reads this
    {
      was <= tr && did <= acts
    }

    constructor (manifest: map<string, string>, application: string)
      ensures Valid() && this.manifest == manifest && this.application == application && s == EMPTY
    {
      this.manifest, this.application, s := manifest, application, EMPTY;
      tr, acts := [EMPTY], [];
    }

    /** One step of anybody. */
    method Act(a: Action)
      requires Valid() && Enabled(s, a)
      modifies this
      ensures Valid() && s == Step(manifest, old(s), a)
      ensures tr == old(tr) + [s] && acts == old(acts) + [a]
    {
      s := Step(manifest, s, a);
      tr, acts := tr + [s], acts + [a];
    }

    /** An await of call `me`: others act in any order; nobody else moves the call. */
    method Await(me: nat, world: seq<Action>)
      requires Valid() && me in s.calls && s.calls[me].Executing?
      modifies this
      ensures Valid() && Extends(old(tr), old(acts)) && me in s.calls && s.calls[me] == old(s.calls[me])
    {
      hide IsRun, Step, Enabled;
      for i := 0 to |world|
        invariant Valid() && Extends(old(tr), old(acts)) && me in s.calls && s.calls[me] == old(s.calls[me])
      {
        var a := world[i];
        if Enabled(s, a) && a != Stop(me) && !(a.Go? && a.call == me) {
          OthersLeaveCall(manifest, s, a, me);
          Act(a);
        }
      }
    }

    /** The next atomic step of the call: exactly this result. */
    method Take(me: nat, input: Input, r: StepResult)
      requires Valid() && me in s.calls && s.calls[me].Executing? && r == Do(manifest, s, s.calls[me], input)
      modifies this
      ensures Valid() && Extends(old(tr), old(acts)) && s.docs == r.docs && s == tr[|tr| - 1]
      ensures r.next.Some? ==> me in s.calls && s.calls[me] == r.next.value
      ensures r.next.None? ==> me !in s.calls
      ensures r.grant.Some? ==> r.grant.value in s.grants
    {
      Act(Go(me, input));
    }

    method Enter(me: nat, principal: Principal, effect: Effect)
      requires Valid() && me !in s.calls && Minted(principal)
      modifies this
      ensures Valid() && Extends(old(tr), old(acts)) && me in s.calls && s.calls[me] == Executing(application, principal, effect, Asking)
    {
      Act(Action.Execute(me, application, principal, effect));
    }

    /** The authorizer allowed this very request, and nothing the gateway checks itself stood against it. */
    predicate Entitled(principal: Principal, effect: Effect, input: Input) {
      && ValidDecision(RequestFor(application, principal, Capability(effect), TargetOf(effect, principal)), input.answer) && input.answer.allowed
      && input.credentialOk && (principal.app.Some? ==> principal.app == Some(application))
      && TargetOf(effect, principal).tenant == principal.tenant
    }

    /**
     `execute`: nothing happens unless this very request was allowed; then the
     effect runs between its evidence and its completion. True when it returned.
    */
    method Execute(me: nat, principal: Principal, effect: Effect, world: nat -> seq<Action>, input: nat -> Input) returns (ok: bool)
      requires Valid() && me !in s.calls && Minted(principal)
      modifies this
      ensures Valid() && Extends(old(tr), old(acts)) && me !in s.calls
      ensures ok ==> EndedWith(tr, me, Succeeded) && Entitled(principal, effect, input(0))
    {
      hide IsRun, Step, Do, Entitled, EndedWith;
      ok := false;
      Enter(me, principal, effect);
      Await(me, world(0));
      var allowed := Ask(me, principal, effect, input(0));
      if me !in s.calls {
        return;
      }
      Await(me, world(1));
      if allowed {
        ok := RunEffect(me, (n: nat) => world(n + 2), (n: nat) => input(n + 1));
      } else {
        RecordRefusal(me, input(1));
      }
    }

    /** `run`: evidence first, then the effect, then its completion. */
    method RunEffect(me: nat, world: nat -> seq<Action>, input: nat -> Input) returns (ok: bool)
      requires Valid() && me in s.calls && s.calls[me].Executing? && s.calls[me].phase.Allowed?
      modifies this
      ensures Valid() && Extends(old(tr), old(acts)) && me !in s.calls
      ensures ok ==> EndedWith(tr, me, Succeeded)
    {
      hide IsRun, Step, Do, EndedWith, Commit, EffectOps, EvidenceFor, Leaves;
      ok := Start(me, input(0));
      if !ok {
        return;
      }
      Await(me, world(0));
      Perform(me, input(1));
      Await(me, world(1));
      ok := Complete(me, input(2));
    }

    /** `authorize`, in its fixed order; a refusal waits to be recorded, an unfit request is not. */
    method Ask(me: nat, principal: Principal, effect: Effect, input: Input) returns (allowed: bool)
      requires Valid() && me in s.calls && s.calls[me] == Executing(application, principal, effect, Asking)
      modifies this
      ensures Valid() && Extends(old(tr), old(acts))
      ensures allowed ==> me in s.calls && s.calls[me].Executing? && s.calls[me].phase.Allowed?
      ensures allowed ==> Entitled(principal, effect, input)
      ensures !allowed && me in s.calls ==> s.calls[me].Executing? && s.calls[me].phase.Refused? && !s.calls[me].phase.row.decision.Allow?
    {
      hide IsRun, Step, DoRefused, DoStart, DoEffect, DoFinish, TargetOf;
      var c := s.calls[me];
      var capability, target := Capability(effect), TargetOf(effect, principal);
      allowed := false;
      if capability !in manifest || manifest[capability] != target.typ {
        Take(me, input, StepResult(s.docs, None, None));
        return;
      }
      var refused := RefusalRow(application, principal, capability, target, None);
      if target.tenant == "" || principal.tenant != target.tenant || (principal.app.Some? && principal.app != Some(application)) || !input.credentialOk {
        Take(me, input, StepResult(s.docs, Some(c.(phase := Refused(refused))), None));
        return;
      }
      var request := RequestFor(application, principal, capability, target);
      if !ValidDecision(request, input.answer) {
        Take(me, input, StepResult(s.docs, Some(c.(phase := Refused(refused))), None));
        return;
      }
      if !input.answer.allowed {
        refused := RefusalRow(application, principal, capability, target, Some(input.answer.id));
        Take(me, input, StepResult(s.docs, Some(c.(phase := Refused(refused))), None));
        return;
      }
      var context := Context(application, principal, capability, target, input.answer.id, s.clock + CONTEXT_TTL_MS);
      Take(me, input, StepResult(s.docs, Some(c.(phase := Allowed(context))), Some(Grant(request, input.answer))));
      allowed := true;
    }

    /** A refusal leaves a row that allows nothing; losing that row changes nothing else. */
    method RecordRefusal(me: nat, input: Input)
      requires Valid() && me in s.calls && s.calls[me].Executing? && s.calls[me].phase.Refused?
      modifies this
      ensures Valid() && Extends(old(tr), old(acts)) && me !in s.calls
      ensures s.docs == old(s.docs) || s.docs == old(s.docs)[(EVIDENCE, IdAt(input.ids, 0)) := EvidenceDoc(old(s.calls[me].phase.row))]
    {
      hide IsRun, Step, DoAsk, DoStart, DoEffect, DoFinish;
      var k := (EVIDENCE, IdAt(input.ids, 0));
      OneOp(s.docs, Op(EVIDENCE, k.1, EvidenceDoc(s.calls[me].phase.row), true));
      var docs := if k in s.docs then s.docs else s.docs[k := EvidenceDoc(s.calls[me].phase.row)];
      Take(me, input, StepResult(docs, None, None));
    }

    /** The context must still be live, and its evidence is there before the effect begins. */
    method Start(me: nat, input: Input) returns (started: bool)
      requires Valid() && me in s.calls && s.calls[me].Executing? && s.calls[me].phase.Allowed?
      modifies this
      ensures Valid() && Extends(old(tr), old(acts))
      ensures started ==> me in s.calls && s.calls[me].Executing? && s.calls[me].phase == Started(old(s.calls[me].phase.context), IdAt(input.ids, 0))
      ensures started ==> old(s.clock) < old(s.calls[me].phase.context.expiresAt)
                          && s.docs == old(s.docs)[(EVIDENCE, IdAt(input.ids, 0)) := EvidenceDoc(EvidenceFor(old(s.calls[me].phase.context), InProgress))]
      ensures !started ==> me !in s.calls && s.docs == old(s.docs)
    {
      hide IsRun, Step, DoAsk, DoRefused, DoEffect, DoFinish, EvidenceFor;
      var c := s.calls[me];
      var k, row := (EVIDENCE, IdAt(input.ids, 0)), EvidenceFor(c.phase.context, InProgress);
      OneOp(s.docs, Op(EVIDENCE, k.1, EvidenceDoc(row), true));
      started := s.clock < c.phase.context.expiresAt && k !in s.docs;
      if started {
        Take(me, input, StepResult(s.docs[k := EvidenceDoc(row)], Some(c.(phase := Started(c.phase.context, k.1))), None));
      } else {
        Take(me, input, StepResult(s.docs, None, None));
      }
    }

    /** The effect writes in one transaction, or throws. */
    method Perform(me: nat, input: Input)
      requires Valid() && me in s.calls && s.calls[me].Executing? && s.calls[me].phase.Started?
      modifies this
      ensures Valid() && Extends(old(tr), old(acts))
      ensures me in s.calls && s.calls[me].Executing? && s.calls[me].phase.Finishing? && s.calls[me].phase.evidence == old(s.calls[me].phase.evidence)
      // What it stands for is there if it returned, and that or nothing in any case.
      ensures var left := Leaves(old(s.calls[me].effect), old(s.calls[me].phase.context), old(s.calls[me].phase.evidence), input.ids, input.wins, old(s.docs), s.docs);
              (s.calls[me].phase.outcome.Succeeded? ==> left) && (left || s.docs == old(s.docs))
      ensures var written := Commit(old(s.docs), EffectOps(old(s.calls[me].effect), old(s.calls[me].phase.context), old(s.calls[me].phase.evidence), input.ids, input.wins));
              // A failing effect wrote everything or nothing; one that returned wrote everything.
              && (written == Some(s.docs) || (s.docs == old(s.docs) && s.calls[me].phase.outcome.Failed?))
              && (s.calls[me].phase.outcome.Succeeded? ==> written == Some(s.docs))
              && (s.calls[me].phase.outcome.Succeeded? <==> !input.fails && written.Some? && input.outcome.Succeeded?)
    {
      hide IsRun, Step, DoAsk, DoRefused, DoStart, DoFinish, Commit, EffectOps, Leaves;
      var c := s.calls[me];
      OpsLeave(c.effect, c.phase.context, c.phase.evidence, input.ids, input.wins, s.docs);
      var written := Commit(s.docs, EffectOps(c.effect, c.phase.context, c.phase.evidence, input.ids, input.wins));
      if input.fails || written.None? {
        Take(me, input, StepResult(s.docs, Some(c.(phase := Finishing(c.phase.evidence, Failed))), None));
      } else {
        var outcome := if input.outcome.InProgress? then Failed else input.outcome;
        Take(me, input, StepResult(written.value, Some(c.(phase := Finishing(c.phase.evidence, outcome))), None));
      }
    }

    /** Complete the evidence with the outcome; nothing else moves. */
    method Complete(me: nat, input: Input) returns (ok: bool)
      requires Valid() && me in s.calls && s.calls[me].Executing? && s.calls[me].phase.Finishing?
      modifies this
      ensures Valid() && Extends(old(tr), old(acts)) && me !in s.calls
      ensures ok == old(s.calls[me].phase.outcome.Succeeded?) && (ok ==> EndedWith(tr, me, Succeeded))
      ensures var k := (EVIDENCE, old(s.calls[me].phase.evidence));
              if k in old(s.docs) && old(s.docs)[k].EvidenceDoc?
              then s.docs == old(s.docs)[k := EvidenceDoc(old(s.docs)[k].row.(outcome := old(s.calls[me].phase.outcome)))]
              else s.docs == old(s.docs)
    {
      hide IsRun, Step, DoAsk, DoRefused, DoStart, DoEffect;
      var c := s.calls[me];
      var k := (EVIDENCE, c.phase.evidence);
      ghost var last := |tr| - 1;
      assert me in tr[last].calls && tr[last].calls[me].phase.Finishing?;
      ok := c.phase.outcome.Succeeded?;
      if k in s.docs && s.docs[k].EvidenceDoc? {
        Take(me, input, StepResult(s.docs[k := EvidenceDoc(s.docs[k].row.(outcome := c.phase.outcome))], None, None));
      } else {
        Take(me, input, StepResult(s.docs, None, None));
      }
    }
  }

  lemma OneOp(docs: Docs, op: Op)
    requires !op.doc.OtherDoc? && !op.requirePresent && op.expectedVersion.None?
    ensures Commit(docs, [op]) == if op.requireAbsent && KeyOf(op) in docs then None else Some(docs[KeyOf(op) := op.doc])
  {
    assert [op][1..] == [];
  }
}

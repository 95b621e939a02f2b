/**
 The webhook service's programs, between awaits at which every other call does
 whatever it likes. Each of their steps is a step of the state machine in module
 Webhooks. Inbound events are accepted through one insert that must find nothing.
*/
module WebhookService {
  import opened Common
  import opened FeltDb
  import opened Webhooks
  import opened WebhookTheorems
  import opened WebhookOutcomes

  /** Other calls' steps and the passing of time leave a call where it is. */
  lemma OthersLeaveCall(maxAttempts: nat, s: State, a: Action, me: nat)
    requires Inv(s) && Enabled(s, a) && me in s.calls && a != Crash(me) && !(a.Go? && a.call == me)
    ensures var s' := Step(maxAttempts, s, a); me in s'.calls && s'.calls[me] == s.calls[me]
  {
    hide Do, CallOk, HoldersDistinct;
  }

  /** How a delivery call came to its answer. */
  datatype Ending = NotThere | TurnedAway | Unchecked | Rejected | ClaimLost | Attempted(outcome: Outcome)

  /** The answers the service gives as a success, whether or not anything was posted. */
  predicate ReportsSuccess(how: Ending) {
    how.TurnedAway? || how.ClaimLost? || how == Attempted(Success)
  }

  /** The call's last step, and what it left in the store. */
  ghost predicate EndsAs(maxAttempts: nat, s: State, a: Action, s': State, me: nat, how: Ending) {
    && a.Go? && a.call == me && me in s.calls
    && var task, p := s.calls[me].task, s.calls[me].phase;
       match how
       case NotThere => p.Entered? && (task.id !in s.deliveries || s.deliveries[task.id].value.tenant != task.tenant) && s'.deliveries == s.deliveries
       case TurnedAway =>
         && p.Entered? && task.id in s.deliveries && s.deliveries[task.id].value.tenant == task.tenant && s'.deliveries == s.deliveries
         && (s.deliveries[task.id].value.status.Delivered? || s.deliveries[task.id].value.status.Delivering?)
       case Unchecked => p.Checking? && IsForeign(a.input.facts) && s'.deliveries == s.deliveries
       case Rejected => p.Rejecting? && s'.deliveries == Cas(s.deliveries, task.id, p.row.version, p.row.value.(status := Failed))
       case ClaimLost => p.ToClaim? && !StillAsRead(s, task.id, p.row) && s'.deliveries == s.deliveries
       case Attempted(outcome) =>
         && p.Settling? && p.outcome == outcome
         && if StillAsRead(s, task.id, p.row) then Rewrites(s, s', task.id, p.row) && SettlesAs(maxAttempts, p.row.value, outcome, s.clock, s'.deliveries[task.id].value)
            else s'.deliveries == s.deliveries
  }

  /** How a delivery call ends, from what its check found, whether its attempt got to the network, and what it was answered. */
  predicate AnswersAs(facts: Facts, attempt: Input, answer: Input, how: Ending) {
    match how
    case Unchecked => IsForeign(facts)
    case Rejected => !IsForeign(facts) && !MayBeDelivered(facts)
    case ClaimLost => MayBeDelivered(facts)
    case Attempted(outcome) =>
      && MayBeDelivered(facts) && (outcome.Success? <==> attempt.posts && answer.outcome.Success?)
      && (attempt.posts ==> (outcome.Success? || outcome.Provider?) && (answer.outcome.Provider? ==> outcome == answer.outcome))
      && (!attempt.posts && !attempt.outcome.Success? ==> outcome == attempt.outcome)
    case _ => true
  }

  ghost predicate EndedIn(maxAttempts: nat, tr: seq<State>, acts: seq<Action>, me: nat, how: Ending)
    requires |tr| == |acts| + 1
  {
    exists k :: 0 <= k < |acts| && EndsAs(maxAttempts, tr[k], acts[k], tr[k + 1], me, how)
  }

  /** The replay ends without one: the delivery is not the caller's, may not be replayed, or moved on since it was read. */
  predicate StopsAt(s: State, a: Action, me: nat) {
    && a.Go? && a.call == me && me in s.calls
    && var task, p := s.calls[me].task, s.calls[me].phase;
       || (p.Entered? && (task.id !in s.deliveries || s.deliveries[task.id].value.tenant != task.tenant))
       || (p.Checking? && !MayBeReplayed(a.input.facts))
       || (p.ToReset? && !StillAsRead(s, task.id, p.row))
  }

  ghost predicate StoppedIn(tr: seq<State>, acts: seq<Action>, me: nat)
    requires |tr| == |acts| + 1
  {
    exists k :: 0 <= k < |acts| && StopsAt(tr[k], acts[k], me)
  }

  lemma StoppedHere(tr: seq<State>, acts: seq<Action>, k: nat, me: nat)
    requires |tr| == |acts| + 1 && k < |acts| && StopsAt(tr[k], acts[k], me)
    ensures StoppedIn(tr, acts, me)
  {}

  lemma EndedHere(maxAttempts: nat, tr: seq<State>, acts: seq<Action>, k: nat, me: nat, how: Ending)
    requires |tr| == |acts| + 1 && k < |acts| && EndsAs(maxAttempts, tr[k], acts[k], tr[k + 1], me, how)
    ensures EndedIn(maxAttempts, tr, acts, me, how)
  {}

  class Service {
    const maxAttempts: nat
    var s: State
    ghost var tr: seq<State>
    ghost var acts: seq<Action>

    ghost predicate Valid()
      reads this
    {
      |tr| == |acts| + 1 && IsRun(maxAttempts, tr, acts) && tr[0] == EMPTY && tr[|tr| - 1] == s
    }

    /** The history so far is a prefix of the history now. */
    ghost predicate Extends(was: seq<State>, did: seq<Action>)
      reads this
    {
      was <= tr && did <= acts
    }

    constructor (maxAttempts: nat)
      ensures Valid() && this.maxAttempts == maxAttempts && s == EMPTY
    {
      this.maxAttempts, s := maxAttempts, EMPTY;
      tr, acts := [EMPTY], [];
    }

    lemma Kept()
      requires Valid()
      ensures Inv(s) && BooksOk(s)
    {
      hide Inv, BooksOk, IsRun;
      EmptyIsFine(maxAttempts);
      RunKeepsInv(maxAttempts, tr, acts, |tr| - 1);
      RunKeepsBooks(maxAttempts, tr, acts, |tr| - 1);
    }

    /** The call has posted its delivery. */
    predicate Posted(me: nat)
      reads this
    {
      me in s.calls && InBook(s, s.calls[me].task.id, me)
    }

    /** One step of anybody. */
    method Act(a: Action)
      requires Valid() && Enabled(s, a)
      modifies this
      ensures Valid() && s == Step(maxAttempts, old(s), a)
      ensures tr == old(tr) + [s] && acts == old(acts) + [a]
    {
      s := Step(maxAttempts, s, a);
      tr, acts := tr + [s], acts + [a];
    }

    /** An await of call `me`: others act in any order; nobody else moves the call. */
    method Await(me: nat, world: seq<Action>)
      requires Valid() && me in s.calls
      modifies this
      ensures Valid() && Extends(old(tr), old(acts)) && me in s.calls && s.calls[me] == old(s.calls[me])
      ensures Posted(me) == old(Posted(me))
    {
      hide IsRun, Step, Enabled, Inv, BooksOk, PostsNow, InBook;
      for i := 0 to |world|
        invariant Valid() && Extends(old(tr), old(acts)) && me in s.calls && s.calls[me] == old(s.calls[me])
        invariant Posted(me) == old(Posted(me))
      {
        var a := world[i];
        if Enabled(s, a) && a != Crash(me) && !(a.Go? && a.call == me) {
          Kept();
          OthersLeaveCall(maxAttempts, s, a, me);
          StepOnBooks(maxAttempts, s, a, s.calls[me].task.id, me);
          Act(a);
        }
      }
    }

    method Begin(task: Task) returns (me: nat)
      requires Valid()
      modifies this
      ensures Valid() && me in s.calls && s.calls[me] == Call(task, Entered, 0) && !Posted(me)
      ensures me == old(s.nextCall) && tr == old(tr) + [s] && acts == old(acts) + [Enter(task)]
    {
      Kept();
      StepOnBooks(maxAttempts, s, Enter(task), task.id, s.nextCall);
      NotPostedYet(s, task.id, s.nextCall);
      me := s.nextCall;
      Act(Enter(task));
    }

    /** The call goes on or returns without writing. */
    method GoOn(me: nat, input: Input, next: Option<Phase>, note: Note)
      requires Valid() && me in s.calls && EffectOf(maxAttempts, s, me, input) == Effect(None, next, note) && !note.NoteClaim? && !note.NoteReplay?
      modifies this
      ensures Valid() && s.deliveries == old(s.deliveries) && tr == old(tr) + [s] && acts == old(acts) + [Go(me, input)]
      ensures next.Some? ==> me in s.calls && s.calls[me] == old(s.calls[me]).(phase := next.value)
      ensures InBook(s, old(s.calls[me].task.id), me) == (old(Posted(me)) || note.NotePost?)
      ensures next.None? ==> me !in s.calls
    {
      Kept();
      StepOnBooks(maxAttempts, s, Go(me, input), s.calls[me].task.id, me);
      Act(Go(me, input));
    }

    /** `updateIfVersion` on the call's delivery, and where the call goes on if it wins. */
    method UpdateIfVersion(me: nat, input: Input, row: Row<Delivery>, value: Delivery, next: Option<Phase>, note: Note) returns (won: bool)
      requires Valid() && me in s.calls
      requires EffectOf(maxAttempts, s, me, input) == DoWrite(s.deliveries, s.calls[me].task.id, row, value, next, note) && !note.NotePost?
      modifies this
      ensures InBook(s, old(s.calls[me].task.id), me) == old(Posted(me))
      ensures Valid() && tr == old(tr) + [s] && acts == old(acts) + [Go(me, input)]
      ensures won == CasWins(old(s.deliveries), old(s.calls[me].task.id), row.version)
      ensures s.deliveries == Cas(old(s.deliveries), old(s.calls[me].task.id), row.version, value)
      ensures won && next.Some? ==> me in s.calls && s.calls[me].task == old(s.calls[me].task) && s.calls[me].phase == next.value
      ensures !won || next.None? ==> me !in s.calls
    {
      var id := s.calls[me].task.id;
      won := id in s.deliveries && s.deliveries[id].version == row.version;
      Kept();
      StepOnBooks(maxAttempts, s, Go(me, input), id, me);
      Act(Go(me, input));
    }

    /**
     Deliver one queued webhook. The answer is a success exactly when this call posted
     it with success, or was turned away because the delivery says delivered or
     delivering, or lost the claim; in the last two cases it posted nothing.
    */
    method DeliverWebhook(tenant: string, id: string, world: nat -> seq<Action>, input: nat -> Input)
      returns (result: Outcome, ghost me: nat, ghost how: Ending)
      requires Valid()
      modifies this
      ensures Valid() && Extends(old(tr), old(acts)) && me == old(s.nextCall) && me !in s.calls
      ensures result.Success? <==> ReportsSuccess(how)
      ensures EndedIn(maxAttempts, tr, acts, me, how)
      ensures AnswersAs(input(1).facts, input(3), input(4), how) && (how.Attempted? ==> result == how.outcome)
      ensures InBook(s, id, me) <==> how.Attempted? && input(3).posts
    {
      hide IsRun, Step, Do, InBook, EndedIn, IsForeign, MayBeDelivered;
      var call := Begin(Deliver(tenant, id));
      me := call;
      var goes: bool;
      goes, result, how := Check(call, world, input);
      if goes {
        result, how := ClaimAndPost(call, world, input);
      }
    }

    /** The first half: read the delivery, then ask for its endpoint and its principal. */
    method Check(me: nat, world: nat -> seq<Action>, input: nat -> Input) returns (goes: bool, result: Outcome, ghost how: Ending)
      requires Valid() && me in s.calls && s.calls[me].phase.Entered? && s.calls[me].task.Deliver? && !Posted(me)
      modifies this
      ensures Valid() && Extends(old(tr), old(acts))
      ensures goes ==> me in s.calls && s.calls[me].phase.ToClaim? && s.calls[me].task == old(s.calls[me].task)
      ensures goes ==> MayBeDelivered(input(1).facts)
      ensures !goes ==> me !in s.calls && (result.Success? <==> how.TurnedAway?) && !how.Attempted? && !how.ClaimLost? && EndedIn(maxAttempts, tr, acts, me, how)
      ensures !goes ==> AnswersAs(input(1).facts, input(3), input(4), how)
      ensures !InBook(s, old(s.calls[me].task.id), me)
    {
      hide IsRun, Step, DoWrite, DoCheck, DoClaim, DoPost, DoAnswer, Settled, SettlesAs, IsForeign, MayBeDelivered;
      var tenant, id := s.calls[me].task.tenant, s.calls[me].task.id;
      goes, result, how := false, Unfit, NotThere;
      Await(me, world(0));
      ghost var k := |acts|;
      if id !in s.deliveries {
        GoOn(me, input(0), None, Nothing);
        assert EndsAs(maxAttempts, tr[k], acts[k], tr[k + 1], me, how);
        return;
      }
      if s.deliveries[id].value.tenant != tenant {
        result := Denied;
        GoOn(me, input(0), None, Nothing);
        assert EndsAs(maxAttempts, tr[k], acts[k], tr[k + 1], me, how);
        return;
      }
      if s.deliveries[id].value.status.Delivered? || s.deliveries[id].value.status.Delivering? {
        result, how := Success, TurnedAway;
        GoOn(me, input(0), None, Nothing);
        assert EndsAs(maxAttempts, tr[k], acts[k], tr[k + 1], me, how);
        return;
      }
      var row := s.deliveries[id];
      GoOn(me, input(0), Some(Checking(row)), Nothing);
      Await(me, world(1));
      goes, result, how := CheckEndpoint(me, row, world, input(1), input(2));
    }

    /** The checks in their order; what is not this application's is only answered, what is ours and unfit fails for good. */
    method CheckEndpoint(me: nat, row: Row<Delivery>, world: nat -> seq<Action>, input: Input, after: Input) returns (goes: bool, result: Outcome, ghost how: Ending)
      requires Valid() && me in s.calls && s.calls[me].phase == Checking(row) && s.calls[me].task.Deliver? && !Posted(me)
      modifies this
      ensures Valid() && Extends(old(tr), old(acts))
      ensures goes <==> MayBeDelivered(input.facts)
      ensures goes ==> me in s.calls && s.calls[me].phase.ToClaim? && s.calls[me].task == old(s.calls[me].task)
      ensures !goes ==> me !in s.calls && !result.Success? && how == (if IsForeign(input.facts) then Unchecked else Rejected) && EndedIn(maxAttempts, tr, acts, me, how)
      ensures !InBook(s, old(s.calls[me].task.id), me)
    {
      hide IsRun, Step, DoRead, DoClaim, DoPost, DoAnswer, Settled, SettlesAs, EndedIn;
      var f := input.facts;
      goes := false;
      if !f.endpoint || !f.ofTenant {
        result, how := Unfit, Unchecked;
        Leave(me, input);
      } else if !f.ofApplication {
        result, how := Denied, Unchecked;
        Leave(me, input);
      } else if f.disabled {
        result, how := Unfit, Rejected;
        Reject(me, row, world(2), input, after);
      } else if !f.principal {
        result, how := Denied, Rejected;
        Reject(me, row, world(2), input, after);
      } else if !f.signingRef {
        result, how := Unfit, Rejected;
        Reject(me, row, world(2), input, after);
      } else if f.refusal.Some? {
        result, how := Failing(f.refusal.value), Rejected;
        Reject(me, row, world(2), input, after);
      } else {
        goes, result, how := true, Success, NotThere;
        GoOn(me, input, Some(ToClaim(row)), Nothing);
        Await(me, world(2));
      }
    }

    /** Answered, and nothing is written. */
    method Leave(me: nat, input: Input)
      requires Valid() && me in s.calls && s.calls[me].phase.Checking? && s.calls[me].task.Deliver? && IsForeign(input.facts) && !Posted(me)
      modifies this
      ensures Valid() && Extends(old(tr), old(acts)) && me !in s.calls && EndedIn(maxAttempts, tr, acts, me, Unchecked)
      ensures !InBook(s, old(s.calls[me].task.id), me)
    {
      hide IsRun, Step, DoWrite, Settled, SettlesAs;
      ghost var k := |acts|;
      GoOn(me, input, None, Nothing);
      assert EndsAs(maxAttempts, tr[k], acts[k], tr[k + 1], me, Unchecked);
    }

    /** The delivery fails for good, unless somebody else wrote it since. */
    method Reject(me: nat, row: Row<Delivery>, world: seq<Action>, input: Input, after: Input)
      requires Valid() && me in s.calls && s.calls[me].phase == Checking(row) && s.calls[me].task.Deliver? && !Posted(me)
      requires !IsForeign(input.facts) && !MayBeDelivered(input.facts)
      modifies this
      ensures Valid() && Extends(old(tr), old(acts)) && me !in s.calls && EndedIn(maxAttempts, tr, acts, me, Rejected)
      ensures !InBook(s, old(s.calls[me].task.id), me)
    {
      hide IsRun, Step, DoRead, DoClaim, DoPost, DoAnswer, Settled, SettlesAs;
      GoOn(me, input, Some(Rejecting(row)), Nothing);
      Await(me, world);
      ghost var k := |acts|;
      var _ := UpdateIfVersion(me, after, row, row.value.(status := Failed), None, Nothing);
      assert EndsAs(maxAttempts, tr[k], acts[k], tr[k + 1], me, Rejected);
    }

    /** The second half: claim, post under an authorization, and record what came of it. */
    method ClaimAndPost(me: nat, world: nat -> seq<Action>, input: nat -> Input) returns (result: Outcome, ghost how: Ending)
      requires Valid() && me in s.calls && s.calls[me].phase.ToClaim? && !Posted(me)
      modifies this
      ensures Valid() && Extends(old(tr), old(acts)) && me !in s.calls
      requires MayBeDelivered(input(1).facts)
      ensures (how == ClaimLost && result.Success?) || how == Attempted(result)
      ensures EndedIn(maxAttempts, tr, acts, me, how)
      ensures AnswersAs(input(1).facts, input(3), input(4), how)
      ensures InBook(s, old(s.calls[me].task.id), me) <==> how.Attempted? && input(3).posts
    {
      hide IsRun, Step, DoCheck, DoRead, DoPost, DoAnswer, Settled, EndedIn, SettlesAs, InBook, MayBeDelivered;
      var row := s.calls[me].phase.row;
      var value := row.value.(status := Delivering);
      var claimed := Row(value, row.version + 1);
      ghost var k := |acts|;
      var won := UpdateIfVersion(me, input(2), row, value, Some(Claimed(claimed)), NoteClaim);
      if !won {
        result, how := Success, ClaimLost;
        assert EndedIn(maxAttempts, tr, acts, me, how) by { EndedHere(maxAttempts, tr, acts, k, me, how); }
        return;
      }
      Await(me, world(3));
      result := Post(me, claimed, world, input);
      Await(me, world(5));
      how := Attempted(result);
      RecordAttempt(me, input(5));
    }

    /** The attempt reaches the network and is answered, or it ends before. */
    method Post(me: nat, claimed: Row<Delivery>, world: nat -> seq<Action>, input: nat -> Input) returns (outcome: Outcome)
      requires Valid() && me in s.calls && s.calls[me].phase == Claimed(claimed) && !Posted(me)
      modifies this
      ensures Valid() && Extends(old(tr), old(acts)) && me in s.calls && s.calls[me].phase == Settling(claimed, outcome)
      ensures s.calls[me].task == old(s.calls[me].task)
      ensures MayBeDelivered(input(1).facts) ==> AnswersAs(input(1).facts, input(3), input(4), Attempted(outcome))
      ensures Posted(me) <==> input(3).posts
    {
      hide IsRun, Step, DoWrite, DoCheck, DoRead, Settled, MayBeDelivered;
      outcome := Failing(input(3).outcome);
      if !input(3).posts {
        GoOn(me, input(3), Some(Settling(claimed, outcome)), Nothing);
        return;
      }
      GoOn(me, input(3), Some(Phase.Posted(claimed)), NotePost);
      Await(me, world(4));
      outcome := if input(4).outcome.Success? || input(4).outcome.Provider? then input(4).outcome else Provider(None);
      GoOn(me, input(4), Some(Settling(claimed, outcome)), Nothing);
    }

    /** `recordAttempt`: one write against the claimed version, by outcome. */
    method RecordAttempt(me: nat, input: Input)
      requires Valid() && me in s.calls && s.calls[me].phase.Settling?
      modifies this
      ensures InBook(s, old(s.calls[me].task.id), me) == old(Posted(me))
      ensures Valid() && me !in s.calls
      ensures tr == old(tr) + [s] && acts == old(acts) + [Go(me, input)]
      ensures EndsAs(maxAttempts, old(s), Go(me, input), s, me, Attempted(old(s.calls[me].phase.outcome)))
      ensures EndedIn(maxAttempts, tr, acts, me, Attempted(old(s.calls[me].phase.outcome)))
    {
      hide IsRun, Step, DoWrite, DoCheck, DoRead, DoClaim, SettlesAs, InBook;
      Kept();
      assert CallOk(s.deliveries, Epoch(s, s.calls[me].task.id), s.calls[me]);
      var claimed, outcome := s.calls[me].phase.row, s.calls[me].phase.outcome;
      SettledSettles(maxAttempts, claimed.value, outcome, s.clock);
      var d := claimed.value;
      match outcome {
        case Success =>
          d := d.(status := Delivered, attemptCount := d.attemptCount + 1);
        case Unavailable =>
          d := d.(status := Retrying, nextAttemptAt := Some(s.clock + INITIAL_RETRY_DELAY_MS));
        case Provider(code) =>
          if IsTerminal(code) || d.attemptCount + 1 >= maxAttempts {
            d := d.(status := Failed, attemptCount := d.attemptCount + 1);
          } else {
            var delay := INITIAL_RETRY_DELAY_MS * Pow2(d.attemptCount);
            d := d.(status := Retrying, nextAttemptAt := Some(s.clock + delay), attemptCount := d.attemptCount + 1);
          }
        case _ =>
          d := d.(status := Failed);
      }
      ghost var k := |acts|;
      var _ := UpdateIfVersion(me, input, claimed, d, None, Nothing);
      assert EndsAs(maxAttempts, tr[k], acts[k], tr[k + 1], me, Attempted(outcome));
    }

    /**
     Replay a delivery: if it may be replayed and nobody wrote it since it was read, it
     starts over, and a call that still holds it is fenced out; otherwise it is left alone.
    */
    method ReplayWebhookDelivery(tenant: string, id: string, world: nat -> seq<Action>, input: nat -> Input) returns (replayed: bool, ghost was: Row<Delivery>)
      requires Valid()
      modifies this
      ensures Valid() && Extends(old(tr), old(acts))
      ensures !replayed ==> StoppedIn(tr, acts, old(s.nextCall))
      ensures replayed ==> MayBeReplayed(input(1).facts) && was.value.tenant == tenant && id in s.deliveries
                           && s.deliveries[id].version == was.version + 1 && StartsOver(was.value, s.deliveries[id].value)
    {
      hide IsRun, Step, Do, InBook, Inv, StoppedIn, StopsAt;
      was := Row(Delivery(tenant, Pending, 0, None), 0);
      var me := Begin(Replay(tenant, id));
      replayed := CheckReplay(me, world, input);
      if replayed {
        was := s.calls[me].phase.row;
        Await(me, world(2));
        replayed := Reset(me, s.calls[me].phase.row, input(2));
      }
    }

    /** Read the delivery to be replayed and ask for its endpoint. */
    method CheckReplay(me: nat, world: nat -> seq<Action>, input: nat -> Input) returns (goes: bool)
      requires Valid() && me in s.calls && s.calls[me].phase.Entered? && s.calls[me].task.Replay?
      modifies this
      ensures Valid() && Extends(old(tr), old(acts))
      ensures goes ==> MayBeReplayed(input(1).facts) && me in s.calls && s.calls[me].task == old(s.calls[me].task)
                       && s.calls[me].phase.ToReset? && s.calls[me].phase.row.value.tenant == old(s.calls[me].task.tenant)
      ensures !goes ==> me !in s.calls && StoppedIn(tr, acts, me)
    {
      hide IsRun, Step, DoClaim, DoPost, DoAnswer, Settled, InBook, Inv, StoppedIn;
      goes := false;
      var tenant, id := s.calls[me].task.tenant, s.calls[me].task.id;
      Await(me, world(0));
      if id !in s.deliveries || s.deliveries[id].value.tenant != tenant {
        Stop(me, input(0));
        return;
      }
      var row := s.deliveries[id];
      GoOn(me, input(0), Some(Checking(row)), Nothing);
      Await(me, world(1));
      var f := input(1).facts;
      goes := f.endpoint && !f.disabled && f.ofApplication && f.refusal.None?;
      if goes {
        GoOn(me, input(1), Some(ToReset(row)), Nothing);
      } else {
        Stop(me, input(1));
      }
    }

    /** The delivery starts over, unless its version moved on. */
    method Reset(me: nat, row: Row<Delivery>, input: Input) returns (won: bool)
      requires Valid() && me in s.calls && s.calls[me].phase == ToReset(row)
      modifies this
      ensures Valid() && Extends(old(tr), old(acts)) && s.deliveries == Cas(old(s.deliveries), old(s.calls[me].task.id), row.version, ResetDelivery(row.value))
      ensures won == CasWins(old(s.deliveries), old(s.calls[me].task.id), row.version)
      ensures !won ==> StoppedIn(tr, acts, me)
    {
      hide IsRun, Step, InBook, Inv, StoppedIn;
      ghost var k := |acts|;
      won := UpdateIfVersion(me, input, row, row.value.(status := Pending, attemptCount := 0, nextAttemptAt := None), None, NoteReplay);
      if !won {
        StoppedHere(tr, acts, k, me);
      }
    }

    /** The replay ends without one. */
    method Stop(me: nat, input: Input)
      requires Valid() && me in s.calls && StopsAt(s, Go(me, input), me) && EffectOf(maxAttempts, s, me, input) == RETURNED
      modifies this
      ensures Valid() && Extends(old(tr), old(acts)) && me !in s.calls && StoppedIn(tr, acts, me)
    {
      hide IsRun, Step, Do, InBook, Inv, StopsAt, StoppedIn;
      ghost var k := |acts|;
      GoOn(me, input, None, Nothing);
      StoppedHere(tr, acts, k, me);
    }
  }
}

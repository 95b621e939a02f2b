/**
 Inbound webhooks: a fresh request of an enabled integration is allowed and its
 signature verified, its event is accepted once per integration, and then handed
 to the application.
*/
module InboundWebhooks {
  import opened Common
  import opened FeltDb
  import opened Ordering

  /** One event of one integration; stored under a hash of the pair. */
  datatype Key = Key(integration: string, event: string)

  /** `complete`: the event id, timestamp, signature and body are there. `sentAt`: the timestamp, if it is one. */
  datatype Request = Request(key: Key, complete: bool, sentAt: Option<int>)

  datatype Phase = Verifying | Accepting | Handling

  datatype Call = Call(key: Key, phase: Phase)

  /** `handled` is auxiliary: the events handed to a handler, in order. */
  datatype State = State(clock: int, accepted: set<Key>, calls: map<nat, Call>, handled: seq<Key>)

  const EMPTY := State(0, {}, map[], [])

  /** What the authorizer, the signature, the body and the application answer. */
  datatype Input = Input(allowed: bool, signed: bool, parses: bool, handler: bool, succeeds: bool)

  datatype Action = Tick | Receive(call: nat, request: Request, enabled: bool) | Go(call: nat, input: Input) | Crash(call: nat)

  predicate Enabled(s: State, a: Action) {
    match a
    case Tick => true
    case Receive(call, _, _) => call !in s.calls
    case Go(call, _) => call in s.calls
    case Crash(call) => call in s.calls
  }

  function Distance(a: int, b: int): nat {
    if a < b then b - a else a - b
  }

  /** The integration is there and enabled, the request complete, and its timestamp within the tolerance. */
  predicate MayEnter(tolerance: nat, now: int, request: Request, enabled: bool) {
    enabled && request.complete && request.sentAt.Some? && Distance(now, request.sentAt.value) <= tolerance
  }

  function Step(tolerance: nat, s: State, a: Action): State
    requires Enabled(s, a)
  {
    match a
    case Tick => s.(clock := s.clock + 1)
    case Receive(call, request, enabled) =>
      if MayEnter(tolerance, s.clock, request, enabled) then s.(calls := s.calls[call := Call(request.key, Verifying)]) else s
    case Crash(call) => s.(calls := s.calls - {call})
    case Go(call, input) =>
      var c := s.calls[call];
      match c.phase
      case Verifying =>
        if input.allowed && input.signed then s.(calls := s.calls[call := c.(phase := Accepting)]) else s.(calls := s.calls - {call})
      case Accepting =>
        // The insert requires that the event is absent.
        if c.key in s.accepted then s.(calls := s.calls - {call})
        else s.(accepted := s.accepted + {c.key}, calls := s.calls[call := c.(phase := Handling)])
      case Handling =>
        s.(calls := s.calls - {call}, handled := if input.parses && input.handler then s.handled + [c.key] else s.handled)
  }

  ghost predicate IsRun(tolerance: nat, tr: seq<State>, acts: seq<Action>) {
    && |tr| == |acts| + 1
    && forall i :: 0 <= i < |acts| ==> Enabled(tr[i], acts[i]) && tr[i + 1] == Step(tolerance, tr[i], acts[i])
  }

  // ---------------------------------------------------------------------------
  // At most once
  // ---------------------------------------------------------------------------

  /** An event in a handler's hands was accepted, is nobody else's, and was not handled before. */
  ghost predicate Inv(s: State) {
    && Distinct(s.handled)
    && (forall k :: k in s.handled ==> k in s.accepted)
    && (forall n :: n in s.calls && s.calls[n].phase.Handling? ==> s.calls[n].key in s.accepted && s.calls[n].key !in s.handled)
    && (forall m, n :: m in s.calls && n in s.calls && m != n && s.calls[m].phase.Handling? && s.calls[n].phase.Handling? ==>
          s.calls[m].key != s.calls[n].key)
  }

  lemma {:induction false} RunKeepsInv(tolerance: nat, tr: seq<State>, acts: seq<Action>, i: nat)
    requires IsRun(tolerance, tr, acts) && Inv(tr[0]) && i < |tr|
    ensures Inv(tr[i])
  {
    if i > 0 {
      RunKeepsInv(tolerance, tr, acts, i - 1);
      StepKeepsInv(tolerance, tr[i - 1], acts[i - 1]);
    }
  }

  lemma StepKeepsInv(tolerance: nat, s: State, a: Action)
    requires Inv(s) && Enabled(s, a)
    ensures Inv(Step(tolerance, s, a))
  {}

  /** Over every interleaving a handler is given each event of an integration at most once. */
  lemma HandledAtMostOnce(tolerance: nat, tr: seq<State>, acts: seq<Action>, i: nat, key: Key)
    requires IsRun(tolerance, tr, acts) && Inv(tr[0]) && i < |tr|
    ensures multiset(tr[i].handled)[key] <= 1
  {
    RunKeepsInv(tolerance, tr, acts, i);
    DistinctCounts(tr[i].handled, key);
  }

  // ---------------------------------------------------------------------------
  // Only verified events
  // ---------------------------------------------------------------------------

  predicate IsAt(s: State, n: nat, key: Key, phase: Phase) {
    n in s.calls && s.calls[n] == Call(key, phase)
  }

  /** At instant `r` the call entered with a complete request for this event whose timestamp was within the tolerance. */
  ghost predicate EnteredAt(tolerance: nat, tr: seq<State>, acts: seq<Action>, r: nat, n: nat, key: Key) {
    && r < |acts| < |tr| && acts[r].Receive? && acts[r].call == n && acts[r].enabled
    && var request := acts[r].request;
       request.key == key && request.complete && request.sentAt.Some?
       && tr[r].clock - request.sentAt.value <= tolerance && request.sentAt.value - tr[r].clock <= tolerance
  }

  /** At instant `k` the call was verified: it was allowed and its signature was valid. */
  ghost predicate VerifiedAt(tr: seq<State>, acts: seq<Action>, k: nat, n: nat, key: Key) {
    k < |acts| < |tr| && IsAt(tr[k], n, key, Verifying) && acts[k].Go? && acts[k].call == n && acts[k].input.allowed && acts[k].input.signed
  }

  /** At instant `k` the call's event was not accepted yet and the call went on to accept it. */
  ghost predicate AcceptedAt(tr: seq<State>, acts: seq<Action>, k: nat, n: nat, key: Key) {
    k < |acts| < |tr| && IsAt(tr[k], n, key, Accepting) && acts[k].Go? && acts[k].call == n && key !in tr[k].accepted
  }

  ghost predicate HandedAt(tr: seq<State>, acts: seq<Action>, k: nat, n: nat, key: Key) {
    k < |acts| < |tr| && IsAt(tr[k], n, key, Handling) && acts[k].Go? && acts[k].call == n && acts[k].input.parses && acts[k].input.handler
  }

  ghost predicate WasReceived(tolerance: nat, tr: seq<State>, acts: seq<Action>, i: nat, n: nat, key: Key) {
    exists r: nat :: r < i && EnteredAt(tolerance, tr, acts, r, n, key)
  }

  /** The call entered and was later verified, before instant `i`. */
  ghost predicate WasVerified(tolerance: nat, tr: seq<State>, acts: seq<Action>, i: nat, n: nat, key: Key) {
    exists k: nat :: k < i && VerifiedAt(tr, acts, k, n, key) && WasReceived(tolerance, tr, acts, k, n, key)
  }

  /** The call entered, was verified and then accepted the event, before instant `i`. */
  ghost predicate WasAccepted(tolerance: nat, tr: seq<State>, acts: seq<Action>, i: nat, n: nat, key: Key) {
    exists k: nat :: k < i && AcceptedAt(tr, acts, k, n, key) && WasVerified(tolerance, tr, acts, k, n, key)
  }

  /** Each phase of a call has its past. */
  ghost predicate HasPast(tolerance: nat, tr: seq<State>, acts: seq<Action>, i: nat)
    requires i < |tr|
  {
    forall n :: n in tr[i].calls ==>
      match tr[i].calls[n].phase
      case Verifying => WasReceived(tolerance, tr, acts, i, n, tr[i].calls[n].key)
      case Accepting => WasVerified(tolerance, tr, acts, i, n, tr[i].calls[n].key)
      case Handling => WasAccepted(tolerance, tr, acts, i, n, tr[i].calls[n].key)
  }

  lemma {:induction false} CallsHavePasts(tolerance: nat, tr: seq<State>, acts: seq<Action>, i: nat)
    requires IsRun(tolerance, tr, acts) && tr[0] == EMPTY && i < |tr|
    ensures HasPast(tolerance, tr, acts, i)
  {
    if i > 0 {
      CallsHavePasts(tolerance, tr, acts, i - 1);
      var s, a, j := tr[i - 1], acts[i - 1], i - 1;
      forall n | n in tr[i].calls
        ensures match tr[i].calls[n].phase
                case Verifying => WasReceived(tolerance, tr, acts, i, n, tr[i].calls[n].key)
                case Accepting => WasVerified(tolerance, tr, acts, i, n, tr[i].calls[n].key)
                case Handling => WasAccepted(tolerance, tr, acts, i, n, tr[i].calls[n].key)
      {
        if a.Receive? && a.call == n && n !in s.calls {
          assert EnteredAt(tolerance, tr, acts, j, n, a.request.key);
        } else if a.Go? && a.call == n && s.calls[n].phase.Verifying? {
          assert VerifiedAt(tr, acts, j, n, s.calls[n].key);
        } else if a.Go? && a.call == n {
          assert AcceptedAt(tr, acts, j, n, s.calls[n].key);
        }
      }
    }
  }

  /**
   Nothing is accepted or handled unverified: an accepted event was accepted by a call
   that had entered in time and then been allowed and found signed, and a handled one
   was handed over by that call after it had accepted it.
  */
  lemma {:induction false} OnlyVerifiedIsHandled(tolerance: nat, tr: seq<State>, acts: seq<Action>, i: nat, key: Key)
    requires IsRun(tolerance, tr, acts) && tr[0] == EMPTY && i < |tr|
    ensures key in tr[i].accepted ==> exists n :: WasAccepted(tolerance, tr, acts, i, n, key)
    ensures key in tr[i].handled ==> exists n, k: nat :: k < i && HandedAt(tr, acts, k, n, key) && WasAccepted(tolerance, tr, acts, k, n, key)
  {
    hide WasVerified, EnteredAt, VerifiedAt;
    if i > 0 {
      var s, a, j := tr[i - 1], acts[i - 1], i - 1;
      OnlyVerifiedIsHandled(tolerance, tr, acts, j, key);
      CallsHavePasts(tolerance, tr, acts, j);
      if key in s.accepted {
        var n :| WasAccepted(tolerance, tr, acts, j, n, key);
        PastGrows(tolerance, tr, acts, j, i, n, key);
      } else if key in tr[i].accepted {
        assert AcceptedAt(tr, acts, j, a.call, key);
        assert WasAccepted(tolerance, tr, acts, i, a.call, key);
      }
      if key in tr[i].handled && key !in s.handled {
        assert HandedAt(tr, acts, j, a.call, key);
      }
    }
  }

  lemma PastGrows(tolerance: nat, tr: seq<State>, acts: seq<Action>, j: nat, i: nat, n: nat, key: Key)
    requires j <= i && WasAccepted(tolerance, tr, acts, j, n, key)
    ensures WasAccepted(tolerance, tr, acts, i, n, key)
  {
    hide WasVerified, AcceptedAt;
  }

  // ---------------------------------------------------------------------------
  // Every verified event, once
  // ---------------------------------------------------------------------------

  /** No step between the two instants is the call's own, its crash included. */
  ghost predicate Waits(acts: seq<Action>, n: nat, i: nat, j: nat)
    requires j <= |acts|
  {
    forall k :: i <= k < j ==> !(acts[k].Go? && acts[k].call == n) && !(acts[k].Crash? && acts[k].call == n)
  }

  /** Nobody else moves a call. */
  lemma {:induction false} WaitingStays(tolerance: nat, tr: seq<State>, acts: seq<Action>, n: nat, i: nat, j: nat)
    requires IsRun(tolerance, tr, acts) && i <= j < |tr| && n in tr[i].calls && Waits(acts, n, i, j)
    ensures n in tr[j].calls && tr[j].calls[n] == tr[i].calls[n]
    decreases j
  {
    if i < j {
      WaitingStays(tolerance, tr, acts, n, i, j - 1);
    }
  }

  /** What was accepted stays accepted. */
  lemma {:induction false} AcceptedStays(tolerance: nat, tr: seq<State>, acts: seq<Action>, i: nat, j: nat)
    requires IsRun(tolerance, tr, acts) && i <= j < |tr|
    ensures tr[i].accepted <= tr[j].accepted
    decreases j
  {
    if i < j {
      AcceptedStays(tolerance, tr, acts, i, j - 1);
    }
  }

  /** A request enters exactly when its integration is enabled, it is complete and its timestamp is within the tolerance. */
  lemma EntersExactly(tolerance: nat, s: State, n: nat, request: Request, enabled: bool)
    requires n !in s.calls
    ensures var s' := Step(tolerance, s, Receive(n, request, enabled));
            if enabled && request.complete && request.sentAt.Some? && s.clock - request.sentAt.value <= tolerance && request.sentAt.value - s.clock <= tolerance
            then IsAt(s', n, request.key, Verifying) && s' == s.(calls := s.calls[n := Call(request.key, Verifying)])
            else s' == s
  {}

  /**
   A genuine event is not lost to a forged or a repeated one: a call that is allowed
   and signed goes on, and if its event is not accepted by then it accepts it and hands
   it to the handler; if it is accepted by then, it is turned away.
  */
  lemma VerifiedIsHandled(tolerance: nat, tr: seq<State>, acts: seq<Action>, n: nat, i: nat, j: nat, l: nat)
    requires IsRun(tolerance, tr, acts) && i < j < l < |acts|
    requires n in tr[i].calls && VerifiedAt(tr, acts, i, n, tr[i].calls[n].key)
    requires Waits(acts, n, i + 1, j) && acts[j].Go? && acts[j].call == n
    requires Waits(acts, n, j + 1, l) && acts[l].Go? && acts[l].call == n && acts[l].input.parses && acts[l].input.handler
    ensures var key := tr[i].calls[n].key;
            && (key !in tr[j].accepted ==> tr[j + 1].accepted == tr[j].accepted + {key} && HandedAt(tr, acts, l, n, key)
                                           && tr[l + 1].handled == tr[l].handled + [key])
            && (key in tr[j].accepted ==> n !in tr[j + 1].calls && tr[j + 1].accepted == tr[j].accepted && tr[j + 1].handled == tr[j].handled)
  {
    var key := tr[i].calls[n].key;
    assert IsAt(tr[i + 1], n, key, Accepting);
    WaitingStays(tolerance, tr, acts, n, i + 1, j);
    if key !in tr[j].accepted {
      assert IsAt(tr[j + 1], n, key, Handling);
      WaitingStays(tolerance, tr, acts, n, j + 1, l);
    }
  }

  /** No call has the event in its hands and no handler was given it. */
  ghost predicate IsLost(s: State, key: Key) {
    key in s.accepted && key !in s.handled && forall n :: n in s.calls ==> s.calls[n] != Call(key, Handling)
  }

  /** An event whose call stopped after accepting it is never handed to a handler: every later delivery of it is a repeat. */
  lemma {:induction false} LostForGood(tolerance: nat, tr: seq<State>, acts: seq<Action>, i: nat, j: nat, key: Key)
    requires IsRun(tolerance, tr, acts) && i <= j < |tr| && IsLost(tr[i], key)
    ensures IsLost(tr[j], key)
    decreases j
  {
    if i < j {
      LostForGood(tolerance, tr, acts, i, j - 1, key);
    }
  }

  /** It happens: a signed event is accepted, its call stops, and a second genuine delivery is refused. */
  lemma StoppedAfterAccepting(tolerance: nat, key: Key) returns (tr: seq<State>, acts: seq<Action>)
    ensures IsRun(tolerance, tr, acts) && tr[0] == EMPTY && IsLost(tr[|tr| - 1], key)
    ensures WasVerified(tolerance, tr, acts, 2, 0, key) && VerifiedAt(tr, acts, 5, 1, key)
  {
    var request, good := Request(key, true, Some(0)), Input(true, true, true, true, true);
    acts := [Receive(0, request, true), Go(0, good), Go(0, good), Crash(0), Receive(1, request, true), Go(1, good), Go(1, good)];
    var s1 := EMPTY.(calls := map[0 := Call(key, Verifying)]);
    var s2 := EMPTY.(calls := map[0 := Call(key, Accepting)]);
    var s3 := EMPTY.(calls := map[0 := Call(key, Handling)], accepted := {key});
    var s4 := EMPTY.(accepted := {key});
    var s5 := s4.(calls := map[1 := Call(key, Verifying)]);
    var s6 := s4.(calls := map[1 := Call(key, Accepting)]);
    tr := [EMPTY, s1, s2, s3, s4, s5, s6, s4];
    assert s3.calls - {0} == map[] && s6.calls - {1} == map[];
    assert EnteredAt(tolerance, tr, acts, 0, 0, key);
    assert WasReceived(tolerance, tr, acts, 1, 0, key);
    assert VerifiedAt(tr, acts, 1, 0, key);
  }

  // ---------------------------------------------------------------------------
  // The program
  // ---------------------------------------------------------------------------

  datatype Answer = NotFound | Incomplete | Stale | Denied | Replayed | Unreadable | Failed | Received

  /** `receiveWebhook` between whatever other calls do at its awaits. */
  class Receiver {
    const tolerance: nat
    var s: State
    ghost var tr: seq<State>
    ghost var acts: seq<Action>

    ghost predicate Valid()
      reads this
    {
      |tr| == |acts| + 1 && IsRun(tolerance, tr, acts) && tr[0] == EMPTY && tr[|tr| - 1] == s
    }

    constructor (tolerance: nat)
      ensures Valid() && this.tolerance == tolerance && s == EMPTY
    {
      this.tolerance, s := tolerance, EMPTY;
      tr, acts := [EMPTY], [];
    }

    method Act(a: Action)
      requires Valid() && Enabled(s, a)
      modifies this
      ensures Valid() && s == Step(tolerance, old(s), a) && tr == old(tr) + [s] && acts == old(acts) + [a]
    {
      s := Step(tolerance, s, a);
      tr, acts := tr + [s], acts + [a];
    }

    /** An await of call `me`: others act in any order; nobody else moves the call. */
    method Await(me: nat, world: seq<Action>)
      requires Valid() && me in s.calls
      modifies this
      ensures Valid() && old(tr) <= tr && old(acts) <= acts && me in s.calls && s.calls[me] == old(s.calls[me])
    {
      hide IsRun;
      for i := 0 to |world|
        invariant Valid() && old(tr) <= tr && old(acts) <= acts && me in s.calls && s.calls[me] == old(s.calls[me])
      {
        var a := world[i];
        if Enabled(s, a) && !(a.Crash? && a.call == me) && !(a.Go? && a.call == me) {
          Act(a);
        }
      }
    }

    /** The call ends here: it is denied, or turned away by an event that is already accepted. */
    method Refuse(me: nat, input: Input)
      requires Valid() && me in s.calls && s.calls[me].phase != Handling
      requires if s.calls[me].phase.Verifying? then !input.allowed || !input.signed else s.calls[me].key in s.accepted
      modifies this
      ensures Valid() && old(tr) <= tr && old(acts) <= acts && s == old(s).(calls := old(s).calls - {me})
    {
      hide IsRun;
      Act(Go(me, input));
    }

    /** The replay store takes the event, or has it already. */
    method AcceptOnce(me: nat, input: Input) returns (isNew: bool)
      requires Valid() && me in s.calls && s.calls[me].phase.Accepting?
      modifies this
      ensures Valid() && old(tr) <= tr && old(acts) <= acts
      ensures isNew == (old(s).calls[me].key !in old(s).accepted) && old(s).calls[me].key in s.accepted
      ensures if isNew then IsAt(s, me, old(s).calls[me].key, Handling) else me !in s.calls
    {
      hide IsRun;
      isNew := s.calls[me].key !in s.accepted;
      if isNew {
        Act(Go(me, input));
      } else {
        Refuse(me, input);
      }
    }

    /** The event goes to the handler, if its body parses and there is one. */
    method Hand(me: nat, input: Input)
      requires Valid() && me in s.calls && s.calls[me].phase.Handling?
      modifies this
      ensures Valid() && old(tr) <= tr && old(acts) <= acts && me !in s.calls
      ensures old(s).calls[me].key in s.accepted && WasAccepted(tolerance, tr, acts, |acts|, me, old(s).calls[me].key)
      ensures s.handled == if input.parses && input.handler then old(s).handled + [old(s).calls[me].key] else old(s).handled
    {
      hide IsRun, WasAccepted, EnteredAt, VerifiedAt, AcceptedAt;
      ghost var key := s.calls[me].key;
      Pasts(me);
      ghost var was, did := tr, acts;
      Act(Go(me, input));
      PastStays(tolerance, was, did, tr, acts, me, key);
    }

    ghost method Pasts(me: nat)
      requires Valid() && me in s.calls && s.calls[me].phase.Handling?
      ensures WasAccepted(tolerance, tr, acts, |acts|, me, s.calls[me].key) && s.calls[me].key in s.accepted
    {
      CallsHavePasts(tolerance, tr, acts, |acts|);
      assert Inv(tr[0]);
      RunKeepsInv(tolerance, tr, acts, |acts|);
    }

    /**
     The request is refused before anything is asked unless it may enter; then it is
     received exactly if it was allowed and signed, its event was new when the insert
     came, its body parses and its handler, if there is one, returns.
    */
    method Receive(me: nat, request: Request, enabled: bool, world: nat -> seq<Action>, input: Input) returns (answer: Answer, isNew: bool)
      requires Valid() && me !in s.calls
      modifies this
      ensures Valid() && old(tr) <= tr && old(acts) <= acts && me !in s.calls
      ensures answer == if !enabled then NotFound
                        else if !request.complete then Incomplete
                        else if request.sentAt.None? || Distance(old(s.clock), request.sentAt.value) > tolerance then Stale
                        else if !input.allowed || !input.signed then Denied
                        else if !isNew then Replayed
                        else if !input.parses then Unreadable
                        else if input.handler && !input.succeeds then Failed
                        else Received
      ensures isNew ==> answer.Unreadable? || answer.Failed? || answer.Received?
      ensures isNew ==> WasAccepted(tolerance, tr, acts, |acts|, me, request.key) && request.key in s.accepted
      ensures isNew && input.parses && input.handler ==> request.key in s.handled
      ensures answer.Replayed? ==> request.key in s.accepted
      ensures answer.NotFound? || answer.Incomplete? || answer.Stale? ==> s == old(s)
    {
      hide IsRun, WasAccepted, Distance;
      isNew := false;
      if !enabled {
        return NotFound, false;
      }
      if !request.complete {
        return Incomplete, false;
      }
      if request.sentAt.None? || Distance(s.clock, request.sentAt.value) > tolerance {
        return Stale, false;
      }
      Act(Action.Receive(me, request, enabled));
      Await(me, world(0));
      if !input.allowed || !input.signed {
        Refuse(me, input);
        return Denied, false;
      }
      Act(Go(me, input));
      Await(me, world(1));
      isNew := AcceptOnce(me, input);
      if !isNew {
        return Replayed, false;
      }
      Await(me, world(2));
      Hand(me, input);
      answer := if !input.parses then Unreadable else if input.handler && !input.succeeds then Failed else Received;
    }
  }

  /** A longer run has the same past. */
  lemma PastStays(tolerance: nat, tr: seq<State>, acts: seq<Action>, tr': seq<State>, acts': seq<Action>, n: nat, key: Key)
    requires |tr| == |acts| + 1 && |tr'| == |acts'| + 1 && tr <= tr' && acts <= acts' && WasAccepted(tolerance, tr, acts, |acts|, n, key)
    ensures WasAccepted(tolerance, tr', acts', |acts'|, n, key)
  {
    var k: nat :| k < |acts| && AcceptedAt(tr, acts, k, n, key) && WasVerified(tolerance, tr, acts, k, n, key);
    var v: nat :| v < k && VerifiedAt(tr, acts, v, n, key) && WasReceived(tolerance, tr, acts, v, n, key);
    var r: nat :| r < v && EnteredAt(tolerance, tr, acts, r, n, key);
    assert EnteredAt(tolerance, tr', acts', r, n, key);
    assert VerifiedAt(tr', acts', v, n, key);
    assert AcceptedAt(tr', acts', k, n, key);
  }

  /** What is stored of an accepted event. */
  datatype Record = Record(integration: string, event: string, acceptedAt: nat)

  /** The replay store: a conflict of the insert is the answer "already accepted". */
  class ReplayStore {
    const events: Collection<Record>

    constructor ()
      ensures fresh(events) && events.rows == map[]
    {
      events := new Collection();
    }

    method Accept(id: string, record: Record) returns (accepted: bool)
      modifies events
      ensures accepted == (id !in old(events.rows))
      ensures id in events.rows && Evolves(old(events.rows), events.rows)
      ensures events.rows == if accepted then old(events.rows)[id := Row(record, 1)] else old(events.rows)
    {
      accepted := events.InsertIfAbsent(id, record);
    }
  }
}

/**
 The notification service's programs, between awaits at which every other call does
 whatever it likes. Each of their steps is a step of the state machine in module
 Notifications, so every theorem about runs is about these programs.
*/
module NotificationService {
  import opened Common
  import opened FeltDb
  import opened Notifications
  import opened NotificationTheorems
  import opened NotificationOutcomes

  /** Other calls' steps and the passing of time leave a call where it is. */
  lemma OthersLeaveCall(cfg: Config, s: State, a: Action, me: nat)
    requires Enabled(s, a) && me in s.calls && a != Crash(me) && !(a.Go? && a.call == me)
    ensures var s' := Step(cfg, s, a); me in s'.calls && s'.calls[me] == s.calls[me]
  {
    hide Do;
  }

  /** The step settles the record the call holds with its outcome, or leaves a newer writer's record alone. */
  ghost predicate SettlesAt(cfg: Config, s: State, a: Action, s': State, me: nat, outcome: Outcome) {
    && a.Go? && a.call == me && me in s.calls && s.calls[me].task.Attempt? && s.calls[me].phase.Finishing? && s.calls[me].phase.outcome == outcome
    && var k, row := s.calls[me].task.delivery, s.calls[me].phase.row;
       if k in s.deliveries && s.deliveries[k].version == row.version
       then k in s'.deliveries && s'.deliveries == s.deliveries[k := s'.deliveries[k]] && s'.deliveries[k].version == row.version + 1
            && SettlesAs(cfg, row.value, outcome, s.clock, s'.deliveries[k].value)
       else s'.deliveries == s.deliveries
  }

  /** Since `from` the call settled its delivery with this outcome. */
  ghost predicate SettledIn(cfg: Config, tr: seq<State>, acts: seq<Action>, me: nat, outcome: Outcome, from: nat)
    requires |tr| == |acts| + 1
  {
    exists k :: from <= k < |acts| && SettlesAt(cfg, tr[k], acts[k], tr[k + 1], me, outcome)
  }

  predicate CallsAt(s: State, a: Action, me: nat) {
    a.Go? && a.call == me && me in s.calls && s.calls[me].phase.Claimed?
  }

  /** Since `from` the call has called its channel. */
  ghost predicate CalledIn(tr: seq<State>, acts: seq<Action>, me: nat, from: nat)
    requires |tr| == |acts| + 1
  {
    exists k :: from <= k < |acts| && CallsAt(tr[k], acts[k], me)
  }

  /** The attempt fails before its channel is called: its notification is gone or has expired, or the channel is not set up. */
  predicate UnfitAt(cfg: Config, s: State, a: Action, me: nat) {
    a.Go? && a.call == me && me in s.calls && s.calls[me].phase.Examining? && !MayBeDelivered(cfg, s.notes, s.calls[me].phase.row.value, s.calls[me].phase.at)
  }

  ghost predicate UnfitIn(cfg: Config, tr: seq<State>, acts: seq<Action>, me: nat, from: nat)
    requires |tr| == |acts| + 1
  {
    exists k :: from <= k < |acts| && UnfitAt(cfg, tr[k], acts[k], me)
  }

  lemma UnfitHere(cfg: Config, tr: seq<State>, acts: seq<Action>, me: nat, k: nat, from: nat)
    requires |tr| == |acts| + 1 && from <= k < |acts| && UnfitAt(cfg, tr[k], acts[k], me)
    ensures UnfitIn(cfg, tr, acts, me, from)
  {}

  lemma UnfitStays(cfg: Config, t: seq<State>, a: seq<Action>, tr: seq<State>, acts: seq<Action>, me: nat, from: nat, earlier: nat)
    requires |t| == |a| + 1 && |tr| == |acts| + 1 && t <= tr && a <= acts && earlier <= from && UnfitIn(cfg, t, a, me, from)
    ensures UnfitIn(cfg, tr, acts, me, earlier)
  {
    var k :| from <= k < |a| && UnfitAt(cfg, t[k], a[k], me);
    assert UnfitAt(cfg, tr[k], acts[k], me);
  }

  /** The attempt ends: its delivery is not there or not to be attempted, or the claim is lost. Nothing is written. */
  predicate TurnedAwayAt(s: State, a: Action, s': State, me: nat) {
    && a.Go? && a.call == me && me in s.calls && s.calls[me].task.Attempt? && s'.deliveries == s.deliveries && s'.notes == s.notes
    && var k, p := s.calls[me].task.delivery, s.calls[me].phase;
       || (p.Claiming? && !CasWins(s.deliveries, k, p.row.version))
       || (p.Entered? && !(k in s.deliveries && s.deliveries[k].value.tenant == s.calls[me].task.deliveryTenant && MayBeAttempted(s.deliveries[k].value, s.calls[me].task.mode, s.clock)))
  }

  ghost predicate TurnedAwayIn(tr: seq<State>, acts: seq<Action>, me: nat, from: nat)
    requires |tr| == |acts| + 1
  {
    exists k :: from <= k < |acts| && TurnedAwayAt(tr[k], acts[k], tr[k + 1], me)
  }

  /** The notification read at step `j` was changed as decided there, over the version read, by a write at step `k`. */
  predicate TransitionsAt(tr: seq<State>, acts: seq<Action>, me: nat, note: NotificationId, change: Change, written: Notification, j: nat, k: nat)
    requires |tr| == |acts| + 1
  {
    && j <= k < |acts| && acts[k].Go? && acts[k].call == me && note in tr[j].notes
    && Applies(tr[j].notes[note].value, change, tr[j].clock) && ChangesTo(tr[j].notes[note].value, change, tr[j].clock, written)
    && CasWins(tr[k].notes, note, tr[j].notes[note].version) && tr[k + 1].notes == Cas(tr[k].notes, note, tr[j].notes[note].version, written)
  }

  /** The change had nothing to do at this step: the notification is gone or already past it. */
  predicate IdleAt(s: State, a: Action, me: nat, note: NotificationId, change: Change) {
    a.Go? && a.call == me && !(note in s.notes && Applies(s.notes[note].value, change, s.clock))
  }

  ghost predicate IdleIn(tr: seq<State>, acts: seq<Action>, me: nat, note: NotificationId, change: Change, from: nat)
    requires |tr| == |acts| + 1
  {
    exists k :: from <= k < |acts| && IdleAt(tr[k], acts[k], me, note, change)
  }

  /** Somebody else wrote between this call's read and its write. */
  predicate LosesAt(s: State, a: Action, me: nat, note: NotificationId) {
    && a.Go? && a.call == me && me in s.calls && s.calls[me].phase.Committing? && s.calls[me].phase.note == note
    && !CasWins(s.notes, note, s.calls[me].phase.base.version)
  }

  /** How one try of a change ended. */
  datatype Tried = Idle | Wrote | Lost

  /** The races the call lost since `from`, one after the other. */
  ghost predicate RacesLost(tr: seq<State>, acts: seq<Action>, me: nat, note: NotificationId, from: nat, lost: seq<nat>)
    requires |tr| == |acts| + 1
  {
    && (forall i :: 0 <= i < |lost| ==> from <= lost[i] < |acts| && LosesAt(tr[lost[i]], acts[lost[i]], me, note))
    && (forall i, j :: 0 <= i < j < |lost| ==> lost[i] < lost[j])
  }

  lemma RaceLost(t: seq<State>, a: seq<Action>, tr: seq<State>, acts: seq<Action>, me: nat, note: NotificationId, from: nat, lost: seq<nat>, k: nat)
    requires |t| == |a| + 1 && |tr| == |acts| + 1 && t <= tr && a <= acts && from <= |a| <= k < |acts|
    requires RacesLost(t, a, me, note, from, lost) && LosesAt(tr[k], acts[k], me, note)
    ensures RacesLost(tr, acts, me, note, from, lost + [k])
  {
    forall i | 0 <= i < |lost| ensures from <= lost[i] < |acts| && LosesAt(tr[lost[i]], acts[lost[i]], me, note) {
      assert LosesAt(t[lost[i]], a[lost[i]], me, note);
    }
  }

  lemma NoneLost(tr: seq<State>, acts: seq<Action>, me: nat, note: NotificationId, from: nat)
    requires |tr| == |acts| + 1
    ensures RacesLost(tr, acts, me, note, from, [])
  {}

  lemma LostStay(t: seq<State>, a: seq<Action>, tr: seq<State>, acts: seq<Action>, me: nat, note: NotificationId, from: nat, lost: seq<nat>)
    requires |t| == |a| + 1 && |tr| == |acts| + 1 && t <= tr && a <= acts && RacesLost(t, a, me, note, from, lost)
    ensures RacesLost(tr, acts, me, note, from, lost)
  {
    forall i | 0 <= i < |lost| ensures from <= lost[i] < |acts| && LosesAt(tr[lost[i]], acts[lost[i]], me, note) {
      assert LosesAt(t[lost[i]], a[lost[i]], me, note);
    }
  }

  lemma IdleHere(tr: seq<State>, acts: seq<Action>, me: nat, note: NotificationId, change: Change, k: nat, from: nat)
    requires |tr| == |acts| + 1 && from <= k < |acts| && IdleAt(tr[k], acts[k], me, note, change)
    ensures IdleIn(tr, acts, me, note, change, from)
  {}

  lemma IdleEarlier(tr: seq<State>, acts: seq<Action>, me: nat, note: NotificationId, change: Change, from: nat, earlier: nat)
    requires |tr| == |acts| + 1 && earlier <= from && IdleIn(tr, acts, me, note, change, from)
    ensures IdleIn(tr, acts, me, note, change, earlier)
  {}

  ghost predicate TransitionedIn(tr: seq<State>, acts: seq<Action>, me: nat, note: NotificationId, change: Change, written: Notification, from: nat)
    requires |tr| == |acts| + 1
  {
    exists j, k :: from <= j && TransitionsAt(tr, acts, me, note, change, written, j, k)
  }

  /** What happened stays in the history. */
  lemma CalledStays(t: seq<State>, a: seq<Action>, tr: seq<State>, acts: seq<Action>, me: nat, from: nat, earlier: nat)
    requires |t| == |a| + 1 && |tr| == |acts| + 1 && t <= tr && a <= acts && earlier <= from && CalledIn(t, a, me, from)
    ensures CalledIn(tr, acts, me, earlier)
  {
    var k :| from <= k < |a| && CallsAt(t[k], a[k], me);
    assert CallsAt(tr[k], acts[k], me);
  }

  lemma TurnedAwayEarlier(tr: seq<State>, acts: seq<Action>, me: nat, from: nat, earlier: nat)
    requires |tr| == |acts| + 1 && earlier <= from && TurnedAwayIn(tr, acts, me, from)
    ensures TurnedAwayIn(tr, acts, me, earlier)
  {}

  lemma SettledHere(cfg: Config, s: State, tr: seq<State>, acts: seq<Action>, me: nat, outcome: Outcome, k: nat, from: nat)
    requires |tr| == |acts| + 1 && from <= k < |acts| && tr[k] == s && SettlesAt(cfg, s, acts[k], tr[k + 1], me, outcome)
    ensures SettledIn(cfg, tr, acts, me, outcome, from)
  {}

  lemma SettledEarlier(cfg: Config, tr: seq<State>, acts: seq<Action>, me: nat, outcome: Outcome, from: nat, earlier: nat)
    requires |tr| == |acts| + 1 && earlier <= from && SettledIn(cfg, tr, acts, me, outcome, from)
    ensures SettledIn(cfg, tr, acts, me, outcome, earlier)
  {}

  lemma TransitionedEarlier(tr: seq<State>, acts: seq<Action>, me: nat, note: NotificationId, change: Change, written: Notification, from: nat, earlier: nat)
    requires |tr| == |acts| + 1 && earlier <= from && TransitionedIn(tr, acts, me, note, change, written, from)
    ensures TransitionedIn(tr, acts, me, note, change, written, earlier)
  {}

  lemma TransitionedHere(tr: seq<State>, acts: seq<Action>, me: nat, note: NotificationId, change: Change, written: Notification, j: nat, k: nat, from: nat)
    requires |tr| == |acts| + 1 && from <= j && TransitionsAt(tr, acts, me, note, change, written, j, k)
    ensures TransitionedIn(tr, acts, me, note, change, written, from)
  {}

  class Service {
    const cfg: Config
    var s: State
    ghost var tr: seq<State>
    ghost var acts: seq<Action>

    ghost predicate Valid()
      reads this
    {
      |tr| == |acts| + 1 && IsRun(cfg, tr, acts) && tr[0] == EMPTY && tr[|tr| - 1] == s
    }

    /** The history so far is a prefix of the history now. */
    ghost predicate Extends(was: seq<State>, did: seq<Action>)
      reads this
    {
      was <= tr && did <= acts
    }

    constructor (cfg: Config)
      ensures Valid() && this.cfg == cfg && s == EMPTY
    {
      this.cfg, s := cfg, EMPTY;
      tr, acts := [EMPTY], [];
    }

    /** What every run keeps, about this history. */
    lemma Kept(i: nat)
      requires Valid() && i < |tr|
      ensures Inv(tr[i]) && Inv(s) && NotesForward(tr[i].notes, s.notes) && DeliveriesForward(tr[i].deliveries, s.deliveries)
    {
      EmptyIsFine();
      RunKeepsInv(cfg, tr, acts, i, |tr| - 1);
    }

    /** One step of anybody. */
    method Act(a: Action)
      requires Valid() && Enabled(s, a)
      modifies this
      ensures Valid() && s == Step(cfg, old(s), a)
      ensures tr == old(tr) + [s] && acts == old(acts) + [a]
    {
      s := Step(cfg, s, a);
      tr, acts := tr + [s], acts + [a];
    }

    /** An await of call `me`: others act in any order; nobody else moves the call. */
    method Await(me: nat, world: seq<Action>)
      requires Valid() && me in s.calls
      modifies this
      ensures Valid() && Extends(old(tr), old(acts)) && me in s.calls && s.calls[me] == old(s.calls[me])
    {
      hide IsRun, Step, Enabled;
      for i := 0 to |world|
        invariant Valid() && Extends(old(tr), old(acts)) && me in s.calls && s.calls[me] == old(s.calls[me])
      {
        var a := world[i];
        if Enabled(s, a) && a != Crash(me) && !(a.Go? && a.call == me) {
          OthersLeaveCall(cfg, s, a, me);
          Act(a);
        }
      }
    }

    method Enter(me: nat, task: Task)
      requires Valid() && me !in s.calls && (task.Mutate? ==> !task.change.Refresh?)
      modifies this
      ensures Valid() && Extends(old(tr), old(acts)) && me in s.calls && s.calls[me] == Call(task, Entered)
    {
      Act(Begin(me, task));
    }

    /** The next atomic step of the call: exactly this effect. */
    method Take(me: nat, outcome: Outcome, e: Effect)
      requires Valid() && me in s.calls && e == Do(cfg, s, s.calls[me], outcome)
      modifies this
      ensures Valid() && Extends(old(tr), old(acts)) && tr == old(tr) + [s] && acts == old(acts) + [Go(me, outcome)] && s.clock == old(s.clock)
      ensures s.notes == e.notes && s.deliveries == e.deliveries
      ensures e.next.Some? ==> me in s.calls && s.calls[me] == e.next.value
      ensures e.next.None? ==> me !in s.calls
    {
      Act(Go(me, outcome));
    }

    /**
     Create the notification and its deliveries in one transaction, or find that
     somebody already did: either way it is there when this returns.
    */
    method Notify(me: nat, id: NotificationId, tenant: string, recipient: string, channels: seq<string>, expiresAt: Option<nat>, world: seq<Action>)
      returns (created: bool)
      requires Valid() && me !in s.calls
      modifies this
      ensures Valid() && Extends(old(tr), old(acts)) && me !in s.calls && id in s.notes
      ensures |tr| > 1 && created == (id !in tr[|tr| - 2].notes)
      ensures created ==> s.notes[id] == Row(Notification(tenant, recipient, channels, Pending, expiresAt, None, None, None), 1)
      ensures created ==> forall c :: c in channels ==>
                ForChannel(id, c) in s.deliveries && s.deliveries[ForChannel(id, c)] == Row(Delivery(tenant, id, c, Waiting, 0, cfg.maxAttempts, None, None), 1)
      ensures !created ==> WroteNothing(tr[|tr| - 2], s)
    {
      hide IsRun, Inv, Step, DoRead, DoRetry, DoMutate;
      var task := Task.Notify(id, tenant, recipient, channels, expiresAt);
      Enter(me, task);
      Await(me, world);
      Kept(|tr| - 1);
      created := id !in s.notes;
      var born := NewDeliveries(cfg, task);
      if created {
        NothingInTheWay(cfg, s, task);
        Take(me, Success, Effect(s.notes[id := Row(NewNotification(task), 1)], s.deliveries + born, None));
      } else {
        Take(me, Success, Returned(s));
      }
    }

    /**
     Attempt one delivery: read, refuse or examine, claim, call the channel, settle,
     and sum up. It ends turned away with nothing written, or settled: with the
     channel's own answer if it was called, and failed for good otherwise, which is
     when the notification is gone or expired or the channel is not set up.
    */
    method AttemptDelivery(me: nat, world: nat -> seq<Action>, outcome: Outcome) returns (ghost settled: Option<Outcome>, ghost called: bool)
      requires Valid() && me in s.calls && s.calls[me].task.Attempt? && s.calls[me].phase == Entered
      modifies this
      ensures Valid() && Extends(old(tr), old(acts)) && me !in s.calls
      ensures settled.Some? ==> SettledIn(cfg, tr, acts, me, settled.value, |old(acts)|)
      ensures settled.None? ==> !called && TurnedAwayIn(tr, acts, me, |old(acts)|)
      ensures called ==> settled == Some(outcome) && CalledIn(tr, acts, me, |old(acts)|)
      ensures settled.Some? && !called ==> settled == Some(Failure(false)) && UnfitIn(cfg, tr, acts, me, |old(acts)|)
    {
      hide IsRun, Inv, Step, Do, SettledIn, CalledIn, TurnedAwayIn, UnfitIn;
      Await(me, world(0));
      ghost var k := |acts|;
      settled, called := None, false;
      var goes := Examine(me, world(1));
      if !goes {
        TurnedAwayEarlier(tr, acts, me, k, |old(acts)|);
        return;
      }
      ghost var t, a := tr, acts;
      if s.calls[me].phase.Claiming? {
        Await(me, world(2));
        k := |acts|;
        goes := ClaimAndCall(me, world, outcome);
        if !goes {
          TurnedAwayEarlier(tr, acts, me, k, |old(acts)|);
          return;
        }
        called := true;
        t, a := tr, acts;
      }
      settled := Some(s.calls[me].phase.outcome);
      Conclude(me, world);
      SettledEarlier(cfg, tr, acts, me, settled.value, |a|, |old(acts)|);
      if called {
        CalledStays(t, a, tr, acts, me, k, |old(acts)|);
      } else {
        UnfitStays(cfg, t, a, tr, acts, me, k, |old(acts)|);
      }
    }

    method Conclude(me: nat, world: nat -> seq<Action>)
      requires Valid() && me in s.calls && s.calls[me].task.Attempt? && s.calls[me].phase.Finishing?
      modifies this
      ensures Valid() && Extends(old(tr), old(acts)) && me !in s.calls
      ensures SettledIn(cfg, tr, acts, me, old(s.calls[me].phase.outcome), |old(acts)|)
    {
      hide IsRun, Inv, Step, Do, SettlesAt, SettledIn;
      Await(me, world(5));
      ghost var was, k := s, |acts|;
      SumUp(me, (n: nat) => world(6 + n));
      SettledHere(cfg, was, tr, acts, me, old(s.calls[me].phase.outcome), k, |old(acts)|);
    }

    /** Settle the delivery, then the notification's status, then an expiry that was due. */
    method SumUp(me: nat, world: nat -> seq<Action>)
      requires Valid() && me in s.calls && s.calls[me].task.Attempt? && s.calls[me].phase.Finishing?
      modifies this
      ensures Valid() && Extends(old(tr), old(acts)) && me !in s.calls
      ensures SettlesAt(cfg, old(s), acts[|old(acts)|], tr[|old(acts)| + 1], me, old(s.calls[me].phase.outcome))
    {
      hide IsRun, Inv, Step, Do, SettlesAt, TransitionedIn;
      Finish(me);
      if me in s.calls && s.calls[me].phase.Listing? {
        Await(me, world(0));
        ListDeliveries(me);
      }
      if me in s.calls {
        var _, _ := Transition(me, (n: nat) => world(1 + n));
      }
      if me in s.calls {
        var _, _ := Transition(me, (n: nat) => world(11 + n));
      }
    }

    method ClaimAndCall(me: nat, world: nat -> seq<Action>, outcome: Outcome) returns (called: bool)
      requires Valid() && me in s.calls && s.calls[me].task.Attempt? && s.calls[me].phase.Claiming?
      modifies this
      ensures Valid() && Extends(old(tr), old(acts))
      ensures called ==> me in s.calls && s.calls[me].task.Attempt? && s.calls[me].phase.Finishing? && s.calls[me].phase.outcome == outcome
      ensures called ==> CalledIn(tr, acts, me, |old(acts)|)
      ensures !called ==> me !in s.calls && TurnedAwayIn(tr, acts, me, |old(acts)|)
    {
      hide IsRun, Step, Do, CalledIn, TurnedAwayIn;
      called := Claim(me);
      if called {
        Await(me, world(3));
        ghost var k := |acts|;
        StartCall(me);
        ghost var t, a := tr, acts;
        Await(me, world(4));
        Answer(me, outcome);
        CalledStays(t, a, tr, acts, me, k, |old(acts)|);
      }
    }

    /** Read the delivery, then its notification. */
    method Examine(me: nat, world: seq<Action>) returns (ok: bool)
      requires Valid() && me in s.calls && s.calls[me].task.Attempt? && s.calls[me].phase == Entered
      modifies this
      ensures Valid() && Extends(old(tr), old(acts))
      ensures ok ==> me in s.calls && s.calls[me].task == old(s.calls[me].task) && (s.calls[me].phase.Claiming? || s.calls[me].phase.Finishing?)
      ensures ok && s.calls[me].phase.Finishing? ==> s.calls[me].phase.outcome == Failure(false) && UnfitIn(cfg, tr, acts, me, |old(acts)|)
      ensures !ok ==> me !in s.calls && TurnedAwayIn(tr, acts, me, |old(acts)|)
    {
      hide IsRun, Step, DoExamine, DoClaim, DoFinish, DoList, DoChange, DoCommit, DoCreate, DoRetry, DoMutate, UnfitAt;
      var c, now := s.calls[me], s.clock;
      var k := c.task.delivery;
      ok := k in s.deliveries && s.deliveries[k].value.tenant == c.task.deliveryTenant && Admitted(s.deliveries[k].value, c.task.mode, now);
      if !ok {
        Take(me, Success, Returned(s));
        assert TurnedAwayAt(tr[|old(acts)|], acts[|old(acts)|], tr[|old(acts)| + 1], me);
        return;
      }
      Take(me, Success, GoOn(s, c, Examining(s.deliveries[k], now)));
      Await(me, world);
      ghost var j := |acts|;
      Fit(me);
      if s.calls[me].phase.Finishing? {
        UnfitHere(cfg, tr, acts, me, j, |old(acts)|);
      }
    }

    /** Whether the delivery may be delivered: its notification is there and not expired, and its channel is set up. */
    method Fit(me: nat)
      requires Valid() && me in s.calls && s.calls[me].task.Attempt? && s.calls[me].phase.Examining?
      modifies this
      ensures Valid() && Extends(old(tr), old(acts)) && |acts| == |old(acts)| + 1 && tr[|old(acts)|] == old(s)
      ensures me in s.calls && s.calls[me].task == old(s.calls[me].task)
      ensures var p := old(s.calls[me].phase);
              s.calls[me].phase == Claiming(p.row, p.at)
              || (s.calls[me].phase.Finishing? && s.calls[me].phase.outcome == Failure(false) && UnfitAt(cfg, old(s), acts[|old(acts)|], me))
    {
      hide IsRun, Step, DoRead, DoClaim, DoFinish, DoList, DoChange, DoCommit, DoCreate, DoRetry, DoMutate;
      var c := s.calls[me];
      var row, now := c.phase.row, c.phase.at;
      var n := row.value.notification;
      if n !in s.notes || s.notes[n].value.tenant != row.value.tenant {
        Take(me, Success, GoOn(s, c, Finishing(row, Failure(false), false, false)));
      } else if s.notes[n].value.expiresAt.Some? && s.notes[n].value.expiresAt.value <= now {
        Take(me, Success, GoOn(s, c, Finishing(row, Failure(false), true, true)));
      } else if row.value.channel !in cfg.channels {
        Take(me, Success, GoOn(s, c, Finishing(row, Failure(false), true, false)));
      } else {
        Take(me, Success, GoOn(s, c, Claiming(row, now)));
      }
    }

    /** Count the attempt against the version that was read; a lost race means somebody else has the delivery. */
    method Claim(me: nat) returns (won: bool)
      requires Valid() && me in s.calls && s.calls[me].task.Attempt? && s.calls[me].phase.Claiming?
      modifies this
      ensures Valid() && Extends(old(tr), old(acts))
      ensures won ==> me in s.calls && s.calls[me].task == old(s.calls[me].task) && s.calls[me].phase.Claimed?
      ensures won ==> old(s.calls[me].task.delivery) in s.deliveries
      ensures won ==> var p := old(s.calls[me].phase);
                      s.deliveries[old(s.calls[me].task.delivery)]
                      == Row(p.row.value.(attemptCount := p.row.value.attemptCount + 1, lastAttemptAt := Some(p.at)), p.row.version + 1)
      ensures !won ==> me !in s.calls && TurnedAwayIn(tr, acts, me, |old(acts)|)
    {
      hide IsRun, Step, DoRead, DoExamine, DoFinish, DoList, DoChange, DoCommit, DoCreate, DoRetry, DoMutate;
      var c := s.calls[me];
      var k, row := c.task.delivery, c.phase.row;
      won := CasWins(s.deliveries, k, row.version);
      if !won {
        Take(me, Success, Returned(s));
        assert TurnedAwayAt(tr[|old(acts)|], acts[|old(acts)|], tr[|old(acts)| + 1], me);
        return;
      }
      var claimed := row.value.(attemptCount := row.value.attemptCount + 1, lastAttemptAt := Some(c.phase.at));
      Take(me, Success, Effect(s.notes, s.deliveries[k := Row(claimed, row.version + 1)], Some(c.(phase := Claimed(Row(claimed, row.version + 1))))));
    }

    /** The claim's answer arrives and the channel is called. */
    method StartCall(me: nat)
      requires Valid() && me in s.calls && s.calls[me].task.Attempt? && s.calls[me].phase.Claimed?
      modifies this
      ensures Valid() && Extends(old(tr), old(acts)) && me in s.calls && s.calls[me] == old(s.calls[me]).(phase := Calling(old(s.calls[me].phase.row)))
      ensures CalledIn(tr, acts, me, |old(acts)|)
    {
      hide IsRun, Step;
      Take(me, Success, GoOn(s, s.calls[me], Calling(s.calls[me].phase.row)));
      assert CallsAt(tr[|old(acts)|], acts[|old(acts)|], me);
    }

    method Answer(me: nat, outcome: Outcome)
      requires Valid() && me in s.calls && s.calls[me].task.Attempt? && s.calls[me].phase.Calling?
      modifies this
      ensures Valid() && Extends(old(tr), old(acts)) && me in s.calls && s.calls[me].task == old(s.calls[me].task)
      ensures s.calls[me].phase == Finishing(old(s.calls[me].phase.row), outcome, true, false)
    {
      hide IsRun, Step;
      Take(me, outcome, GoOn(s, s.calls[me], Finishing(s.calls[me].phase.row, outcome, true, false)));
    }

    /** `finishDelivery`: settle against the version that was claimed; a newer writer fences this one out. */
    method Finish(me: nat)
      requires Valid() && me in s.calls && s.calls[me].task.Attempt? && s.calls[me].phase.Finishing?
      modifies this
      ensures Valid() && Extends(old(tr), old(acts)) && |acts| == |old(acts)| + 1
      ensures me in s.calls ==> s.calls[me].phase.Listing? || (s.calls[me].phase.Changing? && s.calls[me].phase.attempt == 0)
      ensures SettlesAt(cfg, old(s), acts[|old(acts)|], s, me, old(s.calls[me].phase.outcome)) && tr[|old(acts)| + 1] == s
    {
      hide IsRun, Step, RetryDelay, SettlesAs, DoRead, DoExamine, DoClaim, DoList, DoChange, DoCommit, DoCreate, DoRetry, DoMutate;
      var c := s.calls[me];
      FinishedSettles(cfg, c.phase.row.value, c.phase.outcome, s.clock);
      var k, row, n, outcome := c.task.delivery, c.phase.row, c.phase.row.value.notification, c.phase.outcome;
      if !CasWins(s.deliveries, k, row.version) {
        Take(me, Success, Effect(s.notes, s.deliveries, ThenExpire(c, n, c.phase.expire)));
        return;
      }
      var d := row.value;
      if outcome.Success? {
        d := d.(status := Arrived, nextAttemptAt := None);
      } else if outcome.retryable && cfg.jobs && d.attemptCount < d.maxAttempts {
        d := d.(status := DeliveryStatus.Retrying, nextAttemptAt := Some(s.clock + RetryDelay(cfg, d.attemptCount)));
      } else {
        d := d.(status := GivenUp, nextAttemptAt := None);
      }
      var next := if c.phase.noted then Some(c.(phase := Listing(n, c.phase.expire))) else None;
      Take(me, Success, Effect(s.notes, s.deliveries[k := Row(d, row.version + 1)], next));
    }

    method ListDeliveries(me: nat)
      requires Valid() && me in s.calls && s.calls[me].phase.Listing?
      modifies this
      ensures Valid() && Extends(old(tr), old(acts)) && me in s.calls && s.calls[me].phase.Changing? && s.calls[me].phase.attempt == 0
    {
      hide IsRun, Step, AnyArrived, AllGivenUp;
      var c := s.calls[me];
      var n := c.phase.note;
      Take(me, Success, GoOn(s, c, Changing(n, Refresh(AnyArrived(s.deliveries, n), AllGivenUp(s.deliveries, n)), 0, c.phase.expire)));
    }

    /**
     `transitionNotification`: read, decide, write against the version read; at most
     five tries. What it wrote is the change; it wrote nothing because there was nothing
     to do, or because five races were lost.
    */
    method Transition(me: nat, world: nat -> seq<Action>) returns (ghost written: Option<Notification>, ghost lost: seq<nat>)
      requires Valid() && me in s.calls && s.calls[me].phase.Changing? && s.calls[me].phase.attempt == 0
      modifies this
      ensures Valid() && Extends(old(tr), old(acts))
      ensures var note, change := old(s.calls[me].phase.note), old(s.calls[me].phase.change);
              && RacesLost(tr, acts, me, note, |old(acts)|, lost)
              && if written.Some? then TransitionedIn(tr, acts, me, note, change, written.value, |old(acts)|)
                 else |lost| == 5 || IdleIn(tr, acts, me, note, change, |old(acts)|)
      // One change done or given up: what is left, if anything, is the expiry that was due.
      ensures me in s.calls ==> old(s.calls[me].phase.expire) && s.calls[me].phase == Changing(old(s.calls[me].phase.note), Expire, 0, false)
    {
      hide IsRun, Step, Do, Changed, TransitionedIn, IdleIn, RacesLost, LosesAt;
      var c0 := s.calls[me];
      written, lost := None, [];
      assert RacesLost(tr, acts, me, c0.phase.note, |acts|, lost) by { NoneLost(tr, acts, me, c0.phase.note, |acts|); }
      for attempt := 0 to MAX_TRANSITIONS
        invariant Valid() && Extends(old(tr), old(acts)) && written.None? && |lost| == attempt
        invariant RacesLost(tr, acts, me, c0.phase.note, |old(acts)|, lost)
        invariant attempt < MAX_TRANSITIONS ==> me in s.calls && s.calls[me] == c0.(phase := Changing(c0.phase.note, c0.phase.change, attempt, c0.phase.expire))
        invariant attempt == MAX_TRANSITIONS ==> me in s.calls ==> Some(s.calls[me]) == ThenExpire(c0, c0.phase.note, c0.phase.expire)
      {
        ghost var t, a, k := tr, acts, 0;
        var tried: Tried;
        tried, written, k := Try(me, world(2 * attempt), world(2 * attempt + 1));
        if tried.Wrote? {
          TransitionedEarlier(tr, acts, me, c0.phase.note, c0.phase.change, written.value, |a|, |old(acts)|);
          LostStay(t, a, tr, acts, me, c0.phase.note, |old(acts)|, lost);
          return;
        }
        if tried.Idle? {
          IdleEarlier(tr, acts, me, c0.phase.note, c0.phase.change, |a|, |old(acts)|);
          LostStay(t, a, tr, acts, me, c0.phase.note, |old(acts)|, lost);
          return;
        }
        RaceLost(t, a, tr, acts, me, c0.phase.note, |old(acts)|, lost, k);
        lost := lost + [k];
      }
    }

    /** One try: read, decide, write. */
    method Try(me: nat, before: seq<Action>, between: seq<Action>) returns (tried: Tried, ghost written: Option<Notification>, ghost k: nat)
      requires Valid() && me in s.calls && s.calls[me].phase.Changing?
      modifies this
      ensures Valid() && Extends(old(tr), old(acts)) && |old(acts)| <= k < |acts|
      ensures written.Some? <==> tried.Wrote?
      ensures tried.Wrote? ==> TransitionedIn(tr, acts, me, old(s.calls[me].phase.note), old(s.calls[me].phase.change), written.value, |old(acts)|)
      ensures tried.Idle? ==> IdleIn(tr, acts, me, old(s.calls[me].phase.note), old(s.calls[me].phase.change), |old(acts)|)
      ensures tried.Lost? ==> LosesAt(tr[k], acts[k], me, old(s.calls[me].phase.note))
      ensures var c := old(s.calls[me]); var p := c.phase;
              if tried.Lost? && p.attempt + 1 < MAX_TRANSITIONS
              then me in s.calls && s.calls[me] == c.(phase := Changing(p.note, p.change, p.attempt + 1, p.expire))
              else me in s.calls ==> Some(s.calls[me]) == ThenExpire(c, p.note, p.expire)
    {
      hide IsRun, Step, Do, Changed, TransitionedIn, IdleIn, IdleAt, Applies, ChangesTo;
      var c0 := s.calls[me];
      written, k := None, |acts|;
      Await(me, before);
      ghost var j := |acts|;
      var decided := Decide(me);
      if !decided {
        IdleHere(tr, acts, me, c0.phase.note, c0.phase.change, j, |old(acts)|);
        k := j;
        return Idle, None, k;
      }
      ghost var t := tr;
      Await(me, between);
      k := |acts|;
      ghost var p := s.calls[me].phase;
      var won := Write(me);
      assert tr[j] == t[j];
      if won {
        written := Some(p.next);
        TransitionedHere(tr, acts, me, c0.phase.note, c0.phase.change, p.next, j, k, |old(acts)|);
      }
      tried := if won then Wrote else Lost;
    }

    method Decide(me: nat) returns (decided: bool)
      requires Valid() && me in s.calls && s.calls[me].phase.Changing?
      modifies this
      ensures Valid() && Extends(old(tr), old(acts)) && |acts| == |old(acts)| + 1
      ensures decided <==> old(s.calls[me].phase.note in s.notes && Applies(s.notes[s.calls[me].phase.note].value, s.calls[me].phase.change, s.clock))
      ensures decided ==>
                && me in s.calls && s.calls[me].task == old(s.calls[me].task) && s.calls[me].phase.Committing?
                && var p, next := old(s.calls[me].phase), s.calls[me].phase.next; var base := old(s.notes)[p.note];
                   && s.calls[me].phase == Committing(p.note, p.change, base, next, p.attempt, p.expire)
                   && ChangesTo(base.value, p.change, old(s.clock), next)
      ensures !decided ==> IdleAt(old(s), acts[|old(acts)|], me, old(s.calls[me].phase.note), old(s.calls[me].phase.change))
      ensures !decided ==> me in s.calls ==> Some(s.calls[me]) == ThenExpire(old(s.calls[me]), old(s.calls[me].phase.note), old(s.calls[me].phase.expire))
    {
      hide IsRun, Step, Changed, Applies, ChangesTo, DoRead, DoExamine, DoFinish, DoClaim, DoList, DoCommit, DoCreate, DoRetry, DoMutate;
      var c := s.calls[me];
      var n := c.phase.note;
      var next := if n in s.notes then Changed(s.notes[n].value, c.phase.change, s.clock) else None;
      if n in s.notes {
        ChangedExactly(s.notes[n].value, c.phase.change, s.clock);
      }
      decided := next.Some?;
      if decided {
        Take(me, Success, GoOn(s, c, Committing(n, c.phase.change, s.notes[n], next.value, c.phase.attempt, c.phase.expire)));
      } else {
        Take(me, Success, Effect(s.notes, s.deliveries, ThenExpire(c, n, c.phase.expire)));
      }
    }

    method Write(me: nat) returns (won: bool)
      requires Valid() && me in s.calls && s.calls[me].phase.Committing?
      modifies this
      ensures Valid() && Extends(old(tr), old(acts)) && tr == old(tr) + [s] && acts == old(acts) + [Go(me, Success)]
      ensures var c := old(s.calls[me]); var p := c.phase;
              && won == CasWins(old(s.notes), p.note, p.base.version)
              && s.notes == Cas(old(s.notes), p.note, p.base.version, p.next)
              && if !won && p.attempt + 1 < MAX_TRANSITIONS
                 then me in s.calls && s.calls[me] == c.(phase := Changing(p.note, p.change, p.attempt + 1, p.expire))
                 else me in s.calls ==> Some(s.calls[me]) == ThenExpire(c, p.note, p.expire)
    {
      hide IsRun, Step, Changed, DoRead, DoExamine, DoFinish, DoClaim, DoList, DoChange, DoCreate, DoRetry, DoMutate;
      var c := s.calls[me];
      var p := c.phase;
      won := p.note in s.notes && s.notes[p.note].version == p.base.version;
      if won {
        Take(me, Success, Effect(s.notes[p.note := Row(p.next, p.base.version + 1)], s.deliveries, ThenExpire(c, p.note, p.expire)));
      } else if p.attempt + 1 < MAX_TRANSITIONS {
        Take(me, Success, GoOn(s, c, Changing(p.note, p.change, p.attempt + 1, p.expire)));
      } else {
        Take(me, Success, Effect(s.notes, s.deliveries, ThenExpire(c, p.note, p.expire)));
      }
    }
  }
}

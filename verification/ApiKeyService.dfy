/**
 The API-key service's programs, as retry loops over the store, between awaits at
 which every other call of every process does whatever it likes. Each of their
 steps is a step of the state machine in module ApiKeys, so every theorem about
 runs is about these programs.
*/
module ApiKeyService {
  import opened Common
  import opened FeltDb
  import opened Restrictions
  import opened ApiKeys
  import opened ApiKeyInvariants
  import opened ApiKeyTheorems
  import opened ApiKeyOutcomes

  const NO_KEYS := State(0, Store(map[], map[], map[]), map[], map[])

  lemma NoKeysIsFine()
    ensures Inv(NO_KEYS) && NO_KEYS.calls == map[]
  {}

  /** At some instant of `tr` from `from` on, the prefix named this key, and it was good. */
  ghost predicate WasGood(cfg: Config, tr: seq<State>, from: nat, id: string, prefix: string, secret: string, app: string) {
    exists j :: from <= j < |tr| && GoodKey(cfg, tr[j], prefix, secret, app) && tr[j].store.prefixes[prefix] == id
  }

  lemma GoodStays(cfg: Config, a: seq<State>, b: seq<State>, from: nat, id: string, prefix: string, secret: string, app: string)
    requires WasGood(cfg, a, from, id, prefix, secret, app) && a <= b
    ensures WasGood(cfg, b, from, id, prefix, secret, app)
  {
    var j :| from <= j < |a| && GoodKey(cfg, a[j], prefix, secret, app) && a[j].store.prefixes[prefix] == id;
    assert b[j] == a[j];
  }

  /** At some instant of `tr` from `from` on, the prefix named no good key. */
  ghost predicate SawNoGoodKey(cfg: Config, tr: seq<State>, from: nat, prefix: string, secret: string, app: string) {
    exists j :: from <= j < |tr| && !GoodKey(cfg, tr[j], prefix, secret, app)
  }

  lemma SawEarlier(cfg: Config, a: seq<State>, b: seq<State>, from: nat, earlier: nat, prefix: string, secret: string, app: string)
    requires SawNoGoodKey(cfg, a, from, prefix, secret, app) && a <= b && earlier <= from
    ensures SawNoGoodKey(cfg, b, earlier, prefix, secret, app)
  {
    hide GoodKey;
    var j :| from <= j < |a| && !GoodKey(cfg, a[j], prefix, secret, app);
    assert b[j] == a[j];
  }

  /** Between two instants the record under the prefix was rewritten: a race was lost. */
  ghost predicate RecordMoved(tr: seq<State>, from: nat, to: nat, prefix: string) {
    exists i, j :: from <= i < j < to <= |tr| && Moved(tr[i].store, tr[j].store, prefix)
  }

  predicate Moved(a: Store, b: Store, prefix: string) {
    prefix in a.prefixes && a.prefixes[prefix] in a.keys && a.prefixes[prefix] in b.keys && a.keys[a.prefixes[prefix]] != b.keys[a.prefixes[prefix]]
  }

  lemma MovedStays(a: seq<State>, b: seq<State>, from: nat, to: nat, prefix: string)
    requires RecordMoved(a, from, to, prefix) && a <= b
    ensures RecordMoved(b, from, to, prefix)
  {
    hide Moved;
    var i, j :| from <= i < j < to <= |a| && Moved(a[i].store, a[j].store, prefix);
    assert b[i] == a[i] && b[j] == a[j];
  }

  /** After one read: a key in hand, or one more attempt. */
  predicate FoundOrAgain(c: Call, attempt: nat) {
    || (c.phase.Loaded? && c.attempt == attempt < MAX_UPDATE_ATTEMPTS)
    || c.phase.Identified?
    || (c.phase == Ready && c.attempt == attempt + 1 <= MAX_UPDATE_ATTEMPTS)
  }

  /** The key is the caller's and is revoked. */
  predicate RevokedFor(st: Store, id: string, c: Call) {
    && id in st.keys && st.keys[id].value.revokedAt.Some?
    && Owns(st.keys[id].value, CallerTenant(c.caller), c.proc.app, true)
  }

  /** The keys of a tenant and application, or those of them one principal created. */
  function OwnedIds(st: Store, tenant: string, app: string, createdBy: Option<string>): set<string> {
    set id | id in st.keys && Owns(st.keys[id].value, tenant, app, true) && (createdBy.Some? ==> st.keys[id].value.createdBy == createdBy.value)
  }

  predicate AllRevoked(st: Store, ids: set<string>, tenant: string, app: string) {
    forall id :: id in ids ==> id in st.keys && st.keys[id].value.revokedAt.Some? && Owns(st.keys[id].value, tenant, app, true)
  }

  function UnrevokedIds(st: Store, tenant: string, app: string, createdBy: Option<string>): (ids: set<string>)
    ensures ids <= OwnedIds(st, tenant, app, createdBy)
  {
    set id | id in OwnedIds(st, tenant, app, createdBy) && st.keys[id].value.revokedAt.None?
  }

  lemma OthersAreRevoked(st: Store, tenant: string, app: string, createdBy: Option<string>)
    ensures AllRevoked(st, OwnedIds(st, tenant, app, createdBy) - UnrevokedIds(st, tenant, app, createdBy), tenant, app)
  {}

  /** What was revoked stays revoked while one more is revoked. */
  lemma OneMoreRevoked(a: Store, b: Store, ids: set<string>, id: string, tenant: string, app: string)
    requires AllRevoked(a, ids, tenant, app) && StoreForward(a, b)
    requires id in b.keys && b.keys[id].value.revokedAt.Some? && Owns(b.keys[id].value, tenant, app, true)
    ensures AllRevoked(b, ids + {id}, tenant, app)
  {}

  /** What one call is: everything about it but how far it got. */
  predicate SameCall(a: Call, b: Call) {
    a.caller == b.caller && a.proc == b.proc && a.task == b.task
  }

  /** Other calls' steps and the passing of time leave a call where it is. */
  lemma OthersLeaveCall(cfg: Config, s: State, a: Action, me: nat)
    requires Enabled(s, a) && me in s.calls && a != Crash(me) && !(a.Go? && a.call == me) && !(a.Begin? && a.call == me)
    ensures var s' := Step(cfg, s, a); me in s'.calls && s'.calls[me] == s.calls[me]
  {
    hide Do, Apply, Remember, CredentialCheck;
  }

  lemma SameGood(cfg: Config, a: State, b: State, prefix: string, secret: string, app: string)
    requires a.store == b.store && a.clock == b.clock
    ensures GoodKey(cfg, a, prefix, secret, app) <==> GoodKey(cfg, b, prefix, secret, app)
  {}

  lemma SawHere(cfg: Config, tr: seq<State>, j: nat, from: nat, prefix: string, secret: string, app: string)
    requires from <= j < |tr| && !GoodKey(cfg, tr[j], prefix, secret, app)
    ensures SawNoGoodKey(cfg, tr, from, prefix, secret, app)
  {}

  lemma MovedHere(tr: seq<State>, i: nat, j: nat, from: nat, to: nat, prefix: string)
    requires from <= i < j < to <= |tr| && Moved(tr[i].store, tr[j].store, prefix)
    ensures RecordMoved(tr, from, to, prefix)
  {}

  /** The attempt failed to read, failed to write, or lost a race between its two marks. */
  ghost predicate AttemptLost(found: Input, used: Input, tr: seq<State>, from: nat, to: nat, prefix: string) {
    found.readFails || used.readFails || RecordMoved(tr, from, to + 1, prefix)
  }

  ghost predicate AttemptsLost(input: nat -> Input, tr: seq<State>, marks: seq<nat>, attempts: nat, prefix: string) {
    |marks| > attempts && forall a: nat :: a < attempts ==> AttemptLost(input(2 * a), input(2 * a + 1), tr, marks[a], marks[a + 1], prefix)
  }

  lemma OneMoreLost(input: nat -> Input, tr: seq<State>, marks: seq<nat>, attempt: nat, prefix: string)
    requires |marks| == attempt + 2 && AttemptsLost(input, tr, marks[..attempt + 1], attempt, prefix)
    requires AttemptLost(input(2 * attempt), input(2 * attempt + 1), tr, marks[attempt], marks[attempt + 1], prefix)
    ensures AttemptsLost(input, tr, marks, attempt + 1, prefix)
  {
    hide AttemptLost;
    var before := marks[..attempt + 1];
    forall a: nat | a < attempt + 1 ensures AttemptLost(input(2 * a), input(2 * a + 1), tr, marks[a], marks[a + 1], prefix) {
      if a < attempt {
        assert before[a] == marks[a] && before[a + 1] == marks[a + 1];
        assert AttemptLost(input(2 * a), input(2 * a + 1), tr, before[a], before[a + 1], prefix);
      }
    }
  }

  /** What was seen or lost so far stays so. */
  lemma StillLost(cfg: Config, input: nat -> Input, was: seq<State>, tr: seq<State>, from: nat, marks: seq<nat>, attempts: nat, prefix: string, secret: string, app: string)
    requires was <= tr && (SawNoGoodKey(cfg, was, from, prefix, secret, app) || AttemptsLost(input, was, marks, attempts, prefix))
    ensures SawNoGoodKey(cfg, tr, from, prefix, secret, app) || AttemptsLost(input, tr, marks, attempts, prefix)
  {
    hide SawNoGoodKey, RecordMoved;
    if SawNoGoodKey(cfg, was, from, prefix, secret, app) {
      SawEarlier(cfg, was, tr, from, from, prefix, secret, app);
    } else {
      forall a: nat | a < attempts ensures AttemptLost(input(2 * a), input(2 * a + 1), tr, marks[a], marks[a + 1], prefix) {
        assert AttemptLost(input(2 * a), input(2 * a + 1), was, marks[a], marks[a + 1], prefix);
        if RecordMoved(was, marks[a], marks[a + 1] + 1, prefix) {
          MovedStays(was, tr, marks[a], marks[a + 1] + 1, prefix);
        }
      }
    }
  }

  /** So far no good key was seen, or every attempt was lost. */
  ghost predicate Unanswered(cfg: Config, input: nat -> Input, tr: seq<State>, from: nat, marks: seq<nat>, attempts: nat, prefix: string, secret: string, app: string) {
    SawNoGoodKey(cfg, tr, from, prefix, secret, app) || AttemptsLost(input, tr, marks, attempts, prefix)
  }

  lemma NothingLostYet(cfg: Config, input: nat -> Input, tr: seq<State>, from: nat, prefix: string, secret: string, app: string)
    ensures Unanswered(cfg, input, tr, from, [from], 0, prefix, secret, app)
  {}

  lemma OneMoreUnanswered(cfg: Config, input: nat -> Input, was: seq<State>, tr: seq<State>, from: nat, marks: seq<nat>, attempt: nat, prefix: string, secret: string, app: string)
    requires was <= tr && from < |was| && |marks| == attempt + 1 && marks[attempt] == |was| - 1
    requires Unanswered(cfg, input, was, from, marks, attempt, prefix, secret, app)
    requires SawNoGoodKey(cfg, tr, |was| - 1, prefix, secret, app) || AttemptLost(input(2 * attempt), input(2 * attempt + 1), tr, |was| - 1, |tr| - 1, prefix)
    ensures Unanswered(cfg, input, tr, from, marks + [|tr| - 1], attempt + 1, prefix, secret, app)
  {
    hide SawNoGoodKey, AttemptsLost, AttemptLost;
    StillLost(cfg, input, was, tr, from, marks, attempt, prefix, secret, app);
    if SawNoGoodKey(cfg, tr, |was| - 1, prefix, secret, app) {
      SawEarlier(cfg, tr, tr, |was| - 1, from, prefix, secret, app);
    } else if !SawNoGoodKey(cfg, tr, from, prefix, secret, app) {
      assert (marks + [|tr| - 1])[..attempt + 1] == marks;
      OneMoreLost(input, tr, marks + [|tr| - 1], attempt, prefix);
    }
  }

  lemma EndsUnanswered(cfg: Config, input: nat -> Input, was: seq<State>, tr: seq<State>, from: nat, marks: seq<nat>, attempt: nat, prefix: string, secret: string, app: string)
    requires was <= tr && from < |was| && Unanswered(cfg, input, was, from, marks, attempt, prefix, secret, app)
    requires SawNoGoodKey(cfg, tr, |was| - 1, prefix, secret, app) || (attempt == 10 && input(20).readFails)
    ensures SawNoGoodKey(cfg, tr, from, prefix, secret, app) || (input(20).readFails && AttemptsLost(input, tr, marks, 10, prefix))
  {
    hide SawNoGoodKey, AttemptsLost;
    StillLost(cfg, input, was, tr, from, marks, attempt, prefix, secret, app);
    if SawNoGoodKey(cfg, tr, |was| - 1, prefix, secret, app) {
      SawEarlier(cfg, tr, tr, |was| - 1, from, prefix, secret, app);
    }
  }

  class Service {
    const cfg: Config
    var s: State
    ghost var tr: seq<State>
    ghost var acts: seq<Action>

    ghost predicate Valid()
      reads this
    {
      |tr| == |acts| + 1 && IsRun(cfg, tr, acts) && tr[0] == NO_KEYS && tr[|tr| - 1] == s
    }

    /** The history so far is a prefix of the history now. */
    ghost predicate Extends(was: seq<State>, did: seq<Action>)
      reads this
    {
      was <= tr && did <= acts
    }

    constructor (cfg: Config)
      ensures Valid() && this.cfg == cfg && s == NO_KEYS
    {
      this.cfg, s := cfg, NO_KEYS;
      tr, acts := [NO_KEYS], [];
    }

    /** What every run keeps, about this history. */
    lemma Kept(i: nat)
      requires Valid() && i < |tr|
      ensures Inv(tr[i]) && Inv(s) && Forward(tr[i], s)
    {
      NoKeysIsFine();
      RunKeepsInv(cfg, tr, acts, i, |tr| - 1);
    }

    /** A call read the clock no later than now. */
    lemma ReadBefore(me: nat)
      requires Valid() && me in s.calls && s.calls[me].phase.Approved?
      ensures s.calls[me].phase.at <= s.clock
    {
      hide IsRun, StoreForward;
      Kept(|tr| - 1);
    }

    /** One step of anybody. */
    method Act(a: Action)
      requires Valid() && Enabled(s, a)
      modifies this
      ensures Valid() && s == Step(cfg, old(s), a)
      ensures tr == old(tr) + [s] && acts == old(acts) + [a]
    {
      s := Step(cfg, s, a);
      tr, acts := tr + [s], acts + [a];
    }

    /** An await of call `me`: others act in any order; nobody else moves the call. */
    method Await(me: nat, world: seq<Action>)
      requires Valid() && me in s.calls
      modifies this
      ensures Valid() && Extends(old(tr), old(acts)) && (world == [] ==> s == old(s) && tr == old(tr))
      ensures me in s.calls && s.calls[me] == old(s.calls[me])
    {
      hide IsRun, Step, Enabled;
      for i := 0 to |world|
        invariant Valid() && Extends(old(tr), old(acts)) && (i == 0 ==> s == old(s) && tr == old(tr))
        invariant me in s.calls && s.calls[me] == old(s.calls[me])
      {
        var a := world[i];
        if Enabled(s, a) && a != Crash(me) && !(a.Go? && a.call == me) && !(a.Begin? && a.call == me) {
          OthersLeaveCall(cfg, s, a, me);
          Act(a);
        }
      }
    }

    /** `randomUUID`: an id no stored key has. */
    method RandomUuid() returns (id: string)
      ensures id !in s.store.keys
    {
      id := "";
      var rest := s.store.keys.Keys;
      while rest != {}
        invariant rest <= s.store.keys.Keys
        invariant forall k :: k in s.store.keys.Keys - rest ==> |k| < |id|
        decreases rest
      {
        var k :| k in rest;
        if |k| >= |id| {
          id := k + "x";
        }
        rest := rest - {k};
      }
    }

    /** The gateway lets the call in, or denies it. */
    method Enter(me: nat, caller: Caller, proc: Proc, task: Task) returns (ok: bool)
      requires Valid() && me !in s.calls
      modifies this
      ensures Valid() && Extends(old(tr), old(acts))
      ensures ok ==> me in s.calls && s.calls[me] == Call(caller, proc, task, Ready, 0) && |tr| == |old(tr)| + 1
      ensures ok == Enabled(old(s), Begin(me, caller, proc, task)) && s.store == old(s.store) && s.clock == old(s.clock)
      ensures ok && task.Update? ==> AsksSomething(task.changes)
      ensures !ok ==> s == old(s) && tr == old(tr)
    {
      hide AsksSomething;
      ok := Enabled(s, Begin(me, caller, proc, task));
      if ok {
        Act(Begin(me, caller, proc, task));
      }
    }

    /** The next atomic step of the call: exactly this effect. */
    method Take(me: nat, input: Input, e: Effect)
      requires Valid() && me in s.calls && Enabled(s, Go(me, input))
      requires e == EffectOf(cfg, s, me, input)
      modifies this
      ensures Valid() && Extends(old(tr), old(acts)) && |tr| == |old(tr)| + 1 && s.clock == old(s.clock)
      ensures s.store == Apply(old(s.store), e.write)
      ensures e.next.Some? ==> me in s.calls && s.calls[me] == e.next.value
      ensures e.next.None? ==> me !in s.calls
    {
      Act(Go(me, input));
    }

    method Drop(me: nat)
      requires Valid() && me in s.calls
      modifies this
      ensures Valid() && Extends(old(tr), old(acts)) && me !in s.calls && s.store == old(s.store) && |tr| == |old(tr)| + 1
    {
      Act(Crash(me));
    }

    /** Rotate a key: exactly one replacement, linked both ways, and the old key retired in the same commit. */
    method RotateApiKey(me: nat, caller: Caller, proc: Proc, id: string, overlap: nat, world: nat -> seq<Action>, input: nat -> Input)
      returns (replacement: Option<string>, ghost was: ApiKey, ghost at: nat)
      requires Valid() && me !in s.calls && caller != Unidentified
      modifies this
      ensures Valid() && Extends(old(tr), old(acts)) && me !in s.calls
      ensures replacement.Some? ==> Rotated(s.store, id, replacement.value, overlap, was, at, proc.app, CallerId(caller)) && at <= s.clock
    {
      hide IsRun, Step, Apply, Do, Rotated;
      replacement, was, at := None, NewKey("", "", "", "", "", None, None, None, ""), 0;
      var entered := Enter(me, caller, proc, Rotate(id, overlap));
      if !entered {
        return;
      }
      for attempt := 0 to MAX_UPDATE_ATTEMPTS
        invariant Valid() && Extends(old(tr), old(acts))
        invariant attempt < MAX_UPDATE_ATTEMPTS ==>
                    me in s.calls && s.calls[me] == Call(caller, proc, Rotate(id, overlap), Ready, attempt)
        invariant attempt == MAX_UPDATE_ATTEMPTS ==> me !in s.calls
        invariant replacement.None?
      {
        Await(me, world(3 * attempt));
        var approved := LoadForRotation(me, id, world(3 * attempt + 1), input(3 * attempt));
        if !approved {
          return;
        }
        Await(me, world(3 * attempt + 2));
        was, at := s.calls[me].phase.row.value, s.calls[me].phase.at;
        replacement := CommitRotation(me, input(3 * attempt + 1));
        if replacement.Some? {
          return;
        }
      }
    }

    /** Read the key, refuse it unless it is an active key nobody rotated, and check the caller's ceiling. */
    method LoadForRotation(me: nat, id: string, world: seq<Action>, input: Input) returns (ok: bool)
      requires Valid() && me in s.calls && s.calls[me].task.Rotate? && s.calls[me].task.id == id && s.calls[me].phase == Ready
      modifies this
      ensures Valid() && Extends(old(tr), old(acts))
      ensures ok ==> me in s.calls && SameCall(s.calls[me], old(s.calls[me])) && s.calls[me].attempt == old(s.calls[me].attempt) && s.calls[me].phase.Approved? && s.calls[me].phase.id == id
                     && s.calls[me].phase.row.value.rotatedTo.None? && Active(s.calls[me].phase.row.value, s.calls[me].phase.at)
      ensures !ok ==> me !in s.calls
    {
      hide IsRun, Step, Apply, DoCreate, DoUpdate, DoRevoke, DoAuthenticate, WithinCaller;
      var c := s.calls[me];
      ok := false;
      var uuid := RandomUuid();
      if id !in s.store.keys {
        Take(me, input.(newId := uuid), RETURNED);
        return;
      }
      var current, now := s.store.keys[id], s.clock;
      if !Owns(current.value, CallerTenant(c.caller), c.proc.app, false) || current.value.rotatedTo.Some? || !Active(current.value, now) {
        Take(me, input.(newId := uuid), RETURNED);
        return;
      }
      Take(me, input.(newId := uuid), GoOn(c, Loaded(id, current, now)));
      Await(me, world);
      uuid := RandomUuid();
      if !WithinCaller(s.store.keys, c.caller, current.value.restrictions, current.value.expiresAt) {
        Take(me, input.(newId := uuid), RETURNED);
        return;
      }
      Take(me, input.(newId := uuid), GoOn(s.calls[me], Approved(id, current, now)));
      ok := true;
    }

    /** Issue the replacement and retire the key in one transaction; a lost race retries. */
    method CommitRotation(me: nat, input: Input) returns (replacement: Option<string>)
      requires Valid() && me in s.calls && s.calls[me].task.Rotate? && s.calls[me].phase.Approved?
      requires s.calls[me].phase.row.value.rotatedTo.None? && Active(s.calls[me].phase.row.value, s.calls[me].phase.at)
      modifies this
      ensures Valid() && Extends(old(tr), old(acts))
      ensures replacement.Some? ==>
                me !in s.calls && Rotated(s.store, old(s.calls[me].phase.id), replacement.value, old(s.calls[me].task.overlap),
                                          old(s.calls[me].phase.row.value), old(s.calls[me].phase.at), old(s.calls[me].proc.app), CallerId(old(s.calls[me].caller)))
                && old(s.calls[me].phase.at) <= s.clock
      ensures replacement.None? ==>
                && var c := old(s.calls[me]);
                if c.attempt + 1 < MAX_UPDATE_ATTEMPTS then me in s.calls && s.calls[me] == c.(phase := Ready, attempt := c.attempt + 1)
                else me !in s.calls
    {
      hide IsRun, Step, DoCreate, DoUpdate, DoRevoke, DoAuthenticate, WithinCaller;
      var c := s.calls[me];
      var id, row, now := c.phase.id, c.phase.row, c.phase.at;
      var newId := RandomUuid();
      ReadBefore(me);
      if CasWins(s.store.keys, id, row.version) && input.newPrefix !in s.store.prefixes {
        var retired := RetiredKey(row.value, newId, now, c.task.overlap);
        var issued := Replacement(row.value, id, c.proc.app, CallerId(c.caller), input.newPrefix, input.newHash);
        Take(me, input.(newId := newId), Effect(Rotation(id, retired, newId, issued), None, Some((input.newPrefix, newId))));
        replacement := Some(newId);
      } else {
        Take(me, input.(newId := newId), Again(c, Ready, MAX_UPDATE_ATTEMPTS));
        replacement := None;
      }
    }

    /** Create a key within the caller's ceiling; a prefix that is already taken is drawn again. */
    method CreateApiKey(me: nat, caller: Caller, proc: Proc, name: string, restrictions: Option<Restrictions>, expiresAt: Option<nat>,
                        world: nat -> seq<Action>, input: nat -> Input)
      returns (created: Option<string>)
      requires Valid() && me !in s.calls && caller != Unidentified
      modifies this
      ensures Valid() && Extends(old(tr), old(acts)) && me !in s.calls
      ensures created.Some? ==> Issued(s.store, created.value, caller, proc, Create(name, restrictions, expiresAt))
    {
      hide IsRun, Step, Apply, Issued, DoUpdate, DoRotate, DoRevoke, DoAuthenticate, WithinCaller, IsBlank;
      created := None;
      var task := Create(name, restrictions, expiresAt);
      var entered := Enter(me, caller, proc, task);
      if !entered {
        return;
      }
      Await(me, world(0));
      var uuid := RandomUuid();
      if !WithinCaller(s.store.keys, caller, restrictions, expiresAt) {
        Take(me, input(0).(newId := uuid), RETURNED);
        return;
      }
      Take(me, input(0).(newId := uuid), GoOn(s.calls[me], Cleared));
      for attempt := 0 to MAX_CREATE_ATTEMPTS
        invariant Valid() && Extends(old(tr), old(acts)) && created.None?
        invariant attempt < MAX_CREATE_ATTEMPTS ==> me in s.calls && s.calls[me] == Call(caller, proc, task, Cleared, attempt)
        invariant attempt == MAX_CREATE_ATTEMPTS ==> me !in s.calls
      {
        Await(me, world(attempt + 1));
        created := Issue(me, input(attempt + 1));
        if me !in s.calls {
          return;
        }
      }
    }

    /** One attempt to write a key and its prefix together. */
    method Issue(me: nat, input: Input) returns (created: Option<string>)
      requires Valid() && me in s.calls && s.calls[me].task.Create? && s.calls[me].phase == Cleared
      modifies this
      ensures Valid() && Extends(old(tr), old(acts))
      ensures created.Some? ==> me !in s.calls && Issued(s.store, created.value, old(s.calls[me].caller), old(s.calls[me].proc), old(s.calls[me].task))
      ensures created.None? ==> var c := old(s.calls[me]);
                if c.attempt + 1 < MAX_CREATE_ATTEMPTS && !IsBlank(c.task.name) then me in s.calls && s.calls[me] == c.(attempt := c.attempt + 1)
                else me !in s.calls
    {
      hide IsRun, Step, DoUpdate, DoRotate, DoRevoke, DoAuthenticate, WithinCaller;
      var uuid := RandomUuid();
      var answer := input.(newId := uuid);
      var c := s.calls[me];
      if IsBlank(c.task.name) {
        Take(me, answer, RETURNED);
        created := None;
      } else if answer.newPrefix !in s.store.prefixes {
        var k := NewKey(CallerTenant(c.caller), c.proc.app, c.task.name, answer.newPrefix, answer.newHash, c.task.restrictions, c.task.expiresAt, None, CallerId(c.caller));
        Take(me, answer, Effect(NewEntry(uuid, k), None, Some((answer.newPrefix, uuid))));
        created := Some(uuid);
      } else {
        Take(me, answer, Again(c, Cleared, MAX_CREATE_ATTEMPTS));
        created := None;
      }
    }

    /** Change a key's name, restrictions or expiry within the caller's ceiling. */
    method UpdateApiKey(me: nat, caller: Caller, proc: Proc, id: string, changes: Changes, world: nat -> seq<Action>, input: nat -> Input)
      returns (ok: bool, ghost was: ApiKey)
      requires Valid() && me !in s.calls && caller != Unidentified
      modifies this
      ensures Valid() && Extends(old(tr), old(acts)) && me !in s.calls
      ensures ok ==> AsksSomething(changes) && id in s.store.keys && ChangesApplied(was, s.store.keys[id].value, changes)
    {
      hide IsRun, Step, Do, Apply, ChangesApplied, AsksSomething, IsBlank;
      ok, was := false, NewKey("", "", "", "", "", None, None, None, "");
      var entered := Enter(me, caller, proc, Update(id, changes));
      if !entered {
        return;
      }
      for attempt := 0 to MAX_UPDATE_ATTEMPTS
        invariant Valid() && Extends(old(tr), old(acts)) && !ok
        invariant attempt < MAX_UPDATE_ATTEMPTS ==>
                    me in s.calls && s.calls[me] == Call(caller, proc, Update(id, changes), Ready, attempt)
        invariant attempt == MAX_UPDATE_ATTEMPTS ==> me !in s.calls
      {
        Await(me, world(3 * attempt));
        var approved := LoadForUpdate(me, id, world(3 * attempt + 1), input(3 * attempt));
        if !approved {
          return;
        }
        Await(me, world(3 * attempt + 2));
        was := s.calls[me].phase.row.value;
        ok := CommitUpdate(me, input(3 * attempt + 1));
        if ok {
          return;
        }
      }
    }

    method LoadForUpdate(me: nat, id: string, world: seq<Action>, input: Input) returns (ok: bool)
      requires Valid() && me in s.calls && s.calls[me].task.Update? && s.calls[me].task.id == id && s.calls[me].phase == Ready
      modifies this
      ensures Valid() && Extends(old(tr), old(acts))
      ensures ok ==> me in s.calls && SameCall(s.calls[me], old(s.calls[me])) && s.calls[me].attempt == old(s.calls[me].attempt)
                     && s.calls[me].phase.Approved? && s.calls[me].phase.id == id && s.calls[me].phase.row.value.revokedAt.None?
      ensures !ok ==> me !in s.calls
    {
      hide IsRun, Step, Apply, DoCreate, DoRotate, DoRevoke, DoAuthenticate, WithinCaller;
      var c := s.calls[me];
      ok := false;
      var uuid := RandomUuid();
      if id !in s.store.keys {
        Take(me, input.(newId := uuid), RETURNED);
        return;
      }
      var current, now := s.store.keys[id], s.clock;
      if !Owns(current.value, CallerTenant(c.caller), c.proc.app, false) || current.value.revokedAt.Some? {
        Take(me, input.(newId := uuid), RETURNED);
        return;
      }
      Take(me, input.(newId := uuid), GoOn(c, Loaded(id, current, now)));
      Await(me, world);
      uuid := RandomUuid();
      var changes := c.task.changes;
      var next := UpdatedKey(current.value, changes);
      if !(changes.restrictions.Keep? && changes.expiresAt.Keep?) && !WithinCaller(s.store.keys, c.caller, next.restrictions, next.expiresAt) {
        Take(me, input.(newId := uuid), RETURNED);
        return;
      }
      Take(me, input.(newId := uuid), GoOn(s.calls[me], Approved(id, current, now)));
      ok := true;
    }

    method CommitUpdate(me: nat, input: Input) returns (ok: bool)
      requires Valid() && me in s.calls && s.calls[me].task.Update? && s.calls[me].phase.Approved? && s.calls[me].phase.row.value.revokedAt.None?
      modifies this
      ensures Valid() && Extends(old(tr), old(acts))
      ensures ok ==> me !in s.calls && old(s.calls[me].phase.id) in s.store.keys
                     && ChangesApplied(old(s.calls[me].phase.row.value), s.store.keys[old(s.calls[me].phase.id)].value, old(s.calls[me].task.changes))
      ensures !ok ==> var c := old(s.calls[me]);
                      if c.attempt + 1 < MAX_UPDATE_ATTEMPTS then me in s.calls && s.calls[me] == c.(phase := Ready, attempt := c.attempt + 1)
                      else me !in s.calls
    {
      hide IsRun, Step, DoCreate, DoRotate, DoRevoke, DoAuthenticate, WithinCaller;
      var c := s.calls[me];
      var id, row := c.phase.id, c.phase.row;
      var newId := RandomUuid();
      ok := CasWins(s.store.keys, id, row.version);
      if ok {
        Take(me, input.(newId := newId), Effect(Rewrite(id, UpdatedKey(row.value, c.task.changes)), None, None));
      } else {
        Take(me, input.(newId := newId), Again(c, Ready, MAX_UPDATE_ATTEMPTS));
      }
    }

    /** Revoke a key, or find it revoked already: either way it is revoked when this returns. */
    method RevokeApiKey(me: nat, caller: Caller, proc: Proc, id: string, listed: bool, world: nat -> seq<Action>, input: nat -> Input)
      returns (ok: bool)
      requires Valid() && me !in s.calls && caller != Unidentified
      modifies this
      ensures Valid() && Extends(old(tr), old(acts)) && me !in s.calls
      ensures ok ==> RevokedFor(s.store, id, Call(caller, proc, Revoke(id, listed), Ready, 0))
    {
      hide IsRun, Step, Do, Apply, CredentialCheck, Owns;
      ok := false;
      var task := Revoke(id, listed);
      var entered := Enter(me, caller, proc, task);
      if !entered {
        return;
      }
      for attempt := 0 to MAX_UPDATE_ATTEMPTS
        invariant Valid() && Extends(old(tr), old(acts)) && !ok
        invariant attempt < MAX_UPDATE_ATTEMPTS ==> me in s.calls && s.calls[me] == Call(caller, proc, task, Ready, attempt)
        invariant attempt == MAX_UPDATE_ATTEMPTS ==> me !in s.calls
      {
        Await(me, world(2 * attempt));
        ok := LoadForRevoke(me, id, input(2 * attempt));
        if me !in s.calls {
          return;
        }
        Await(me, world(2 * attempt + 1));
        ok := CommitRevoke(me, input(2 * attempt + 1));
        if ok {
          return;
        }
      }
    }

    /** Read the key: gone or not the caller's, revoked already, or to be revoked. */
    method LoadForRevoke(me: nat, id: string, input: Input) returns (ok: bool)
      requires Valid() && me in s.calls && s.calls[me].task.Revoke? && s.calls[me].task.id == id && s.calls[me].phase == Ready
      modifies this
      ensures Valid() && Extends(old(tr), old(acts)) && s.store == old(s.store)
      ensures ok ==> me !in s.calls && RevokedFor(s.store, id, old(s.calls[me]))
      ensures me in s.calls ==> SameCall(s.calls[me], old(s.calls[me])) && s.calls[me].attempt == old(s.calls[me].attempt)
                                && s.calls[me].phase.Loaded? && s.calls[me].phase.id == id
                                && Owns(s.calls[me].phase.row.value, CallerTenant(s.calls[me].caller), s.calls[me].proc.app, true)
    {
      hide IsRun, Step, DoCreate, DoUpdate, DoRotate, DoAuthenticate;
      ok := false;
      var uuid := RandomUuid();
      var answer := input.(newId := uuid);
      var c := s.calls[me];
      if id !in s.store.keys || !Owns(s.store.keys[id].value, CallerTenant(c.caller), c.proc.app, true) {
        Take(me, answer, RETURNED);
        return;
      }
      var current, now := s.store.keys[id], s.clock;
      if current.value.revokedAt.Some? {
        Take(me, answer, RETURNED);
        ok := true;
        return;
      }
      Take(me, answer, GoOn(c, Loaded(id, current, now)));
    }

    method CommitRevoke(me: nat, input: Input) returns (ok: bool)
      requires Valid() && me in s.calls && s.calls[me].task.Revoke? && s.calls[me].phase.Loaded?
      requires Owns(s.calls[me].phase.row.value, CallerTenant(s.calls[me].caller), s.calls[me].proc.app, true)
      modifies this
      ensures Valid() && Extends(old(tr), old(acts))
      ensures ok ==> me !in s.calls && RevokedFor(s.store, old(s.calls[me].phase.id), old(s.calls[me]))
      ensures !ok ==> var c := old(s.calls[me]);
                if c.attempt + 1 < MAX_UPDATE_ATTEMPTS then me in s.calls && s.calls[me] == c.(phase := Ready, attempt := c.attempt + 1)
                else me !in s.calls
    {
      hide IsRun, Step, DoCreate, DoUpdate, DoRotate, DoAuthenticate;
      var c := s.calls[me];
      var id, row, now := c.phase.id, c.phase.row, c.phase.at;
      var uuid := RandomUuid();
      ok := CasWins(s.store.keys, id, row.version);
      if ok {
        Take(me, input.(newId := uuid), Effect(Rewrite(id, RevokedKey(row.value, now)), None, None));
      } else {
        Take(me, input.(newId := uuid), Again(c, Ready, MAX_UPDATE_ATTEMPTS));
      }
    }

    /**
     Who presented this secret: the key it belongs to, if that key was good at some
     instant inside the call. Without an answer, it was not good at some instant
     inside the call, or each of the ten attempts failed to read or to write, or lost
     a race for the record, and the last read failed too. Undisturbed, a good key is
     always answered.
    */
    method AuthenticateApiKey(me: nat, proc: Proc, prefix: string, secret: string, world: nat -> seq<Action>, input: nat -> Input)
      returns (principal: Option<string>, ghost marks: seq<nat>)
      requires Valid() && me !in s.calls
      modifies this
      ensures Valid() && Extends(old(tr), old(acts)) && me !in s.calls
      ensures principal.Some? ==> WasGood(cfg, tr, |old(tr)|, principal.value, prefix, secret, proc.app)
      ensures principal.None? ==> SawNoGoodKey(cfg, tr, |old(tr)|, prefix, secret, proc.app) || (input(20).readFails && AttemptsLost(input, tr, marks, 10, prefix))
      ensures GoodKey(cfg, old(s), prefix, secret, proc.app) && world(0) == [] && world(1) == [] && !input(0).readFails && !input(1).readFails ==>
                principal == Some(old(s.store.prefixes[prefix]))
    {
      hide IsRun, Step, Do, Apply, GoodKey, WasGood, SawNoGoodKey, RecordMoved, AttemptsLost;
      var entered := Enter(me, Unidentified, proc, Authenticate(prefix, secret));
      assert entered;
      SameGood(cfg, old(s), s, prefix, secret, proc.app);
      principal, marks := TryAgain(me, old(tr), world, input);
    }

    /** Up to eleven attempts, one after the other, each from the record as it is by then. */
    method TryAgain(me: nat, ghost was: seq<State>, world: nat -> seq<Action>, input: nat -> Input) returns (principal: Option<string>, ghost marks: seq<nat>)
      requires Valid() && 0 < |was| && |tr| == |was| + 1 && was <= tr && me !in was[|was| - 1].calls
      requires me in s.calls && s.calls[me].task.Authenticate? && s.calls[me].phase == Ready && s.calls[me].attempt == 0
      modifies this
      ensures Valid() && Extends(old(tr), old(acts)) && me !in s.calls
      ensures var c := old(s.calls[me]); principal.Some? ==> WasGood(cfg, tr, |was|, principal.value, c.task.prefix, c.task.secret, c.proc.app)
      ensures var c := old(s.calls[me]);
              principal.None? ==> SawNoGoodKey(cfg, tr, |was|, c.task.prefix, c.task.secret, c.proc.app) || (input(20).readFails && AttemptsLost(input, tr, marks, 10, c.task.prefix))
      ensures var c := old(s.calls[me]);
              GoodKey(cfg, old(s), c.task.prefix, c.task.secret, c.proc.app) && world(0) == [] && world(1) == [] && !input(0).readFails && !input(1).readFails ==>
                principal == Some(old(s.store.prefixes[s.calls[me].task.prefix]))
    {
      hide IsRun, Step, Do, Apply, GoodKey, WasGood, SawNoGoodKey, RecordMoved, AttemptsLost, Unanswered;
      var c := s.calls[me];
      ghost var prefix, secret, app, from := c.task.prefix, c.task.secret, c.proc.app, |was|;
      ghost var undisturbed := GoodKey(cfg, s, prefix, secret, app) && world(0) == [] && world(1) == [] && !input(0).readFails && !input(1).readFails;
      principal, marks := None, [from];
      NothingLostYet(cfg, input, tr, from, prefix, secret, app);
      for attempt := 0 to MAX_UPDATE_ATTEMPTS + 1
        invariant Valid() && Extends(old(tr), old(acts)) && principal.None? && |tr| > from
        invariant attempt <= MAX_UPDATE_ATTEMPTS ==> me in s.calls && s.calls[me] == c.(attempt := attempt)
        invariant attempt == MAX_UPDATE_ATTEMPTS + 1 ==> me !in s.calls && false
        invariant Unanswered(cfg, input, tr, from, marks, attempt, prefix, secret, app)
        invariant |marks| == attempt + 1 && marks[attempt] == |tr| - 1
        invariant if attempt == 0 then s == old(s) else !undisturbed
      {
        ghost var before := tr;
        principal := Attempt(me, was, world(2 * attempt), world(2 * attempt + 1), input(2 * attempt), input(2 * attempt + 1));
        if principal.Some? {
          return;
        }
        if me !in s.calls {
          EndsUnanswered(cfg, input, before, tr, from, marks, attempt, prefix, secret, app);
          return;
        }
        OneMoreUnanswered(cfg, input, before, tr, from, marks, attempt, prefix, secret, app);
        marks := marks + [|tr| - 1];
      }
    }

    /** One attempt: it answers, refuses, or leaves the call one attempt further on. */
    method Attempt(me: nat, ghost was: seq<State>, before: seq<Action>, between: seq<Action>, found: Input, used: Input) returns (principal: Option<string>)
      requires Valid() && 0 < |was| < |tr| && was <= tr && me !in was[|was| - 1].calls
      requires me in s.calls && s.calls[me].task.Authenticate? && s.calls[me].phase == Ready && s.calls[me].attempt <= MAX_UPDATE_ATTEMPTS
      modifies this
      ensures Valid() && Extends(old(tr), old(acts))
      ensures principal.Some? ==> me !in s.calls && WasGood(cfg, tr, |was|, principal.value, old(s.calls[me].task.prefix), old(s.calls[me].task.secret), old(s.calls[me].proc.app))
      ensures me in s.calls ==> old(s.calls[me].attempt) < MAX_UPDATE_ATTEMPTS && s.calls[me] == old(s.calls[me]).(attempt := old(s.calls[me].attempt) + 1)
      ensures var c := old(s.calls[me]);
              principal.None? ==>
                || SawNoGoodKey(cfg, tr, |old(tr)| - 1, c.task.prefix, c.task.secret, c.proc.app)
                || (me !in s.calls && c.attempt == MAX_UPDATE_ATTEMPTS && found.readFails)
                || (me in s.calls && (found.readFails || used.readFails || RecordMoved(tr, |old(tr)| - 1, |tr|, c.task.prefix)))
      ensures var c := old(s.calls[me]);
              GoodKey(cfg, old(s), c.task.prefix, c.task.secret, c.proc.app) && before == [] && between == [] && !found.readFails && !used.readFails ==>
                principal == Some(old(s.store.prefixes[s.calls[me].task.prefix]))
    {
      hide IsRun, Step, Do, Apply, GoodKey, WasGood, SawNoGoodKey, RecordMoved;
      ghost var c, start := s.calls[me], |tr| - 1;
      Await(me, before);
      ghost var read := |tr| - 1;
      FindAndVerify(me, found);
      principal := None;
      if me !in s.calls {
        if !(c.attempt == MAX_UPDATE_ATTEMPTS && found.readFails) {
          SawHere(cfg, tr, read, start, c.task.prefix, c.task.secret, c.proc.app);
        }
        return;
      }
      if s.calls[me].phase.Loaded? {
        Await(me, between);
        ghost var wrote := |tr| - 1;
        KeysStay(read);
        RecordLastUsed(me, used);
        if !used.readFails && !s.calls[me].phase.Identified? {
          MovedHere(tr, read, wrote, start, |tr|, c.task.prefix);
        }
      } else if s.calls[me].phase == Ready && !found.readFails {
        SawHere(cfg, tr, read, start, c.task.prefix, c.task.secret, c.proc.app);
      }
      if s.calls[me].phase.Identified? {
        principal := Answer(me, was);
      }
    }

    /** The call answers with the key it identified. */
    method Answer(me: nat, ghost was: seq<State>) returns (principal: Option<string>)
      requires Valid() && 0 < |was| && was <= tr && me !in was[|was| - 1].calls
      requires me in s.calls && s.calls[me].phase.Identified?
      modifies this
      ensures Valid() && Extends(old(tr), old(acts)) && me !in s.calls && principal == Some(old(s.calls[me].phase.id))
      ensures old(s.calls[me].task.Authenticate?)
      ensures WasGood(cfg, tr, |was|, principal.value, old(s.calls[me].task.prefix), old(s.calls[me].task.secret), old(s.calls[me].proc.app))
    {
      hide IsRun, Step, WasGood, GoodKey;
      var c := s.calls[me];
      principal := Some(c.phase.id);
      IdentifiedWasGood(me, was);
      ghost var before := tr;
      Drop(me);
      GoodStays(cfg, before, tr, |was|, principal.value, c.task.prefix, c.task.secret, c.proc.app);
    }

    lemma KeysStay(i: nat)
      requires Valid() && i < |tr|
      ensures forall id :: id in tr[i].store.keys ==> id in s.store.keys
    {
      hide IsRun, Inv;
      Kept(i);
    }

    /** A lookup through the cache finds what the prefix table names. */
    lemma FoundIsTable(proc: Proc, prefix: string)
      requires Valid()
      ensures FindByPrefix(s.store, CacheOf(s, proc), prefix) == (if prefix in s.store.prefixes then Some(s.store.prefixes[prefix]) else None)
      ensures prefix in s.store.prefixes ==> s.store.prefixes[prefix] in s.store.keys
    {
      hide IsRun, StoreForward, LineageInv, CallsOk;
      Kept(|tr| - 1);
      CacheAnswersAsTable(s.store, CacheOf(s, proc), prefix);
    }

    /** Find the key by prefix, cache first, and verify the secret against it. A good key is in hand unless the read fails. */
    method FindAndVerify(me: nat, input: Input)
      requires Valid() && me in s.calls && s.calls[me].task.Authenticate? && s.calls[me].phase == Ready && s.calls[me].attempt <= MAX_UPDATE_ATTEMPTS
      modifies this
      ensures Valid() && Extends(old(tr), old(acts)) && |tr| == |old(tr)| + 1 && s.store == old(s.store) && s.clock == old(s.clock)
      ensures me in s.calls ==> SameCall(s.calls[me], old(s.calls[me])) && FoundOrAgain(s.calls[me], old(s.calls[me].attempt))
      ensures var c := old(s.calls[me]); var good := GoodKey(cfg, old(s), c.task.prefix, c.task.secret, c.proc.app);
              if input.readFails then (if c.attempt < MAX_UPDATE_ATTEMPTS then me in s.calls && s.calls[me].phase == Ready else me !in s.calls)
              else (me in s.calls && s.calls[me].phase != Ready) <==> good
      ensures me in s.calls && s.calls[me].phase.Loaded? ==>
                var c := old(s.calls[me]);
                && c.task.prefix in s.store.prefixes && s.store.prefixes[c.task.prefix] in s.store.keys
                && s.calls[me].phase.id == s.store.prefixes[c.task.prefix] && s.calls[me].phase.row == s.store.keys[s.store.prefixes[c.task.prefix]]
      ensures me in s.calls && s.calls[me].phase.Identified? ==>
                var c := old(s.calls[me]); c.task.prefix in s.store.prefixes && s.calls[me].phase.id == s.store.prefixes[c.task.prefix]
    {
      hide IsRun, Step, DoCreate, DoUpdate, DoRotate, DoRevoke;
      var c := s.calls[me];
      FoundIsTable(c.proc, c.task.prefix);
      var uuid := RandomUuid();
      var answer := input.(newId := uuid);
      var cache, now := CacheOf(s, c.proc), s.clock;
      var known := Find(cache, c.task.prefix);
      var found := if known.Some? && known.value in s.store.keys then known else TableLookup(s.store, c.task.prefix);
      if input.readFails || found.None? {
        Take(me, answer, Again(c, Ready, MAX_UPDATE_ATTEMPTS + 1));
        return;
      }
      var id, row := found.value, s.store.keys[found.value];
      var learned := if known == found then None else Some((c.task.prefix, id));
      if !AuthenticationOk(cfg, row.value, c.task.secret, c.proc.app, now) {
        Take(me, answer, Effect(NoWrite, None, learned));
        return;
      }
      // After the last attempt to record the use, one more read alone decides.
      var phase := if c.attempt < MAX_UPDATE_ATTEMPTS then Loaded(id, row, now) else Identified(id, row, now);
      Take(me, answer, Effect(NoWrite, Some(c.(phase := phase)), learned));
    }

    /** Record the use against the version that was read; a lost race means the key changed and must be read again. */
    method RecordLastUsed(me: nat, input: Input)
      requires Valid() && me in s.calls && s.calls[me].task.Authenticate? && s.calls[me].phase.Loaded? && s.calls[me].attempt < MAX_UPDATE_ATTEMPTS
      modifies this
      ensures Valid() && Extends(old(tr), old(acts))
      ensures me in s.calls && SameCall(s.calls[me], old(s.calls[me]))
      ensures var p := old(s.calls[me].phase);
              if !input.readFails && CasWins(old(s.store.keys), p.id, p.row.version)
              then
                && s.calls[me].phase == Identified(p.id, p.row, p.at)
                && s.store.keys == Cas(old(s.store.keys), p.id, p.row.version, old(s.store.keys)[p.id].value.(lastUsedAt := Some(p.at)))
              else s.store == old(s.store) && s.calls[me].phase == Ready && s.calls[me].attempt == old(s.calls[me].attempt) + 1
    {
      hide IsRun, Step, DoCreate, DoUpdate, DoRotate, DoRevoke;
      var c := s.calls[me];
      var id, row, now := c.phase.id, c.phase.row, c.phase.at;
      var uuid := RandomUuid();
      var answer := input.(newId := uuid);
      if CasWins(s.store.keys, id, row.version) && !input.readFails {
        var used := s.store.keys[id].value.(lastUsedAt := Some(now));
        Take(me, answer, Effect(Rewrite(id, used), Some(c.(phase := Identified(id, row, now))), None));
      } else {
        Take(me, answer, Again(c, Ready, MAX_UPDATE_ATTEMPTS + 1));
      }
    }

    /** An identified call saw its key good after it entered. */
    lemma IdentifiedWasGood(me: nat, was: seq<State>)
      requires Valid() && 0 < |was| && was <= tr && me !in was[|was| - 1].calls
      requires me in s.calls && s.calls[me].phase.Identified?
      ensures s.calls[me].task.Authenticate?
      ensures WasGood(cfg, tr, |was|, s.calls[me].phase.id, s.calls[me].task.prefix, s.calls[me].task.secret, s.calls[me].proc.app)
    {
      hide IsRun, GoodKey, Inv;
      NoKeysIsFine();
      var j := AuthenticationIsSound(cfg, tr, acts, |tr| - 1, me);
      var k := |was| - 1;
      assert tr[k] == was[k];
      if j <= k {
        assert false;
      }
    }

    /**
     Revoke every key of the tenant and application, or of them those `createdBy` one
     principal, one version-checked revoke at a time.
    */
    method RevokeAllApiKeys(caller: Caller, proc: Proc, createdBy: Option<string>, ids: nat -> nat, world: nat -> nat -> seq<Action>, input: nat -> nat -> Input)
      returns (revoked: Option<set<string>>)
      requires Valid() && caller != Unidentified
      modifies this
      ensures Valid() && Extends(old(tr), old(acts))
      // Every such key the caller's tenant and application had when this began is revoked when it completes.
      ensures revoked.Some? ==> AllRevoked(s.store, OwnedIds(old(s.store), CallerTenant(caller), proc.app, createdBy), CallerTenant(caller), proc.app)
      ensures revoked.Some? ==> revoked.value == UnrevokedIds(old(s.store), CallerTenant(caller), proc.app, createdBy)
      ensures createdBy.Some? && IsBlank(createdBy.value) ==> revoked.None? && s == old(s)
    {
      hide IsRun, CredentialCheck, Step, AllRevoked, Owns;
      var tenant, start := CallerTenant(caller), s.store;
      if createdBy.Some? && IsBlank(createdBy.value) {
        return None;
      }
      var asked := map["createdBy" := if createdBy.Some? then createdBy.value else "*"];
      if !CredentialCheck(s.store.keys, s.clock, caller, proc.app, "apikeys.revoke", Resource("api_key", None, asked)) {
        return None;
      }
      var owned := OwnedIds(start, tenant, proc.app, createdBy);
      var candidates := UnrevokedIds(start, tenant, proc.app, createdBy);
      var rest := candidates;
      OthersAreRevoked(start, tenant, proc.app, createdBy);
      while rest != {}
        invariant Valid() && Extends(old(tr), old(acts)) && rest <= candidates
        invariant AllRevoked(s.store, owned - rest, tenant, proc.app)
        decreases rest
      {
        var id :| id in rest;
        var me := ids(|rest|);
        if me in s.calls {
          return None;
        }
        var ok := RevokeListed(me, caller, proc, id, owned - rest, world(|rest|), input(|rest|));
        if !ok {
          return None;
        }
        assert owned - (rest - {id}) == (owned - rest) + {id};
        rest := rest - {id};
      }
      assert owned - rest == owned;
      revoked := Some(candidates);
    }

    /** Revoke one listed key; those revoked before stay revoked. */
    method RevokeListed(me: nat, caller: Caller, proc: Proc, id: string, ghost done: set<string>, world: nat -> seq<Action>, input: nat -> Input)
      returns (ok: bool)
      requires Valid() && me !in s.calls && caller != Unidentified && AllRevoked(s.store, done, CallerTenant(caller), proc.app)
      modifies this
      ensures Valid() && Extends(old(tr), old(acts))
      ensures ok ==> AllRevoked(s.store, done + {id}, CallerTenant(caller), proc.app)
    {
      hide IsRun, Step, AllRevoked, StoreForward, Owns, Inv;
      ghost var before := |tr| - 1;
      ghost var was := s.store;
      ok := RevokeApiKey(me, caller, proc, id, true, world, input);
      if ok {
        Kept(before);
        OneMoreRevoked(was, s.store, done, id, CallerTenant(caller), proc.app);
      }
    }

    /** `rememberPrefix`: delete, append, and evict the oldest entries beyond the bound. */
    method RememberPrefix(cache: Cache, prefix: string, id: string) returns (r: Cache)
      ensures r == Remember(cache, prefix, id)
    {
      r := DeletePrefix(cache, prefix);
      r := EvictOldest(r + [(prefix, id)]);
    }

    method DeletePrefix(cache: Cache, prefix: string) returns (r: Cache)
      ensures r == Without(cache, prefix)
    {
      r := [];
      assert cache[0..] == cache;
      for i := 0 to |cache|
        invariant Without(cache, prefix) == r + Without(cache[i..], prefix)
      {
        assert cache[i..][1..] == cache[i + 1..];
        if cache[i].0 != prefix {
          assert r + ([cache[i]] + Without(cache[i + 1..], prefix)) == (r + [cache[i]]) + Without(cache[i + 1..], prefix);
          r := r + [cache[i]];
        }
      }
    }

    /** `evictOldest`: drop from the front while there are too many. */
    method EvictOldest(cache: Cache) returns (r: Cache)
      ensures r == if |cache| <= MAX_CACHED_PREFIXES then cache else cache[|cache| - MAX_CACHED_PREFIXES..]
    {
      r := cache;
      while |r| > MAX_CACHED_PREFIXES
        invariant |r| <= |cache| && r == cache[|cache| - |r|..]
        invariant |r| >= Min(|cache|, MAX_CACHED_PREFIXES)
      {
        r := r[1..];
      }
    }
  }
}

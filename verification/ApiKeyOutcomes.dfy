/**
 What each call of the key lifecycle is decided by, read off the stored fields: who
 is let in, when a key is created, changed, rotated or revoked, and when not.
*/
module ApiKeyOutcomes {
  import opened Common
  import opened FeltDb
  import opened Restrictions
  import opened ApiKeys
  import opened ApiKeyInvariants
  import opened ApiKeyTheorems

  // ---------------------------------------------------------------------------
  // Who is let in
  // ---------------------------------------------------------------------------

  /** A key principal is let through exactly while its own stored key is its tenant's, this application's, unrevoked, unexpired, and permits it. */
  predicate LetThrough(s: State, caller: Caller, app: string, capability: string, resource: Resource) {
    caller.ByKey? ==>
      && caller.credentialId in s.store.keys
      && var k := s.store.keys[caller.credentialId].value;
         && k.tenant == caller.tenant && k.app == Some(app) && k.revokedAt.None? && (k.expiresAt.Some? ==> s.clock < k.expiresAt.value)
         && Permit(k.restrictions, capability, resource)
  }

  /** What the call asks of the gateway. */
  predicate Entitled(s: State, caller: Caller, app: string, t: Task) {
    match t
    case Create(_, _, _) => LetThrough(s, caller, app, "apikeys.create", Resource("api_key", None, map[]))
    case Update(id, _) => LetThrough(s, caller, app, "apikeys.update", Resource("api_key", Some(id), map[]))
    case Rotate(id, _) => LetThrough(s, caller, app, "apikeys.rotate", Resource("api_key", Some(id), map[]))
    // A key `revokeAllApiKeys` listed is revoked under the one authorization of that call.
    case Revoke(id, listed) => listed || LetThrough(s, caller, app, "apikeys.revoke", Resource("api_key", Some(id), map[]))
    case Authenticate(_, _) => true
  }

  predicate WellAsked(t: Task) {
    && (t.Rotate? ==> t.overlap <= 604_800_000)
    && (t.Update? ==>
          && (t.changes.name.Some? || !t.changes.restrictions.Keep? || !t.changes.expiresAt.Keep?)
          && (t.changes.name.Some? ==> exists c :: c in t.changes.name.value && c !in {' ', '\t', '\n', '\r'}))
  }

  /** A call begins exactly when what it asks for is well formed and its caller is entitled to it. */
  lemma BeginsExactly(s: State, me: nat, caller: Caller, proc: Proc, task: Task)
    requires me !in s.calls && (task.Authenticate? <==> caller.Unidentified?)
    ensures Enabled(s, Begin(me, caller, proc, task)) <==> WellAsked(task) && Entitled(s, caller, proc.app, task)
  {
    hide Permit;
  }

  /** A key only gives what it has: a ceiling within its own and no more time. */
  predicate InsideCaller(s: State, caller: Caller, restrictions: Option<Restrictions>, expiresAt: Option<nat>) {
    caller.ByKey? ==>
      && caller.credentialId in s.store.keys
      && var k := s.store.keys[caller.credentialId].value;
         Within(restrictions, k.restrictions) && (k.expiresAt.None? || (expiresAt.Some? && expiresAt.value <= k.expiresAt.value))
  }

  // ---------------------------------------------------------------------------
  // What each step decides
  // ---------------------------------------------------------------------------

  /** The call goes on at this phase, and nothing is stored. */
  predicate GoesOn(s: State, s': State, me: nat, phase: Phase)
    requires me in s.calls
  {
    s'.store == s.store && me in s'.calls && s'.calls[me] == s.calls[me].(phase := phase)
  }

  /** The call ends and nothing is stored. */
  predicate IsRefused(s: State, s': State, me: nat) {
    s'.store == s.store && me !in s'.calls
  }

  /** A race was lost: the call starts this part over, unless it was its last attempt. */
  predicate TriesAgain(s: State, s': State, me: nat, phase: Phase, attempts: nat)
    requires me in s.calls
  {
    && s'.store == s.store
    && if s.calls[me].attempt + 1 < attempts
       then me in s'.calls && s'.calls[me] == s.calls[me].(phase := phase, attempt := s.calls[me].attempt + 1)
       else me !in s'.calls
  }

  /** The new key is found by its prefix and has exactly the name, ceiling and expiry that were asked for. */
  predicate Issued(st: Store, id: string, caller: Caller, proc: Proc, task: Task)
    requires task.Create?
  {
    && id in st.keys && !IsBlank(task.name)
    && var k := st.keys[id].value;
       && k.tenant == CallerTenant(caller) && k.app == Some(proc.app) && k.name == task.name && k.createdBy == CallerId(caller)
       && k.restrictions == task.restrictions && k.expiresAt == task.expiresAt && k.revokedAt.None? && k.rotatedFrom.None?
       && TableLookup(st, k.keyPrefix) == Some(id)
  }

  /**
   The key `was` is replaced at `at`: the replacement carries its name, ceiling and
   expiry, the two name each other, and the key itself is revoked at once or keeps
   no more time than the overlap and never more than it had.
  */
  predicate Replaces(st: Store, id: string, to: string, overlap: nat, was: ApiKey, at: nat, app: string, creator: string) {
    && id in st.keys && to in st.keys
    && var retired, issued := st.keys[id].value, st.keys[to].value;
       && retired.rotatedTo == Some(to) && issued.rotatedFrom == Some(id)
       && issued.tenant == was.tenant && issued.app == Some(app) && issued.createdBy == creator
       && issued.name == was.name && issued.restrictions == was.restrictions && issued.expiresAt == was.expiresAt
       && issued.revokedAt.None? && issued.rotatedTo.None? && TableLookup(st, issued.keyPrefix) == Some(to)
       && retired == was.(rotatedTo := Some(to), revokedAt := retired.revokedAt, expiresAt := retired.expiresAt)
       && (overlap == 0 ==> retired.revokedAt == Some(at) && retired.expiresAt == was.expiresAt)
       && (overlap > 0 ==>
             && retired.revokedAt == was.revokedAt && retired.expiresAt.Some?
             && retired.expiresAt.value <= at + overlap && (was.expiresAt.Some? ==> retired.expiresAt.value <= was.expiresAt.value)
             && (retired.expiresAt.value == at + overlap || retired.expiresAt == was.expiresAt))
  }

  /** A key that was active and not rotated before is replaced. */
  predicate Rotated(st: Store, id: string, to: string, overlap: nat, was: ApiKey, at: nat, app: string, creator: string) {
    was.rotatedTo.None? && Active(was, at) && Replaces(st, id, to, overlap, was, at, app, creator)
  }

  /** The key shows every change that was asked for, and is in everything else what it was. */
  predicate ChangesApplied(was: ApiKey, k: ApiKey, c: Changes) {
    && k.name == (if c.name.Some? then c.name.value else was.name)
    && (match c.restrictions case Keep => k.restrictions == was.restrictions case Clear => k.restrictions.None? case Set(r) => k.restrictions == Some(r))
    && (match c.expiresAt case Keep => k.expiresAt == was.expiresAt case Clear => k.expiresAt.None? case Set(t) => k.expiresAt == Some(t))
    && was.revokedAt.None? && k == was.(name := k.name, restrictions := k.restrictions, expiresAt := k.expiresAt)
  }

  /** A creation goes on exactly inside the caller's ceiling. */
  lemma CreateClears(cfg: Config, s: State, me: nat, input: Input)
    requires Inv(s) && Enabled(s, Go(me, input)) && s.calls[me].task.Create? && s.calls[me].phase != Cleared
    ensures var c, t, s' := s.calls[me], s.calls[me].task, Step(cfg, s, Go(me, input));
            if InsideCaller(s, c.caller, t.restrictions, t.expiresAt) then GoesOn(s, s', me, Cleared) else IsRefused(s, s', me)
  {
    hide Within, Remember, CacheOf, Inv, IsBlank, DoUpdate, DoRotate, DoRevoke, DoAuthenticate;
  }

  /** A cleared creation issues the key under a name that says something and a prefix nobody has, and leaves every other key as it was. */
  lemma CreateDecides(cfg: Config, s: State, me: nat, input: Input)
    requires Inv(s) && Enabled(s, Go(me, input)) && s.calls[me].task.Create? && s.calls[me].phase == Cleared
    ensures var c, t, s' := s.calls[me], s.calls[me].task, Step(cfg, s, Go(me, input));
            if forall x :: x in t.name ==> x in {' ', '\t', '\n', '\r'} then IsRefused(s, s', me)
            else if input.newPrefix in s.store.prefixes then TriesAgain(s, s', me, Cleared, 5)
            else
              && me !in s'.calls && s'.store.keys.Keys == s.store.keys.Keys + {input.newId}
              && (forall id :: id in s.store.keys ==> s'.store.keys[id] == s.store.keys[id])
              && s'.store.prefixes == s.store.prefixes[input.newPrefix := input.newId]
              && Issued(s'.store, input.newId, c.caller, c.proc, t) && s'.store.keys[input.newId].value.secretHash == input.newHash
  {
    hide Within, Remember, CacheOf, Inv, NewKey, Issued, IsBlank, DoUpdate, DoRotate, DoRevoke, DoAuthenticate;
    var c := s.calls[me];
    BlankMeans(c.task.name);
    if !IsBlank(c.task.name) {
      NewKeyIsIssued(s.store, input, c);
    }
  }

  lemma BlankMeans(name: string)
    ensures IsBlank(name) <==> forall x :: x in name ==> x in {' ', '\t', '\n', '\r'}
  {}

  lemma NewKeyIsIssued(st: Store, input: Input, c: Call)
    requires c.task.Create? && input.newId !in st.keys && !IsBlank(c.task.name)
    ensures var k := NewKey(CallerTenant(c.caller), c.proc.app, c.task.name, input.newPrefix, input.newHash, c.task.restrictions, c.task.expiresAt, None, CallerId(c.caller));
            && Issued(Apply(st, NewEntry(input.newId, k)), input.newId, c.caller, c.proc, c.task) && k.secretHash == input.newHash && k.keyPrefix == input.newPrefix
  {}

  /** The key is stored, the caller's tenant's, and this application's; a key bound to none counts where old keys are allowed. */
  predicate IsTheirs(s: State, id: string, c: Call, legacy: bool) {
    && id in s.store.keys && s.store.keys[id].value.tenant == CallerTenant(c.caller)
    && (s.store.keys[id].value.app == Some(c.proc.app) || (legacy && s.store.keys[id].value.app.None?))
  }

  /** The record is still the one that was read. */
  predicate Unmoved(s: State, c: Call)
    requires c.phase.Loaded? || c.phase.Approved?
  {
    c.phase.id in s.store.keys && s.store.keys[c.phase.id].version == c.phase.row.version
  }

  /** Exactly the one key is rewritten. */
  predicate Rewrites(s: State, s': State, id: string) {
    id in s.store.keys && id in s'.store.keys && s'.store == s.store.(keys := s.store.keys[id := s'.store.keys[id]]) && s'.store.keys[id].version == s.store.keys[id].version + 1
  }

  /** A key is changed exactly when it is the caller's and unrevoked, a change of its ceiling stays inside the caller's, and nobody else wrote it. */
  lemma UpdateDecides(cfg: Config, s: State, me: nat, input: Input)
    requires Inv(s) && Enabled(s, Go(me, input)) && s.calls[me].task.Update?
    ensures var c, t, s' := s.calls[me], s.calls[me].task, Step(cfg, s, Go(me, input));
            match c.phase
            case Loaded(id, row, at) =>
              var restrictions := match t.changes.restrictions case Keep => row.value.restrictions case Clear => None case Set(r) => Some(r);
              var expiresAt := match t.changes.expiresAt case Keep => row.value.expiresAt case Clear => None case Set(x) => Some(x);
              if (t.changes.restrictions.Keep? && t.changes.expiresAt.Keep?) || InsideCaller(s, c.caller, restrictions, expiresAt)
              then GoesOn(s, s', me, Approved(id, row, at)) else IsRefused(s, s', me)
            case Approved(id, _, _) =>
              if Unmoved(s, c) then Rewrites(s, s', id) && me !in s'.calls && ChangesApplied(s.store.keys[id].value, s'.store.keys[id].value, t.changes)
              else TriesAgain(s, s', me, Ready, 10)
            case _ =>
              if IsTheirs(s, t.id, c, false) && s.store.keys[t.id].value.revokedAt.None?
              then GoesOn(s, s', me, Loaded(t.id, s.store.keys[t.id], s.clock)) else IsRefused(s, s', me)
  {
    hide Within, IndexInv, LineageInv, CachesOk;
    assert CallOk(s.store, s.clock, s.calls[me]);
  }

  lemma RotationReplaces(st: Store, input: Input, c: Call)
    requires c.task.Rotate? && c.phase.Approved? && c.phase.id in st.keys && input.newId !in st.keys
    ensures var row, at := c.phase.row, c.phase.at;
            var k := Replacement(row.value, c.phase.id, c.proc.app, CallerId(c.caller), input.newPrefix, input.newHash);
            var st' := Apply(st, Rotation(c.phase.id, RetiredKey(row.value, input.newId, at, c.task.overlap), input.newId, k));
            && Replaces(st', c.phase.id, input.newId, c.task.overlap, row.value, at, c.proc.app, CallerId(c.caller))
            && k.secretHash == input.newHash && k.keyPrefix == input.newPrefix
  {}

  /** A key is rotated exactly when it is the caller's, active and not rotated before, its ceiling and time lie inside the caller's, and nobody else wrote it. */
  lemma RotateDecides(cfg: Config, s: State, me: nat, input: Input)
    requires Inv(s) && Enabled(s, Go(me, input)) && s.calls[me].task.Rotate?
    ensures var c, t, s' := s.calls[me], s.calls[me].task, Step(cfg, s, Go(me, input));
            match c.phase
            case Loaded(id, row, at) =>
              if InsideCaller(s, c.caller, row.value.restrictions, row.value.expiresAt) then GoesOn(s, s', me, Approved(id, row, at)) else IsRefused(s, s', me)
            case Approved(id, row, at) =>
              if Unmoved(s, c) && input.newPrefix !in s.store.prefixes
              then
                && me !in s'.calls && s'.store.keys.Keys == s.store.keys.Keys + {input.newId}
                && (forall x :: x in s.store.keys && x != id ==> s'.store.keys[x] == s.store.keys[x])
                && s'.store.prefixes == s.store.prefixes[input.newPrefix := input.newId]
                && Replaces(s'.store, id, input.newId, t.overlap, row.value, at, c.proc.app, CallerId(c.caller))
                && s'.store.keys[input.newId].value.secretHash == input.newHash
              else TriesAgain(s, s', me, Ready, 10)
            case _ =>
              if IsTheirs(s, t.id, c, false)
                 && var k := s.store.keys[t.id].value; k.rotatedTo.None? && k.revokedAt.None? && (k.expiresAt.Some? ==> s.clock < k.expiresAt.value)
              then GoesOn(s, s', me, Loaded(t.id, s.store.keys[t.id], s.clock)) else IsRefused(s, s', me)
  {
    hide Within, IndexInv, LineageInv, CachesOk, RetiredKey, Replacement, Replaces;
    var c := s.calls[me];
    assert CallOk(s.store, s.clock, c);
    if c.phase.Approved? && Unmoved(s, c) {
      RotationReplaces(s.store, input, c);
    }
  }

  /** A key is revoked exactly when it is the caller's, old keys included, unless it was already, and nobody else wrote it; only its revocation is written. */
  lemma RevokeDecides(cfg: Config, s: State, me: nat, input: Input)
    requires Inv(s) && Enabled(s, Go(me, input)) && s.calls[me].task.Revoke?
    ensures var c, t, s' := s.calls[me], s.calls[me].task, Step(cfg, s, Go(me, input));
            match c.phase
            case Loaded(id, row, at) =>
              if Unmoved(s, c)
              then Rewrites(s, s', id) && me !in s'.calls && s'.store.keys[id].value == s.store.keys[id].value.(revokedAt := Some(at))
              else TriesAgain(s, s', me, Ready, 10)
            case _ =>
              if IsTheirs(s, t.id, c, true) && s.store.keys[t.id].value.revokedAt.None?
              then GoesOn(s, s', me, Loaded(t.id, s.store.keys[t.id], s.clock)) else IsRefused(s, s', me)
  {
    hide IndexInv, LineageInv, CachesOk;
    assert CallOk(s.store, s.clock, s.calls[me]);
  }

  /** A secret is answered exactly by its good key: ten times with its use recorded, then by one last read alone. */
  lemma AuthenticateDecides(cfg: Config, s: State, me: nat, input: Input)
    requires Inv(s) && Enabled(s, Go(me, input)) && s.calls[me].task.Authenticate?
    ensures var c, t, s' := s.calls[me], s.calls[me].task, Step(cfg, s, Go(me, input));
            if c.phase.Loaded? then
              if Unmoved(s, c) && !input.readFails then me in s'.calls && s'.calls[me] == c.(phase := Identified(c.phase.id, c.phase.row, c.phase.at))
              else TriesAgain(s, s', me, Ready, 11)
            else if input.readFails || t.prefix !in s.store.prefixes then TriesAgain(s, s', me, Ready, 11)
            else if !GoodKey(cfg, s, t.prefix, t.secret, c.proc.app) then IsRefused(s, s', me)
            else
              var id := s.store.prefixes[t.prefix]; var row := s.store.keys[id];
              GoesOn(s, s', me, if c.attempt < 10 then Loaded(id, row, s.clock) else Identified(id, row, s.clock))
  {
    hide Remember, Find, FindByPrefix, LineageInv;
    assert CallOk(s.store, s.clock, s.calls[me]);
    if !s.calls[me].phase.Loaded? {
      CacheAnswersAsTable(s.store, CacheOf(s, s.calls[me].proc), s.calls[me].task.prefix);
    }
  }

  /** The use of a key is recorded on a good key alone, and nothing else of it moves. */
  lemma AuthenticateWritesOnlyTheUse(cfg: Config, s: State, me: nat, input: Input)
    requires Inv(s) && Enabled(s, Go(me, input)) && s.calls[me].task.Authenticate?
    ensures var c, s' := s.calls[me], Step(cfg, s, Go(me, input));
            s'.store != s.store ==> c.phase.Loaded? && Rewrites(s, s', c.phase.id) && s'.store.keys[c.phase.id].value == s.store.keys[c.phase.id].value.(lastUsedAt := Some(c.phase.at))
  {
    hide IndexInv, LineageInv, CachesOk;
    assert CallOk(s.store, s.clock, s.calls[me]);
  }

  /** A remembered prefix is found again. */
  lemma {:induction false} RememberedIsFound(c: Cache, prefix: string, id: string)
    ensures Find(Remember(c, prefix, id), prefix) == Some(id)
  {
    var kept := Without(c, prefix);
    var grown := kept + [(prefix, id)];
    NotFound(c, prefix);
    var from := if |grown| <= MAX_CACHED_PREFIXES then 0 else |grown| - MAX_CACHED_PREFIXES;
    assert Remember(c, prefix, id) == kept[from..] + [(prefix, id)];
    FoundLast(kept[from..], prefix, id);
  }

  lemma {:induction false} NotFound(c: Cache, prefix: string)
    ensures forall e :: e in Without(c, prefix) ==> e.0 != prefix
  {
    if c != [] {
      NotFound(c[1..], prefix);
    }
  }

  lemma {:induction false} FoundLast(c: Cache, prefix: string, id: string)
    requires forall e :: e in c ==> e.0 != prefix
    ensures Find(c + [(prefix, id)], prefix) == Some(id)
  {
    if c != [] {
      assert (c + [(prefix, id)])[1..] == c[1..] + [(prefix, id)];
      FoundLast(c[1..], prefix, id);
    }
  }
}

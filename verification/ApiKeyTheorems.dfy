/** What holds over every run of the API-key service. */
module ApiKeyTheorems {
  import opened Common
  import opened FeltDb
  import opened Restrictions
  import opened ApiKeys
  import opened ApiKeyInvariants

  // ---------------------------------------------------------------------------
  // No amplification
  // ---------------------------------------------------------------------------

  /** The ceiling of a key: what it may be used for, and until when. */
  ghost predicate Allows(k: ApiKey, capability: string, resource: Resource, t: nat) {
    Permit(k.restrictions, capability, resource) && !Expired(k, t)
  }

  ghost predicate Narrower(restrictions: Option<Restrictions>, expiresAt: Option<nat>, outer: ApiKey) {
    && Included(restrictions, outer.restrictions)
    && (outer.expiresAt.Some? ==> expiresAt.Some? && expiresAt.value <= outer.expiresAt.value)
  }

  /** Within the ceiling of one key that was there, and not revoked, at the start. */
  ghost predicate Covered(start: Store, restrictions: Option<Restrictions>, expiresAt: Option<nat>) {
    exists id :: id in start.keys && start.keys[id].value.revokedAt.None? && Narrower(restrictions, expiresAt, start.keys[id].value)
  }

  ghost predicate KeyCovered(start: Store, k: ApiKey) {
    Covered(start, k.restrictions, k.expiresAt)
  }

  predicate DeadAtStart(start: Store, id: string) {
    id in start.keys && start.keys[id].value.revokedAt.Some?
  }

  ghost predicate StoreCovered(start: Store, st: Store) {
    && StoreForward(start, st)
    && forall id :: id in st.keys && !DeadAtStart(start, id) ==> KeyCovered(start, st.keys[id].value)
  }

  /** A call that passed a check carries only covered ceilings, however the store changes before it commits. */
  ghost predicate CallCovered(start: Store, c: Call) {
    && !c.caller.ByHost?
    && (c.caller.ByKey? && !c.task.Revoke? ==> !DeadAtStart(start, c.caller.credentialId))
    && (c.phase.Cleared? && c.task.Create? ==> Covered(start, c.task.restrictions, c.task.expiresAt))
    && ((c.phase.Loaded? || c.phase.Approved?) && (c.task.Update? || c.task.Rotate?) ==> KeyCovered(start, c.phase.row.value))
    && (c.phase.Approved? && c.task.Update? ==> KeyCovered(start, UpdatedKey(c.phase.row.value, c.task.changes)))
  }

  ghost predicate WriteCovered(start: Store, st: Store, w: Write) {
    match w
    case NoWrite => true
    case Rewrite(id, next) => DeadAtStart(start, id) || KeyCovered(start, next)
    case NewEntry(_, k) => KeyCovered(start, k)
    case Rotation(id, next, _, k) => (DeadAtStart(start, id) || KeyCovered(start, next)) && KeyCovered(start, k)
  }

  lemma NarrowerTransitive(restrictions: Option<Restrictions>, expiresAt: Option<nat>, mid: ApiKey, outer: ApiKey)
    requires Narrower(restrictions, expiresAt, mid) && Narrower(mid.restrictions, mid.expiresAt, outer)
    ensures Narrower(restrictions, expiresAt, outer)
  {
    forall c: string, res: Resource | Permit(restrictions, c, res) ensures Permit(outer.restrictions, c, res) {
      assert Permit(mid.restrictions, c, res);
    }
  }

  lemma NarrowerThanCovered(start: Store, restrictions: Option<Restrictions>, expiresAt: Option<nat>, mid: ApiKey)
    requires Narrower(restrictions, expiresAt, mid) && KeyCovered(start, mid)
    ensures Covered(start, restrictions, expiresAt)
  {
    var id :| id in start.keys && start.keys[id].value.revokedAt.None? && Narrower(mid.restrictions, mid.expiresAt, start.keys[id].value);
    NarrowerTransitive(restrictions, expiresAt, mid, start.keys[id].value);
  }

  /** A key caller that passes `assertWithinCaller` stays inside what its own key was covered by. */
  lemma CallerCovers(start: Store, st: Store, caller: Caller, restrictions: Option<Restrictions>, expiresAt: Option<nat>)
    requires StoreCovered(start, st) && caller.ByKey? && !DeadAtStart(start, caller.credentialId)
    requires WithinCaller(st.keys, caller, restrictions, expiresAt)
    ensures Covered(start, restrictions, expiresAt)
  {
    hide Included, Within, StoreForward;
    var k := st.keys[caller.credentialId].value;
    WithinIsSound(restrictions, k.restrictions);
    NarrowerThanCovered(start, restrictions, expiresAt, k);
  }

  lemma SameCeiling(start: Store, a: ApiKey, b: ApiKey)
    requires KeyCovered(start, a) && a.restrictions == b.restrictions && a.expiresAt == b.expiresAt
    ensures KeyCovered(start, b)
  {}

  /** Shortening a key's life keeps it covered: a retired key never gains time. */
  lemma RetiredCovered(start: Store, k: ApiKey, to: string, now: nat, overlap: nat)
    requires KeyCovered(start, k)
    ensures KeyCovered(start, RetiredKey(k, to, now, overlap))
  {
    var r := RetiredKey(k, to, now, overlap);
    assert Narrower(r.restrictions, r.expiresAt, k);
    NarrowerThanCovered(start, r.restrictions, r.expiresAt, k);
  }

  /** A live row read from the store is covered. */
  lemma LoadedCovered(start: Store, st: Store, id: string)
    requires StoreCovered(start, st) && id in st.keys && st.keys[id].value.revokedAt.None?
    ensures !DeadAtStart(start, id) && KeyCovered(start, st.keys[id].value)
  {
    hide KeyCovered;
  }

  ghost predicate EffectCovered(start: Store, st: Store, e: Effect) {
    WriteCovered(start, st, e.write) && (e.next.Some? ==> CallCovered(start, e.next.value))
  }

  lemma CreateCovered(start: Store, st: Store, now: nat, c: Call, input: Input)
    requires c.task.Create? && CallOk(st, now, c) && StoreCovered(start, st) && CallCovered(start, c)
    ensures EffectCovered(start, st, DoCreate(st, c, input))
  {
    hide WithinCaller, Covered, StoreCovered;
    if c.phase != Cleared && WithinCaller(st.keys, c.caller, c.task.restrictions, c.task.expiresAt) {
      CallerCovers(start, st, c.caller, c.task.restrictions, c.task.expiresAt);
    }
  }

  lemma UpdateCovered(start: Store, st: Store, now: nat, c: Call)
    requires c.task.Update? && CallOk(st, now, c) && StoreCovered(start, st) && CallCovered(start, c)
    ensures EffectCovered(start, st, DoUpdate(st, now, c))
  {
    hide WithinCaller, Covered, StoreCovered, RowHeld;
    if c.phase.Loaded? {
      var next := UpdatedKey(c.phase.row.value, c.task.changes);
      if c.task.changes.restrictions.Keep? && c.task.changes.expiresAt.Keep? {
        SameCeiling(start, c.phase.row.value, next);
      } else if WithinCaller(st.keys, c.caller, next.restrictions, next.expiresAt) {
        CallerCovers(start, st, c.caller, next.restrictions, next.expiresAt);
      }
    } else if !c.phase.Approved? && c.task.id in st.keys && st.keys[c.task.id].value.revokedAt.None? {
      LoadedCovered(start, st, c.task.id);
    }
  }

  lemma RotateCovered(start: Store, st: Store, now: nat, c: Call, input: Input)
    requires c.task.Rotate? && CallOk(st, now, c) && StoreCovered(start, st) && CallCovered(start, c)
    ensures EffectCovered(start, st, DoRotate(st, now, c, input))
  {
    hide WithinCaller, Covered, StoreCovered, RowHeld;
    if c.phase.Approved? {
      RetiredCovered(start, c.phase.row.value, input.newId, c.phase.at, c.task.overlap);
      SameCeiling(start, c.phase.row.value, Replacement(c.phase.row.value, c.phase.id, c.proc.app, CallerId(c.caller), input.newPrefix, input.newHash));
    } else if !c.phase.Loaded? && c.task.id in st.keys && st.keys[c.task.id].value.revokedAt.None? {
      LoadedCovered(start, st, c.task.id);
    }
  }

  lemma RevokeCovered(start: Store, st: Store, now: nat, c: Call)
    requires c.task.Revoke? && CallOk(st, now, c) && StoreCovered(start, st) && CallCovered(start, c)
    ensures EffectCovered(start, st, DoRevoke(st, now, c))
  {
    hide Covered;
    if c.phase.Loaded? && CasWins(st.keys, c.phase.id, c.phase.row.version) {
      LoadedCovered(start, st, c.phase.id);
      SameCeiling(start, c.phase.row.value, RevokedKey(c.phase.row.value, c.phase.at));
    }
  }

  lemma AuthenticateCovered(cfg: Config, start: Store, st: Store, now: nat, cache: Cache, c: Call, input: Input)
    requires c.task.Authenticate? && CallOk(st, now, c) && StoreCovered(start, st) && CallCovered(start, c)
    ensures EffectCovered(start, st, DoAuthenticate(cfg, st, now, cache, c, input))
  {
    hide Covered, AuthenticationOk, FindByPrefix;
    if c.phase.Loaded? && CasWins(st.keys, c.phase.id, c.phase.row.version) && !DeadAtStart(start, c.phase.id) {
      SameCeiling(start, st.keys[c.phase.id].value, st.keys[c.phase.id].value.(lastUsedAt := Some(c.phase.at)));
    }
  }

  lemma DoCovered(cfg: Config, start: Store, st: Store, now: nat, cache: Cache, c: Call, input: Input)
    requires CallOk(st, now, c) && StoreCovered(start, st) && CallCovered(start, c)
    ensures EffectCovered(start, st, Do(cfg, st, now, cache, c, input))
  {
    hide CallOk, StoreCovered, CallCovered, EffectCovered;
    match c.task
    case Create(_, _, _) => CreateCovered(start, st, now, c, input);
    case Update(_, _) => UpdateCovered(start, st, now, c);
    case Rotate(_, _) => RotateCovered(start, st, now, c, input);
    case Revoke(_, _) => RevokeCovered(start, st, now, c);
    case Authenticate(_, _) => AuthenticateCovered(cfg, start, st, now, cache, c, input);
  }

  lemma ApplyCovered(start: Store, st: Store, w: Write)
    requires StoreCovered(start, st) && WriteOk(st, w) && WriteCovered(start, st, w)
    requires StoreForward(start, Apply(st, w))
    ensures StoreCovered(start, Apply(st, w))
  {
    hide KeyCovered, StoreForward;
  }

  ghost predicate AllCovered(start: Store, s: State) {
    StoreCovered(start, s.store) && forall n :: n in s.calls ==> CallCovered(start, s.calls[n])
  }

  /** Only key-authenticated principals ask, besides secrets being presented. */
  ghost predicate OnlyKeyCallers(acts: seq<Action>) {
    forall a :: a in acts && a.Begin? ==> !a.caller.ByHost?
  }

  lemma BeginCovered(start: Store, s: State, a: Action)
    requires a.Begin? && Enabled(s, a) && !a.caller.ByHost? && StoreCovered(start, s.store)
    ensures CallCovered(start, Call(a.caller, a.proc, a.task, Ready, 0))
  {
    hide KeyCovered, Permit;
  }

  lemma StepCovered(cfg: Config, start: Store, s: State, a: Action)
    requires Inv(s) && Enabled(s, a) && AllCovered(start, s) && (a.Begin? ==> !a.caller.ByHost?)
    requires StoreForward(start, Step(cfg, s, a).store)
    ensures AllCovered(start, Step(cfg, s, a))
  {
    hide StoreCovered, CallCovered, CallOk, IndexInv, LineageInv, CacheOk, Do, CredentialCheck, StoreForward, Apply;
    if a.Begin? {
      BeginCovered(start, s, a);
    } else if a.Go? {
      var c := s.calls[a.call];
      EmptyCacheOk(s.store);
      DoOk(cfg, s.store, s.clock, CacheOf(s, c.proc), c, a.input);
      DoCovered(cfg, start, s.store, s.clock, CacheOf(s, c.proc), c, a.input);
      ApplyCovered(start, s.store, EffectOf(cfg, s, a.call, a.input).write);
    }
  }

  lemma {:induction false} RunCovered(cfg: Config, tr: seq<State>, acts: seq<Action>, i: nat)
    requires IsRun(cfg, tr, acts) && Inv(tr[0]) && tr[0].calls == map[] && OnlyKeyCallers(acts) && i < |tr|
    ensures AllCovered(tr[0].store, tr[i])
  {
    hide Inv, Enabled, Step, StoreForward, CallCovered;
    if i == 0 {
      StartCovered(tr[0].store);
    } else {
      RunCovered(cfg, tr, acts, i - 1);
      RunKeepsInv(cfg, tr, acts, 0, i - 1);
      RunKeepsInv(cfg, tr, acts, 0, i);
      StepCovered(cfg, tr[0].store, tr[i - 1], acts[i - 1]);
    }
  }

  lemma StartCovered(start: Store)
    ensures StoreCovered(start, start)
  {
    forall id | id in start.keys && !DeadAtStart(start, id) ensures KeyCovered(start, start.keys[id].value) {
      assert Narrower(start.keys[id].value.restrictions, start.keys[id].value.expiresAt, start.keys[id].value);
    }
  }

  lemma CoveredAllows(start: Store, k: ApiKey) returns (id: string)
    requires KeyCovered(start, k)
    ensures id in start.keys && start.keys[id].value.revokedAt.None?
    ensures forall c: string, res: Resource, t: nat :: Allows(k, c, res, t) ==> Allows(start.keys[id].value, c, res, t)
  {
    id :| id in start.keys && start.keys[id].value.revokedAt.None? && Narrower(k.restrictions, k.expiresAt, start.keys[id].value);
  }

  /**
   In every interleaving of calls made by key-authenticated principals, every
   stored key stays inside the ceiling of one key that was there at the start: what
   it may be used for, on what, and until when. A key that was not revoked at the
   start, or is new, stays inside one that was not revoked either.
  */
  lemma NoAmplification(cfg: Config, tr: seq<State>, acts: seq<Action>, i: nat, id: string) returns (origin: string)
    requires IsRun(cfg, tr, acts) && Inv(tr[0]) && tr[0].calls == map[] && OnlyKeyCallers(acts)
    requires i < |tr| && id in tr[i].store.keys
    ensures origin in tr[0].store.keys
    ensures forall c: string, res: Resource, t: nat ::
              Allows(tr[i].store.keys[id].value, c, res, t) ==> Allows(tr[0].store.keys[origin].value, c, res, t)
    ensures DeadAtStart(tr[0].store, id) || tr[0].store.keys[origin].value.revokedAt.None?
  {
    hide Inv, CallCovered, KeyCovered, Permit, IsRun;
    RunCovered(cfg, tr, acts, i);
    if DeadAtStart(tr[0].store, id) {
      origin := id;
    } else {
      origin := CoveredAllows(tr[0].store, tr[i].store.keys[id].value);
    }
  }

  /** Whatever a key principal is let through for, one key of the start allowed at that same moment. */
  lemma NoAmplifiedUse(cfg: Config, tr: seq<State>, acts: seq<Action>, i: nat, caller: Caller, app: string, capability: string, resource: Resource)
      returns (origin: string)
    requires IsRun(cfg, tr, acts) && Inv(tr[0]) && tr[0].calls == map[] && OnlyKeyCallers(acts)
    requires i < |tr| && caller.ByKey? && CredentialCheck(tr[i].store.keys, tr[i].clock, caller, app, capability, resource)
    ensures origin in tr[0].store.keys && tr[0].store.keys[origin].value.revokedAt.None?
    ensures Allows(tr[0].store.keys[origin].value, capability, resource, tr[i].clock)
    ensures var k := tr[i].store.keys[caller.credentialId].value; k.tenant == caller.tenant && k.app == Some(app)
  {
    hide Inv, Permit, IsRun;
    RunCovered(cfg, tr, acts, i);
    origin := NoAmplification(cfg, tr, acts, i, caller.credentialId);
    assert Allows(tr[i].store.keys[caller.credentialId].value, capability, resource, tr[i].clock);
  }

  // ---------------------------------------------------------------------------
  // Rotation lineage
  // ---------------------------------------------------------------------------

  /** The key `n` rotations after `id`. */
  function Follow(st: Store, id: string, n: nat): Option<string>
    decreases n
  {
    if id !in st.keys then None
    else if n == 0 then Some(id)
    else if st.keys[id].value.rotatedTo.None? then None
    else Follow(st, st.keys[id].value.rotatedTo.value, n - 1)
  }

  /** A chain of rotations leads to keys issued later, so it never comes back. */
  lemma {:induction false} ChainsAreAcyclic(st: Store, id: string, n: nat)
    requires LineageInv(st) && n > 0 && Follow(st, id, n).Some?
    ensures id in st.born && Follow(st, id, n).value in st.born && st.born[id] < st.born[Follow(st, id, n).value]
    ensures Follow(st, id, n) != Some(id)
    decreases n
  {
    var to := st.keys[id].value.rotatedTo.value;
    assert LinkedTo(st, id, to);
    if n > 1 {
      ChainsAreAcyclic(st, to, n - 1);
    }
  }

  /** A key has at most one replacement and replaces at most one key. */
  lemma OneReplacement(st: Store, a: string, b: string)
    requires LineageInv(st) && a in st.keys && b in st.keys
    ensures st.keys[a].value.rotatedFrom.Some? && st.keys[a].value.rotatedFrom == st.keys[b].value.rotatedFrom ==> a == b
    ensures st.keys[a].value.rotatedTo.Some? && st.keys[a].value.rotatedTo == st.keys[b].value.rotatedTo ==> a == b
  {
    if st.keys[a].value.rotatedFrom.Some? && st.keys[a].value.rotatedFrom == st.keys[b].value.rotatedFrom {
      assert LinkedFrom(st, a, st.keys[a].value.rotatedFrom.value);
      assert LinkedFrom(st, b, st.keys[b].value.rotatedFrom.value);
    }
    if st.keys[a].value.rotatedTo.Some? && st.keys[a].value.rotatedTo == st.keys[b].value.rotatedTo {
      assert LinkedTo(st, a, st.keys[a].value.rotatedTo.value);
      assert LinkedTo(st, b, st.keys[b].value.rotatedTo.value);
    }
  }

  lemma {:induction false} FollowLast(st: Store, id: string, n: nat)
    requires n > 0 && Follow(st, id, n).Some?
    ensures Follow(st, id, n - 1).Some? && var prev := Follow(st, id, n - 1).value;
            prev in st.keys && st.keys[prev].value.rotatedTo == Follow(st, id, n)
    decreases n
  {
    if n > 1 {
      FollowLast(st, st.keys[id].value.rotatedTo.value, n - 1);
    }
  }

  /** Two chains that meet are one chain: the keys form disjoint chains. */
  lemma {:induction false} MeetingChainsAreOne(st: Store, a: string, n: nat, b: string, m: nat)
    requires LineageInv(st) && n <= m
    requires Follow(st, a, n).Some? && Follow(st, a, n) == Follow(st, b, m)
    ensures Follow(st, b, m - n) == Some(a)
  {
    if n > 0 {
      FollowLast(st, a, n);
      FollowLast(st, b, m);
      OneReplacement(st, Follow(st, a, n - 1).value, Follow(st, b, m - 1).value);
      MeetingChainsAreOne(st, a, n - 1, b, m - 1);
    }
  }

  ghost predicate RetiredAreRevoked(s: State) {
    && (forall id :: id in s.store.keys && s.store.keys[id].value.rotatedTo.Some? ==> s.store.keys[id].value.revokedAt.Some?)
    && (forall n :: n in s.calls && s.calls[n].task.Rotate? ==> s.calls[n].task.overlap == 0)
  }

  ghost predicate NoOverlap(acts: seq<Action>) {
    forall a :: a in acts && a.Begin? && a.task.Rotate? ==> a.task.overlap == 0
  }

  lemma DoKeepsTask(cfg: Config, st: Store, now: nat, cache: Cache, c: Call, input: Input)
    ensures var next := Do(cfg, st, now, cache, c, input).next;
            next.Some? ==> next.value.task == c.task && next.value.proc == c.proc
  {
    hide WithinCaller, AuthenticationOk, FindByPrefix;
  }

  lemma ZeroOverlapWrites(cfg: Config, st: Store, now: nat, cache: Cache, c: Call, input: Input)
    requires c.task.Rotate? ==> c.task.overlap == 0
    ensures var e := Do(cfg, st, now, cache, c, input);
            e.write.Rotation? ==> e.write.next.revokedAt.Some?
  {
    hide WithinCaller, AuthenticationOk, FindByPrefix;
  }

  lemma WriteRetires(st: Store, w: Write)
    requires WriteOk(st, w) && (w.Rotation? ==> w.next.revokedAt.Some?)
    requires forall id :: id in st.keys && st.keys[id].value.rotatedTo.Some? ==> st.keys[id].value.revokedAt.Some?
    ensures var st' := Apply(st, w);
            forall id :: id in st'.keys && st'.keys[id].value.rotatedTo.Some? ==> st'.keys[id].value.revokedAt.Some?
  {}

  lemma StepRetires(cfg: Config, s: State, a: Action)
    requires Inv(s) && Enabled(s, a) && RetiredAreRevoked(s) && (a.Begin? && a.task.Rotate? ==> a.task.overlap == 0)
    ensures RetiredAreRevoked(Step(cfg, s, a))
  {
    hide CallOk, IndexInv, LineageInv, CacheOk, Do, CredentialCheck, Apply, WriteOk, Remember;
    if a.Go? {
      var c := s.calls[a.call];
      var cache := CacheOf(s, c.proc);
      EmptyCacheOk(s.store);
      DoOk(cfg, s.store, s.clock, cache, c, a.input);
      DoKeepsTask(cfg, s.store, s.clock, cache, c, a.input);
      ZeroOverlapWrites(cfg, s.store, s.clock, cache, c, a.input);
      WriteRetires(s.store, EffectOf(cfg, s, a.call, a.input).write);
    }
  }

  lemma {:induction false} RunRetires(cfg: Config, tr: seq<State>, acts: seq<Action>, i: nat)
    requires IsRun(cfg, tr, acts) && Inv(tr[0]) && RetiredAreRevoked(tr[0]) && NoOverlap(acts) && i < |tr|
    ensures RetiredAreRevoked(tr[i])
  {
    hide Inv, Enabled, Step, RetiredAreRevoked;
    if i > 0 {
      RunRetires(cfg, tr, acts, i - 1);
      RunKeepsInv(cfg, tr, acts, 0, i - 1);
      StepRetires(cfg, tr[i - 1], acts[i - 1]);
    }
  }

  /** With every rotation revoking at once, a chain has at most one key that is not revoked. */
  lemma OneLiveKeyPerChain(cfg: Config, tr: seq<State>, acts: seq<Action>, i: nat, a: string, b: string, n: nat)
    requires IsRun(cfg, tr, acts) && Inv(tr[0]) && RetiredAreRevoked(tr[0]) && NoOverlap(acts) && i < |tr|
    requires Follow(tr[i].store, a, n) == Some(b) && tr[i].store.keys[a].value.revokedAt.None?
    ensures a == b
  {
    hide Inv, IsRun;
    RunRetires(cfg, tr, acts, i);
  }

  /** In every run the links are inverse and acyclic, written once, and never move to another key. */
  lemma LineageHolds(cfg: Config, tr: seq<State>, acts: seq<Action>, i: nat, j: nat, id: string)
    requires IsRun(cfg, tr, acts) && Inv(tr[0]) && i <= j < |tr| && id in tr[i].store.keys
    ensures LineageInv(tr[i].store) && id in tr[j].store.keys
    ensures tr[j].store.keys[id].value.rotatedFrom == tr[i].store.keys[id].value.rotatedFrom
    ensures tr[i].store.keys[id].value.rotatedTo.Some? ==> tr[j].store.keys[id].value.rotatedTo == tr[i].store.keys[id].value.rotatedTo
  {
    hide IsRun, LineageInv, IndexInv;
    RunKeepsInv(cfg, tr, acts, i, j);
  }

  // ---------------------------------------------------------------------------
  // Revocation
  // ---------------------------------------------------------------------------

  /** Once set, `revokedAt` never changes, in any interleaving. */
  lemma RevocationIsPermanent(cfg: Config, tr: seq<State>, acts: seq<Action>, i: nat, j: nat, id: string)
    requires IsRun(cfg, tr, acts) && Inv(tr[0]) && i <= j < |tr|
    requires id in tr[i].store.keys && tr[i].store.keys[id].value.revokedAt.Some?
    ensures id in tr[j].store.keys && tr[j].store.keys[id].value.revokedAt == tr[i].store.keys[id].value.revokedAt
  {
    hide IsRun, Inv;
    RunKeepsInv(cfg, tr, acts, i, j);
  }

  /** From the revoking commit on, every authorization of every principal of that key is denied. */
  lemma RevocationIsImmediate(cfg: Config, tr: seq<State>, acts: seq<Action>, i: nat, j: nat, caller: Caller, app: string, capability: string, resource: Resource)
    requires IsRun(cfg, tr, acts) && Inv(tr[0]) && i <= j < |tr| && caller.ByKey?
    requires caller.credentialId in tr[i].store.keys && tr[i].store.keys[caller.credentialId].value.revokedAt.Some?
    ensures !CredentialCheck(tr[j].store.keys, tr[j].clock, caller, app, capability, resource)
  {
    hide IsRun, Inv, Permit;
    RevocationIsPermanent(cfg, tr, acts, i, j, caller.credentialId);
  }

  // ---------------------------------------------------------------------------
  // Authentication
  // ---------------------------------------------------------------------------

  /** At instant `j`, with call `n` already waiting, the store held the row the call answers with: live, verified, and of its application. */
  /** The prefix names a stored key that is unrevoked, unexpired, verified by this secret and of this application. */
  predicate GoodKey(cfg: Config, s: State, prefix: string, secret: string, app: string) {
    && prefix in s.store.prefixes && s.store.prefixes[prefix] in s.store.keys
    && var k := s.store.keys[s.store.prefixes[prefix]].value;
       k.revokedAt.None? && (k.expiresAt.Some? ==> s.clock < k.expiresAt.value) && (secret, k.secretHash) in cfg.verifies && k.app == Some(app)
  }

  ghost predicate SeenLive(cfg: Config, tr: seq<State>, j: nat, n: nat, c: Call)
    requires c.task.Authenticate? && (c.phase.Loaded? || c.phase.Identified?) && j < |tr|
  {
    && tr[j].clock == c.phase.at
    && c.phase.id in tr[j].store.keys && tr[j].store.keys[c.phase.id] == c.phase.row
    && c.task.prefix in tr[j].store.prefixes && tr[j].store.prefixes[c.task.prefix] == c.phase.id
    && AuthenticationOk(cfg, c.phase.row.value, c.task.secret, c.proc.app, c.phase.at)
  }

  ghost predicate Waiting(tr: seq<State>, j: nat, i: nat, n: nat, c: Call)
    requires i < |tr|
  {
    forall m :: j <= m <= i ==> n in tr[m].calls && tr[m].calls[n].task == c.task && tr[m].calls[n].proc == c.proc
  }

  /** What one step of an authentication does to its call. */
  lemma AuthenticationStep(cfg: Config, s: State, call: nat, input: Input)
    requires Inv(s) && Enabled(s, Go(call, input)) && s.calls[call].task.Authenticate?
    ensures var c := s.calls[call];
            var next := EffectOf(cfg, s, call, input).next;
            next.Some? ==>
              && next.value.task == c.task && next.value.proc == c.proc
              && (c.phase.Loaded? && next.value.phase.Identified? ==>
                    next.value.phase == Identified(c.phase.id, c.phase.row, c.phase.at))
              && (!c.phase.Loaded? && (next.value.phase.Loaded? || next.value.phase.Identified?) ==> SeenLive(cfg, [s], 0, call, next.value))
              && (c.phase.Loaded? ==> !next.value.phase.Loaded?)
  {
    hide LineageInv, CallOk, AuthenticationOk;
    EmptyCacheOk(s.store);
    CacheAnswersAsTable(s.store, CacheOf(s, s.calls[call].proc), s.calls[call].task.prefix);
  }

  /** A call holding a row saw that row in the store while it was waiting. */
  lemma {:induction false} AuthenticationSaw(cfg: Config, tr: seq<State>, acts: seq<Action>, i: nat, n: nat) returns (j: nat)
    requires IsRun(cfg, tr, acts) && Inv(tr[0]) && tr[0].calls == map[] && i < |tr|
    requires n in tr[i].calls && var c := tr[i].calls[n]; c.task.Authenticate? && (c.phase.Loaded? || c.phase.Identified?)
    ensures j <= i && SeenLive(cfg, tr, j, n, tr[i].calls[n]) && Waiting(tr, j, i, n, tr[i].calls[n])
  {
    hide Inv, Step, Enabled, Do, AuthenticationOk, SeenLive;
    var s, a := tr[i - 1], acts[i - 1];
    RunKeepsInv(cfg, tr, acts, 0, i - 1);
    CallOrigin(cfg, s, a, n);
    if a.Go? && a.call == n && !s.calls[n].phase.Loaded? {
      j := i - 1;
      SeenHere(cfg, tr, j, n, tr[i].calls[n]);
    } else {
      j := AuthenticationSaw(cfg, tr, acts, i - 1, n);
      SameSeen(cfg, tr, j, n, s.calls[n], tr[i].calls[n]);
    }
  }

  lemma SeenHere(cfg: Config, tr: seq<State>, j: nat, n: nat, c: Call)
    requires j < |tr| && c.task.Authenticate? && (c.phase.Loaded? || c.phase.Identified?) && SeenLive(cfg, [tr[j]], 0, n, c)
    ensures SeenLive(cfg, tr, j, n, c)
  {}

  lemma SameSeen(cfg: Config, tr: seq<State>, j: nat, n: nat, was: Call, c: Call)
    requires j < |tr| && was.task.Authenticate? && (was.phase.Loaded? || was.phase.Identified?) && SeenLive(cfg, tr, j, n, was)
    requires c.task == was.task && c.proc == was.proc && (c.phase == was.phase || (was.phase.Loaded? && c.phase == Identified(was.phase.id, was.phase.row, was.phase.at)))
    ensures SeenLive(cfg, tr, j, n, c)
  {}

  /** Where an authentication that holds a row came from: its own last step, or the step before. */
  lemma CallOrigin(cfg: Config, s: State, a: Action, n: nat)
    requires Inv(s) && Enabled(s, a) && n in Step(cfg, s, a).calls
    requires var c := Step(cfg, s, a).calls[n]; c.task.Authenticate? && (c.phase.Loaded? || c.phase.Identified?)
    ensures n in s.calls
    ensures var c, was := Step(cfg, s, a).calls[n], s.calls[n];
            && c.task == was.task && c.proc == was.proc
            && if a.Go? && a.call == n && !was.phase.Loaded? then SeenLive(cfg, [s], 0, n, c)
               else c.phase == was.phase || (was.phase.Loaded? && c.phase == Identified(was.phase.id, was.phase.row, was.phase.at))
  {
    hide Inv, Do, AuthenticationOk, CredentialCheck, SeenLive, Apply, Remember;
    if a.Go? && a.call == n {
      DoKeepsTask(cfg, s.store, s.clock, CacheOf(s, s.calls[n].proc), s.calls[n], a.input);
      AuthenticationStep(cfg, s, n, a.input);
    }
  }

  /** Authentication answers with a key only if, at some instant inside the call, that key's stored record was live, verified and of this application. */
  lemma AuthenticationIsSound(cfg: Config, tr: seq<State>, acts: seq<Action>, i: nat, n: nat) returns (j: nat)
    requires IsRun(cfg, tr, acts) && Inv(tr[0]) && tr[0].calls == map[] && i < |tr|
    requires n in tr[i].calls && tr[i].calls[n].phase.Identified?
    ensures tr[i].calls[n].task.Authenticate? && j <= i && Waiting(tr, j, i, n, tr[i].calls[n])
    ensures var c := tr[i].calls[n];
            && c.phase.id in tr[j].store.keys
            && tr[j].store.keys[c.phase.id].value.keyPrefix == c.task.prefix
            && GoodKey(cfg, tr[j], c.task.prefix, c.task.secret, c.proc.app) && tr[j].store.prefixes[c.task.prefix] == c.phase.id
  {
    hide IsRun, LineageInv, Waiting;
    RunKeepsInv(cfg, tr, acts, 0, i);
    j := AuthenticationSaw(cfg, tr, acts, i, n);
    RunKeepsInv(cfg, tr, acts, 0, j);
  }

  /** No call that was not already waiting when a key was revoked ever answers with that key. */
  lemma NoLoginAfterRevocation(cfg: Config, tr: seq<State>, acts: seq<Action>, r: nat, i: nat, n: nat)
    requires IsRun(cfg, tr, acts) && Inv(tr[0]) && tr[0].calls == map[] && r <= i < |tr|
    requires n !in tr[r].calls && n in tr[i].calls && tr[i].calls[n].phase.Identified?
    ensures var id := tr[i].calls[n].phase.id;
            id in tr[r].store.keys ==> tr[r].store.keys[id].value.revokedAt.None?
  {
    hide IsRun, Inv;
    var j := AuthenticationIsSound(cfg, tr, acts, i, n);
    var id := tr[i].calls[n].phase.id;
    if id in tr[r].store.keys && tr[r].store.keys[id].value.revokedAt.Some? {
      assert r < j;
      RevocationIsPermanent(cfg, tr, acts, r, j, id);
    }
  }
}

/** What every step of every API-key call keeps. */
module ApiKeyInvariants {
  import opened Common
  import opened FeltDb
  import opened ApiKeys

  // ---------------------------------------------------------------------------
  // Invariants
  // ---------------------------------------------------------------------------

  /** The prefix table and the keys point at each other. */
  ghost predicate IndexInv(st: Store) {
    && (forall id :: id in st.keys ==> st.keys[id].value.keyPrefix in st.prefixes && st.prefixes[st.keys[id].value.keyPrefix] == id)
    && (forall p :: p in st.prefixes ==> st.prefixes[p] in st.keys && st.keys[st.prefixes[p]].value.keyPrefix == p)
  }

  /** A rotation's two ends name each other, and the replacement entered later. */
  ghost predicate LinkedTo(st: Store, id: string, to: string)
    requires id in st.keys && st.born.Keys == st.keys.Keys
  {
    to in st.keys && st.keys[to].value.rotatedFrom == Some(id) && st.born[id] < st.born[to]
  }

  ghost predicate LinkedFrom(st: Store, id: string, from: string) {
    from in st.keys && st.keys[from].value.rotatedTo == Some(id)
  }

  ghost predicate LineageInv(st: Store) {
    && st.born.Keys == st.keys.Keys
    && (forall id :: id in st.born ==> st.born[id] < |st.keys|)
    && (forall id :: id in st.keys && st.keys[id].value.rotatedTo.Some? ==> LinkedTo(st, id, st.keys[id].value.rotatedTo.value))
    && (forall id :: id in st.keys && st.keys[id].value.rotatedFrom.Some? ==> LinkedFrom(st, id, st.keys[id].value.rotatedFrom.value))
  }

  /** A cached pair is in the prefix table, and the cache stays within its bound. */
  ghost predicate CacheOk(st: Store, c: Cache) {
    |c| <= MAX_CACHED_PREFIXES && forall e :: e in c ==> e.0 in st.prefixes && st.prefixes[e.0] == e.1
  }

  ghost predicate RowHeld(st: Store, now: nat, c: Call)
    requires c.phase.Loaded? || c.phase.Approved?
  {
    && Pinned(st.keys, c.phase.id, c.phase.row)
    && c.phase.at <= now
    && (c.task.Update? || c.task.Rotate? || c.task.Revoke? ==> c.phase.id == c.task.id && c.phase.row.value.revokedAt.None?)
    && (c.task.Rotate? ==> c.phase.row.value.rotatedTo.None?)
  }

  ghost predicate CallOk(st: Store, now: nat, c: Call) {
    && (c.task.Authenticate? <==> c.caller.Unidentified?)
    && (c.phase.Loaded? ==> !c.task.Create? && RowHeld(st, now, c))
    && (c.phase.Approved? ==> (c.task.Update? || c.task.Rotate?) && RowHeld(st, now, c))
    && (c.phase.Cleared? ==> c.task.Create?)
    && (c.phase.Identified? ==> c.task.Authenticate?)
  }

  ghost predicate CallsOk(s: State) {
    forall n :: n in s.calls ==> CallOk(s.store, s.clock, s.calls[n])
  }

  ghost predicate CachesOk(s: State) {
    forall p :: p in s.caches ==> CacheOk(s.store, s.caches[p])
  }

  ghost predicate Inv(s: State) {
    IndexInv(s.store) && LineageInv(s.store) && CachesOk(s) && CallsOk(s)
  }

  // ---------------------------------------------------------------------------
  // What a write may change
  // ---------------------------------------------------------------------------

  /** What no writer changes in a key, what is written at most once, and what a revoked key keeps. */
  predicate KeyKept(a: ApiKey, b: ApiKey) {
    && b.tenant == a.tenant && b.app == a.app && b.keyPrefix == a.keyPrefix && b.secretHash == a.secretHash
    && b.rotatedFrom == a.rotatedFrom
    && (a.rotatedTo.Some? ==> b.rotatedTo == a.rotatedTo)
    && (a.revokedAt.Some? ==> b.revokedAt == a.revokedAt && b.restrictions == a.restrictions && b.expiresAt == a.expiresAt)
  }

  /** The store only moves forward: no key or prefix disappears, and every key keeps what KeyKept says. */
  ghost predicate StoreForward(a: Store, b: Store) {
    && Evolves(a.keys, b.keys)
    && (forall id :: id in a.keys ==> KeyKept(a.keys[id].value, b.keys[id].value))
    && (forall p :: p in a.prefixes ==> p in b.prefixes && b.prefixes[p] == a.prefixes[p])
  }

  ghost predicate Forward(a: State, b: State) {
    a.clock <= b.clock && StoreForward(a.store, b.store)
  }

  ghost predicate WriteOk(st: Store, w: Write) {
    match w
    case NoWrite => true
    case Rewrite(id, next) =>
      id in st.keys && KeyKept(st.keys[id].value, next) && next.rotatedTo == st.keys[id].value.rotatedTo
    case NewEntry(newId, k) =>
      newId !in st.keys && k.keyPrefix !in st.prefixes && k.rotatedFrom.None? && k.rotatedTo.None?
    case Rotation(id, next, newId, k) =>
      && id in st.keys && newId !in st.keys && k.keyPrefix !in st.prefixes
      && KeyKept(st.keys[id].value, next) && st.keys[id].value.rotatedTo.None? && next.rotatedTo == Some(newId)
      && k.rotatedFrom == Some(id) && k.rotatedTo.None?
  }

  lemma ApplyIsForward(st: Store, w: Write)
    requires WriteOk(st, w)
    ensures StoreForward(st, Apply(st, w))
  {}

  lemma ApplyKeepsIndex(st: Store, w: Write)
    requires WriteOk(st, w) && IndexInv(st)
    ensures IndexInv(Apply(st, w))
  {}

  lemma Grows(a: Keys, b: Keys, newId: string)
    requires newId !in a && b.Keys == a.Keys + {newId}
    ensures |b| == |a| + 1
  {
    assert |b| == |b.Keys| && |a| == |a.Keys|;
  }

  lemma ApplyKeepsLineage(st: Store, w: Write)
    requires WriteOk(st, w) && LineageInv(st)
    ensures LineageInv(Apply(st, w))
  {
    var st' := Apply(st, w);
    if w.Rewrite? {
      assert st'.keys.Keys == st.keys.Keys;
      assert |st'.keys| == |st'.keys.Keys| == |st.keys|;
    } else if w.NewEntry? || w.Rotation? {
      assert st'.keys.Keys == st.keys.Keys + {w.newId};
      Grows(st.keys, st'.keys, w.newId);
    }
    LinksToAfter(st, w);
    LinksFromAfter(st, w);
  }

  lemma LinksToAfter(st: Store, w: Write)
    requires WriteOk(st, w) && LineageInv(st) && Apply(st, w).born.Keys == Apply(st, w).keys.Keys
    ensures var st' := Apply(st, w);
            forall id :: id in st'.keys && st'.keys[id].value.rotatedTo.Some? ==> LinkedTo(st', id, st'.keys[id].value.rotatedTo.value)
  {
    var st' := Apply(st, w);
    forall id | id in st'.keys && st'.keys[id].value.rotatedTo.Some?
      ensures LinkedTo(st', id, st'.keys[id].value.rotatedTo.value)
    {
      if id in st.keys && st.keys[id].value.rotatedTo.Some? {
        assert LinkedTo(st, id, st.keys[id].value.rotatedTo.value);
      }
    }
  }

  lemma LinksFromAfter(st: Store, w: Write)
    requires WriteOk(st, w) && LineageInv(st)
    ensures var st' := Apply(st, w);
            forall id :: id in st'.keys && st'.keys[id].value.rotatedFrom.Some? ==> LinkedFrom(st', id, st'.keys[id].value.rotatedFrom.value)
  {
    hide LinkedTo;
    var st' := Apply(st, w);
    forall id | id in st'.keys && st'.keys[id].value.rotatedFrom.Some?
      ensures LinkedFrom(st', id, st'.keys[id].value.rotatedFrom.value)
    {
      if id in st.keys {
        assert LinkedFrom(st, id, st.keys[id].value.rotatedFrom.value);
      }
    }
  }

  // ---------------------------------------------------------------------------
  // The cache
  // ---------------------------------------------------------------------------

  lemma {:induction false} WithoutSubset(c: Cache, prefix: string)
    ensures |Without(c, prefix)| <= |c| && forall e :: e in Without(c, prefix) ==> e in c
  {
    if c != [] {
      WithoutSubset(c[1..], prefix);
    }
  }

  lemma RememberKeepsCacheOk(st: Store, c: Cache, prefix: string, id: string)
    requires CacheOk(st, c) && prefix in st.prefixes && st.prefixes[prefix] == id
    ensures CacheOk(st, Remember(c, prefix, id))
  {
    WithoutSubset(c, prefix);
  }

  lemma {:induction false} FindIsMember(c: Cache, prefix: string)
    ensures Find(c, prefix).Some? ==> (prefix, Find(c, prefix).value) in c
  {
    if c != [] && c[0].0 != prefix {
      FindIsMember(c[1..], prefix);
    }
  }

  /** The bounded cache never changes an answer: a lookup through it finds what the prefix table finds. */
  lemma CacheAnswersAsTable(st: Store, c: Cache, prefix: string)
    requires IndexInv(st) && CacheOk(st, c)
    ensures FindByPrefix(st, c, prefix) == TableLookup(st, prefix)
    ensures FindByPrefix(st, c, prefix) == if prefix in st.prefixes then Some(st.prefixes[prefix]) else None
  {
    FindIsMember(c, prefix);
  }

  // ---------------------------------------------------------------------------
  // One step of one call
  // ---------------------------------------------------------------------------

  /** A step's write is allowed, what it caches is in the table it leaves, and the call goes on in order. */
  ghost predicate EffectOk(st: Store, now: nat, e: Effect) {
    && WriteOk(st, e.write)
    && (e.learned.Some? ==>
          var p, id := e.learned.value.0, e.learned.value.1;
          var st' := Apply(st, e.write);
          p in st'.prefixes && st'.prefixes[p] == id)
    && (e.next.Some? ==> CallOk(Apply(st, e.write), now, e.next.value))
  }

  lemma CreateOk(st: Store, now: nat, c: Call, input: Input)
    requires c.task.Create? && CallOk(st, now, c) && input.newId !in st.keys
    ensures EffectOk(st, now, DoCreate(st, c, input))
  {
    hide WithinCaller;
  }

  lemma UpdateOk(st: Store, now: nat, c: Call)
    requires c.task.Update? && CallOk(st, now, c)
    ensures EffectOk(st, now, DoUpdate(st, now, c))
  {
    hide WithinCaller;
  }

  lemma RotateOk(st: Store, now: nat, c: Call, input: Input)
    requires c.task.Rotate? && CallOk(st, now, c) && input.newId !in st.keys
    ensures EffectOk(st, now, DoRotate(st, now, c, input))
  {
    hide WithinCaller;
  }

  lemma RevokeOk(st: Store, now: nat, c: Call)
    requires c.task.Revoke? && CallOk(st, now, c)
    ensures EffectOk(st, now, DoRevoke(st, now, c))
  {}

  lemma AuthenticateOk(cfg: Config, st: Store, now: nat, cache: Cache, c: Call, input: Input)
    requires c.task.Authenticate? && CallOk(st, now, c) && IndexInv(st) && CacheOk(st, cache)
    ensures EffectOk(st, now, DoAuthenticate(cfg, st, now, cache, c, input))
  {
    hide AuthenticationOk;
    CacheAnswersAsTable(st, cache, c.task.prefix);
  }

  lemma DoOk(cfg: Config, st: Store, now: nat, cache: Cache, c: Call, input: Input)
    requires CallOk(st, now, c) && IndexInv(st) && CacheOk(st, cache) && input.newId !in st.keys
    ensures EffectOk(st, now, Do(cfg, st, now, cache, c, input))
  {
    hide CallOk, EffectOk, IndexInv, CacheOk;
    match c.task
    case Create(_, _, _) => CreateOk(st, now, c, input);
    case Update(_, _) => UpdateOk(st, now, c);
    case Rotate(_, _) => RotateOk(st, now, c, input);
    case Revoke(_, _) => RevokeOk(st, now, c);
    case Authenticate(_, _) => AuthenticateOk(cfg, st, now, cache, c, input);
  }

  // ---------------------------------------------------------------------------
  // One step of the system
  // ---------------------------------------------------------------------------

  lemma CallStays(a: Store, b: Store, now: nat, later: nat, c: Call)
    requires CallOk(a, now, c) && StoreForward(a, b) && now <= later
    ensures CallOk(b, later, c)
  {}

  lemma CacheStays(a: Store, b: Store, c: Cache)
    requires CacheOk(a, c) && StoreForward(a, b)
    ensures CacheOk(b, c)
  {}

  lemma PerformOk(s: State, call: nat, e: Effect)
    requires Inv(s) && call in s.calls && EffectOk(s.store, s.clock, e)
    ensures Inv(Perform(s, call, e)) && Forward(s, Perform(s, call, e))
  {
    hide IndexInv, LineageInv, CallOk, CacheOk, StoreForward, WriteOk, Apply, Remember;
    var s' := Perform(s, call, e);
    ApplyIsForward(s.store, e.write);
    ApplyKeepsIndex(s.store, e.write);
    ApplyKeepsLineage(s.store, e.write);
    forall n | n in s'.calls ensures CallOk(s'.store, s'.clock, s'.calls[n]) {
      if n != call {
        CallStays(s.store, s'.store, s.clock, s'.clock, s.calls[n]);
      }
    }
    var proc := s.calls[call].proc;
    EmptyCacheOk(s.store);
    CacheStays(s.store, s'.store, CacheOf(s, proc));
    if e.learned.Some? {
      RememberKeepsCacheOk(s'.store, CacheOf(s, proc), e.learned.value.0, e.learned.value.1);
    }
    forall p | p in s'.caches ensures CacheOk(s'.store, s'.caches[p]) {
      if p in s.caches {
        CacheStays(s.store, s'.store, s.caches[p]);
      }
    }
  }

  lemma EmptyCacheOk(st: Store)
    ensures CacheOk(st, [])
  {}

  lemma ForwardReflexive(a: State)
    ensures Forward(a, a)
  {}

  lemma ForwardTransitive(a: State, b: State, c: State)
    requires Forward(a, b) && Forward(b, c)
    ensures Forward(a, c)
  {}

  /** Every step keeps the invariant and only moves the store forward. */
  lemma StepKeepsInv(cfg: Config, s: State, a: Action)
    requires Inv(s) && Enabled(s, a)
    ensures Inv(Step(cfg, s, a)) && Forward(s, Step(cfg, s, a))
  {
    hide IndexInv, LineageInv, CacheOk, CredentialCheck, EffectOk, StoreForward, Do, Perform;
    ForwardReflexive(s);
    match a
    case Tick =>
      TickOk(s);
    case Begin(call, caller, proc, task) =>
    case Go(call, input) =>
      var c := s.calls[call];
      EmptyCacheOk(s.store);
      DoOk(cfg, s.store, s.clock, CacheOf(s, c.proc), c, input);
      PerformOk(s, call, EffectOf(cfg, s, call, input));
    case Crash(call) =>
  }

  lemma TickOk(s: State)
    requires CallsOk(s)
    ensures CallsOk(s.(clock := s.clock + 1)) && StoreForward(s.store, s.store)
  {}

  lemma {:induction false} RunKeepsInv(cfg: Config, tr: seq<State>, acts: seq<Action>, i: nat, j: nat)
    requires IsRun(cfg, tr, acts) && Inv(tr[0]) && i <= j < |tr|
    ensures Inv(tr[i]) && Inv(tr[j]) && Forward(tr[i], tr[j])
    decreases j
  {
    hide Inv, Forward, Enabled, Step;
    if j == 0 {
      ForwardReflexive(tr[0]);
    } else {
      RunKeepsInv(cfg, tr, acts, if i < j then i else j - 1, j - 1);
      StepKeepsInv(cfg, tr[j - 1], acts[j - 1]);
      if i < j {
        ForwardTransitive(tr[i], tr[j - 1], tr[j]);
      } else {
        ForwardReflexive(tr[j]);
      }
    }
  }
}

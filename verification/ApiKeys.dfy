/**
 API keys under concurrent creation, update, rotation, revocation and
 authentication. Every call is cut at its awaits into atomic steps; steps of
 different calls, in any number of processes, interleave freely over one store.
*/
module ApiKeys {
  import opened Common
  import opened FeltDb
  import opened Restrictions

  const MAX_CREATE_ATTEMPTS := 5
  const MAX_UPDATE_ATTEMPTS := 10
  const MAX_OVERLAP_MS := 7 * 24 * 60 * 60 * 1000
  const MAX_CACHED_PREFIXES := 10_000

  // ---------------------------------------------------------------------------
  // Data
  // ---------------------------------------------------------------------------

  datatype ApiKey = ApiKey(
    tenant: string,
    app: Option<string>,
    name: string,
    keyPrefix: string,
    secretHash: string,
    restrictions: Option<Restrictions>,
    expiresAt: Option<nat>,
    revokedAt: Option<nat>,
    lastUsedAt: Option<nat>,
    rotatedFrom: Option<string>,
    rotatedTo: Option<string>,
    createdBy: string)

  /** Who asks: a key-authenticated principal, a principal the host identified, or nobody yet. */
  datatype Caller = ByKey(credentialId: string, tenant: string) | ByHost(principal: string, tenant: string) | Unidentified

  datatype Change<+T> = Keep | Clear | Set(value: T)

  datatype Changes = Changes(name: Option<string>, restrictions: Change<Restrictions>, expiresAt: Change<nat>)

  datatype Task =
    | Create(name: string, restrictions: Option<Restrictions>, expiresAt: Option<nat>)
    | Update(id: string, changes: Changes)
    | Rotate(id: string, overlap: nat)
    /** A revoke of one key, or of one of the keys `revokeAllApiKeys` listed after it was let in once. */
    | Revoke(id: string, listed: bool)
    | Authenticate(prefix: string, secret: string)

  /** One service instance: a process of an application, with its own prefix cache. */
  datatype Proc = Proc(name: string, app: string)

  datatype Phase =
    | Ready
    | Loaded(id: string, row: Row<ApiKey>, at: nat)
    | Approved(id: string, row: Row<ApiKey>, at: nat)
    | Cleared
    | Identified(id: string, row: Row<ApiKey>, at: nat)

  datatype Call = Call(caller: Caller, proc: Proc, task: Task, phase: Phase, attempt: nat)

  type Keys = map<string, Row<ApiKey>>
  type Cache = seq<(string, string)>

  /** The two collections. `born` is auxiliary: the position at which each key entered; nothing reads it. */
  datatype Store = Store(keys: Keys, prefixes: map<string, string>, born: map<string, nat>)

  datatype State = State(clock: nat, store: Store, calls: map<nat, Call>, caches: map<Proc, Cache>)

  /** Which secrets verify against which stored verifier. */
  datatype Config = Config(verifies: set<(string, string)>)

  /** What one step is given: a fresh id, a random prefix (which may collide), a verifier, and whether a read fails. */
  datatype Input = Input(newId: string, newPrefix: string, newHash: string, readFails: bool)

  datatype Action =
    | Tick
    | Begin(call: nat, caller: Caller, proc: Proc, task: Task)
    | Go(call: nat, input: Input)
    | Crash(call: nat)

  /** What one step commits to the store. */
  datatype Write =
    | NoWrite
    | Rewrite(id: string, next: ApiKey)
    | NewEntry(newId: string, k: ApiKey)
    | Rotation(id: string, next: ApiKey, newId: string, k: ApiKey)

  /** The outcome of one step of a call: its write, where the call goes on (None: it returned), and what its process caches. */
  datatype Effect = Effect(write: Write, next: Option<Call>, learned: Option<(string, string)>)

  // ---------------------------------------------------------------------------
  // The service's decisions
  // ---------------------------------------------------------------------------

  predicate Expired(k: ApiKey, now: nat) {
    k.expiresAt.Some? && k.expiresAt.value <= now
  }

  predicate Active(k: ApiKey, now: nat) {
    k.revokedAt.None? && !Expired(k, now)
  }

  predicate Owns(k: ApiKey, tenant: string, app: string, allowLegacy: bool) {
    k.tenant == tenant && (k.app == Some(app) || (allowLegacy && k.app.None?))
  }

  /** The check bound to a key principal: repeated on every gateway authorization. */
  predicate CredentialCheck(keys: Keys, now: nat, caller: Caller, app: string, capability: string, resource: Resource) {
    caller.ByKey? ==>
      && caller.credentialId in keys
      && var k := keys[caller.credentialId].value;
         k.tenant == caller.tenant && k.app == Some(app) && Active(k, now) && Permit(k.restrictions, capability, resource)
  }

  /** `assertWithinCaller`: a key caller only produces keys within its own ceiling and lifetime. */
  predicate WithinCaller(keys: Keys, caller: Caller, restrictions: Option<Restrictions>, expiresAt: Option<nat>) {
    caller.ByKey? ==>
      && caller.credentialId in keys
      && var k := keys[caller.credentialId].value;
         && Within(restrictions, k.restrictions)
         && (k.expiresAt.Some? ==> expiresAt.Some? && expiresAt.value <= k.expiresAt.value)
  }

  predicate AuthenticationOk(cfg: Config, k: ApiKey, secret: string, app: string, now: nat) {
    Active(k, now) && (secret, k.secretHash) in cfg.verifies && k.app == Some(app)
  }

  function Changed<T>(old_: Option<T>, change: Change<T>): Option<T> {
    match change
    case Keep => old_
    case Clear => None
    case Set(v) => Some(v)
  }

  function UpdatedKey(k: ApiKey, c: Changes): ApiKey {
    k.(name := if c.name.Some? then c.name.value else k.name,
       restrictions := Changed(k.restrictions, c.restrictions),
       expiresAt := Changed(k.expiresAt, c.expiresAt))
  }

  function NewKey(tenant: string, app: string, name: string, prefix: string, hash: string,
                  restrictions: Option<Restrictions>, expiresAt: Option<nat>, rotatedFrom: Option<string>, createdBy: string): ApiKey {
    ApiKey(tenant, Some(app), name, prefix, hash, restrictions, expiresAt, None, None, rotatedFrom, None, createdBy)
  }

  function Replacement(k: ApiKey, from: string, app: string, createdBy: string, prefix: string, hash: string): ApiKey {
    NewKey(k.tenant, app, k.name, prefix, hash, k.restrictions, k.expiresAt, Some(from), createdBy)
  }

  /** The replaced key: revoked at once, or kept until the overlap ends but never longer than it had. */
  function RetiredKey(k: ApiKey, to: string, now: nat, overlap: nat): ApiKey {
    var validUntil := if k.expiresAt.Some? && k.expiresAt.value < now + overlap then k.expiresAt.value else now + overlap;
    if overlap == 0
    then k.(rotatedTo := Some(to), revokedAt := Some(now))
    else k.(rotatedTo := Some(to), expiresAt := Some(validUntil))
  }

  function RevokedKey(k: ApiKey, now: nat): ApiKey {
    k.(revokedAt := Some(now))
  }

  // ---------------------------------------------------------------------------
  // The prefix index and its cache
  // ---------------------------------------------------------------------------

  function CacheOf(s: State, p: Proc): Cache {
    if p in s.caches then s.caches[p] else []
  }

  function Find(c: Cache, prefix: string): Option<string> {
    if c == [] then None else if c[0].0 == prefix then Some(c[0].1) else Find(c[1..], prefix)
  }

  function Without(c: Cache, prefix: string): Cache {
    if c == [] then [] else (if c[0].0 == prefix then [] else [c[0]]) + Without(c[1..], prefix)
  }

  /** `rememberPrefix`: newest last, oldest evicted beyond the bound. */
  function Remember(c: Cache, prefix: string, id: string): Cache {
    var grown := Without(c, prefix) + [(prefix, id)];
    if |grown| <= MAX_CACHED_PREFIXES then grown else grown[|grown| - MAX_CACHED_PREFIXES..]
  }

  function TableLookup(st: Store, prefix: string): Option<string> {
    if prefix in st.prefixes && st.prefixes[prefix] in st.keys then Some(st.prefixes[prefix]) else None
  }

  /** `findApiKeyByPrefix`: the cached id if the store has it, else the prefix table. */
  function FindByPrefix(st: Store, cache: Cache, prefix: string): (r: Option<string>)
    ensures r.Some? ==> r.value in st.keys
  {
    var known := Find(cache, prefix);
    if known.Some? && known.value in st.keys then known else TableLookup(st, prefix)
  }

  // ---------------------------------------------------------------------------
  // The steps of each call, from await to await
  // ---------------------------------------------------------------------------

  function Capability(t: Task): string {
    match t
    case Create(_, _, _) => "apikeys.create"
    case Update(_, _) => "apikeys.update"
    case Rotate(_, _) => "apikeys.rotate"
    case Revoke(_, _) => "apikeys.revoke"
    case Authenticate(_, _) => ""
  }

  function TaskResource(t: Task): Resource {
    Resource("api_key", if t.Update? || t.Rotate? || t.Revoke? then Some(t.id) else None, map[])
  }

  function CallerTenant(c: Caller): string {
    if c.Unidentified? then "" else c.tenant
  }

  /** The principal of a key is the key's own id. */
  function CallerId(c: Caller): string {
    match c
    case ByKey(credentialId, _) => credentialId
    case ByHost(principal, _) => principal
    case Unidentified => ""
  }

  /** Nothing but white space. */
  predicate IsBlank(text: string) {
    forall c :: c in text ==> c in {' ', '\t', '\n', '\r'}
  }

  /** An update asks for something, and never for a blank name. */
  predicate AsksSomething(c: Changes) {
    !(c.name.None? && c.restrictions.Keep? && c.expiresAt.Keep?) && (c.name.Some? ==> !IsBlank(c.name.value))
  }

  const RETURNED := Effect(NoWrite, None, None)

  function GoOn(c: Call, phase: Phase): Effect {
    Effect(NoWrite, Some(c.(phase := phase)), None)
  }

  /** A lost race: start over, or give up after the last attempt. */
  function Again(c: Call, phase: Phase, max: nat): Effect {
    if c.attempt + 1 < max then Effect(NoWrite, Some(c.(phase := phase, attempt := c.attempt + 1)), None) else RETURNED
  }

  function DoCreate(st: Store, c: Call, input: Input): Effect
    requires c.task.Create?
  {
    if c.phase != Cleared then
      if WithinCaller(st.keys, c.caller, c.task.restrictions, c.task.expiresAt) then GoOn(c, Cleared) else RETURNED
    else if IsBlank(c.task.name) then RETURNED
    else if input.newPrefix in st.prefixes then Again(c, Cleared, MAX_CREATE_ATTEMPTS)
    else
      var k := NewKey(CallerTenant(c.caller), c.proc.app, c.task.name, input.newPrefix, input.newHash, c.task.restrictions, c.task.expiresAt, None, CallerId(c.caller));
      Effect(NewEntry(input.newId, k), None, Some((input.newPrefix, input.newId)))
  }

  function DoUpdate(st: Store, now: nat, c: Call): Effect
    requires c.task.Update?
  {
    match c.phase
    case Loaded(id, row, at) =>
      var next := UpdatedKey(row.value, c.task.changes);
      if c.task.changes.restrictions.Keep? && c.task.changes.expiresAt.Keep? then GoOn(c, Approved(id, row, at))
      else if WithinCaller(st.keys, c.caller, next.restrictions, next.expiresAt) then GoOn(c, Approved(id, row, at))
      else RETURNED
    case Approved(id, row, _) =>
      if CasWins(st.keys, id, row.version) then Effect(Rewrite(id, UpdatedKey(row.value, c.task.changes)), None, None)
      else Again(c, Ready, MAX_UPDATE_ATTEMPTS)
    case _ =>
      if c.task.id !in st.keys then RETURNED
      else
        var row := st.keys[c.task.id];
        if !Owns(row.value, CallerTenant(c.caller), c.proc.app, false) || row.value.revokedAt.Some? then RETURNED
        else GoOn(c, Loaded(c.task.id, row, now))
  }

  function DoRotate(st: Store, now: nat, c: Call, input: Input): Effect
    requires c.task.Rotate?
  {
    match c.phase
    case Loaded(id, row, at) =>
      // Rotation discloses a secret with the key's authority, so the caller's ceiling must cover it.
      if WithinCaller(st.keys, c.caller, row.value.restrictions, row.value.expiresAt) then GoOn(c, Approved(id, row, at))
      else RETURNED
    case Approved(id, row, at) =>
      if !CasWins(st.keys, id, row.version) || input.newPrefix in st.prefixes then Again(c, Ready, MAX_UPDATE_ATTEMPTS)
      else
        Effect(Rotation(id, RetiredKey(row.value, input.newId, at, c.task.overlap),
                        input.newId, Replacement(row.value, id, c.proc.app, CallerId(c.caller), input.newPrefix, input.newHash)),
               None, Some((input.newPrefix, input.newId)))
    case _ =>
      if c.task.id !in st.keys then RETURNED
      else
        var row := st.keys[c.task.id];
        if !Owns(row.value, CallerTenant(c.caller), c.proc.app, false) then RETURNED
        else if row.value.rotatedTo.Some? || !Active(row.value, now) then RETURNED
        else GoOn(c, Loaded(c.task.id, row, now))
  }

  function DoRevoke(st: Store, now: nat, c: Call): Effect
    requires c.task.Revoke?
  {
    match c.phase
    case Loaded(id, row, at) =>
      if CasWins(st.keys, id, row.version) then Effect(Rewrite(id, RevokedKey(row.value, at)), None, None)
      else Again(c, Ready, MAX_UPDATE_ATTEMPTS)
    case _ =>
      if c.task.id !in st.keys then RETURNED
      else
        var row := st.keys[c.task.id];
        if !Owns(row.value, CallerTenant(c.caller), c.proc.app, true) || row.value.revokedAt.Some? then RETURNED
        else GoOn(c, Loaded(c.task.id, row, now))
  }

  /** Ten attempts read and commit the use; after them one last read alone decides. */
  function DoAuthenticate(cfg: Config, st: Store, now: nat, cache: Cache, c: Call, input: Input): Effect
    requires c.task.Authenticate?
  {
    match c.phase
    case Loaded(id, row, at) =>
      // The store method reads the row again and merges into what it read.
      if CasWins(st.keys, id, row.version) && !input.readFails
      then Effect(Rewrite(id, st.keys[id].value.(lastUsedAt := Some(at))), Some(c.(phase := Identified(id, row, at))), None)
      else Again(c, Ready, MAX_UPDATE_ATTEMPTS + 1)
    case _ =>
      var found := FindByPrefix(st, cache, c.task.prefix);
      if found.None? || input.readFails then Again(c, Ready, MAX_UPDATE_ATTEMPTS + 1)
      else
        var id, row := found.value, st.keys[found.value];
        var learned := if Find(cache, c.task.prefix) == found then None else Some((c.task.prefix, id));
        if !AuthenticationOk(cfg, row.value, c.task.secret, c.proc.app, now) then Effect(NoWrite, None, learned)
        else
          var phase := if c.attempt < MAX_UPDATE_ATTEMPTS then Loaded(id, row, now) else Identified(id, row, now);
          Effect(NoWrite, Some(c.(phase := phase)), learned)
  }

  function Do(cfg: Config, st: Store, now: nat, cache: Cache, c: Call, input: Input): Effect {
    match c.task
    case Create(_, _, _) => DoCreate(st, c, input)
    case Update(_, _) => DoUpdate(st, now, c)
    case Rotate(_, _) => DoRotate(st, now, c, input)
    case Revoke(_, _) => DoRevoke(st, now, c)
    case Authenticate(_, _) => DoAuthenticate(cfg, st, now, cache, c, input)
  }

  // ---------------------------------------------------------------------------
  // The interleaving
  // ---------------------------------------------------------------------------

  function Put(keys: Keys, id: string, k: ApiKey): Keys {
    keys[id := Row(k, if id in keys then keys[id].version + 1 else 1)]
  }

  /** Apply one committed write. Issuing a key writes the key and its prefix together. */
  function Apply(st: Store, w: Write): Store {
    match w
    case NoWrite => st
    case Rewrite(id, next) => st.(keys := Put(st.keys, id, next))
    case NewEntry(newId, k) =>
      Store(Put(st.keys, newId, k), st.prefixes[k.keyPrefix := newId], st.born[newId := |st.keys|])
    case Rotation(id, next, newId, k) =>
      Store(Put(Put(st.keys, id, next), newId, k), st.prefixes[k.keyPrefix := newId], st.born[newId := |st.keys|])
  }

  predicate Enabled(s: State, a: Action) {
    match a
    case Tick => true
    case Begin(call, caller, proc, task) =>
      && call !in s.calls
      && (task.Authenticate? <==> caller.Unidentified?)
      && (task.Rotate? ==> task.overlap <= MAX_OVERLAP_MS)
      && (task.Update? ==> AsksSomething(task.changes))
      // The gateway re-checks the calling key before anything else happens.
      && (!task.Authenticate? && !(task.Revoke? && task.listed) ==> CredentialCheck(s.store.keys, s.clock, caller, proc.app, Capability(task), TaskResource(task)))
    case Go(call, input) => call in s.calls && !s.calls[call].phase.Identified? && input.newId !in s.store.keys
    case Crash(call) => call in s.calls
  }

  function EffectOf(cfg: Config, s: State, call: nat, input: Input): Effect
    requires call in s.calls
  {
    Do(cfg, s.store, s.clock, CacheOf(s, s.calls[call].proc), s.calls[call], input)
  }

  function Perform(s: State, call: nat, e: Effect): State
    requires call in s.calls
  {
    var proc := s.calls[call].proc;
    State(s.clock,
          Apply(s.store, e.write),
          if e.next.Some? then s.calls[call := e.next.value] else s.calls - {call},
          if e.learned.Some? then s.caches[proc := Remember(CacheOf(s, proc), e.learned.value.0, e.learned.value.1)] else s.caches)
  }

  function Step(cfg: Config, s: State, a: Action): State
    requires Enabled(s, a)
  {
    match a
    case Tick => s.(clock := s.clock + 1)
    case Begin(call, caller, proc, task) => s.(calls := s.calls[call := Call(caller, proc, task, Ready, 0)])
    case Go(call, input) => Perform(s, call, EffectOf(cfg, s, call, input))
    case Crash(call) => s.(calls := s.calls - {call})
  }

  /** A run: states and the actions that lead from each to the next. */
  ghost predicate IsRun(cfg: Config, tr: seq<State>, acts: seq<Action>) {
    && |tr| == |acts| + 1
    && forall i :: 0 <= i < |acts| ==> Enabled(tr[i], acts[i]) && tr[i + 1] == Step(cfg, tr[i], acts[i])
  }
}

/**
 Export and import of configuration: the plan against a snapshot of the target, and
 the writes it makes item by item. A write may fail; the next item is tried.
*/
module Transfer {
  import opened Common
  import opened Ordering
  import opened ExportDocument

  // ---------------------------------------------------------------------------
  // The target
  // ---------------------------------------------------------------------------

  /** A record that is replaced by registering a new one and disabling the old one. */
  datatype Entry<+T> = Entry(id: nat, key: string, body: T, enabled: bool)

  /** The body of an endpoint; its key is its URL. */
  datatype Hook = Hook(events: seq<string>, signingRef: Option<string>)

  /** The body of a schedule; its key is `type@interval`. */
  datatype Timer = Timer(typ: string, interval: string, payload: Payload)

  datatype Target = Target(variables: seq<Variable>, secrets: seq<Secret>, hooks: seq<Entry<Hook>>, timers: seq<Entry<Timer>>, nextId: nat)

  function ScheduleKey(typ: string, interval: string): string {
    typ + "@" + interval
  }

  function SortedEvents(events: seq<string>): seq<string> {
    SortBy(events, StringLe)
  }

  // ---------------------------------------------------------------------------
  // Export
  // ---------------------------------------------------------------------------

  function ExportedHook(e: Entry<Hook>): seq<Endpoint> {
    if e.enabled then [Endpoint(e.key, SortedEvents(e.body.events), e.body.signingRef)] else []
  }

  function ExportedHooks(hooks: seq<Entry<Hook>>): seq<Endpoint> {
    if hooks == [] then [] else ExportedHook(hooks[0]) + ExportedHooks(hooks[1..])
  }

  function ExportedTimer(e: Entry<Timer>): seq<Schedule> {
    if e.enabled then [Schedule(e.body.typ, e.body.interval, e.body.payload)] else []
  }

  function ExportedTimers(timers: seq<Entry<Timer>>): seq<Schedule> {
    if timers == [] then [] else ExportedTimer(timers[0]) + ExportedTimers(timers[1..])
  }

  /** Each list is sorted by its key. */
  function Export(header: Header, t: Target): Document {
    Document(header,
             SortBy(t.variables, (a: Variable, b: Variable) => StringLe(a.name, b.name)),
             SortBy(t.secrets, (a: Secret, b: Secret) => StringLe(a.name, b.name)),
             SortBy(ExportedHooks(t.hooks), (a: Endpoint, b: Endpoint) => StringLe(a.url, b.url)),
             SortBy(ExportedTimers(t.timers), (a: Schedule, b: Schedule) => StringLe(ScheduleKey(a.typ, a.interval), ScheduleKey(b.typ, b.interval))))
  }

  // ---------------------------------------------------------------------------
  // The plan
  // ---------------------------------------------------------------------------

  datatype Action = Create | Update | Unchanged | Conflict | Missing | Skip

  datatype Kind = ForVariable | ForSecret | ForEndpoint | ForSchedule

  datatype Item = Item(kind: Kind, key: string, action: Action, applied: bool, failed: bool)

  /** `webhooks` and `schedules` say whether those services are mounted in the target. */
  datatype Options = Options(dryRun: bool, overwrite: bool, webhooks: bool, schedules: bool)

  function LookupVariable(vs: seq<Variable>, name: string): Option<Variable> {
    if vs == [] then None
    else
      var later := LookupVariable(vs[1..], name);
      if later.Some? then later else if vs[0].name == name then Some(vs[0]) else None
  }

  predicate HasSecret(ss: seq<Secret>, name: string) {
    exists s :: s in ss && s.name == name
  }

  /** The enabled records under a key, in order. */
  function Slot<T>(s: seq<Entry<T>>, key: string): seq<Entry<T>> {
    if s == [] then [] else (if s[0].enabled && s[0].key == key then [s[0]] else []) + Slot(s[1..], key)
  }

  function PlanVariable(snap: Target, v: Variable, overwrite: bool): Action {
    var existing := LookupVariable(snap.variables, v.name);
    if HasSecret(snap.secrets, v.name) then Conflict
    else if existing.None? then Create
    else if existing.value.value == v.value && existing.value.required == v.required then Unchanged
    else if overwrite then Update else Conflict
  }

  function PlanSecret(snap: Target, s: Secret): Action {
    if LookupVariable(snap.variables, s.name).Some? then Conflict
    else if HasSecret(snap.secrets, s.name) then Unchanged
    else Missing
  }

  function SigningRef(snap: Target, e: Endpoint): Option<string> {
    var slot := Slot(snap.hooks, e.url);
    if e.signingRef.Some? then e.signingRef else if slot != [] then slot[0].body.signingRef else None
  }

  function PlanEndpoint(snap: Target, e: Endpoint, opt: Options): Action {
    var slot := Slot(snap.hooks, e.url);
    if !opt.webhooks then Skip
    else if slot != [] && SortedEvents(slot[0].body.events) == SortedEvents(e.events) then Unchanged
    else if SigningRef(snap, e).None? then Skip
    else if slot == [] then Create
    else if opt.overwrite then Update else Conflict
  }

  predicate SamePayload(slot: seq<Entry<Timer>>, payload: Payload) {
    exists t :: t in slot && t.body.payload == payload
  }

  function PlanSchedule(snap: Target, s: Schedule, opt: Options): Action {
    var slot := Slot(snap.timers, ScheduleKey(s.typ, s.interval));
    if !opt.schedules then Skip
    else if SamePayload(slot, s.payload) then Unchanged
    else if slot == [] then Create
    else if opt.overwrite then Update else Conflict
  }

  // ---------------------------------------------------------------------------
  // The writes
  // ---------------------------------------------------------------------------

  /** Which of the writes the target accepts, by their number. */
  type Accepts = nat -> bool

  datatype Progress = Progress(target: Target, items: seq<Item>, missing: seq<Secret>, writes: nat)

  function Noted(p: Progress, kind: Kind, key: string, action: Action): Progress {
    p.(items := p.items + [Item(kind, key, action, false, false)])
  }

  function Done(p: Progress, target: Target, writes: nat, kind: Kind, key: string, action: Action, ok: bool): Progress {
    p.(target := target, writes := writes, items := p.items + [Item(kind, key, action, ok, !ok)])
  }

  predicate IsWrite(opt: Options, action: Action) {
    !opt.dryRun && (action.Create? || action.Update?)
  }

  /** `createVariable`: refused for a name that is taken. */
  function CreateVariable(t: Target, v: Variable): Option<Target> {
    if LookupVariable(t.variables, v.name).Some? || HasSecret(t.secrets, v.name) then None else Some(t.(variables := t.variables + [v]))
  }

  function Replaced(vs: seq<Variable>, v: Variable): seq<Variable> {
    if vs == [] then [] else [if vs[0].name == v.name then v else vs[0]] + Replaced(vs[1..], v)
  }

  /** `updateVariable`: refused for a name that is not there. */
  function UpdateVariable(t: Target, v: Variable): Option<Target> {
    if LookupVariable(t.variables, v.name).None? then None else Some(t.(variables := Replaced(t.variables, v)))
  }

  function ImportVariable(opt: Options, accepts: Accepts, snap: Target, p: Progress, v: Variable): Progress {
    var action := PlanVariable(snap, v, opt.overwrite);
    if !IsWrite(opt, action) then Noted(p, ForVariable, v.name, action)
    else
      var written := if action.Create? then CreateVariable(p.target, v) else UpdateVariable(p.target, v);
      var ok := accepts(p.writes) && written.Some?;
      Done(p, if ok then written.value else p.target, p.writes + 1, ForVariable, v.name, action, ok)
  }

  function ImportSecret(snap: Target, p: Progress, s: Secret): Progress {
    var action := PlanSecret(snap, s);
    var noted := Noted(p, ForSecret, s.name, action);
    if action.Missing? then noted.(missing := noted.missing + [s]) else noted
  }

  /** Register a record; the platform's URL form of an endpoint is its key. */
  function Register<T>(s: seq<Entry<T>>, id: nat, key: string, body: T): seq<Entry<T>> {
    s + [Entry(id, key, body, true)]
  }

  function Disable<T>(s: seq<Entry<T>>, id: nat): seq<Entry<T>> {
    if s == [] then [] else [if s[0].id == id then s[0].(enabled := false) else s[0]] + Disable(s[1..], id)
  }

  function CreateHook(canon: string -> string, t: Target, e: Endpoint, signingRef: string): Target {
    t.(hooks := Register(t.hooks, t.nextId, canon(e.url), Hook(SortedEvents(e.events), Some(signingRef))), nextId := t.nextId + 1)
  }

  function ImportEndpoint(opt: Options, accepts: Accepts, canon: string -> string, snap: Target, p: Progress, e: Endpoint): Progress {
    var action := PlanEndpoint(snap, e, opt);
    if !IsWrite(opt, action) then Noted(p, ForEndpoint, e.url, action)
    else if !accepts(p.writes) then Done(p, p.target, p.writes + 1, ForEndpoint, e.url, action, false)
    else
      var created := CreateHook(canon, p.target, e, SigningRef(snap, e).value);
      if action.Create? then Done(p, created, p.writes + 1, ForEndpoint, e.url, action, true)
      else if !accepts(p.writes + 1) then Done(p, created, p.writes + 2, ForEndpoint, e.url, action, false)
      else Done(p, created.(hooks := Disable(created.hooks, Slot(snap.hooks, e.url)[0].id)), p.writes + 2, ForEndpoint, e.url, action, true)
  }

  /** Disable the replaced schedules one by one, up to the first refusal. */
  function DisableAll<T>(accepts: Accepts, s: seq<Entry<T>>, slot: seq<Entry<T>>, writes: nat): (r: (seq<Entry<T>>, nat, bool))
    decreases slot
  {
    if slot == [] then (s, writes, true)
    else if !accepts(writes) then (s, writes + 1, false)
    else DisableAll(accepts, Disable(s, slot[0].id), slot[1..], writes + 1)
  }

  function CreateTimer(t: Target, s: Schedule): Target {
    t.(timers := Register(t.timers, t.nextId, ScheduleKey(s.typ, s.interval), Timer(s.typ, s.interval, s.payload)), nextId := t.nextId + 1)
  }

  function ImportSchedule(opt: Options, accepts: Accepts, snap: Target, p: Progress, s: Schedule): Progress {
    var action := PlanSchedule(snap, s, opt);
    var key := ScheduleKey(s.typ, s.interval);
    if !IsWrite(opt, action) then Noted(p, ForSchedule, key, action)
    else if !accepts(p.writes) then Done(p, p.target, p.writes + 1, ForSchedule, key, action, false)
    else
      var created := CreateTimer(p.target, s);
      if action.Create? then Done(p, created, p.writes + 1, ForSchedule, key, action, true)
      else
        var disabled := DisableAll(accepts, created.timers, Slot(snap.timers, key), p.writes + 1);
        Done(p, created.(timers := disabled.0), disabled.1, ForSchedule, key, action, disabled.2)
  }

  // ---------------------------------------------------------------------------
  // The whole import
  // ---------------------------------------------------------------------------

  function ImportVariables(opt: Options, accepts: Accepts, snap: Target, p: Progress, vs: seq<Variable>): Progress
    decreases |vs|
  {
    if vs == [] then p else ImportVariables(opt, accepts, snap, ImportVariable(opt, accepts, snap, p, vs[0]), vs[1..])
  }

  function ImportSecrets(snap: Target, p: Progress, ss: seq<Secret>): Progress
    decreases |ss|
  {
    if ss == [] then p else ImportSecrets(snap, ImportSecret(snap, p, ss[0]), ss[1..])
  }

  function ImportEndpoints(opt: Options, accepts: Accepts, canon: string -> string, snap: Target, p: Progress, es: seq<Endpoint>): Progress
    decreases |es|
  {
    if es == [] then p else ImportEndpoints(opt, accepts, canon, snap, ImportEndpoint(opt, accepts, canon, snap, p, es[0]), es[1..])
  }

  function ImportSchedules(opt: Options, accepts: Accepts, snap: Target, p: Progress, ss: seq<Schedule>): Progress
    decreases |ss|
  {
    if ss == [] then p else ImportSchedules(opt, accepts, snap, ImportSchedule(opt, accepts, snap, p, ss[0]), ss[1..])
  }

  function Import(opt: Options, accepts: Accepts, canon: string -> string, t: Target, d: Document): Progress {
    var p := ImportSecrets(t, ImportVariables(opt, accepts, t, Progress(t, [], [], 0), d.variables), d.secrets);
    ImportSchedules(opt, accepts, t, ImportEndpoints(opt, accepts, canon, t, p, d.endpoints), d.schedules)
  }

  // ---------------------------------------------------------------------------
  // The summary of the report
  // ---------------------------------------------------------------------------

  datatype Summary = Summary(create: nat, update: nat, same: nat, conflict: nat, missing: nat, skip: nat, failed: nat)

  function Count(items: seq<Item>, action: Action): nat {
    if items == [] then 0
    else Count(items[..|items| - 1], action) + (if items[|items| - 1].action == action then 1 else 0)
  }

  function CountFailed(items: seq<Item>): nat {
    if items == [] then 0
    else CountFailed(items[..|items| - 1]) + (if items[|items| - 1].failed then 1 else 0)
  }

  function SummaryOf(items: seq<Item>): Summary {
    Summary(Count(items, Create), Count(items, Update), Count(items, Unchanged), Count(items, Conflict),
            Count(items, Action.Missing), Count(items, Skip), CountFailed(items))
  }

  /** One pass over the items: its action's count, and the failures. */
  method Summarize(items: seq<Item>) returns (summary: Summary)
    ensures summary == SummaryOf(items)
  {
    summary := Summary(0, 0, 0, 0, 0, 0, 0);
    for i := 0 to |items|
      invariant summary == SummaryOf(items[..i])
    {
      assert items[..i + 1][..i] == items[..i];
      summary := Counted(summary, items[i].action);
      if items[i].failed {
        summary := summary.(failed := summary.failed + 1);
      }
    }
    assert items[..|items|] == items;
  }

  function Counted(s: Summary, action: Action): Summary {
    match action
    case Create => s.(create := s.create + 1)
    case Update => s.(update := s.update + 1)
    case Unchanged => s.(same := s.same + 1)
    case Conflict => s.(conflict := s.conflict + 1)
    case Missing => s.(missing := s.missing + 1)
    case Skip => s.(skip := s.skip + 1)
  }

  /** The configuration service's side of a transfer: its target, changed in place. */
  class ConfigurationTransfer {
    var target: Target
    const canon: string -> string

    constructor (target: Target, canon: string -> string)
      ensures this.target == target && this.canon == canon
    {
      this.target, this.canon := target, canon;
    }

    /** Plan against the target as it is when this begins, then apply item by item. */
    method ImportConfiguration(d: Document, opt: Options, accepts: Accepts) returns (items: seq<Item>, summary: Summary, missing: seq<Secret>)
      modifies this
      ensures var p := Import(opt, accepts, canon, old(target), d);
              target == p.target && items == p.items && missing == p.missing && summary == SummaryOf(p.items)
    {
      hide PlanSecret, ImportVariable, ImportSecret, ImportEndpoint, ImportSchedule;
      var snap := target;
      var p := Progress(snap, [], [], 0);
      for i := 0 to |d.variables|
        invariant target == snap
        invariant ImportVariables(opt, accepts, snap, p, d.variables[i..]) == ImportVariables(opt, accepts, snap, Progress(snap, [], [], 0), d.variables)
      {
        assert d.variables[i..][1..] == d.variables[i + 1..];
        p := ImportVariable(opt, accepts, snap, p, d.variables[i]);
      }
      ghost var afterVariables := p;
      for i := 0 to |d.secrets|
        invariant target == snap
        invariant ImportSecrets(snap, p, d.secrets[i..]) == ImportSecrets(snap, afterVariables, d.secrets)
      {
        assert d.secrets[i..][1..] == d.secrets[i + 1..];
        p := ImportSecret(snap, p, d.secrets[i]);
      }
      ghost var afterSecrets := p;
      for i := 0 to |d.endpoints|
        invariant target == snap
        invariant ImportEndpoints(opt, accepts, canon, snap, p, d.endpoints[i..]) == ImportEndpoints(opt, accepts, canon, snap, afterSecrets, d.endpoints)
      {
        assert d.endpoints[i..][1..] == d.endpoints[i + 1..];
        p := ImportEndpoint(opt, accepts, canon, snap, p, d.endpoints[i]);
      }
      ghost var afterEndpoints := p;
      for i := 0 to |d.schedules|
        invariant target == snap
        invariant ImportSchedules(opt, accepts, snap, p, d.schedules[i..]) == ImportSchedules(opt, accepts, snap, afterEndpoints, d.schedules)
      {
        assert d.schedules[i..][1..] == d.schedules[i + 1..];
        p := ImportSchedule(opt, accepts, snap, p, d.schedules[i]);
      }
      target := p.target;
      items, missing := p.items, p.missing;
      summary := Summarize(items);
    }
  }
}

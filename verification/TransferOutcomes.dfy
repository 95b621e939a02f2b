/**
 What an import comes to, read off the records of the target: when each entry of a
 document is created, updated, left or refused, what is there afterwards, and what
 an export holds.
*/
module TransferOutcomes {
  import opened Common
  import opened Ordering
  import opened ExportDocument
  import opened Transfer
  import opened TransferConvergence
  import TransferTheorems

  // ---------------------------------------------------------------------------
  // What a target holds
  // ---------------------------------------------------------------------------

  /** The record that stands under a name: no later one has it. */
  predicate IsLast(vs: seq<Variable>, i: nat, name: string)
    requires i < |vs|
  {
    vs[i].name == name && forall j :: i < j < |vs| ==> vs[j].name != name
  }

  ghost predicate Holds(t: Target, v: Variable) {
    exists i: nat :: i < |t.variables| && IsLast(t.variables, i, v.name) && t.variables[i] == v
  }

  predicate IsTaken(t: Target, name: string) {
    exists v :: v in t.variables && v.name == name
  }

  predicate IsBound(t: Target, name: string) {
    exists s :: s in t.secrets && s.name == name
  }

  predicate IsOpen<T>(s: seq<Entry<T>>, i: nat, key: string)
    requires i < |s|
  {
    s[i].enabled && s[i].key == key
  }

  /** The first enabled record under a key. */
  predicate IsFirst<T>(s: seq<Entry<T>>, i: nat, key: string)
    requires i < |s|
  {
    IsOpen(s, i, key) && forall j :: 0 <= j < i ==> !IsOpen(s, j, key)
  }

  /** The one enabled record under a key. */
  predicate IsOnly<T>(s: seq<Entry<T>>, i: nat, key: string)
    requires i < |s|
  {
    IsOpen(s, i, key) && forall j :: 0 <= j < |s| && j != i ==> !IsOpen(s, j, key)
  }

  ghost predicate IsRegistered<T(!new)>(s: seq<Entry<T>>, key: string) {
    exists i: nat :: i < |s| && IsOpen(s, i, key)
  }

  /** The enabled records under a key are the same. */
  ghost predicate SameOpen<T(!new)>(a: seq<Entry<T>>, b: seq<Entry<T>>, key: string) {
    forall e: Entry<T> :: e.enabled && e.key == key ==> (e in a <==> e in b)
  }

  ghost predicate SameName(a: Target, b: Target, name: string) {
    forall x: Variable :: x.name == name ==> (Holds(a, x) <==> Holds(b, x))
  }

  lemma {:induction false} LookupMeans(vs: seq<Variable>, name: string)
    ensures LookupVariable(vs, name).None? ==> forall i :: 0 <= i < |vs| ==> vs[i].name != name
    ensures LookupVariable(vs, name).Some? ==> exists i: nat :: i < |vs| && IsLast(vs, i, name) && vs[i] == LookupVariable(vs, name).value
  {
    if vs != [] {
      LookupMeans(vs[1..], name);
      if LookupVariable(vs[1..], name).Some? {
        var i: nat :| i < |vs[1..]| && IsLast(vs[1..], i, name) && vs[1..][i] == LookupVariable(vs[1..], name).value;
        LastLater(vs, i, name);
      } else {
        forall j | 1 <= j < |vs| ensures vs[j].name != name {
          assert vs[1..][j - 1] == vs[j];
        }
        if vs[0].name == name {
          assert IsLast(vs, 0, name);
        }
      }
    }
  }

  lemma LastLater(vs: seq<Variable>, i: nat, name: string)
    requires vs != [] && i < |vs[1..]| && IsLast(vs[1..], i, name)
    ensures IsLast(vs, i + 1, name)
  {
    forall j | i + 1 < j < |vs| ensures vs[j].name != name {
      assert vs[1..][j - 1] == vs[j];
    }
  }

  /** Looking a name up finds what the target holds under it. */
  lemma LookupIsHolds(t: Target, name: string)
    ensures forall x: Variable :: x.name == name ==> (Holds(t, x) <==> LookupVariable(t.variables, name) == Some(x))
    ensures IsTaken(t, name) <==> LookupVariable(t.variables, name).Some?
    ensures LookupVariable(t.variables, name).Some? ==> LookupVariable(t.variables, name).value.name == name
  {
    LookupMeans(t.variables, name);
  }

  lemma {:induction false} SlotMeans<T(!new)>(s: seq<Entry<T>>, key: string)
    ensures forall e: Entry<T> :: e in Slot(s, key) <==> e in s && e.enabled && e.key == key
    ensures Slot(s, key) == [] ==> forall i: nat :: i < |s| ==> !IsOpen(s, i, key)
    ensures Slot(s, key) != [] ==> exists i: nat :: i < |s| && IsFirst(s, i, key) && s[i] == Slot(s, key)[0]
    ensures |Slot(s, key)| == 1 ==> exists i: nat :: i < |s| && IsOnly(s, i, key) && s[i] == Slot(s, key)[0]
  {
    if s != [] {
      SlotMeans(s[1..], key);
      forall j: nat | j < |s[1..]| ensures IsOpen(s[1..], j, key) <==> IsOpen(s, j + 1, key) {}
      if IsOpen(s, 0, key) {
        assert IsFirst(s, 0, key);
        if |Slot(s, key)| == 1 {
          forall j | 1 <= j < |s| ensures !IsOpen(s, j, key) {
            assert !IsOpen(s[1..], j - 1, key);
          }
          assert IsOnly(s, 0, key);
        }
      } else {
        SlotLater(s, key);
      }
    }
  }

  lemma SlotLater<T(!new)>(s: seq<Entry<T>>, key: string)
    requires s != [] && !IsOpen(s, 0, key)
    requires var rest := s[1..];
             && (Slot(rest, key) == [] ==> forall i: nat :: i < |rest| ==> !IsOpen(rest, i, key))
             && (Slot(rest, key) != [] ==> exists i: nat :: i < |rest| && IsFirst(rest, i, key) && rest[i] == Slot(rest, key)[0])
             && (|Slot(rest, key)| == 1 ==> exists i: nat :: i < |rest| && IsOnly(rest, i, key) && rest[i] == Slot(rest, key)[0])
    ensures Slot(s, key) == [] ==> forall i: nat :: i < |s| ==> !IsOpen(s, i, key)
    ensures Slot(s, key) != [] ==> exists i: nat :: i < |s| && IsFirst(s, i, key) && s[i] == Slot(s, key)[0]
    ensures |Slot(s, key)| == 1 ==> exists i: nat :: i < |s| && IsOnly(s, i, key) && s[i] == Slot(s, key)[0]
  {
    var rest := s[1..];
    assert Slot(s, key) == Slot(rest, key);
    forall j: nat | 1 <= j < |s| ensures IsOpen(s, j, key) <==> IsOpen(rest, j - 1, key) {}
    if Slot(rest, key) != [] {
      var i: nat :| i < |rest| && IsFirst(rest, i, key) && rest[i] == Slot(rest, key)[0];
      assert IsFirst(s, i + 1, key);
      if |Slot(rest, key)| == 1 {
        var k: nat :| k < |rest| && IsOnly(rest, k, key) && rest[k] == Slot(rest, key)[0];
        assert IsOnly(s, k + 1, key);
      }
    }
  }

  // ---------------------------------------------------------------------------
  // The plan, entry by entry
  // ---------------------------------------------------------------------------

  ghost predicate SameVariable(t: Target, v: Variable) {
    exists i: nat :: i < |t.variables| && IsLast(t.variables, i, v.name) && t.variables[i].value == v.value && t.variables[i].required == v.required
  }

  lemma VariableIsPlanned(snap: Target, v: Variable, overwrite: bool)
    ensures PlanVariable(snap, v, overwrite) ==
            if IsBound(snap, v.name) then Conflict
            else if !IsTaken(snap, v.name) then Create
            else if SameVariable(snap, v) then Unchanged
            else if overwrite then Update else Conflict
  {
    LookupIsHolds(snap, v.name);
    LookupMeans(snap.variables, v.name);
  }

  /** A name is one thing: a variable's name is not bound, a bound name stays as the target bound it, and any other is missing. */
  lemma SecretIsPlanned(snap: Target, s: Secret)
    ensures PlanSecret(snap, s) == if IsTaken(snap, s.name) then Conflict else if IsBound(snap, s.name) then Unchanged else Action.Missing
  {
    LookupIsHolds(snap, s.name);
  }

  /** The first enabled endpoint of the URL has the same events, in any order. */
  ghost predicate SameEvents(t: Target, e: Endpoint) {
    exists i: nat :: i < |t.hooks| && IsFirst(t.hooks, i, e.url) && multiset(t.hooks[i].body.events) == multiset(e.events)
  }

  /** A signing reference: the document's own, or the one the target uses for the URL. */
  ghost predicate HasRef(t: Target, e: Endpoint, signingRef: string) {
    if e.signingRef.Some? then e.signingRef == Some(signingRef)
    else exists i: nat :: i < |t.hooks| && IsFirst(t.hooks, i, e.url) && t.hooks[i].body.signingRef == Some(signingRef)
  }

  lemma SortedSame(a: seq<string>, b: seq<string>)
    ensures SortedEvents(a) == SortedEvents(b) <==> multiset(a) == multiset(b)
  {
    StringLeIsTotalOrder();
    if multiset(a) == multiset(b) {
      SortByCanonical(a, b, StringLe);
    }
  }

  lemma EndpointIsPlanned(snap: Target, e: Endpoint, opt: Options)
    ensures PlanEndpoint(snap, e, opt) ==
            if !opt.webhooks then Skip
            else if SameEvents(snap, e) then Unchanged
            else if !(exists signingRef :: HasRef(snap, e, signingRef)) then Skip
            else if !IsRegistered(snap.hooks, e.url) then Create
            else if opt.overwrite then Update else Conflict
    ensures forall signingRef :: HasRef(snap, e, signingRef) <==> SigningRef(snap, e) == Some(signingRef)
  {
    hide SortedEvents, Slot;
    SlotMeans(snap.hooks, e.url);
    var slot := Slot(snap.hooks, e.url);
    if slot != [] {
      var i: nat :| i < |snap.hooks| && IsFirst(snap.hooks, i, e.url) && snap.hooks[i] == slot[0];
      SortedSame(snap.hooks[i].body.events, e.events);
      FirstIsOne(snap.hooks, i, e.url);
    }
    assert SigningRef(snap, e).Some? ==> HasRef(snap, e, SigningRef(snap, e).value);
  }

  lemma FirstIsOne<T>(s: seq<Entry<T>>, i: nat, key: string)
    requires i < |s| && IsFirst(s, i, key)
    ensures forall j: nat :: j < |s| && IsFirst(s, j, key) ==> j == i
  {
    forall j: nat | j < |s| && IsFirst(s, j, key) ensures j == i {
      assert IsOpen(s, i, key) && IsOpen(s, j, key);
    }
  }

  /** Some enabled schedule of this type and interval has this payload. */
  ghost predicate SameTimer(t: Target, s: Schedule) {
    exists e :: e in t.timers && e.enabled && e.key == s.typ + "@" + s.interval && e.body.payload == s.payload
  }

  lemma ScheduleIsPlanned(snap: Target, s: Schedule, opt: Options)
    ensures PlanSchedule(snap, s, opt) ==
            if !opt.schedules then Skip
            else if SameTimer(snap, s) then Unchanged
            else if !IsRegistered(snap.timers, s.typ + "@" + s.interval) then Create
            else if opt.overwrite then Update else Conflict
  {
    hide Slot;
    SlotMeans(snap.timers, s.typ + "@" + s.interval);
  }

  // ---------------------------------------------------------------------------
  // What is there afterwards
  // ---------------------------------------------------------------------------

  /** The document's variable, unless the name is bound to a credential, or taken and nothing may be overwritten. */
  ghost predicate VariableLands(opt: Options, t: Target, after: Target, v: Variable) {
    if IsBound(t, v.name) || (IsTaken(t, v.name) && !opt.overwrite) then SameName(t, after, v.name) else Holds(after, v)
  }

  /** One enabled endpoint with the document's events, unless the target has it, has no reference for it, or may not be overwritten. */
  ghost predicate EndpointLands(opt: Options, t: Target, after: Target, e: Endpoint) {
    if SameEvents(t, e) || !(exists signingRef :: HasRef(t, e, signingRef)) || (IsRegistered(t.hooks, e.url) && !opt.overwrite)
    then SameOpen(t.hooks, after.hooks, e.url)
    else exists i: nat :: i < |after.hooks| && IsOnly(after.hooks, i, e.url) && IsHookOf(t, e, after.hooks[i].body)
  }

  ghost predicate IsHookOf(t: Target, e: Endpoint, hook: Hook) {
    multiset(hook.events) == multiset(e.events) && hook.signingRef.Some? && HasRef(t, e, hook.signingRef.value)
  }

  /** One enabled schedule with the document's payload, unless the target has it or may not be overwritten. */
  ghost predicate ScheduleLands(opt: Options, t: Target, after: Target, s: Schedule) {
    var key := s.typ + "@" + s.interval;
    if SameTimer(t, s) || (IsRegistered(t.timers, key) && !opt.overwrite) then SameOpen(t.timers, after.timers, key)
    else exists i: nat :: i < |after.timers| && IsOnly(after.timers, i, key) && after.timers[i].body == Timer(s.typ, s.interval, s.payload)
  }

  lemma VariableIsWritten(opt: Options, accepts: Accepts, snap: Target, p: Progress, v: Variable)
    requires !opt.dryRun && accepts(p.writes) && p.target.secrets == snap.secrets
    requires LookupVariable(p.target.variables, v.name) == LookupVariable(snap.variables, v.name)
    ensures var t := ImportVariable(opt, accepts, snap, p, v).target;
            && t == p.target.(variables := t.variables)
            && LookupVariable(t.variables, v.name) ==
               (if HasSecret(snap.secrets, v.name) || (LookupVariable(snap.variables, v.name).Some? && !opt.overwrite)
                then LookupVariable(snap.variables, v.name) else Some(v))
            && forall name :: name != v.name ==> LookupVariable(t.variables, name) == LookupVariable(p.target.variables, name)
  {
    hide LookupVariable, Replaced, HasSecret;
    LookupIsHolds(snap, v.name);
    forall name ensures LookupVariable(p.target.variables + [v], name) == if v.name == name then Some(v) else LookupVariable(p.target.variables, name) {
      LookupAppend(p.target.variables, v, name);
    }
    forall name
      ensures LookupVariable(Replaced(p.target.variables, v), name) ==
              if v.name == name && LookupVariable(p.target.variables, name).Some? then Some(v) else LookupVariable(p.target.variables, name)
    {
      LookupReplaced(p.target.variables, v, name);
    }
  }

  lemma {:induction false} VariablesAreWritten(opt: Options, accepts: Accepts, snap: Target, p: Progress, vs: seq<Variable>)
    requires !opt.dryRun && (forall n :: accepts(n)) && p.target.secrets == snap.secrets && NamesDistinct(vs)
    requires forall v :: v in vs ==> LookupVariable(p.target.variables, v.name) == LookupVariable(snap.variables, v.name)
    ensures var t := ImportVariables(opt, accepts, snap, p, vs).target;
            && t == p.target.(variables := t.variables)
            && (forall v :: v in vs ==>
                  LookupVariable(t.variables, v.name) ==
                  (if HasSecret(snap.secrets, v.name) || (LookupVariable(snap.variables, v.name).Some? && !opt.overwrite)
                   then LookupVariable(snap.variables, v.name) else Some(v)))
            && (forall name :: (forall v :: v in vs ==> v.name != name) ==> LookupVariable(t.variables, name) == LookupVariable(p.target.variables, name))
    decreases |vs|
  {
    hide ImportVariable, LookupVariable, HasSecret;
    if vs != [] {
      var next := ImportVariable(opt, accepts, snap, p, vs[0]);
      VariableIsWritten(opt, accepts, snap, p, vs[0]);
      forall v | v in vs[1..] ensures LookupVariable(next.target.variables, v.name) == LookupVariable(snap.variables, v.name) {
        var i :| 0 <= i < |vs[1..]| && vs[1..][i] == v;
        assert vs[i + 1] == v && vs[0].name != v.name;
      }
      VariablesAreWritten(opt, accepts, snap, next, vs[1..]);
      var t := ImportVariables(opt, accepts, snap, p, vs).target;
      assert forall v :: v in vs[1..] ==> v.name != vs[0].name;
      assert LookupVariable(t.variables, vs[0].name) == LookupVariable(next.target.variables, vs[0].name);
    }
  }

  /** The enabled records under an endpoint's URL: the new one alone where one is written, and as they were elsewhere. */
  ghost predicate HookSlot(opt: Options, snap: Target, after: Target, e: Endpoint) {
    if IsPlannedWrite(PlanEndpoint(snap, e, opt))
    then exists id :: Slot(after.hooks, e.url) == [Entry(id, e.url, Hook(SortedEvents(e.events), SigningRef(snap, e)), true)]
    else Slot(after.hooks, e.url) == Slot(snap.hooks, e.url)
  }

  lemma EndpointIsWritten(opt: Options, accepts: Accepts, canon: string -> string, snap: Target, p: Progress, e: Endpoint)
    requires !opt.dryRun && accepts(p.writes) && accepts(p.writes + 1) && canon(e.url) == e.url
    requires IdsOk(p.target.hooks, p.target.nextId) && Slot(p.target.hooks, e.url) == Slot(snap.hooks, e.url) && |Slot(snap.hooks, e.url)| <= 1
    ensures var t := ImportEndpoint(opt, accepts, canon, snap, p, e).target;
            && t == p.target.(hooks := t.hooks, nextId := t.nextId) && t.nextId >= p.target.nextId && IdsOk(t.hooks, t.nextId)
            && HookSlot(opt, snap, t, e)
            && forall url :: url != e.url ==> Slot(t.hooks, url) == Slot(p.target.hooks, url)
  {
    hide IdsOk, Slot, Disable, SortedEvents;
    var action := PlanEndpoint(snap, e, opt);
    if IsWrite(opt, action) {
      var body := Hook(SortedEvents(e.events), Some(SigningRef(snap, e).value));
      var id := p.target.nextId;
      if action.Create? {
        RegisterKeepsIds(p.target.hooks, id, e.url, body);
        forall url ensures Slot(Register(p.target.hooks, id, e.url, body), url) == Slot(p.target.hooks, url) + (if url == e.url then [Entry(id, e.url, body, true)] else []) {
          SlotAppend(p.target.hooks, Entry(id, e.url, body, true), url);
        }
      } else {
        var slot := Slot(snap.hooks, e.url);
        assert slot == [slot[0]];
        ReplaceSlot(p.target.hooks, id, e.url, body, slot[0]);
      }
    }
  }

  lemma {:induction false} EndpointsAreWritten(opt: Options, accepts: Accepts, canon: string -> string, snap: Target, p: Progress, es: seq<Endpoint>)
    requires !opt.dryRun && (forall n :: accepts(n)) && (forall e :: e in es ==> canon(e.url) == e.url)
    requires IdsOk(p.target.hooks, p.target.nextId) && UrlsDistinct(es) && UrlsUnique(snap)
    requires forall e :: e in es ==> Slot(p.target.hooks, e.url) == Slot(snap.hooks, e.url)
    ensures var t := ImportEndpoints(opt, accepts, canon, snap, p, es).target;
            && t == p.target.(hooks := t.hooks, nextId := t.nextId) && t.nextId >= p.target.nextId
            && (forall e :: e in es ==> HookSlot(opt, snap, t, e))
            && (forall url :: (forall e :: e in es ==> e.url != url) ==> Slot(t.hooks, url) == Slot(p.target.hooks, url))
    decreases |es|
  {
    hide ImportEndpoint, Slot, IdsOk, SortedEvents;
    if es != [] {
      var next := ImportEndpoint(opt, accepts, canon, snap, p, es[0]);
      EndpointIsWritten(opt, accepts, canon, snap, p, es[0]);
      forall e | e in es[1..] ensures Slot(next.target.hooks, e.url) == Slot(snap.hooks, e.url) {
        var i :| 0 <= i < |es[1..]| && es[1..][i] == e;
        assert es[i + 1] == e && es[0].url != e.url;
      }
      EndpointsAreWritten(opt, accepts, canon, snap, next, es[1..]);
      assert forall e :: e in es[1..] ==> e.url != es[0].url;
      var t := ImportEndpoints(opt, accepts, canon, snap, p, es).target;
      assert Slot(t.hooks, es[0].url) == Slot(next.target.hooks, es[0].url);
    }
  }

  ghost predicate TimerSlot(opt: Options, snap: Target, after: Target, s: Schedule) {
    if IsPlannedWrite(PlanSchedule(snap, s, opt))
    then exists id :: Slot(after.timers, KeyOf(s)) == [Entry(id, KeyOf(s), Timer(s.typ, s.interval, s.payload), true)]
    else Slot(after.timers, KeyOf(s)) == Slot(snap.timers, KeyOf(s))
  }

  lemma ScheduleIsWritten(opt: Options, accepts: Accepts, snap: Target, p: Progress, s: Schedule)
    requires !opt.dryRun && forall n :: accepts(n)
    requires IdsOk(p.target.timers, p.target.nextId) && Slot(p.target.timers, KeyOf(s)) == Slot(snap.timers, KeyOf(s))
    ensures var t := ImportSchedule(opt, accepts, snap, p, s).target;
            && t == p.target.(timers := t.timers, nextId := t.nextId) && t.nextId >= p.target.nextId && IdsOk(t.timers, t.nextId)
            && TimerSlot(opt, snap, t, s)
            && forall key :: key != KeyOf(s) ==> Slot(t.timers, key) == Slot(p.target.timers, key)
  {
    hide IdsOk, Slot, DisableAll, ScheduleKey, SamePayload;
    var action, key := PlanSchedule(snap, s, opt), KeyOf(s);
    var body, id := Timer(s.typ, s.interval, s.payload), p.target.nextId;
    var new_ := Entry(id, key, body, true);
    var slot := Slot(p.target.timers, key);
    var grown := Register(p.target.timers, id, key, body);
    forall other ensures Slot(grown, other) == Slot(p.target.timers, other) + (if other == key then [new_] else []) {
      SlotAppend(p.target.timers, new_, other);
    }
    RegisterKeepsIds(p.target.timers, id, key, body);
    if IsWrite(opt, action) && action.Update? {
      NewIdIsNew(p.target.timers, id, key);
      DisableAllSlot(accepts, grown, id + 1, slot, new_, p.writes + 1, key);
    } else if IsWrite(opt, action) {
      assert slot == [];
    }
  }

  lemma {:induction false} SchedulesAreWritten(opt: Options, accepts: Accepts, snap: Target, p: Progress, ss: seq<Schedule>)
    requires !opt.dryRun && forall n :: accepts(n)
    requires IdsOk(p.target.timers, p.target.nextId) && KeysDistinct(ss)
    requires forall s :: s in ss ==> Slot(p.target.timers, KeyOf(s)) == Slot(snap.timers, KeyOf(s))
    ensures var t := ImportSchedules(opt, accepts, snap, p, ss).target;
            && t == p.target.(timers := t.timers, nextId := t.nextId)
            && (forall s :: s in ss ==> TimerSlot(opt, snap, t, s))
            && (forall key :: (forall s :: s in ss ==> KeyOf(s) != key) ==> Slot(t.timers, key) == Slot(p.target.timers, key))
    decreases |ss|
  {
    hide ImportSchedule, Slot, IdsOk, ScheduleKey;
    if ss != [] {
      var next := ImportSchedule(opt, accepts, snap, p, ss[0]);
      ScheduleIsWritten(opt, accepts, snap, p, ss[0]);
      forall s | s in ss[1..] ensures Slot(next.target.timers, KeyOf(s)) == Slot(snap.timers, KeyOf(s)) {
        var i :| 0 <= i < |ss[1..]| && ss[1..][i] == s;
        assert ss[i + 1] == s && KeyOf(ss[0]) != KeyOf(s);
      }
      SchedulesAreWritten(opt, accepts, snap, next, ss[1..]);
      assert forall s :: s in ss[1..] ==> KeyOf(s) != KeyOf(ss[0]);
      var t := ImportSchedules(opt, accepts, snap, p, ss).target;
      assert Slot(t.timers, KeyOf(ss[0])) == Slot(next.target.timers, KeyOf(ss[0]));
    }
  }

  lemma VariableHasLanded(opt: Options, t: Target, after: Target, v: Variable)
    requires LookupVariable(after.variables, v.name) ==
             (if HasSecret(t.secrets, v.name) || (LookupVariable(t.variables, v.name).Some? && !opt.overwrite)
              then LookupVariable(t.variables, v.name) else Some(v))
    ensures VariableLands(opt, t, after, v)
  {
    hide LookupVariable, Holds;
    LookupIsHolds(t, v.name);
    LookupIsHolds(after, v.name);
  }

  lemma EndpointHasLanded(opt: Options, t: Target, after: Target, e: Endpoint)
    requires opt.webhooks && HookSlot(opt, t, after, e)
    ensures EndpointLands(opt, t, after, e)
  {
    hide Slot, SortedEvents, PlanEndpoint, SigningRef, HasRef, SameEvents, IsRegistered, IsOnly, IsFirst;
    EndpointIsPlanned(t, e, opt);
    SlotMeans(t.hooks, e.url);
    SlotMeans(after.hooks, e.url);
    if IsPlannedWrite(PlanEndpoint(t, e, opt)) {
      var id :| Slot(after.hooks, e.url) == [Entry(id, e.url, Hook(SortedEvents(e.events), SigningRef(t, e)), true)];
      var i: nat :| i < |after.hooks| && IsOnly(after.hooks, i, e.url) && after.hooks[i] == Slot(after.hooks, e.url)[0];
      SortedSame(SortedEvents(e.events), e.events);
      SortedTwice(e.events);
      assert IsHookOf(t, e, after.hooks[i].body);
    }
  }

  lemma ScheduleHasLanded(opt: Options, t: Target, after: Target, s: Schedule)
    requires opt.schedules && TimerSlot(opt, t, after, s)
    ensures ScheduleLands(opt, t, after, s)
  {
    hide Slot, PlanSchedule, SameTimer, IsRegistered, IsOnly, IsFirst;
    ScheduleIsPlanned(t, s, opt);
    SlotMeans(t.timers, KeyOf(s));
    SlotMeans(after.timers, KeyOf(s));
    if IsPlannedWrite(PlanSchedule(t, s, opt)) {
      var id :| Slot(after.timers, KeyOf(s)) == [Entry(id, KeyOf(s), Timer(s.typ, s.interval, s.payload), true)];
      var i: nat :| i < |after.timers| && IsOnly(after.timers, i, KeyOf(s)) && after.timers[i] == Slot(after.timers, KeyOf(s))[0];
    }
  }

  /** What an entry of the document leaves is there, and everything it does not name is as it was. */
  ghost predicate Lands(opt: Options, t: Target, d: Document, after: Target) {
    && after.secrets == t.secrets
    && (forall v :: v in d.variables ==> VariableLands(opt, t, after, v))
    && (opt.webhooks ==> forall e :: e in d.endpoints ==> EndpointLands(opt, t, after, e))
    && (opt.schedules ==> forall s :: s in d.schedules ==> ScheduleLands(opt, t, after, s))
    && (forall name :: (forall v :: v in d.variables ==> v.name != name) ==> SameName(t, after, name))
    && (forall url :: !opt.webhooks || (forall e :: e in d.endpoints ==> e.url != url) ==> SameOpen(t.hooks, after.hooks, url))
    && (forall key :: !opt.schedules || (forall s :: s in d.schedules ==> s.typ + "@" + s.interval != key) ==> SameOpen(t.timers, after.timers, key))
  }

  /** An import whose writes are accepted leaves what the document says: every variable, endpoint and schedule it may write. */
  lemma ImportLands(opt: Options, accepts: Accepts, canon: string -> string, t: Target, d: Document)
    requires !opt.dryRun && (forall n :: accepts(n)) && Canonical(canon, d) && TargetOk(t)
    ensures Lands(opt, t, d, Import(opt, accepts, canon, t, d).target)
  {
    hide ImportVariables, ImportSecrets, ImportEndpoints, ImportSchedules, LookupVariable, Slot, IdsOk, HookSlot, TimerSlot,
         VariableLands, EndpointLands, ScheduleLands, SameName, SameOpen, HasSecret, PlanEndpoint, PlanSchedule;
    var p0 := Progress(t, [], [], 0);
    var p1 := ImportVariables(opt, accepts, t, p0, d.variables);
    var p2 := ImportSecrets(t, p1, d.secrets);
    var p3 := ImportEndpoints(opt, accepts, canon, t, p2, d.endpoints);
    var after := ImportSchedules(opt, accepts, t, p3, d.schedules).target;
    VariablesAreWritten(opt, accepts, t, p0, d.variables);
    TransferTheorems.SecretsLeave(t, p1, d.secrets);
    EndpointsAreWritten(opt, accepts, canon, t, p2, d.endpoints);
    IdsGrow(t.timers, t.nextId, p3.target.nextId);
    SchedulesAreWritten(opt, accepts, t, p3, d.schedules);
    VariablesHaveLanded(opt, t, p1.target, after, d.variables);
    EndpointsHaveLanded(opt, t, p3.target, after, d.endpoints);
    SchedulesHaveLanded(opt, t, after, d.schedules);
  }

  lemma VariablesHaveLanded(opt: Options, t: Target, mid: Target, after: Target, vs: seq<Variable>)
    requires after.variables == mid.variables
    requires forall v :: v in vs ==>
               LookupVariable(mid.variables, v.name) ==
               (if HasSecret(t.secrets, v.name) || (LookupVariable(t.variables, v.name).Some? && !opt.overwrite)
                then LookupVariable(t.variables, v.name) else Some(v))
    requires forall name :: (forall v :: v in vs ==> v.name != name) ==> LookupVariable(mid.variables, name) == LookupVariable(t.variables, name)
    ensures forall v :: v in vs ==> VariableLands(opt, t, after, v)
    ensures forall name :: (forall v :: v in vs ==> v.name != name) ==> SameName(t, after, name)
  {
    hide LookupVariable, HasSecret, VariableLands, Holds;
    forall v | v in vs ensures VariableLands(opt, t, after, v) {
      VariableHasLanded(opt, t, after, v);
    }
    forall name | forall v :: v in vs ==> v.name != name ensures SameName(t, after, name) {
      LookupIsHolds(t, name);
      LookupIsHolds(after, name);
    }
  }

  lemma EndpointsHaveLanded(opt: Options, t: Target, mid: Target, after: Target, es: seq<Endpoint>)
    requires after.hooks == mid.hooks
    requires forall e :: e in es ==> HookSlot(opt, t, mid, e)
    requires forall url :: (forall e :: e in es ==> e.url != url) ==> Slot(mid.hooks, url) == Slot(t.hooks, url)
    ensures opt.webhooks ==> forall e :: e in es ==> EndpointLands(opt, t, after, e)
    ensures forall url :: !opt.webhooks || (forall e :: e in es ==> e.url != url) ==> SameOpen(t.hooks, after.hooks, url)
  {
    hide Slot, EndpointLands, SortedEvents, SigningRef;
    if opt.webhooks {
      forall e | e in es ensures EndpointLands(opt, t, after, e) {
        assert HookSlot(opt, t, after, e);
        EndpointHasLanded(opt, t, after, e);
      }
    }
    forall url | !opt.webhooks || (forall e :: e in es ==> e.url != url) ensures SameOpen(t.hooks, after.hooks, url) {
      SlotMeans(t.hooks, url);
      SlotMeans(after.hooks, url);
      if e :| e in es && e.url == url {
        assert HookSlot(opt, t, mid, e);
      }
    }
  }

  lemma SchedulesHaveLanded(opt: Options, t: Target, after: Target, ss: seq<Schedule>)
    requires forall s :: s in ss ==> TimerSlot(opt, t, after, s)
    requires forall key :: (forall s :: s in ss ==> KeyOf(s) != key) ==> Slot(after.timers, key) == Slot(t.timers, key)
    ensures opt.schedules ==> forall s :: s in ss ==> ScheduleLands(opt, t, after, s)
    ensures forall key :: !opt.schedules || (forall s :: s in ss ==> s.typ + "@" + s.interval != key) ==> SameOpen(t.timers, after.timers, key)
  {
    hide Slot, ScheduleLands, SamePayload;
    if opt.schedules {
      forall s | s in ss ensures ScheduleLands(opt, t, after, s) {
        ScheduleHasLanded(opt, t, after, s);
      }
    }
    forall key | !opt.schedules || (forall s :: s in ss ==> s.typ + "@" + s.interval != key) ensures SameOpen(t.timers, after.timers, key) {
      SlotMeans(t.timers, key);
      SlotMeans(after.timers, key);
      if s :| s in ss && KeyOf(s) == key {
        assert TimerSlot(opt, t, after, s);
      }
    }
  }

  /** The bindings reported as missing are, in order, exactly the document's secrets whose name the target neither binds nor uses. */
  lemma MissingAreReported(opt: Options, accepts: Accepts, canon: string -> string, t: Target, d: Document)
    ensures Import(opt, accepts, canon, t, d).missing == Filter(d.secrets, (s: Secret) => !IsTaken(t, s.name) && !IsBound(t, s.name))
  {
    hide ImportVariables, ImportSecrets, ImportEndpoints, ImportSchedules, IsTaken, IsBound;
    var p0 := Progress(t, [], [], 0);
    var p1 := ImportVariables(opt, accepts, t, p0, d.variables);
    var p2 := ImportSecrets(t, p1, d.secrets);
    VariablesMissNothing(opt, accepts, t, p0, d.variables);
    SecretsMissing(t, p1, d.secrets);
    EndpointsMissNothing(opt, accepts, canon, t, p2, d.endpoints);
    SchedulesMissNothing(opt, accepts, t, ImportEndpoints(opt, accepts, canon, t, p2, d.endpoints), d.schedules);
  }

  lemma {:induction false} VariablesMissNothing(opt: Options, accepts: Accepts, snap: Target, p: Progress, vs: seq<Variable>)
    ensures ImportVariables(opt, accepts, snap, p, vs).missing == p.missing
    decreases |vs|
  {
    if vs != [] {
      VariablesMissNothing(opt, accepts, snap, ImportVariable(opt, accepts, snap, p, vs[0]), vs[1..]);
    }
  }

  lemma {:induction false} SecretsMissing(snap: Target, p: Progress, ss: seq<Secret>)
    ensures ImportSecrets(snap, p, ss).missing == p.missing + Filter(ss, (s: Secret) => !IsTaken(snap, s.name) && !IsBound(snap, s.name))
    decreases |ss|
  {
    hide PlanSecret, IsTaken, IsBound;
    if ss != [] {
      SecretIsPlanned(snap, ss[0]);
      SecretsMissing(snap, ImportSecret(snap, p, ss[0]), ss[1..]);
    }
  }

  lemma {:induction false} EndpointsMissNothing(opt: Options, accepts: Accepts, canon: string -> string, snap: Target, p: Progress, es: seq<Endpoint>)
    ensures ImportEndpoints(opt, accepts, canon, snap, p, es).missing == p.missing
    decreases |es|
  {
    hide SigningRef, Slot, Disable, SortedEvents;
    if es != [] {
      EndpointsMissNothing(opt, accepts, canon, snap, ImportEndpoint(opt, accepts, canon, snap, p, es[0]), es[1..]);
    }
  }

  lemma {:induction false} SchedulesMissNothing(opt: Options, accepts: Accepts, snap: Target, p: Progress, ss: seq<Schedule>)
    ensures ImportSchedules(opt, accepts, snap, p, ss).missing == p.missing
    decreases |ss|
  {
    hide PlanSchedule, DisableAll, Slot;
    if ss != [] {
      SchedulesMissNothing(opt, accepts, snap, ImportSchedule(opt, accepts, snap, p, ss[0]), ss[1..]);
    }
  }

  // ---------------------------------------------------------------------------
  // When a write is refused
  // ---------------------------------------------------------------------------

  /** An item reported as applied is there, and one that is not applied left nothing, whatever the target refuses. */
  lemma VariableReportIsTrue(opt: Options, accepts: Accepts, snap: Target, p: Progress, v: Variable)
    ensures var r := ImportVariable(opt, accepts, snap, p, v);
            && |r.items| == |p.items| + 1 && r.items[..|p.items|] == p.items
            && var item := r.items[|p.items|];
               && item.kind == ForVariable && item.key == v.name
               && (item.applied ==> accepts(p.writes) && Holds(r.target, v))
               && (item.failed ==> !accepts(p.writes) || (if item.action.Create? then IsTaken(p.target, v.name) || IsBound(p.target, v.name) else !IsTaken(p.target, v.name)))
               && (!item.applied ==> r.target == p.target)
  {
    hide LookupVariable, Replaced, Holds;
    LookupAppend(p.target.variables, v, v.name);
    LookupReplaced(p.target.variables, v, v.name);
    LookupIsHolds(p.target, v.name);
    LookupIsHolds(ImportVariable(opt, accepts, snap, p, v).target, v.name);
  }

  /** An endpoint or schedule whose write was refused left nothing, or the new record beside the ones it was to replace. */
  lemma RefusedWritesOnlyAdd(opt: Options, accepts: Accepts, canon: string -> string, snap: Target, p: Progress, e: Endpoint)
    ensures var r := ImportEndpoint(opt, accepts, canon, snap, p, e);
            && |r.items| == |p.items| + 1 && r.items[..|p.items|] == p.items
            && var item := r.items[|p.items|];
               && item.kind == ForEndpoint && item.key == e.url
               && (item.applied || item.failed ==> !opt.dryRun && (item.action.Create? || item.action.Update?))
               && (!item.applied && !item.failed ==> r.target == p.target)
               && (item.failed ==> r.target == p.target
                                   || (item.action.Update? && |r.target.hooks| == |p.target.hooks| + 1
                                       && r.target == p.target.(hooks := p.target.hooks + [r.target.hooks[|p.target.hooks|]], nextId := p.target.nextId + 1)
                                       && IsHookOf(snap, e, r.target.hooks[|p.target.hooks|].body)))
  {
    hide SortedEvents, Slot, Disable, SigningRef, HasRef;
    EndpointIsPlanned(snap, e, opt);
    SortedSame(SortedEvents(e.events), e.events);
    SortedTwice(e.events);
  }

  // ---------------------------------------------------------------------------
  // What an export holds
  // ---------------------------------------------------------------------------

  function Enabled<T>(s: seq<Entry<T>>): nat {
    if s == [] then 0 else (if s[0].enabled then 1 else 0) + Enabled(s[1..])
  }

  /** The entry of an enabled endpoint: its URL, its events in order, its reference. */
  ghost predicate IsExportOf(e: Endpoint, h: Entry<Hook>) {
    h.enabled && e.url == h.key && multiset(e.events) == multiset(h.body.events) && Sorted(e.events, StringLe) && e.signingRef == h.body.signingRef
  }

  lemma {:induction false} HooksExported(hooks: seq<Entry<Hook>>)
    ensures |ExportedHooks(hooks)| == Enabled(hooks)
    ensures forall e :: e in ExportedHooks(hooks) ==> exists h :: h in hooks && IsExportOf(e, h)
    ensures forall h :: h in hooks && h.enabled ==> exists e :: e in ExportedHooks(hooks) && IsExportOf(e, h)
  {
    hide ExportedHook, IsExportOf;
    if hooks != [] {
      var first, rest := ExportedHook(hooks[0]), hooks[1..];
      HooksExported(rest);
      HookExported(hooks[0]);
      assert hooks[0] in hooks && forall h :: h in rest ==> h in hooks;
      forall e | e in ExportedHooks(hooks) ensures exists h :: h in hooks && IsExportOf(e, h) {
        if e in ExportedHooks(rest) {
          var h :| h in rest && IsExportOf(e, h);
        } else {
          assert e == first[0] && IsExportOf(e, hooks[0]);
        }
      }
      forall h | h in hooks && h.enabled ensures exists e :: e in ExportedHooks(hooks) && IsExportOf(e, h) {
        if h in rest {
          var e :| e in ExportedHooks(rest) && IsExportOf(e, h);
        } else {
          assert h == hooks[0] && first[0] in ExportedHooks(hooks);
        }
      }
    }
  }

  lemma HookExported(h: Entry<Hook>)
    ensures |ExportedHook(h)| == (if h.enabled then 1 else 0) && (h.enabled ==> IsExportOf(ExportedHook(h)[0], h))
  {
    EventsAreSorted(h.body.events);
  }

  lemma EventsAreSorted(events: seq<string>)
    ensures Sorted(SortedEvents(events), StringLe) && multiset(SortedEvents(events)) == multiset(events)
  {
    StringLeIsTotalOrder();
    SortBySorted(events, StringLe);
  }

  lemma {:induction false} TimersExported(timers: seq<Entry<Timer>>)
    ensures |ExportedTimers(timers)| == Enabled(timers)
    ensures forall s :: s in ExportedTimers(timers) <==> exists t :: t in timers && t.enabled && t.body == Timer(s.typ, s.interval, s.payload)
  {
    if timers != [] {
      TimersExported(timers[1..]);
      assert timers == [timers[0]] + timers[1..];
      forall s ensures s in ExportedTimers(timers) <==> exists t :: t in timers && t.enabled && t.body == Timer(s.typ, s.interval, s.payload) {
        if t :| t in timers && t.enabled && t.body == Timer(s.typ, s.interval, s.payload) {
          assert t == timers[0] || t in timers[1..];
        }
      }
    }
  }

  /** An export holds every variable and binding, and exactly the enabled endpoints and schedules, once each. */
  lemma ExportHolds(header: Header, t: Target)
    ensures var d := Export(header, t);
            && d.header == header && multiset(d.variables) == multiset(t.variables) && multiset(d.secrets) == multiset(t.secrets)
            && |d.endpoints| == Enabled(t.hooks) && |d.schedules| == Enabled(t.timers)
            && (forall e :: e in d.endpoints ==> exists h :: h in t.hooks && IsExportOf(e, h))
            && (forall h :: h in t.hooks && h.enabled ==> exists e :: e in d.endpoints && IsExportOf(e, h))
            && (forall s :: s in d.schedules <==> exists e :: e in t.timers && e.enabled && e.body == Timer(s.typ, s.interval, s.payload))
  {
    hide SortBy, IsExportOf, ExportedHooks, ExportedTimers;
    var d := Export(header, t);
    HooksExported(t.hooks);
    TimersExported(t.timers);
    SameElements(d.endpoints, ExportedHooks(t.hooks));
    SameElements(d.schedules, ExportedTimers(t.timers));
  }

  /** Each list of an export is in the order of its names, URLs and schedule keys. */
  lemma ExportIsSorted(header: Header, t: Target)
    ensures var d := Export(header, t);
            && (forall i, j :: 0 <= i < j < |d.variables| ==> StringLe(d.variables[i].name, d.variables[j].name))
            && (forall i, j :: 0 <= i < j < |d.secrets| ==> StringLe(d.secrets[i].name, d.secrets[j].name))
            && (forall i, j :: 0 <= i < j < |d.endpoints| ==> StringLe(d.endpoints[i].url, d.endpoints[j].url))
            && (forall i, j :: 0 <= i < j < |d.schedules| ==>
                  StringLe(d.schedules[i].typ + "@" + d.schedules[i].interval, d.schedules[j].typ + "@" + d.schedules[j].interval))
  {
    hide SortBy, StringLe, ExportedHooks, ExportedTimers;
    StringLeIsTotalOrder();
    SortBySorted(t.variables, (a: Variable, b: Variable) => StringLe(a.name, b.name));
    SortBySorted(t.secrets, (a: Secret, b: Secret) => StringLe(a.name, b.name));
    SortBySorted(ExportedHooks(t.hooks), (a: Endpoint, b: Endpoint) => StringLe(a.url, b.url));
    SortBySorted(ExportedTimers(t.timers), (a: Schedule, b: Schedule) => StringLe(ScheduleKey(a.typ, a.interval), ScheduleKey(b.typ, b.interval)));
  }
}

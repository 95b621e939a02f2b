/** Importing twice changes nothing the second time, and importing into an empty target gives back what was exported. */
module TransferConvergence {
  import opened Common
  import opened Ordering
  import opened ExportDocument
  import opened Transfer
  import TransferTheorems

  // ---------------------------------------------------------------------------
  // Variables
  // ---------------------------------------------------------------------------

  lemma {:induction false} LookupAppend(vs: seq<Variable>, v: Variable, name: string)
    ensures LookupVariable(vs + [v], name) == if v.name == name then Some(v) else LookupVariable(vs, name)
  {
    if vs == [] {
      assert (vs + [v])[1..] == [];
    } else {
      assert (vs + [v])[1..] == vs[1..] + [v];
      LookupAppend(vs[1..], v, name);
    }
  }

  lemma {:induction false} LookupReplaced(vs: seq<Variable>, v: Variable, name: string)
    ensures LookupVariable(Replaced(vs, v), name) == if v.name == name && LookupVariable(vs, name).Some? then Some(v) else LookupVariable(vs, name)
  {
    if vs != [] {
      LookupReplaced(vs[1..], v, name);
    }
  }

  predicate IsPlannedWrite(a: Action) {
    a.Create? || a.Update?
  }

  ghost predicate NamesDistinct(vs: seq<Variable>) {
    forall i, j :: 0 <= i < j < |vs| ==> vs[i].name != vs[j].name
  }

  /** One variable, once imported, is settled; every other name is as it was. */
  lemma VariableSettles(opt: Options, accepts: Accepts, snap: Target, p: Progress, v: Variable)
    requires opt.overwrite && !opt.dryRun && accepts(p.writes) && p.target.secrets == snap.secrets
    requires LookupVariable(p.target.variables, v.name) == LookupVariable(snap.variables, v.name)
    ensures var t := ImportVariable(opt, accepts, snap, p, v).target;
            && t.secrets == snap.secrets && t.hooks == p.target.hooks && t.timers == p.target.timers && t.nextId == p.target.nextId
            && !IsPlannedWrite(PlanVariable(t, v, true))
            && forall name :: name != v.name ==> LookupVariable(t.variables, name) == LookupVariable(p.target.variables, name)
  {
    hide LookupVariable, Replaced, HasSecret;
    forall name ensures LookupVariable(p.target.variables + [v], name) == if v.name == name then Some(v) else LookupVariable(p.target.variables, name) {
      LookupAppend(p.target.variables, v, name);
    }
    forall name
      ensures LookupVariable(Replaced(p.target.variables, v), name) ==
              if v.name == name && LookupVariable(p.target.variables, name).Some? then Some(v) else LookupVariable(p.target.variables, name)
    {
      LookupReplaced(p.target.variables, v, name);
    }
  }

  lemma {:induction false} VariablesSettle(opt: Options, accepts: Accepts, snap: Target, p: Progress, vs: seq<Variable>)
    requires opt.overwrite && !opt.dryRun && (forall n :: accepts(n)) && p.target.secrets == snap.secrets && NamesDistinct(vs)
    requires forall v :: v in vs ==> LookupVariable(p.target.variables, v.name) == LookupVariable(snap.variables, v.name)
    ensures var t := ImportVariables(opt, accepts, snap, p, vs).target;
            && t.secrets == snap.secrets && t.hooks == p.target.hooks && t.timers == p.target.timers && t.nextId == p.target.nextId
            && (forall v :: v in vs ==> !IsPlannedWrite(PlanVariable(t, v, true)))
            && (forall name :: (forall v :: v in vs ==> v.name != name) ==> LookupVariable(t.variables, name) == LookupVariable(p.target.variables, name))
    decreases |vs|
  {
    hide ImportVariable, LookupVariable;
    if vs != [] {
      var next := ImportVariable(opt, accepts, snap, p, vs[0]);
      VariableSettles(opt, accepts, snap, p, vs[0]);
      forall v | v in vs[1..] ensures LookupVariable(next.target.variables, v.name) == LookupVariable(snap.variables, v.name) {
        var i :| 0 <= i < |vs[1..]| && vs[1..][i] == v;
        assert vs[i + 1] == v && vs[0].name != v.name;
      }
      VariablesSettle(opt, accepts, snap, next, vs[1..]);
      var t := ImportVariables(opt, accepts, snap, p, vs).target;
      assert forall v :: v in vs[1..] ==> v.name != vs[0].name;
      assert LookupVariable(t.variables, vs[0].name) == LookupVariable(next.target.variables, vs[0].name);
    }
  }

  // ---------------------------------------------------------------------------
  // Records that are replaced, not changed
  // ---------------------------------------------------------------------------

  lemma {:induction false} SlotAppend<T>(s: seq<Entry<T>>, e: Entry<T>, key: string)
    ensures Slot(s + [e], key) == Slot(s, key) + (if e.enabled && e.key == key then [e] else [])
  {
    if s == [] {
      assert (s + [e])[1..] == [];
    } else {
      assert (s + [e])[1..] == s[1..] + [e];
      SlotAppend(s[1..], e, key);
    }
  }

  function Keep<T>(s: seq<Entry<T>>, gone: nat): seq<Entry<T>> {
    if s == [] then [] else (if s[0].id == gone then [] else [s[0]]) + Keep(s[1..], gone)
  }

  lemma {:induction false} SlotDisable<T>(s: seq<Entry<T>>, id: nat, key: string)
    ensures Slot(Disable(s, id), key) == Keep(Slot(s, key), id)
  {
    if s != [] {
      SlotDisable(s[1..], id, key);
      KeepConcat(if s[0].enabled && s[0].key == key then [s[0]] else [], Slot(s[1..], key), id);
    }
  }

  lemma {:induction false} KeepConcat<T>(a: seq<Entry<T>>, b: seq<Entry<T>>, id: nat)
    ensures Keep(a + b, id) == Keep(a, id) + Keep(b, id)
  {
    if a == [] {
      assert a + b == b;
    } else {
      assert (a + b)[1..] == a[1..] + b;
      KeepConcat(a[1..], b, id);
    }
  }

  lemma {:induction false} KeepOthers<T>(s: seq<Entry<T>>, id: nat)
    requires forall e :: e in s ==> e.id != id
    ensures Keep(s, id) == s
  {
    if s != [] {
      KeepOthers(s[1..], id);
    }
  }

  ghost predicate IdsDistinct<T>(s: seq<Entry<T>>) {
    forall i, j :: 0 <= i < j < |s| ==> s[i].id != s[j].id
  }

  /** Ids are given out once. */
  ghost predicate IdsOk<T>(s: seq<Entry<T>>, nextId: nat) {
    (forall e :: e in s ==> e.id < nextId) && IdsDistinct(s)
  }

  lemma {:induction false} SlotMembers<T>(s: seq<Entry<T>>, key: string)
    ensures forall e :: e in Slot(s, key) ==> e in s && e.enabled && e.key == key
  {
    if s != [] {
      SlotMembers(s[1..], key);
    }
  }

  lemma {:induction false} DisableMembers<T>(s: seq<Entry<T>>, id: nat)
    ensures |Disable(s, id)| == |s| && forall i :: 0 <= i < |s| ==> Disable(s, id)[i].id == s[i].id && Disable(s, id)[i].key == s[i].key
  {
    if s != [] {
      DisableMembers(s[1..], id);
    }
  }

  lemma DisableKeepsIds<T>(s: seq<Entry<T>>, id: nat, nextId: nat)
    requires IdsOk(s, nextId)
    ensures IdsOk(Disable(s, id), nextId)
  {
    DisableMembers(s, id);
    forall e | e in Disable(s, id) ensures e.id < nextId {
      var i :| 0 <= i < |s| && Disable(s, id)[i] == e;
      assert s[i] in s;
    }
  }

  lemma RegisterKeepsIds<T>(s: seq<Entry<T>>, nextId: nat, key: string, body: T)
    requires IdsOk(s, nextId)
    ensures IdsOk(Register(s, nextId, key, body), nextId + 1)
  {}

  /** A slot of another key holds no record of this id. */
  lemma OtherSlot<T>(s: seq<Entry<T>>, nextId: nat, e: Entry<T>, key: string)
    requires IdsOk(s, nextId) && (exists i :: 0 <= i < |s| && s[i].id == e.id && s[i].key == e.key) && e.key != key
    ensures Keep(Slot(s, key), e.id) == Slot(s, key)
  {
    SlotMembers(s, key);
    var i :| 0 <= i < |s| && s[i].id == e.id && s[i].key == e.key;
    forall x | x in Slot(s, key) ensures x.id != e.id {
      var j :| 0 <= j < |s| && s[j] == x;
      assert i != j;
    }
    KeepOthers(Slot(s, key), e.id);
  }

  /** Registering under a key and disabling the one record there leaves the new record alone there, and every other key as it was. */
  lemma ReplaceSlot<T(!new)>(s: seq<Entry<T>>, nextId: nat, key: string, body: T, replaced: Entry<T>)
    requires IdsOk(s, nextId) && Slot(s, key) == [replaced]
    ensures var after := Disable(Register(s, nextId, key, body), replaced.id);
            && Slot(after, key) == [Entry(nextId, key, body, true)]
            && IdsOk(after, nextId + 1)
            && forall other :: other != key ==> Slot(after, other) == Slot(s, other)
  {
    hide IdsOk, Slot, Disable, Keep;
    var fresh_ := Entry(nextId, key, body, true);
    var grown := s + [fresh_];
    SlotMembers(s, key);
    assert replaced in Slot(s, key);
    ReplacedIsOld(s, nextId, replaced);
    RegisterKeepsIds(s, nextId, key, body);
    DisableKeepsIds(grown, replaced.id, nextId + 1);
    SlotAppend(s, fresh_, key);
    SlotDisable(grown, replaced.id, key);
    KeepPair(replaced, fresh_);
    forall other | other != key ensures Slot(Disable(grown, replaced.id), other) == Slot(s, other) {
      SlotAppend(s, fresh_, other);
      assert Slot(grown, other) == Slot(s, other);
      SlotDisable(grown, replaced.id, other);
      OtherSlot(s, nextId, replaced, other);
    }
  }

  lemma ReplacedIsOld<T>(s: seq<Entry<T>>, nextId: nat, e: Entry<T>)
    requires IdsOk(s, nextId) && e in s
    ensures e.id < nextId && exists i :: 0 <= i < |s| && s[i].id == e.id && s[i].key == e.key
  {
    var i :| 0 <= i < |s| && s[i] == e;
    assert s[i].id == e.id && s[i].key == e.key;
  }

  lemma KeepPair<T>(a: Entry<T>, b: Entry<T>)
    requires a.id != b.id
    ensures Keep([a] + [b], a.id) == [b]
  {
    assert ([a] + [b])[1..] == [b];
    assert [b][1..] == [];
    assert Keep([b], a.id) == [b] + Keep([], a.id);
  }

  // ---------------------------------------------------------------------------
  // Endpoints
  // ---------------------------------------------------------------------------

  ghost predicate UrlsDistinct(es: seq<Endpoint>) {
    forall i, j :: 0 <= i < j < |es| ==> es[i].url != es[j].url
  }

  ghost predicate UrlsUnique(t: Target) {
    forall url :: |Slot(t.hooks, url)| <= 1
  }

  lemma SortedTwice(events: seq<string>)
    ensures SortedEvents(SortedEvents(events)) == SortedEvents(events)
  {
    StringLeIsTotalOrder();
    SortByCanonical(SortedEvents(events), events, StringLe);
  }

  /** An endpoint settles with the write that creates it exactly when its URL is in the form the service stores. */
  lemma CreateSettlesExactly(canon: string -> string, opt: Options, t: Target, e: Endpoint, signingRef: string)
    requires opt.webhooks && Slot(t.hooks, e.url) == [] && e.signingRef.Some?
    ensures PlanEndpoint(CreateHook(canon, t, e, signingRef), e, opt) == if canon(e.url) == e.url then Unchanged else Create
  {
    SlotAppend(t.hooks, Entry(t.nextId, canon(e.url), Hook(SortedEvents(e.events), Some(signingRef)), true), e.url);
    SortedTwice(e.events);
  }

  /** One endpoint, once imported, is settled; every other URL is as it was. */
  lemma EndpointSettles(opt: Options, accepts: Accepts, canon: string -> string, snap: Target, p: Progress, e: Endpoint)
    requires opt.overwrite && !opt.dryRun && accepts(p.writes) && accepts(p.writes + 1) && canon(e.url) == e.url
    requires IdsOk(p.target.hooks, p.target.nextId) && Slot(p.target.hooks, e.url) == Slot(snap.hooks, e.url) && |Slot(snap.hooks, e.url)| <= 1
    ensures var t := ImportEndpoint(opt, accepts, canon, snap, p, e).target;
            && t.variables == p.target.variables && t.secrets == p.target.secrets && t.timers == p.target.timers && t.nextId >= p.target.nextId
            && IdsOk(t.hooks, t.nextId) && |Slot(t.hooks, e.url)| <= 1
            && !IsPlannedWrite(PlanEndpoint(t, e, opt))
            && forall url :: url != e.url ==> Slot(t.hooks, url) == Slot(p.target.hooks, url)
  {
    hide IdsOk, Slot, Disable, SortedEvents;
    var action := PlanEndpoint(snap, e, opt);
    SortedTwice(e.events);
    if IsWrite(opt, action) {
      var body := Hook(SortedEvents(e.events), Some(SigningRef(snap, e).value));
      var id := p.target.nextId;
      if action.Create? {
        RegisterKeepsIds(p.target.hooks, id, e.url, body);
        forall url ensures Slot(Register(p.target.hooks, id, e.url, body), url) == Slot(p.target.hooks, url) + (if url == e.url then [Entry(id, e.url, body, true)] else []) {
          SlotAppend(p.target.hooks, Entry(id, e.url, body, true), url);
        }
      } else {
        var slot := Slot(snap.hooks, e.url);
        assert slot == [slot[0]];
        ReplaceSlot(p.target.hooks, id, e.url, body, slot[0]);
      }
    }
  }

  lemma {:induction false} EndpointsSettle(opt: Options, accepts: Accepts, canon: string -> string, snap: Target, p: Progress, es: seq<Endpoint>)
    requires opt.overwrite && !opt.dryRun && (forall n :: accepts(n)) && (forall e :: e in es ==> canon(e.url) == e.url)
    requires IdsOk(p.target.hooks, p.target.nextId) && UrlsDistinct(es) && UrlsUnique(snap)
    requires forall e :: e in es ==> Slot(p.target.hooks, e.url) == Slot(snap.hooks, e.url)
    ensures var t := ImportEndpoints(opt, accepts, canon, snap, p, es).target;
            && t.variables == p.target.variables && t.secrets == p.target.secrets && t.timers == p.target.timers && t.nextId >= p.target.nextId
            && (forall e :: e in es ==> !IsPlannedWrite(PlanEndpoint(t, e, opt)))
            && (forall url :: (forall e :: e in es ==> e.url != url) ==> Slot(t.hooks, url) == Slot(p.target.hooks, url))
    decreases |es|
  {
    hide ImportEndpoint, Slot, IdsOk, SortedEvents;
    if es != [] {
      var next := ImportEndpoint(opt, accepts, canon, snap, p, es[0]);
      EndpointSettles(opt, accepts, canon, snap, p, es[0]);
      forall e | e in es[1..] ensures Slot(next.target.hooks, e.url) == Slot(snap.hooks, e.url) {
        var i :| 0 <= i < |es[1..]| && es[1..][i] == e;
        assert es[i + 1] == e && es[0].url != e.url;
      }
      EndpointsSettle(opt, accepts, canon, snap, next, es[1..]);
      assert forall e :: e in es[1..] ==> e.url != es[0].url;
      var t := ImportEndpoints(opt, accepts, canon, snap, p, es).target;
      assert Slot(t.hooks, es[0].url) == Slot(next.target.hooks, es[0].url);
    }
  }

  // ---------------------------------------------------------------------------
  // Schedules
  // ---------------------------------------------------------------------------

  function KeyOf(s: Schedule): string {
    ScheduleKey(s.typ, s.interval)
  }

  ghost predicate KeysDistinct(ss: seq<Schedule>) {
    forall i, j :: 0 <= i < j < |ss| ==> KeyOf(ss[i]) != KeyOf(ss[j])
  }

  /** Disabling the records of a slot, one by one, empties it of them and leaves every other key as it was. */
  lemma {:induction false} DisableAllSlot<T(!new)>(accepts: Accepts, s: seq<Entry<T>>, nextId: nat, slot: seq<Entry<T>>, last: Entry<T>, writes: nat, key: string)
    requires (forall n :: accepts(n)) && IdsOk(s, nextId) && Slot(s, key) == slot + [last] && (forall e :: e in slot ==> e.id != last.id)
    ensures var after := DisableAll(accepts, s, slot, writes).0;
            && Slot(after, key) == [last] && IdsOk(after, nextId)
            && forall other :: other != key ==> Slot(after, other) == Slot(s, other)
    decreases slot
  {
    hide IdsOk, Slot, Disable, Keep;
    if slot != [] {
      var next := Disable(s, slot[0].id);
      DisableKeepsIds(s, slot[0].id, nextId);
      SlotMembers(s, key);
      assert slot[0] in Slot(s, key);
      ReplacedIsOld(s, nextId, slot[0]);
      SlotDisable(s, slot[0].id, key);
      SlotIds(s, nextId, key);
      DropFirst(slot + [last], slot[0].id);
      assert (slot + [last])[1..] == slot[1..] + [last];
      forall other | other != key ensures Slot(next, other) == Slot(s, other) {
        SlotDisable(s, slot[0].id, other);
        OtherSlot(s, nextId, slot[0], other);
      }
      DisableAllSlot(accepts, next, nextId, slot[1..], last, writes + 1, key);
    }
  }

  /** The records of a slot have different ids. */
  lemma {:induction false} SlotIds<T>(s: seq<Entry<T>>, nextId: nat, key: string)
    requires IdsOk(s, nextId)
    ensures IdsDistinct(Slot(s, key))
  {
    if s != [] {
      SlotIds(s[1..], nextId, key);
      SlotMembers(s[1..], key);
      forall e | e in Slot(s[1..], key) ensures e.id != s[0].id {
        var j :| 0 <= j < |s[1..]| && s[1..][j] == e;
        assert s[j + 1] == e;
      }
      if s[0].enabled && s[0].key == key {
        ConsIds(s[0], Slot(s[1..], key));
      }
    }
  }

  lemma ConsIds<T>(e: Entry<T>, rest: seq<Entry<T>>)
    requires IdsDistinct(rest) && forall x :: x in rest ==> x.id != e.id
    ensures IdsDistinct([e] + rest)
  {}

  lemma DropFirst<T>(s: seq<Entry<T>>, id: nat)
    requires s != [] && s[0].id == id && IdsDistinct(s)
    ensures Keep(s, id) == s[1..]
  {
    KeepOthers(s[1..], id);
  }

  lemma ScheduleSettles(opt: Options, accepts: Accepts, snap: Target, p: Progress, s: Schedule)
    requires opt.overwrite && !opt.dryRun && forall n :: accepts(n)
    requires IdsOk(p.target.timers, p.target.nextId) && Slot(p.target.timers, KeyOf(s)) == Slot(snap.timers, KeyOf(s))
    ensures var t := ImportSchedule(opt, accepts, snap, p, s).target;
            && t.variables == p.target.variables && t.secrets == p.target.secrets && t.hooks == p.target.hooks && t.nextId >= p.target.nextId
            && IdsOk(t.timers, t.nextId)
            && !IsPlannedWrite(PlanSchedule(t, s, opt))
            && forall key :: key != KeyOf(s) ==> Slot(t.timers, key) == Slot(p.target.timers, key)
  {
    hide IdsOk, Slot, DisableAll, ScheduleKey;
    var action, key := PlanSchedule(snap, s, opt), KeyOf(s);
    var body := Timer(s.typ, s.interval, s.payload);
    var id := p.target.nextId;
    var new_ := Entry(id, key, body, true);
    var slot := Slot(p.target.timers, key);
    var grown := Register(p.target.timers, id, key, body);
    forall other ensures Slot(grown, other) == Slot(p.target.timers, other) + (if other == key then [new_] else []) {
      SlotAppend(p.target.timers, new_, other);
    }
    RegisterKeepsIds(p.target.timers, id, key, body);
    if IsWrite(opt, action) && action.Update? {
      NewIdIsNew(p.target.timers, id, key);
      DisableAllSlot(accepts, grown, id + 1, slot, new_, p.writes + 1, key);
      assert new_ in [new_];
    } else if IsWrite(opt, action) {
      assert new_ in [new_] && slot == [];
    }
  }

  lemma NewIdIsNew<T>(s: seq<Entry<T>>, nextId: nat, key: string)
    requires IdsOk(s, nextId)
    ensures forall e :: e in Slot(s, key) ==> e.id != nextId
  {
    SlotMembers(s, key);
  }

  lemma {:induction false} SchedulesSettle(opt: Options, accepts: Accepts, snap: Target, p: Progress, ss: seq<Schedule>)
    requires opt.overwrite && !opt.dryRun && forall n :: accepts(n)
    requires IdsOk(p.target.timers, p.target.nextId) && KeysDistinct(ss)
    requires forall s :: s in ss ==> Slot(p.target.timers, KeyOf(s)) == Slot(snap.timers, KeyOf(s))
    ensures var t := ImportSchedules(opt, accepts, snap, p, ss).target;
            && t.variables == p.target.variables && t.secrets == p.target.secrets && t.hooks == p.target.hooks
            && (forall s :: s in ss ==> !IsPlannedWrite(PlanSchedule(t, s, opt)))
            && (forall key :: (forall s :: s in ss ==> KeyOf(s) != key) ==> Slot(t.timers, key) == Slot(p.target.timers, key))
    decreases |ss|
  {
    hide ImportSchedule, Slot, IdsOk, ScheduleKey;
    if ss != [] {
      var next := ImportSchedule(opt, accepts, snap, p, ss[0]);
      ScheduleSettles(opt, accepts, snap, p, ss[0]);
      forall s | s in ss[1..] ensures Slot(next.target.timers, KeyOf(s)) == Slot(snap.timers, KeyOf(s)) {
        var i :| 0 <= i < |ss[1..]| && ss[1..][i] == s;
        assert ss[i + 1] == s && KeyOf(ss[0]) != KeyOf(s);
      }
      SchedulesSettle(opt, accepts, snap, next, ss[1..]);
      assert forall s :: s in ss[1..] ==> KeyOf(s) != KeyOf(ss[0]);
      var t := ImportSchedules(opt, accepts, snap, p, ss).target;
      assert Slot(t.timers, KeyOf(ss[0])) == Slot(next.target.timers, KeyOf(ss[0]));
    }
  }

  // ---------------------------------------------------------------------------
  // Convergence
  // ---------------------------------------------------------------------------

  /** Names, URLs and schedule keys occur once in the document, and its URLs are in the form the service stores. */
  ghost predicate Canonical(canon: string -> string, d: Document) {
    NamesDistinct(d.variables) && UrlsDistinct(d.endpoints) && KeysDistinct(d.schedules) && forall e :: e in d.endpoints ==> canon(e.url) == e.url
  }

  /** A target as the services keep it: ids given out once, and one enabled endpoint per URL. */
  ghost predicate TargetOk(t: Target) {
    IdsOk(t.hooks, t.nextId) && IdsOk(t.timers, t.nextId) && UrlsUnique(t)
  }

  /** With `overwrite` and every write accepted, a second import of the same document plans no write at all. */
  lemma ImportConverges(opt: Options, accepts: Accepts, canon: string -> string, t: Target, d: Document)
    requires opt.overwrite && !opt.dryRun && (forall n :: accepts(n)) && Canonical(canon, d) && TargetOk(t)
    ensures var after := Import(opt, accepts, canon, t, d).target;
            && (forall v :: v in d.variables ==> !IsPlannedWrite(PlanVariable(after, v, opt.overwrite)))
            && (forall e :: e in d.endpoints ==> !IsPlannedWrite(PlanEndpoint(after, e, opt)))
            && (forall s :: s in d.schedules ==> !IsPlannedWrite(PlanSchedule(after, s, opt)))
  {
    hide ImportVariables, ImportSecrets, ImportEndpoints, ImportSchedules, LookupVariable, Slot, PlanVariable, PlanEndpoint, PlanSchedule, IdsOk;
    var p0 := Progress(t, [], [], 0);
    var p1 := ImportVariables(opt, accepts, t, p0, d.variables);
    var p2 := ImportSecrets(t, p1, d.secrets);
    var p3 := ImportEndpoints(opt, accepts, canon, t, p2, d.endpoints);
    var after := ImportSchedules(opt, accepts, t, p3, d.schedules).target;
    VariablesSettle(opt, accepts, t, p0, d.variables);
    TransferTheorems.SecretsLeave(t, p1, d.secrets);
    EndpointsSettle(opt, accepts, canon, t, p2, d.endpoints);
    IdsGrow(t.timers, t.nextId, p3.target.nextId);
    SchedulesSettle(opt, accepts, t, p3, d.schedules);
    forall v | v in d.variables ensures !IsPlannedWrite(PlanVariable(after, v, opt.overwrite)) {
      SameVariablePlan(p1.target, after, v);
    }
    forall e | e in d.endpoints ensures !IsPlannedWrite(PlanEndpoint(after, e, opt)) {
      SameEndpointPlan(p3.target, after, e, opt);
    }
  }

  lemma IdsGrow<T>(s: seq<Entry<T>>, a: nat, b: nat)
    requires IdsOk(s, a) && a <= b
    ensures IdsOk(s, b)
  {}

  lemma SameVariablePlan(a: Target, b: Target, v: Variable)
    requires a.variables == b.variables && a.secrets == b.secrets
    ensures PlanVariable(a, v, true) == PlanVariable(b, v, true)
  {}

  lemma SameEndpointPlan(a: Target, b: Target, e: Endpoint, opt: Options)
    requires a.hooks == b.hooks
    ensures PlanEndpoint(a, e, opt) == PlanEndpoint(b, e, opt)
  {}

  // ---------------------------------------------------------------------------
  // Round trip
  // ---------------------------------------------------------------------------

  predicate Empty(t: Target) {
    t.variables == [] && t.secrets == [] && t.hooks == [] && t.timers == []
  }

  lemma {:induction false} LookupMisses(vs: seq<Variable>, name: string)
    requires forall v :: v in vs ==> v.name != name
    ensures LookupVariable(vs, name).None?
  {
    if vs != [] {
      LookupMisses(vs[1..], name);
    }
  }

  lemma {:induction false} VariablesArrive(opt: Options, accepts: Accepts, snap: Target, p: Progress, vs: seq<Variable>)
    requires !opt.dryRun && (forall n :: accepts(n)) && Empty(snap) && p.target.secrets == [] && NamesDistinct(p.target.variables + vs)
    ensures var t := ImportVariables(opt, accepts, snap, p, vs).target; t == p.target.(variables := p.target.variables + vs)
    ensures ImportVariables(opt, accepts, snap, p, vs).missing == p.missing
    decreases |vs|
  {
    if vs == [] {
      assert p.target.variables + vs == p.target.variables;
    } else {
      var all := p.target.variables + vs;
      forall v | v in p.target.variables ensures v.name != vs[0].name {
        var i :| 0 <= i < |p.target.variables| && p.target.variables[i] == v;
        assert all[i] == v && all[|p.target.variables|] == vs[0];
      }
      LookupMisses(p.target.variables, vs[0].name);
      assert p.target.variables + vs == (p.target.variables + [vs[0]]) + vs[1..];
      VariablesArrive(opt, accepts, snap, ImportVariable(opt, accepts, snap, p, vs[0]), vs[1..]);
    }
  }

  lemma {:induction false} SecretsAreMissing(snap: Target, p: Progress, ss: seq<Secret>)
    requires Empty(snap)
    ensures ImportSecrets(snap, p, ss).missing == p.missing + ss
    decreases |ss|
  {
    if ss != [] {
      SecretsAreMissing(snap, ImportSecret(snap, p, ss[0]), ss[1..]);
      assert p.missing + ss == (p.missing + [ss[0]]) + ss[1..];
    }
  }

  lemma {:induction false} ExportedHooksAppend(hooks: seq<Entry<Hook>>, e: Entry<Hook>)
    ensures ExportedHooks(hooks + [e]) == ExportedHooks(hooks) + ExportedHook(e)
  {
    hide ExportedHook;
    if hooks == [] {
      assert hooks + [e] == [e] && [e][1..] == [];
    } else {
      assert (hooks + [e])[1..] == hooks[1..] + [e];
      ExportedHooksAppend(hooks[1..], e);
    }
  }

  lemma {:induction false} ExportedTimersAppend(timers: seq<Entry<Timer>>, e: Entry<Timer>)
    ensures ExportedTimers(timers + [e]) == ExportedTimers(timers) + ExportedTimer(e)
  {
    hide ExportedTimer;
    if timers == [] {
      assert timers + [e] == [e] && [e][1..] == [];
    } else {
      assert (timers + [e])[1..] == timers[1..] + [e];
      ExportedTimersAppend(timers[1..], e);
    }
  }

  /** An endpoint as an export writes it, which an import can register as it stands. */
  predicate Portable(canon: string -> string, e: Endpoint) {
    e.signingRef.Some? && canon(e.url) == e.url && e.events == SortedEvents(e.events)
  }

  lemma {:induction false} EndpointsArrive(opt: Options, accepts: Accepts, canon: string -> string, snap: Target, p: Progress, es: seq<Endpoint>)
    requires !opt.dryRun && opt.webhooks && (forall n :: accepts(n)) && Empty(snap) && forall e :: e in es ==> Portable(canon, e)
    ensures var r := ImportEndpoints(opt, accepts, canon, snap, p, es);
            && ExportedHooks(r.target.hooks) == ExportedHooks(p.target.hooks) + es
            && r.target.variables == p.target.variables && r.target.timers == p.target.timers && r.missing == p.missing
    decreases |es|
  {
    hide SortedEvents;
    if es != [] {
      var e := es[0];
      assert Portable(canon, e);
      ExportedHooksAppend(p.target.hooks, Entry(p.target.nextId, e.url, Hook(e.events, e.signingRef), true));
      EndpointsArrive(opt, accepts, canon, snap, ImportEndpoint(opt, accepts, canon, snap, p, e), es[1..]);
      assert ExportedHooks(p.target.hooks) + es == (ExportedHooks(p.target.hooks) + [e]) + es[1..];
    }
  }

  lemma {:induction false} SchedulesArrive(opt: Options, accepts: Accepts, snap: Target, p: Progress, ss: seq<Schedule>)
    requires !opt.dryRun && opt.schedules && (forall n :: accepts(n)) && Empty(snap)
    ensures var r := ImportSchedules(opt, accepts, snap, p, ss);
            && ExportedTimers(r.target.timers) == ExportedTimers(p.target.timers) + ss
            && r.target.variables == p.target.variables && r.target.hooks == p.target.hooks && r.missing == p.missing
    decreases |ss|
  {
    hide ScheduleKey, DisableAll;
    if ss != [] {
      var s := ss[0];
      ExportedTimersAppend(p.target.timers, Entry(p.target.nextId, KeyOf(s), Timer(s.typ, s.interval, s.payload), true));
      SchedulesArrive(opt, accepts, snap, ImportSchedule(opt, accepts, snap, p, s), ss[1..]);
      assert ExportedTimers(p.target.timers) + ss == (ExportedTimers(p.target.timers) + [s]) + ss[1..];
    }
  }

  lemma {:induction false} ExportedIsPortable(canon: string -> string, hooks: seq<Entry<Hook>>)
    requires forall h :: h in hooks && h.enabled ==> h.body.signingRef.Some? && canon(h.key) == h.key
    ensures forall e :: e in ExportedHooks(hooks) ==> Portable(canon, e)
  {
    if hooks != [] {
      SortedTwice(hooks[0].body.events);
      ExportedIsPortable(canon, hooks[1..]);
    }
  }

  /** No two elements of a rearranged list share a name. */
  lemma RearrangedNames(a: seq<Variable>, b: seq<Variable>)
    requires multiset(a) == multiset(b) && NamesDistinct(a)
    ensures NamesDistinct(b)
  {
    assert Distinct(a);
    DistinctMultiset(a, b);
    SameElements(a, b);
    forall i, j | 0 <= i < j < |b| ensures b[i].name != b[j].name {
      assert b[i] in a && b[j] in a && b[i] != b[j];
    }
  }

  /**
   What is exported can be read back, and importing it into an empty target and
   exporting again gives the same variables, endpoints and schedules; every
   credential binding is reported as missing.
  */
  lemma RoundTrip(opt: Options, accepts: Accepts, canon: string -> string, source: Target, empty: Target, header: Header)
    requires !opt.dryRun && opt.webhooks && opt.schedules && (forall n :: accepts(n)) && Empty(empty)
    requires NamesDistinct(source.variables) && forall h :: h in source.hooks && h.enabled ==> h.body.signingRef.Some? && canon(h.key) == h.key
    requires Importable(Export(header, source))
    ensures var d := Export(header, source);
            var r := Import(opt, accepts, canon, empty, d);
            var again := Export(header, r.target);
            && Parse(Write(d)) == Ok(d)
            && multiset(again.variables) == multiset(source.variables)
            && multiset(again.endpoints) == multiset(ExportedHooks(source.hooks))
            && multiset(again.schedules) == multiset(ExportedTimers(source.timers))
            && multiset(r.missing) == multiset(source.secrets)
  {
    hide ImportVariables, ImportSecrets, ImportEndpoints, ImportSchedules, Importable, Parse, Write, ExportedHooks, ExportedTimers, Portable, SortBy;
    var d := Export(header, source);
    ParseRoundTrip(d);
    var p0 := Progress(empty, [], [], 0);
    var p1 := ImportVariables(opt, accepts, empty, p0, d.variables);
    var p2 := ImportSecrets(empty, p1, d.secrets);
    var p3 := ImportEndpoints(opt, accepts, canon, empty, p2, d.endpoints);
    RearrangedNames(source.variables, d.variables);
    assert empty.variables + d.variables == d.variables;
    VariablesArrive(opt, accepts, empty, p0, d.variables);
    TransferTheorems.SecretsLeave(empty, p1, d.secrets);
    SecretsAreMissing(empty, p1, d.secrets);
    assert p1.missing + d.secrets == d.secrets;
    ExportedIsPortable(canon, source.hooks);
    SameElements(ExportedHooks(source.hooks), d.endpoints);
    EndpointsArrive(opt, accepts, canon, empty, p2, d.endpoints);
    SchedulesArrive(opt, accepts, empty, p3, d.schedules);
    NothingExported();
    assert [] + d.endpoints == d.endpoints && [] + d.schedules == d.schedules;
  }

  lemma NothingExported()
    ensures ExportedHooks([]) == [] && ExportedTimers([]) == []
  {}
}

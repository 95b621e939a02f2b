/** What an import does to its target: the plan, what it keeps, where it converges, and the round trip. */
module TransferTheorems {
  import opened Common
  import opened Ordering
  import opened ExportDocument
  import opened Transfer

  // ---------------------------------------------------------------------------
  // The plan
  // ---------------------------------------------------------------------------

  datatype Planned = Planned(kind: Kind, key: string, action: Action)

  function PlanOf(items: seq<Item>): seq<Planned> {
    if items == [] then [] else [Planned(items[0].kind, items[0].key, items[0].action)] + PlanOf(items[1..])
  }

  /** One planned item per entry of the document, each against the snapshot alone. */
  function Plan(opt: Options, snap: Target, d: Document): seq<Planned> {
    seq(|d.variables|, i requires 0 <= i < |d.variables| => Planned(ForVariable, d.variables[i].name, PlanVariable(snap, d.variables[i], opt.overwrite))) +
    seq(|d.secrets|, i requires 0 <= i < |d.secrets| => Planned(ForSecret, d.secrets[i].name, PlanSecret(snap, d.secrets[i]))) +
    seq(|d.endpoints|, i requires 0 <= i < |d.endpoints| => Planned(ForEndpoint, d.endpoints[i].url, PlanEndpoint(snap, d.endpoints[i], opt))) +
    seq(|d.schedules|, i requires 0 <= i < |d.schedules| =>
          Planned(ForSchedule, ScheduleKey(d.schedules[i].typ, d.schedules[i].interval), PlanSchedule(snap, d.schedules[i], opt)))
  }

  lemma {:induction false} PlanOfConcat(a: seq<Item>, b: seq<Item>)
    ensures PlanOf(a + b) == PlanOf(a) + PlanOf(b)
  {
    if a == [] {
      assert a + b == b;
    } else {
      assert (a + b)[1..] == a[1..] + b;
      PlanOfConcat(a[1..], b);
    }
  }

  lemma PlanOfOneMore(items: seq<Item>, item: Item)
    ensures PlanOf(items + [item]) == PlanOf(items) + [Planned(item.kind, item.key, item.action)]
  {
    PlanOfConcat(items, [item]);
  }

  lemma {:induction false} VariablesPlan(opt: Options, accepts: Accepts, snap: Target, p: Progress, vs: seq<Variable>)
    ensures PlanOf(ImportVariables(opt, accepts, snap, p, vs).items) ==
            PlanOf(p.items) + seq(|vs|, i requires 0 <= i < |vs| => Planned(ForVariable, vs[i].name, PlanVariable(snap, vs[i], opt.overwrite)))
    decreases |vs|
  {
    hide PlanVariable, CreateVariable, UpdateVariable, PlanOf;
    if vs != [] {
      var next := ImportVariable(opt, accepts, snap, p, vs[0]);
      PlanOfOneMore(p.items, next.items[|next.items| - 1]);
      VariablesPlan(opt, accepts, snap, next, vs[1..]);
    }
  }

  lemma {:induction false} SecretsPlan(snap: Target, p: Progress, ss: seq<Secret>)
    ensures PlanOf(ImportSecrets(snap, p, ss).items) ==
            PlanOf(p.items) + seq(|ss|, i requires 0 <= i < |ss| => Planned(ForSecret, ss[i].name, PlanSecret(snap, ss[i])))
    decreases |ss|
  {
    hide PlanSecret, PlanOf;
    if ss != [] {
      var next := ImportSecret(snap, p, ss[0]);
      PlanOfOneMore(p.items, next.items[|next.items| - 1]);
      SecretsPlan(snap, next, ss[1..]);
    }
  }

  lemma {:induction false} EndpointsPlan(opt: Options, accepts: Accepts, canon: string -> string, snap: Target, p: Progress, es: seq<Endpoint>)
    ensures PlanOf(ImportEndpoints(opt, accepts, canon, snap, p, es).items) ==
            PlanOf(p.items) + seq(|es|, i requires 0 <= i < |es| => Planned(ForEndpoint, es[i].url, PlanEndpoint(snap, es[i], opt)))
    decreases |es|
  {
    hide PlanOf, SigningRef, Slot, Disable, SortedEvents;
    if es != [] {
      var next := ImportEndpoint(opt, accepts, canon, snap, p, es[0]);
      PlanOfOneMore(p.items, next.items[|next.items| - 1]);
      EndpointsPlan(opt, accepts, canon, snap, next, es[1..]);
    }
  }

  lemma {:induction false} SchedulesPlan(opt: Options, accepts: Accepts, snap: Target, p: Progress, ss: seq<Schedule>)
    ensures PlanOf(ImportSchedules(opt, accepts, snap, p, ss).items) ==
            PlanOf(p.items) + seq(|ss|, i requires 0 <= i < |ss| => Planned(ForSchedule, ScheduleKey(ss[i].typ, ss[i].interval), PlanSchedule(snap, ss[i], opt)))
    decreases |ss|
  {
    hide PlanSchedule, PlanOf, DisableAll, Slot;
    if ss != [] {
      var next := ImportSchedule(opt, accepts, snap, p, ss[0]);
      PlanOfOneMore(p.items, next.items[|next.items| - 1]);
      SchedulesPlan(opt, accepts, snap, next, ss[1..]);
    }
  }

  /** Whatever writes fail, the report has exactly one item per entry, with the action planned against the snapshot. */
  lemma ReportIsThePlan(opt: Options, accepts: Accepts, canon: string -> string, t: Target, d: Document)
    ensures PlanOf(Import(opt, accepts, canon, t, d).items) == Plan(opt, t, d)
    ensures |Plan(opt, t, d)| == |d.variables| + |d.secrets| + |d.endpoints| + |d.schedules|
  {
    hide PlanVariable, PlanSecret, PlanEndpoint, PlanSchedule, ImportVariables, ImportSecrets, ImportEndpoints, ImportSchedules;
    var p0 := Progress(t, [], [], 0);
    var p1 := ImportVariables(opt, accepts, t, p0, d.variables);
    var p2 := ImportSecrets(t, p1, d.secrets);
    var p3 := ImportEndpoints(opt, accepts, canon, t, p2, d.endpoints);
    VariablesPlan(opt, accepts, t, p0, d.variables);
    SecretsPlan(t, p1, d.secrets);
    EndpointsPlan(opt, accepts, canon, t, p2, d.endpoints);
    SchedulesPlan(opt, accepts, t, p3, d.schedules);
  }

  // ---------------------------------------------------------------------------
  // The summary
  // ---------------------------------------------------------------------------

  /** A planned write was either applied or failed, and nothing else was either. */
  predicate ItemOk(opt: Options, item: Item) {
    (item.applied || item.failed <==> IsWrite(opt, item.action)) && !(item.applied && item.failed)
  }

  ghost predicate ItemsOk(opt: Options, items: seq<Item>) {
    forall i :: 0 <= i < |items| ==> ItemOk(opt, items[i])
  }

  lemma {:induction false} VariablesReport(opt: Options, accepts: Accepts, snap: Target, p: Progress, vs: seq<Variable>)
    requires ItemsOk(opt, p.items)
    ensures ItemsOk(opt, ImportVariables(opt, accepts, snap, p, vs).items)
    decreases |vs|
  {
    hide PlanVariable, CreateVariable, UpdateVariable;
    if vs != [] {
      VariablesReport(opt, accepts, snap, ImportVariable(opt, accepts, snap, p, vs[0]), vs[1..]);
    }
  }

  lemma {:induction false} SecretsReport(opt: Options, snap: Target, p: Progress, ss: seq<Secret>)
    requires ItemsOk(opt, p.items)
    ensures ItemsOk(opt, ImportSecrets(snap, p, ss).items)
    decreases |ss|
  {
    if ss != [] {
      SecretsReport(opt, snap, ImportSecret(snap, p, ss[0]), ss[1..]);
    }
  }

  lemma {:induction false} EndpointsReport(opt: Options, accepts: Accepts, canon: string -> string, snap: Target, p: Progress, es: seq<Endpoint>)
    requires ItemsOk(opt, p.items)
    ensures ItemsOk(opt, ImportEndpoints(opt, accepts, canon, snap, p, es).items)
    decreases |es|
  {
    hide SigningRef, Slot, Disable, SortedEvents;
    if es != [] {
      EndpointsReport(opt, accepts, canon, snap, ImportEndpoint(opt, accepts, canon, snap, p, es[0]), es[1..]);
    }
  }

  lemma {:induction false} SchedulesReport(opt: Options, accepts: Accepts, snap: Target, p: Progress, ss: seq<Schedule>)
    requires ItemsOk(opt, p.items)
    ensures ItemsOk(opt, ImportSchedules(opt, accepts, snap, p, ss).items)
    decreases |ss|
  {
    hide PlanSchedule, DisableAll, Slot;
    if ss != [] {
      SchedulesReport(opt, accepts, snap, ImportSchedule(opt, accepts, snap, p, ss[0]), ss[1..]);
    }
  }

  function CountApplied(items: seq<Item>): nat {
    if items == [] then 0
    else CountApplied(items[..|items| - 1]) + (if items[|items| - 1].applied then 1 else 0)
  }

  lemma {:induction false} CountsAddUp(opt: Options, items: seq<Item>)
    requires ItemsOk(opt, items)
    ensures var s := SummaryOf(items);
            && s.create + s.update + s.same + s.conflict + s.missing + s.skip == |items|
            && s.failed + CountApplied(items) == if opt.dryRun then 0 else s.create + s.update
  {
    if items != [] {
      CountsAddUp(opt, items[..|items| - 1]);
      assert ItemOk(opt, items[|items| - 1]);
    }
  }

  lemma {:induction false} SamePlanSameCounts(a: seq<Item>, b: seq<Item>)
    requires PlanOf(a) == PlanOf(b)
    ensures SummaryOf(a).(failed := 0) == SummaryOf(b).(failed := 0)
    decreases |a|
  {
    hide PlanOf;
    PlanOfLength(a);
    PlanOfLength(b);
    if a != [] {
      var m := |a| - 1;
      var x, y := a[m], b[m];
      assert a == a[..m] + [x] && b == b[..m] + [y];
      PlanOfOneMore(a[..m], x);
      PlanOfOneMore(b[..m], y);
      PlanOfLength(a[..m]);
      PlanOfLength(b[..m]);
      assert PlanOf(a)[..m] == PlanOf(a[..m]) && PlanOf(b)[..m] == PlanOf(b[..m]);
      assert PlanOf(a)[m] == PlanOf(b)[m];
      SamePlanSameCounts(a[..m], b[..m]);
    }
  }

  lemma {:induction false} PlanOfLength(items: seq<Item>)
    ensures |PlanOf(items)| == |items|
  {
    if items != [] {
      PlanOfLength(items[1..]);
    }
  }

  /**
   The counts of the report add up to the entries of the document; every planned
   write is counted as applied or as failed, none in a dry run; and a dry run counts
   what the real run counts, whatever writes fail.
  */
  lemma SummaryAddsUp(opt: Options, accepts: Accepts, canon: string -> string, t: Target, d: Document)
    ensures var items := Import(opt, accepts, canon, t, d).items; var s := SummaryOf(items);
            && s.create + s.update + s.same + s.conflict + s.missing + s.skip == |d.variables| + |d.secrets| + |d.endpoints| + |d.schedules|
            && s.failed + CountApplied(items) == if opt.dryRun then 0 else s.create + s.update
    ensures SummaryOf(Import(opt.(dryRun := true), accepts, canon, t, d).items).(failed := 0)
         == SummaryOf(Import(opt.(dryRun := false), accepts, canon, t, d).items).(failed := 0)
  {
    hide ImportVariables, ImportSecrets, ImportEndpoints, ImportSchedules, Plan, SummaryOf;
    var p0 := Progress(t, [], [], 0);
    var p1 := ImportVariables(opt, accepts, t, p0, d.variables);
    var p2 := ImportSecrets(t, p1, d.secrets);
    var p3 := ImportEndpoints(opt, accepts, canon, t, p2, d.endpoints);
    VariablesReport(opt, accepts, t, p0, d.variables);
    SecretsReport(opt, t, p1, d.secrets);
    EndpointsReport(opt, accepts, canon, t, p2, d.endpoints);
    SchedulesReport(opt, accepts, t, p3, d.schedules);
    var items := Import(opt, accepts, canon, t, d).items;
    CountsAddUp(opt, items);
    ReportIsThePlan(opt, accepts, canon, t, d);
    PlanOfLength(items);
    SamePlan(opt, t, d);
    ReportIsThePlan(opt.(dryRun := true), accepts, canon, t, d);
    ReportIsThePlan(opt.(dryRun := false), accepts, canon, t, d);
    SamePlanSameCounts(Import(opt.(dryRun := true), accepts, canon, t, d).items, Import(opt.(dryRun := false), accepts, canon, t, d).items);
  }

  // ---------------------------------------------------------------------------
  // What an import keeps
  // ---------------------------------------------------------------------------

  /** Only additions: every record that was there is still there, as it was. */
  predicate OnlyAdds(a: Target, b: Target) {
    a.variables <= b.variables && a.secrets == b.secrets && a.hooks <= b.hooks && a.timers <= b.timers
  }

  predicate Leaves(opt: Options, a: Target, b: Target) {
    b.secrets == a.secrets && (opt.dryRun ==> b == a) && (!opt.overwrite ==> OnlyAdds(a, b))
  }

  lemma {:induction false} VariablesLeave(opt: Options, accepts: Accepts, snap: Target, p: Progress, vs: seq<Variable>)
    ensures Leaves(opt, p.target, ImportVariables(opt, accepts, snap, p, vs).target)
    decreases |vs|
  {
    if vs != [] {
      VariablesLeave(opt, accepts, snap, ImportVariable(opt, accepts, snap, p, vs[0]), vs[1..]);
    }
  }

  lemma {:induction false} SecretsLeave(snap: Target, p: Progress, ss: seq<Secret>)
    ensures ImportSecrets(snap, p, ss).target == p.target
    ensures ImportSecrets(snap, p, ss).writes == p.writes
    decreases |ss|
  {
    if ss != [] {
      SecretsLeave(snap, ImportSecret(snap, p, ss[0]), ss[1..]);
    }
  }

  lemma {:induction false} EndpointsLeave(opt: Options, accepts: Accepts, canon: string -> string, snap: Target, p: Progress, es: seq<Endpoint>)
    ensures Leaves(opt, p.target, ImportEndpoints(opt, accepts, canon, snap, p, es).target)
    decreases |es|
  {
    hide SortedEvents, Slot, Disable, SigningRef;
    if es != [] {
      EndpointsLeave(opt, accepts, canon, snap, ImportEndpoint(opt, accepts, canon, snap, p, es[0]), es[1..]);
    }
  }

  lemma {:induction false} SchedulesLeave(opt: Options, accepts: Accepts, snap: Target, p: Progress, ss: seq<Schedule>)
    ensures Leaves(opt, p.target, ImportSchedules(opt, accepts, snap, p, ss).target)
    decreases |ss|
  {
    hide Slot, DisableAll, SamePayload;
    if ss != [] {
      SchedulesLeave(opt, accepts, snap, ImportSchedule(opt, accepts, snap, p, ss[0]), ss[1..]);
    }
  }

  /**
   A dry run writes nothing and plans what the real run plans; without `overwrite`
   nothing that was there changes; no credential binding is ever created.
  */
  lemma ImportLeaves(opt: Options, accepts: Accepts, canon: string -> string, t: Target, d: Document)
    ensures Leaves(opt, t, Import(opt, accepts, canon, t, d).target)
    ensures PlanOf(Import(opt.(dryRun := true), accepts, canon, t, d).items) == PlanOf(Import(opt.(dryRun := false), accepts, canon, t, d).items)
  {
    hide ImportVariables, ImportSecrets, ImportEndpoints, ImportSchedules;
    var p0 := Progress(t, [], [], 0);
    var p1 := ImportVariables(opt, accepts, t, p0, d.variables);
    var p2 := ImportSecrets(t, p1, d.secrets);
    var p3 := ImportEndpoints(opt, accepts, canon, t, p2, d.endpoints);
    VariablesLeave(opt, accepts, t, p0, d.variables);
    SecretsLeave(t, p1, d.secrets);
    EndpointsLeave(opt, accepts, canon, t, p2, d.endpoints);
    SchedulesLeave(opt, accepts, t, p3, d.schedules);
    SamePlan(opt, t, d);
    ReportIsThePlan(opt.(dryRun := true), accepts, canon, t, d);
    ReportIsThePlan(opt.(dryRun := false), accepts, canon, t, d);
  }

  lemma SamePlan(opt: Options, t: Target, d: Document)
    ensures Plan(opt.(dryRun := true), t, d) == Plan(opt.(dryRun := false), t, d)
  {
    hide PlanVariable, PlanSecret, Slot, SigningRef, SamePayload, SortedEvents;
  }
}

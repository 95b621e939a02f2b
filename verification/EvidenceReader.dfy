/**
 Reading evidence back: a bounded query over pages, one extra row to tell a full
 answer from a cut one, and the state of a run as the join of its rows' states.
*/
module EvidenceReader {
  import opened Common
  import opened Ordering

  const FELTDB_QUERY_PAGE_LIMIT := 1000

  // ---------------------------------------------------------------------------
  // Bounded queries
  // ---------------------------------------------------------------------------

  /** One page of a query: records, where the next page starts, and whether there is nothing left. */
  datatype Page<+T> = Page(records: seq<T>, next: Option<nat>, exhausted: bool)

  /**
   What a store's pages promise about the collection: a page that starts at a
   position covers the records up to the next one, may hold others beside those
   that match, and ends the query only when nothing matching is left.
  */
  ghost predicate Honest<T(!new)>(table: seq<T>, keep: T -> bool, query: (nat, nat) -> Page<T>) {
    forall at: nat, limit: nat :: at <= |table| && limit >= 1 ==> PageOk(table, keep, at, query(at, limit))
  }

  ghost predicate PageOk<T(!new)>(table: seq<T>, keep: T -> bool, at: nat, page: Page<T>)
    requires at <= |table|
  {
    if page.exhausted || page.next.None? || page.records == [] then Filter(page.records, keep) == Filter(table[at..], keep)
    else at < page.next.value <= |table| && Filter(page.records, keep) == Filter(table[at..page.next.value], keep)
  }

  /** The first `max` matching records of the collection, whatever the pages hold besides. */
  method BoundedFind<T(!new)>(ghost table: seq<T>, keep: T -> bool, query: (nat, nat) -> Page<T>, max: nat) returns (found: seq<T>)
    requires Honest(table, keep, query)
    ensures found == Take(Filter(table, keep), max)
  {
    hide Filter;
    found := [];
    var cursor := 0;
    FilterFirst(table, 0, 0, keep);
    while |found| < max
      invariant cursor <= |table| && found == Filter(table[..cursor], keep)
      decreases |table| - cursor
    {
      var page := query(cursor, Min(FELTDB_QUERY_PAGE_LIMIT, max - |found|));
      assert PageOk(table, keep, cursor, page);
      found := found + Filter(page.records, keep);
      if page.exhausted || page.next.None? || page.records == [] {
        FilterFirst(table, cursor, |table|, keep);
        found := Take(found, max);
        return;
      }
      FilterFirst(table, cursor, page.next.value, keep);
      cursor := page.next.value;
    }
    FilterFirst(table, cursor, |table|, keep);
    found := Take(found, max);
  }

  /** Filtering a longer start of the collection only adds what the piece in between holds. */
  lemma FilterFirst<T(!new)>(table: seq<T>, from: nat, to: nat, keep: T -> bool)
    requires from <= to <= |table|
    ensures Filter(table[..to], keep) == Filter(table[..from], keep) + Filter(table[from..to], keep)
    ensures Filter(table[..0], keep) == [] && table[..|table|] == table && table[from..|table|] == table[from..]
  {
    FilterConcat(table[..from], table[from..to], keep);
    assert table[..from] + table[from..to] == table[..to];
  }

  // ---------------------------------------------------------------------------
  // The state of a run
  // ---------------------------------------------------------------------------

  datatype Outcome = Started | Succeeded | Failed | ProviderError | Denied

  /** Least first: nothing recorded, completed, not known to have completed, failed. */
  datatype RunState = NoRecord | Completed | InProgress | HasFailed

  datatype Row = Row(id: string, runId: string, application: string, tenant: string, startedAt: nat, outcome: Outcome)

  function RowState(o: Outcome): RunState {
    match o case Started => InProgress case Succeeded => Completed case _ => HasFailed
  }

  function Join(a: RunState, b: RunState): RunState {
    if a.HasFailed? || b.HasFailed? then HasFailed
    else if a.InProgress? || b.InProgress? then InProgress
    else if a.Completed? || b.Completed? then Completed else NoRecord
  }

  function AggregateState(rows: seq<Row>): RunState {
    if rows == [] then NoRecord
    else if exists r :: r in rows && RowState(r.outcome).HasFailed? then HasFailed
    else if exists r :: r in rows && RowState(r.outcome).InProgress? then InProgress
    else Completed
  }

  function JoinAll(rows: seq<Row>): RunState {
    if rows == [] then NoRecord else Join(RowState(rows[0].outcome), JoinAll(rows[1..]))
  }

  /** The state of a run is the join of the states of its rows. */
  lemma {:induction false} AggregateIsJoin(rows: seq<Row>)
    ensures AggregateState(rows) == JoinAll(rows)
  {
    if rows != [] {
      AggregateIsJoin(rows[1..]);
      assert rows == [rows[0]] + rows[1..];
      assert forall r :: r in rows <==> r == rows[0] || r in rows[1..];
    }
  }

  /** Put together, two lists of rows have the join of their states. */
  lemma AggregateOfConcat(a: seq<Row>, b: seq<Row>)
    ensures AggregateState(a + b) == Join(AggregateState(a), AggregateState(b))
  {
    assert forall r :: r in a + b <==> r in a || r in b;
    if a == [] {
      assert a + b == b;
    } else if b == [] {
      assert a + b == a;
    }
  }

  /** The order rows are listed in does not matter. */
  lemma AggregateOfRearranged(a: seq<Row>, b: seq<Row>)
    requires multiset(a) == multiset(b)
    ensures AggregateState(a) == AggregateState(b)
  {
    SameElements(a, b);
  }

  // ---------------------------------------------------------------------------
  // findByRunId
  // ---------------------------------------------------------------------------

  const MAX_EVIDENCE_LOOKUP_LIMIT := 1000

  const DEFAULT_EVIDENCE_LOOKUP_LIMIT := 100

  /** A row with its own state. */
  datatype Record = Record(row: Row, state: RunState)

  datatype Lookup = Lookup(records: seq<Record>, state: RunState, truncated: bool)

  /** An empty tenant is none. */
  predicate Matches(r: Row, runId: string, application: string, tenant: Option<string>) {
    r.runId == runId && r.application == application && (tenant.Some? && tenant.value != "" ==> r.tenant == tenant.value)
  }

  function Labelled(rows: seq<Row>): (r: seq<Record>)
    ensures |r| == |rows| && forall i :: 0 <= i < |r| ==> r[i] == Record(rows[i], RowState(rows[i].outcome))
  {
    if rows == [] then [] else [Record(rows[0], RowState(rows[0].outcome))] + Labelled(rows[1..])
  }

  function RowsOf(records: seq<Record>): (r: seq<Row>)
    ensures |r| == |records| && forall i :: 0 <= i < |r| ==> r[i] == records[i].row
  {
    if records == [] then [] else [records[0].row] + RowsOf(records[1..])
  }

  lemma LabelledRows(rows: seq<Row>)
    ensures RowsOf(Labelled(rows)) == rows
  {}

  function Wanted(runId: string, application: string, tenant: Option<string>): Row -> bool {
    r => Matches(r, runId, application, tenant)
  }

  /** Oldest first, by id within an instant. */
  predicate Older(a: Row, b: Row) {
    a.startedAt < b.startedAt || (a.startedAt == b.startedAt && StringLe(a.id, b.id))
  }

  lemma OlderIsTotalPreorder()
    ensures TotalPreorder(Older)
  {
    StringLeIsTotalOrder();
    forall a, b ensures Older(a, b) || Older(b, a) {
      assert StringLe(a.id, b.id) || StringLe(b.id, a.id);
    }
    forall a, b, c | Older(a, b) && Older(b, c) ensures Older(a, c) {
      if a.startedAt == b.startedAt == c.startedAt {
        assert StringLe(a.id, b.id) && StringLe(b.id, c.id);
      }
    }
  }

  /** A row of this run, of this application and, if one is given, of this tenant. */
  predicate IsOfRun(r: Row, runId: string, application: string, tenant: Option<string>) {
    r.runId == runId && r.application == application && (tenant.None? || tenant.value == "" || r.tenant == tenant.value)
  }

  /** Not known to have completed, completed, or failed in one of three ways. */
  predicate Ended(o: Outcome, state: RunState) {
    match o
    case Started => state == InProgress
    case Succeeded => state == Completed
    case Failed => state == HasFailed
    case ProviderError => state == HasFailed
    case Denied => state == HasFailed
  }

  /** The answer, read off the rows of the collection. */
  ghost predicate Answers(table: seq<Row>, runId: string, application: string, tenant: Option<string>, wanted: nat, r: Lookup) {
    && AnswersRows(table, runId, application, tenant, wanted, RowsOf(r.records), r.truncated)
    && OldestFirst(RowsOf(r.records)) && IsStateOf(RowsOf(r.records), r.state)
    && forall i :: 0 <= i < |r.records| ==> Ended(r.records[i].row.outcome, r.records[i].state)
  }

  /** Rows of the run alone, each once, and all of them unless it says that it was cut at what was wanted. */
  ghost predicate AnswersRows(table: seq<Row>, runId: string, application: string, tenant: Option<string>, wanted: nat, rows: seq<Row>, cut: bool) {
    && (forall row :: row in rows ==> IsOfRun(row, runId, application, tenant) && multiset(rows)[row] <= multiset(table)[row])
    && if cut then |rows| == wanted && exists row :: row in table && IsOfRun(row, runId, application, tenant) && multiset(rows)[row] < multiset(table)[row]
       else |rows| <= wanted && forall row :: row in table && IsOfRun(row, runId, application, tenant) ==> multiset(rows)[row] == multiset(table)[row]
  }

  ghost predicate OldestFirst(rows: seq<Row>) {
    forall i, j :: 0 <= i < j < |rows| ==>
      rows[i].startedAt < rows[j].startedAt || (rows[i].startedAt == rows[j].startedAt && StringLe(rows[i].id, rows[j].id))
  }

  /** Failed if anything failed, else open if anything is open. */
  ghost predicate IsStateOf(rows: seq<Row>, state: RunState) {
    && (state.NoRecord? <==> rows == [])
    && (state.HasFailed? <==> exists row :: row in rows && Ended(row.outcome, HasFailed))
    && (state.Completed? <==> rows != [] && forall row :: row in rows ==> row.outcome.Succeeded?)
  }

  lemma {:induction false} FilterCounts(table: seq<Row>, keep: Row -> bool, row: Row)
    ensures multiset(Filter(table, keep))[row] == if keep(row) then multiset(table)[row] else 0
  {
    if table != [] {
      assert table == [table[0]] + table[1..];
      FilterCounts(table[1..], keep, row);
    }
  }

  lemma PartCounts(all: seq<Row>, n: nat, row: Row)
    ensures multiset(Take(all, n))[row] <= multiset(all)[row]
  {
    assert all == Take(all, n) + all[|Take(all, n)|..];
  }

  /** Something is left over when a list is cut. */
  lemma CutLeavesOne(all: seq<Row>, n: nat)
    requires |all| > n
    ensures exists row :: row in all && multiset(Take(all, n))[row] < multiset(all)[row]
  {
    assert all == Take(all, n) + all[n..];
    assert all[n] in all[n..] && all[n] in all;
    assert multiset(all)[all[n]] == multiset(Take(all, n))[all[n]] + multiset(all[n..])[all[n]];
  }

  lemma StateIsState(rows: seq<Row>)
    ensures IsStateOf(rows, AggregateState(rows))
  {
    if rows != [] {
      assert rows[0] in rows;
    }
  }

  lemma RowsAnswer(table: seq<Row>, runId: string, application: string, tenant: Option<string>, wanted: nat, rows: seq<Row>)
    requires multiset(rows) == multiset(Take(Filter(table, Wanted(runId, application, tenant)), wanted))
    ensures AnswersRows(table, runId, application, tenant, wanted, rows, |Filter(table, Wanted(runId, application, tenant))| > wanted)
  {
    hide Filter, Take;
    var keep := Wanted(runId, application, tenant);
    var all := Filter(table, keep);
    TakeCounts(all, wanted, rows);
    forall row ensures multiset(all)[row] == (if keep(row) then multiset(table)[row] else 0) {
      FilterCounts(table, keep, row);
    }
    forall row | row in rows ensures IsOfRun(row, runId, application, tenant) && multiset(rows)[row] <= multiset(table)[row] {
      assert row in multiset(rows);
    }
    if |all| > wanted {
      var row :| row in all && multiset(rows)[row] < multiset(all)[row];
      assert row in multiset(all) && row in multiset(table);
    }
  }

  /** A cut holds part of the list, and all of it unless there is more than was wanted. */
  lemma TakeCounts(all: seq<Row>, wanted: nat, rows: seq<Row>)
    requires multiset(rows) == multiset(Take(all, wanted))
    ensures forall row :: multiset(rows)[row] <= multiset(all)[row]
    ensures |rows| == Min(|all|, wanted) && (|all| <= wanted ==> multiset(rows) == multiset(all))
    ensures |all| > wanted ==> exists row :: row in all && multiset(rows)[row] < multiset(all)[row]
  {
    SameElements(rows, Take(all, wanted));
    forall row ensures multiset(rows)[row] <= multiset(all)[row] {
      PartCounts(all, wanted, row);
    }
    if |all| > wanted {
      CutLeavesOne(all, wanted);
    }
  }

  lemma LookupAnswers(table: seq<Row>, runId: string, application: string, tenant: Option<string>, wanted: nat, rows: seq<Row>, cut: bool)
    requires AnswersRows(table, runId, application, tenant, wanted, rows, cut) && Sorted(rows, Older)
    ensures Answers(table, runId, application, tenant, wanted, Lookup(Labelled(rows), AggregateState(rows), cut))
  {
    hide StringLe, AnswersRows, IsStateOf, AggregateState;
    LabelledRows(rows);
    StateIsState(rows);
  }

  /** One run's evidence, oldest first: asked for one row more than wanted, so that a cut answer shows. */
  method FindByRunId(ghost table: seq<Row>, query: (nat, nat) -> Page<Row>, runId: string, application: string, tenant: Option<string>, limit: Option<int>)
    returns (r: Result<Lookup>)
    requires Honest(table, Wanted(runId, application, tenant), query)
    ensures r.Ok? <==> runId != "" && (limit.Some? ==> 1 <= limit.value <= 1000)
    ensures r.Ok? ==> Answers(table, runId, application, tenant, if limit.Some? then limit.value else 100, r.value)
  {
    var wanted := if limit.Some? then limit.value else DEFAULT_EVIDENCE_LOOKUP_LIMIT;
    if runId == "" || wanted < 1 || wanted > MAX_EVIDENCE_LOOKUP_LIMIT {
      return Invalid;
    }
    hide AggregateState, SortBy, Filter, Honest, Answers, AnswersRows;
    var keep := Wanted(runId, application, tenant);
    var rows := BoundedFind(table, keep, query, wanted + 1);
    var matching := Filter(rows, keep);
    OneMoreTells(Filter(table, keep), keep, wanted);
    var records := SortBy(Take(matching, wanted), Older);
    AggregateOfRearranged(records, Take(matching, wanted));
    OlderIsTotalPreorder();
    SortBySorted(Take(matching, wanted), Older);
    RowsAnswer(table, runId, application, tenant, wanted, records);
    LookupAnswers(table, runId, application, tenant, wanted, records, |matching| > wanted);
    r := Ok(Lookup(Labelled(records), AggregateState(records), |matching| > wanted));
  }

  /** One row more than wanted tells whether there is more, and the re-check drops nothing. */
  lemma OneMoreTells(all: seq<Row>, keep: Row -> bool, limit: nat)
    requires forall r :: r in all ==> keep(r)
    ensures var rows := Filter(Take(all, limit + 1), keep);
            (|rows| > limit <==> |all| > limit) && Take(rows, limit) == Take(all, limit)
  {
    FilterAll(Take(all, limit + 1), keep);
  }

  /** An answer that is not cut holds the whole run, so its state is the run's. */
  lemma UncutStateIsTheRuns(all: seq<Row>, limit: nat)
    requires |all| <= limit
    ensures AggregateState(Take(all, limit)) == JoinAll(all)
  {
    AggregateIsJoin(all);
  }

  /** A cut answer may say less than the run: what it says is never above the truth. */
  lemma CutStateIsBelow(all: seq<Row>, limit: nat)
    ensures Join(AggregateState(Take(all, limit)), AggregateState(all)) == AggregateState(all)
  {
    var first := Take(all, limit);
    var rest := all[|first|..];
    assert all == first + rest;
    AggregateOfConcat(first, rest);
  }
}

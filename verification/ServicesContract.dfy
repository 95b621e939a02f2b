/** The contract fragment of a set of services: what they and the services they need store. */
module ServicesContract {
  import opened Common
  import opened Ordering

  datatype Requirement = Requirement(collections: seq<string>, needs: seq<string>)

  type Graph = map<string, Requirement>

  const SHARED := "service_effect_evidence"

  /** Every service in the set is known, and what it needs is in the set too. */
  ghost predicate Closed(g: Graph, services: set<string>) {
    forall n :: n in services ==> n in g && forall r :: r in g[n].needs ==> r in services
  }

  /** The least closed set with everything that was asked for. */
  ghost predicate IsClosure(g: Graph, asked: seq<string>, services: set<string>) {
    && Closed(g, services) && (forall n :: n in asked ==> n in services)
    && forall other: set<string> :: Closed(g, other) && (forall n :: n in asked ==> n in other) ==> services <= other
  }

  predicate Stores(g: Graph, services: set<string>, collection: string) {
    collection == SHARED || exists n :: n in services && n in g && collection in g[n].collections
  }

  /** The collections of a fragment: each once, in name order; none at all for no services. */
  ghost predicate IsFragment(g: Graph, services: set<string>, names: seq<string>) {
    && Distinct(names) && Sorted(names, StringLe)
    && forall c :: c in names <==> services != {} && Stores(g, services, c)
  }

  /** The closure as it is computed: depth first, into one set, over any graph. */
  class Closure {
    const graph: Graph
    var wanted: set<string>

    constructor (graph: Graph)
      ensures this.graph == graph && wanted == {}
    {
      this.graph, wanted := graph, {};
    }

    /** Add a service and what it needs; false for an unknown name on the way. */
    method Add(name: string) returns (known: bool)
      modifies this
      ensures old(wanted) <= wanted
      // What was added is known, and what it needs is there.
      ensures known ==> name in wanted
      ensures known ==> forall n :: n in wanted && n !in old(wanted) ==> n in graph && forall r :: r in graph[n].needs ==> r in wanted
      // Nothing was added that some closed set with this service leaves out.
      ensures forall s: set<string> :: Closed(graph, s) && name in s ==> wanted <= old(wanted) + s
      ensures !known ==> forall s: set<string> :: Closed(graph, s) ==> name !in s
      decreases graph.Keys - wanted
    {
      if name !in graph {
        return false;
      }
      if name in wanted {
        return true;
      }
      wanted := wanted + {name};
      var needs := graph[name].needs;
      for i := 0 to |needs|
        invariant old(wanted) + {name} <= wanted
        invariant forall r :: r in needs[..i] ==> r in wanted
        invariant forall n :: n in wanted && n !in old(wanted) && n != name ==> n in graph && forall r :: r in graph[n].needs ==> r in wanted
        invariant forall s: set<string> :: Closed(graph, s) && name in s ==> wanted <= old(wanted) + s
      {
        assert needs[..i + 1] == needs[..i] + [needs[i]];
        ghost var before := wanted;
        known := Add(needs[i]);
        if !known {
          return false;
        }
        assert forall n :: n in wanted && n !in before ==> n in graph && forall r :: r in graph[n].needs ==> r in wanted;
      }
      assert needs[..|needs|] == needs;
      known := true;
    }
  }

  /**
   Every requested service in turn, then the collections in name order. Refused
   exactly when no closed set holds the request, that is, some service it reaches
   is unknown.
  */
  method Fragment(g: Graph, asked: seq<string>) returns (r: Result<seq<string>>)
    ensures r.Ok? ==> exists services :: IsClosure(g, asked, services) && IsFragment(g, services, r.value)
    ensures r.Invalid? ==> forall s: set<string> :: Closed(g, s) ==> exists n :: n in asked && n !in s
  {
    var closure := new Closure(g);
    for i := 0 to |asked|
      invariant fresh(closure) && closure.graph == g
      invariant Closed(g, closure.wanted) && forall n :: n in asked[..i] ==> n in closure.wanted
      invariant forall s: set<string> :: Closed(g, s) && (forall n :: n in asked ==> n in s) ==> closure.wanted <= s
    {
      assert asked[..i + 1] == asked[..i] + [asked[i]];
      var known := closure.Add(asked[i]);
      if !known {
        return Invalid;
      }
    }
    assert asked[..|asked|] == asked;
    var services := closure.wanted;
    assert IsClosure(g, asked, services);
    if services == {} {
      return Ok([]);
    }
    var names := Names(g, services);
    r := Ok(names);
  }

  /** Each collection once, inserted in name order. */
  method Names(g: Graph, services: set<string>) returns (names: seq<string>)
    requires services != {}
    ensures IsFragment(g, services, names)
  {
    StringLeIsTotalOrder();
    names := [SHARED];
    var rest := services;
    while rest != {}
      invariant rest <= services && Distinct(names) && Sorted(names, StringLe)
      invariant forall c :: c in names <==> Stores(g, services - rest, c)
      decreases rest
    {
      var n :| n in rest;
      ghost var before, done := names, services - rest;
      if n in g {
        names := AddCollections(names, g[n].collections);
      }
      rest := rest - {n};
      assert services - rest == done + {n};
      forall c ensures Stores(g, done + {n}, c) <==> Stores(g, done, c) || (n in g && c in g[n].collections) {}
    }
    assert services - rest == services;
  }

  method AddCollections(names: seq<string>, collections: seq<string>) returns (more: seq<string>)
    requires Distinct(names) && Sorted(names, StringLe) && TotalOrder(StringLe)
    ensures Distinct(more) && Sorted(more, StringLe)
    ensures forall c :: c in more <==> c in names || c in collections
  {
    more := names;
    for i := 0 to |collections|
      invariant Distinct(more) && Sorted(more, StringLe)
      invariant forall c :: c in more <==> c in names || c in collections[..i]
    {
      assert collections[..i + 1] == collections[..i] + [collections[i]];
      if collections[i] !in more {
        ghost var before := more;
        more := Insert(collections[i], more, StringLe);
        InsertSorted(collections[i], before, StringLe);
        InsertDistinct(collections[i], before);
      }
    }
    assert collections[..|collections|] == collections;
  }

  lemma InsertDistinct(x: string, s: seq<string>)
    requires Distinct(s) && x !in s
    ensures Distinct(Insert(x, s, StringLe))
    ensures forall y :: y in Insert(x, s, StringLe) <==> y == x || y in s
  {
    var all := [x] + s;
    assert Distinct(all);
    assert multiset(Insert(x, s, StringLe)) == multiset(all);
    DistinctMultiset(all, Insert(x, s, StringLe));
    SameElements(all, Insert(x, s, StringLe));
  }

  // ---------------------------------------------------------------------------
  // The fragment is a function of the set that was asked for
  // ---------------------------------------------------------------------------

  /** There is one least closed set: order and repeats in the request do not matter. */
  lemma OneClosure(g: Graph, a: seq<string>, b: seq<string>, s: set<string>, t: set<string>)
    requires (forall n :: n in a <==> n in b) && IsClosure(g, a, s) && IsClosure(g, b, t)
    ensures s == t
  {}

  /** And one list of names for it. */
  lemma OneFragment(g: Graph, s: set<string>, a: seq<string>, b: seq<string>)
    requires IsFragment(g, s, a) && IsFragment(g, s, b)
    ensures a == b
  {
    StringLeIsTotalOrder();
    assert forall x :: x in a <==> x in b;
    forall x ensures multiset(a)[x] == multiset(b)[x] {
      DistinctCounts(a, x);
      DistinctCounts(b, x);
      assert (x in a <==> x in multiset(a)) && (x in b <==> x in multiset(b));
    }
    SortedUnique(a, b, StringLe);
  }

  /** The same services, in any order and however often, give the same fragment. */
  lemma SameRequestSameFragment(g: Graph, a: seq<string>, b: seq<string>, s: set<string>, t: set<string>, x: seq<string>, y: seq<string>)
    requires forall n :: n in a <==> n in b
    requires IsClosure(g, a, s) && IsFragment(g, s, x) && IsClosure(g, b, t) && IsFragment(g, t, y)
    ensures x == y
  {
    OneClosure(g, a, b, s, t);
    OneFragment(g, s, x, y);
  }

  lemma SomeName(names: seq<string>)
    requires names != []
    ensures exists c :: c in names
  {
    assert names[0] in names;
  }

  /** The fragment is empty exactly for the empty request. */
  lemma EmptyExactly(g: Graph, asked: seq<string>, services: set<string>, names: seq<string>)
    requires IsClosure(g, asked, services) && IsFragment(g, services, names)
    ensures names == [] <==> asked == []
  {
    if asked == [] {
      assert Closed(g, {});
      assert services <= {};
      if names != [] {
        SomeName(names);
      }
    } else {
      assert asked[0] in asked;
      assert Stores(g, services, SHARED);
    }
  }

  // ---------------------------------------------------------------------------
  // The services there are
  // ---------------------------------------------------------------------------

  const SERVICE_REQUIREMENTS: Graph := map[
    "files" := Requirement(["files", "file_audit_events"], []),
    "notifications" := Requirement(["notifications", "notification_deliveries", "notification_audit_events"], []),
    "configuration" := Requirement(["ConfigurationVariables", "ConfigurationSecrets", "ConfigurationAuditEvents", "Secrets", "SecretVersions", "SecretAuditEvents"], []),
    "apiKeys" := Requirement(["api_keys", "api_key_prefixes", "api_key_audit_events"], []),
    "webhooks" := Requirement(["webhook_endpoints", "webhook_deliveries", "webhook_audit_events", "webhook_integrations", "inbound_webhook_events"], []),
    "jobs" := Requirement(["jobs", "job_audit_events"], []),
    "schedules" := Requirement(["job_schedules"], ["jobs"]),
    "intelligence" := Requirement(["ConfigurationVariables", "ConfigurationSecrets", "ConfigurationAuditEvents"], [])]

  /** A request of known services is never refused: all the services together are closed. */
  lemma KnownServicesAreServed(asked: seq<string>)
    requires forall n :: n in asked ==> n in SERVICE_REQUIREMENTS
    ensures exists s: set<string> :: Closed(SERVICE_REQUIREMENTS, s) && forall n :: n in asked ==> n in s
  {
    assert Closed(SERVICE_REQUIREMENTS, SERVICE_REQUIREMENTS.Keys);
  }
}

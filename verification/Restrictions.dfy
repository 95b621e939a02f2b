/**
 The ceiling an API key carries: which capabilities it may be used for, and on
 which resources. `Within` is the service's decision procedure for "this key can
 never permit something that one would not"; the theorems compare it with
 inclusion of what the two keys permit.
*/
module Restrictions {
  import opened Common
  import opened Ordering

  /** A rule with nothing set matches everything; `normalizeRule` refuses it. */
  datatype Rule = Rule(typ: Option<string>, id: Option<string>, attributes: map<string, string>)

  datatype Restrictions = Restrictions(capabilities: seq<string>, resources: Option<seq<Rule>>)

  datatype Resource = Resource(typ: string, id: Option<string>, attributes: map<string, string>)

  // ---------------------------------------------------------------------------
  // The service's decisions
  // ---------------------------------------------------------------------------

  predicate RuleMatches(rule: Rule, resource: Resource) {
    && (rule.typ.Some? ==> rule.typ.value == resource.typ)
    && (rule.id.Some? ==> resource.id == rule.id)
    && (forall k :: k in rule.attributes ==> k in resource.attributes && resource.attributes[k] == rule.attributes[k])
  }

  /** Default deny: the capability is listed and, if there are rules, one matches. */
  predicate Permit(r: Option<Restrictions>, capability: string, resource: Resource) {
    r.None? || (
      && capability in r.value.capabilities
      && (r.value.resources.None? || exists rule :: rule in r.value.resources.value && RuleMatches(rule, resource)))
  }

  predicate RuleNarrows(inner: Rule, outer: Rule) {
    && (outer.typ.Some? ==> inner.typ == outer.typ)
    && (outer.id.Some? ==> inner.id == outer.id)
    && (forall k :: k in outer.attributes ==> k in inner.attributes && inner.attributes[k] == outer.attributes[k])
  }

  predicate Within(child: Option<Restrictions>, parent: Option<Restrictions>) {
    if parent.None? then true
    else if child.None? then false
    else if !(forall c :: c in child.value.capabilities ==> c in parent.value.capabilities) then false
    else if parent.value.resources.None? then true
    else if child.value.resources.None? then false
    else
      forall rule :: rule in child.value.resources.value ==>
        exists outer :: outer in parent.value.resources.value && RuleNarrows(rule, outer)
  }

  // ---------------------------------------------------------------------------
  // What the decision means
  // ---------------------------------------------------------------------------

  /** Everything `child` permits, `parent` permits. */
  ghost predicate Included(child: Option<Restrictions>, parent: Option<Restrictions>) {
    forall c: string, res: Resource :: Permit(child, c, res) ==> Permit(parent, c, res)
  }

  /** What `normalizeRule` guarantees of every stored rule. */
  predicate SetsSomething(rule: Rule) {
    rule.typ.Some? || rule.id.Some? || rule.attributes != map[]
  }

  predicate NormalRules(r: Option<Restrictions>) {
    r.Some? && r.value.resources.Some? ==> forall rule :: rule in r.value.resources.value ==> SetsSomething(rule)
  }

  /** The key can be used for something at all. */
  predicate PermitsSomething(r: Option<Restrictions>) {
    r.None? || (r.value.capabilities != [] && r.value.resources != Some([]))
  }

  /** Something that may be demanded of a resource. */
  datatype Fact = TypeIs(typ: string) | IdIs(id: string) | AttributeIs(name: string, value: string)

  predicate Demands(r: Rule, f: Fact) {
    match f
    case TypeIs(typ) => r.typ == Some(typ)
    case IdIs(id) => r.id == Some(id)
    case AttributeIs(name, value) => name in r.attributes && r.attributes[name] == value
  }

  predicate IsSo(r: Resource, f: Fact) {
    match f
    case TypeIs(typ) => r.typ == typ
    case IdIs(id) => r.id == Some(id)
    case AttributeIs(name, value) => name in r.attributes && r.attributes[name] == value
  }

  /** A rule matches exactly the resources of which everything it demands is so; it narrows another exactly when it demands all the other does. */
  lemma RulesAreDemands(rule: Rule, outer: Rule, resource: Resource)
    ensures RuleMatches(rule, resource) <==> forall f :: Demands(rule, f) ==> IsSo(resource, f)
    ensures RuleNarrows(rule, outer) <==> forall f :: Demands(outer, f) ==> Demands(rule, f)
  {
    assert rule.typ.Some? ==> Demands(rule, TypeIs(rule.typ.value));
    assert rule.id.Some? ==> Demands(rule, IdIs(rule.id.value));
    assert forall k :: k in rule.attributes ==> Demands(rule, AttributeIs(k, rule.attributes[k]));
    assert outer.typ.Some? ==> Demands(outer, TypeIs(outer.typ.value));
    assert outer.id.Some? ==> Demands(outer, IdIs(outer.id.value));
    assert forall k :: k in outer.attributes ==> Demands(outer, AttributeIs(k, outer.attributes[k]));
  }

  lemma NarrowRuleMatchesLess(inner: Rule, outer: Rule, resource: Resource)
    requires RuleNarrows(inner, outer) && RuleMatches(inner, resource)
    ensures RuleMatches(outer, resource)
  {}

  /** Soundness: nothing passes `Within` that could permit more, whatever the rules. */
  lemma WithinIsSound(child: Option<Restrictions>, parent: Option<Restrictions>)
    requires Within(child, parent)
    ensures Included(child, parent)
  {
    forall c: string, res: Resource | Permit(child, c, res) ensures Permit(parent, c, res) {
      if parent.Some? && parent.value.resources.Some? {
        var rule :| rule in child.value.resources.value && RuleMatches(rule, res);
        var outer :| outer in parent.value.resources.value && RuleNarrows(rule, outer);
        NarrowRuleMatchesLess(rule, outer, res);
      }
    }
  }

  /** A name longer than every listed one. */
  function FreshName(names: seq<string>): (name: string)
    ensures forall n :: n in names ==> |n| < |name|
  {
    if names == [] then "x" else FreshName(names[1..]) + names[0]
  }

  lemma FreshNameIsFresh(names: seq<string>)
    ensures FreshName(names) !in names
  {}

  function RuleTypes(rules: seq<Rule>): (types: seq<string>)
    ensures forall rule :: rule in rules && rule.typ.Some? ==> rule.typ.value in types
  {
    if rules == [] then []
    else (if rules[0].typ.Some? then [rules[0].typ.value] else []) + RuleTypes(rules[1..])
  }

  /** The least specific resource a rule matches, of a type that `others` never name unless the rule does. */
  function Witness(rule: Rule, others: seq<Rule>): (res: Resource)
    ensures RuleMatches(rule, res)
  {
    Resource(if rule.typ.Some? then rule.typ.value else FreshName(RuleTypes(others)), rule.id, rule.attributes)
  }

  /** A rule is covered by a list of rules only if one member alone covers it. */
  lemma CoveredByOne(rule: Rule, others: seq<Rule>)
    ensures (exists outer :: outer in others && RuleNarrows(rule, outer))
        <==> forall res: Resource :: RuleMatches(rule, res) ==> exists outer :: outer in others && RuleMatches(outer, res)
  {
    if outer :| outer in others && RuleNarrows(rule, outer) {
      forall res: Resource | RuleMatches(rule, res) ensures exists o :: o in others && RuleMatches(o, res) {
        NarrowRuleMatchesLess(rule, outer, res);
      }
    }
    if forall res: Resource :: RuleMatches(rule, res) ==> exists outer :: outer in others && RuleMatches(outer, res) {
      var res := Witness(rule, others);
      var outer :| outer in others && RuleMatches(outer, res);
      FreshNameIsFresh(RuleTypes(others));
      assert RuleNarrows(rule, outer);
    }
  }

  /** A resource no normalized rule matches. */
  lemma UnmatchedResource(rules: seq<Rule>) returns (res: Resource)
    requires forall rule :: rule in rules ==> SetsSomething(rule)
    ensures forall rule :: rule in rules ==> !RuleMatches(rule, res)
  {
    FreshNameIsFresh(RuleTypes(rules));
    res := Resource(FreshName(RuleTypes(rules)), None, map[]);
    forall rule | rule in rules ensures !RuleMatches(rule, res) {
      if rule.typ.None? && rule.id.None? {
        var k :| k in rule.attributes;
      }
    }
  }

  /** A (capability, resource) pair that a usable key permits, with the capability chosen. */
  lemma SomethingPermitted(r: Option<Restrictions>, capability: string) returns (res: Resource)
    requires PermitsSomething(r) && (r.Some? ==> capability in r.value.capabilities)
    ensures Permit(r, capability, res)
  {
    if r.Some? && r.value.resources.Some? {
      var rule := r.value.resources.value[0];
      res := Witness(rule, []);
      assert rule in r.value.resources.value;
    } else {
      res := Resource("", None, map[]);
    }
  }

  /** Completeness: a usable key that permits no more than `parent` passes the check. */
  lemma WithinIsComplete(child: Option<Restrictions>, parent: Option<Restrictions>)
    requires Included(child, parent)
    requires PermitsSomething(child) && NormalRules(parent)
    ensures Within(child, parent)
  {
    if parent.Some? {
      if child.None? {
        var c := FreshName(parent.value.capabilities);
        FreshNameIsFresh(parent.value.capabilities);
        var _ := SomethingPermitted(child, c);
        assert false;
      } else {
        forall c | c in child.value.capabilities ensures c in parent.value.capabilities {
          var res := SomethingPermitted(child, c);
          assert Permit(parent, c, res);
        }
        if parent.value.resources.Some? {
          var c := child.value.capabilities[0];
          if child.value.resources.None? {
            var res := UnmatchedResource(parent.value.resources.value);
            assert Permit(child, c, res);
            assert false;
          } else {
            forall rule | rule in child.value.resources.value
              ensures exists outer :: outer in parent.value.resources.value && RuleNarrows(rule, outer)
            {
              forall res: Resource | RuleMatches(rule, res)
                ensures exists outer :: outer in parent.value.resources.value && RuleMatches(outer, res)
              {
                assert Permit(child, c, res);
                assert Permit(parent, c, res);
              }
              CoveredByOne(rule, parent.value.resources.value);
            }
          }
        }
      }
    }
  }

  /** The check decides inclusion exactly, for every key that can be used and every stored parent. */
  lemma WithinDecidesInclusion(child: Option<Restrictions>, parent: Option<Restrictions>)
    requires PermitsSomething(child) && NormalRules(parent)
    ensures Within(child, parent) <==> Included(child, parent)
  {
    if Within(child, parent) {
      WithinIsSound(child, parent);
    }
    if Included(child, parent) {
      WithinIsComplete(child, parent);
    }
  }

  /** A key that can be used for nothing is included in every key ... */
  lemma UselessKeyIsIncluded(child: Option<Restrictions>, parent: Option<Restrictions>)
    ensures !PermitsSomething(child) <==> forall p: Option<Restrictions> :: Included(child, p)
  {
    var nothing := Some(Restrictions([], None));
    if PermitsSomething(child) {
      var c := if child.None? then "" else child.value.capabilities[0];
      var res := SomethingPermitted(child, c);
      assert Permit(child, c, res) && !Permit(nothing, c, res);
      assert !Included(child, nothing);
    }
  }

  /** ... but the check may refuse it all the same: it compares the lists, not what they permit. */
  lemma UselessKeyMayBeRefused()
    ensures var child := Some(Restrictions([], None));
            var parent := Some(Restrictions(["files.read"], Some([Rule(Some("file"), None, map[])])));
            NormalRules(parent) && Included(child, parent) && !Within(child, parent)
  {}

  const NOTHING := Restrictions([], Some([]))

  /**
   The keys on which it decides inclusion under every stored parent are those
   that can be used for something, and the one whose two lists are empty.
  */
  lemma WithinIsExactlyInclusion(child: Option<Restrictions>)
    ensures (forall parent :: NormalRules(parent) ==> (Within(child, parent) <==> Included(child, parent)))
        <==> PermitsSomething(child) || child == Some(NOTHING)
  {
    if PermitsSomething(child) {
      forall parent | NormalRules(parent) ensures Within(child, parent) <==> Included(child, parent) {
        WithinDecidesInclusion(child, parent);
      }
    } else if child != Some(NOTHING) {
      var parent := RefusingParent(child);
      assert Included(child, parent) && !Within(child, parent);
    }
  }

  /** A stored key that refuses a useless child with a non-empty list. */
  lemma RefusingParent(child: Option<Restrictions>) returns (parent: Option<Restrictions>)
    requires !PermitsSomething(child) && child != Some(NOTHING)
    ensures NormalRules(parent) && Included(child, parent) && !Within(child, parent)
  {
    UselessKeyIsIncluded(child, None);
    if child.value.capabilities == [] {
      // It lists no capability, but it lists rules or none at all: a parent without resources refuses it.
      parent := Some(NOTHING);
      if child.value.resources.Some? {
        assert child.value.resources.value[0] in child.value.resources.value;
      }
    } else {
      parent := Some(Restrictions([], None));
      assert child.value.capabilities[0] in child.value.capabilities;
    }
  }

  /** Without normalization a parent rule that sets nothing makes the check refuse an included key. */
  lemma EmptyRuleBreaksCompleteness()
    ensures var child := Some(Restrictions(["files.read"], None));
            var parent := Some(Restrictions(["files.read"], Some([Rule(None, None, map[])])));
            PermitsSomething(child) && Included(child, parent) && !Within(child, parent)
  {
    var child := Some(Restrictions(["files.read"], None));
    var empty := Rule(None, None, map[]);
    var parent := Some(Restrictions(["files.read"], Some([empty])));
    forall c: string, res: Resource | Permit(child, c, res) ensures Permit(parent, c, res) {
      assert empty in parent.value.resources.value && RuleMatches(empty, res);
    }
  }
}

/**
 Validation of caller-supplied restrictions: which JSON values are accepted, and
 the canonical form they are stored in.
*/
module RestrictionInput {
  import opened Common
  import opened Ordering
  import opened Restrictions

  /** The names the service manifest declares. */
  datatype Manifest = Manifest(capabilities: set<string>, resourceTypes: set<string>)

  const MAX_CAPABILITIES := 64
  const MAX_RESOURCE_RULES := 64
  const MAX_ATTRIBUTES := 16
  const MAX_TEXT := 256

  // ---------------------------------------------------------------------------
  // Text
  // ---------------------------------------------------------------------------

  /** The characters `String.prototype.trim` removes. */
  predicate IsSpace(c: char) {
    var n := c as int;
    9 <= n <= 13 || n == 32 || n == 0xA0 || n == 0x1680 || 0x2000 <= n <= 0x200A ||
    n == 0x2028 || n == 0x2029 || n == 0x202F || n == 0x205F || n == 0x3000 || n == 0xFEFF
  }

  /** `length` counts UTF-16 units: a character beyond the first plane counts twice. */
  function Utf16Length(s: string): nat {
    if s == "" then 0 else (if s[0] as int >= 0x1_0000 then 2 else 1) + Utf16Length(s[1..])
  }

  predicate ValidText(s: string) {
    (exists c :: c in s && !IsSpace(c)) && Utf16Length(s) <= MAX_TEXT
  }

  predicate IsValidText(v: Json) {
    v.Text? && ValidText(v.s)
  }

  // ---------------------------------------------------------------------------
  // Specification
  // ---------------------------------------------------------------------------

  predicate ValidAttributes(v: Json) {
    v.Object? && |v.fields| <= MAX_ATTRIBUTES && forall k :: k in v.fields ==> ValidText(k) && IsValidText(v.fields[k])
  }

  function NormalizeRule(m: Manifest, v: Json): Result<Rule> {
    if !v.Object? || !(v.fields.Keys <= {"type", "id", "attributes"}) then Invalid
    else if "type" in v.fields && !(v.fields["type"].Text? && v.fields["type"].s in m.resourceTypes) then Invalid
    else if "id" in v.fields && !IsValidText(v.fields["id"]) then Invalid
    else if "attributes" in v.fields && !ValidAttributes(v.fields["attributes"]) then Invalid
    else
      var rule := Rule(
        if "type" in v.fields then Some(v.fields["type"].s) else None,
        if "id" in v.fields then Some(v.fields["id"].s) else None,
        if "attributes" in v.fields then TextFields(v.fields["attributes"].fields) else map[]);
      if SetsSomething(rule) then Ok(rule) else Invalid
  }

  function TextFields(fields: map<string, Json>): map<string, string>
    requires forall k :: k in fields ==> fields[k].Text?
  {
    map k | k in fields :: fields[k].s
  }

  function NormalizeRules(m: Manifest, items: seq<Json>): Result<seq<Rule>> {
    if items == [] then Ok([])
    else
      var first, rest := NormalizeRule(m, items[0]), NormalizeRules(m, items[1..]);
      if first.Ok? && rest.Ok? then Ok([first.value] + rest.value) else Invalid
  }

  predicate IsCapabilityName(m: Manifest, v: Json) {
    v.Text? && v.s in m.capabilities
  }

  function Texts(items: seq<Json>): (r: seq<string>)
    requires forall v :: v in items ==> v.Text?
    ensures |r| == |items| && forall i :: 0 <= i < |r| ==> items[i] == Text(r[i])
  {
    if items == [] then [] else [items[0].s] + Texts(items[1..])
  }

  /** `new Set(names)`: the first occurrence of each name. */
  function Dedup(names: seq<string>): (r: seq<string>)
    ensures Distinct(r) && |r| <= |names|
    ensures forall n :: n in r <==> n in names
  {
    if names == [] then []
    else
      var rest := Dedup(names[..|names| - 1]);
      var last := names[|names| - 1];
      assert names == names[..|names| - 1] + [last];
      if last in rest then rest else rest + [last]
  }

  function Canonical(names: seq<string>): seq<string> {
    SortBy(Dedup(names), StringLe)
  }

  function NormalizeRestrictions(m: Manifest, v: Json): Result<Restrictions> {
    if !v.Object? || !(v.fields.Keys <= {"capabilities", "resources"}) then Invalid
    else if "capabilities" !in v.fields || !v.fields["capabilities"].Array? then Invalid
    else
      var names := v.fields["capabilities"].items;
      if |names| > MAX_CAPABILITIES || !(forall n :: n in names ==> IsCapabilityName(m, n)) then Invalid
      else if "resources" !in v.fields then Ok(Restrictions(Canonical(Texts(names)), None))
      else if !v.fields["resources"].Array? || |v.fields["resources"].items| > MAX_RESOURCE_RULES then Invalid
      else
        var rules := NormalizeRules(m, v.fields["resources"].items);
        if rules.Invalid? then Invalid else Ok(Restrictions(Canonical(Texts(names)), Some(rules.value)))
  }

  // ---------------------------------------------------------------------------
  // The stored form
  // ---------------------------------------------------------------------------

  predicate WellFormedRule(m: Manifest, r: Rule) {
    && SetsSomething(r)
    && (r.typ.Some? ==> r.typ.value in m.resourceTypes)
    && (r.id.Some? ==> ValidText(r.id.value))
    && |r.attributes| <= MAX_ATTRIBUTES
    && (forall k :: k in r.attributes ==> ValidText(k) && ValidText(r.attributes[k]))
  }

  ghost predicate WellFormed(m: Manifest, r: Restrictions) {
    && |r.capabilities| <= MAX_CAPABILITIES
    && Sorted(r.capabilities, StringLe) && Distinct(r.capabilities)
    && (forall c :: c in r.capabilities ==> c in m.capabilities)
    && (r.resources.Some? ==>
          && |r.resources.value| <= MAX_RESOURCE_RULES
          && forall rule :: rule in r.resources.value ==> WellFormedRule(m, rule))
  }

  function RuleJson(r: Rule): Json {
    Object(
      (if r.typ.Some? then map["type" := Text(r.typ.value)] else map[]) +
      (if r.id.Some? then map["id" := Text(r.id.value)] else map[]) +
      (if r.attributes != map[] then map["attributes" := AttributesJson(r.attributes)] else map[]))
  }

  function NamesJson(names: seq<string>): (r: seq<Json>)
    ensures |r| == |names| && forall i :: 0 <= i < |r| ==> r[i] == Text(names[i])
  {
    if names == [] then [] else [Text(names[0])] + NamesJson(names[1..])
  }

  function RulesJson(rules: seq<Rule>): (r: seq<Json>)
    ensures |r| == |rules|
  {
    if rules == [] then [] else [RuleJson(rules[0])] + RulesJson(rules[1..])
  }

  function RestrictionsJson(r: Restrictions): Json {
    var capabilities := Array(NamesJson(r.capabilities));
    Object(if r.resources.Some?
           then map["capabilities" := capabilities, "resources" := Array(RulesJson(r.resources.value))]
           else map["capabilities" := capabilities])
  }

  lemma {:induction false} CanonicalSorted(names: seq<string>)
    ensures Sorted(Canonical(names), StringLe) && Distinct(Canonical(names))
    ensures forall n :: n in Canonical(names) <==> n in names
    ensures |Canonical(names)| <= |names|
  {
    StringLeIsTotalOrder();
    SortBySorted(Dedup(names), StringLe);
    DistinctMultiset(Dedup(names), Canonical(names));
    SameElements(Dedup(names), Canonical(names));
  }

  lemma {:induction false} DistinctAsMultiset(a: seq<string>, b: seq<string>)
    requires Distinct(a) && Distinct(b) && forall x :: x in a <==> x in b
    ensures multiset(a) == multiset(b)
  {
    forall x ensures multiset(a)[x] == multiset(b)[x] {
      DistinctCounts(a, x);
      DistinctCounts(b, x);
      assert x in a <==> x in multiset(a);
      assert x in b <==> x in multiset(b);
    }
  }

  /** The stored list depends on which names were given, not on their order or repetition. */
  lemma CanonicalIgnoresOrder(a: seq<string>, b: seq<string>)
    requires forall n :: n in a <==> n in b
    ensures Canonical(a) == Canonical(b)
  {
    StringLeIsTotalOrder();
    DistinctAsMultiset(Dedup(a), Dedup(b));
    SortByCanonical(Dedup(a), Dedup(b), StringLe);
  }

  lemma NormalizeRuleWellFormed(m: Manifest, v: Json)
    requires NormalizeRule(m, v).Ok?
    ensures WellFormedRule(m, NormalizeRule(m, v).value)
  {
    if "attributes" in v.fields {
      var fields := v.fields["attributes"].fields;
      assert TextFields(fields).Keys == fields.Keys;
      assert |TextFields(fields)| == |TextFields(fields).Keys| == |fields.Keys| == |fields|;
    }
  }

  lemma {:induction false} NormalizeRulesWellFormed(m: Manifest, items: seq<Json>)
    requires NormalizeRules(m, items).Ok?
    ensures |NormalizeRules(m, items).value| == |items|
    ensures forall rule :: rule in NormalizeRules(m, items).value ==> WellFormedRule(m, rule)
  {
    if items != [] {
      NormalizeRuleWellFormed(m, items[0]);
      NormalizeRulesWellFormed(m, items[1..]);
    }
  }

  /** Whatever is accepted is stored well-formed: declared names only, sorted, each once, and no rule that matches everything. */
  lemma NormalizeIsWellFormed(m: Manifest, v: Json)
    requires NormalizeRestrictions(m, v).Ok?
    ensures WellFormed(m, NormalizeRestrictions(m, v).value)
    ensures NormalRules(Some(NormalizeRestrictions(m, v).value))
  {
    var names := v.fields["capabilities"].items;
    CanonicalSorted(Texts(names));
    forall c | c in Texts(names) ensures c in m.capabilities {
      var i :| 0 <= i < |names| && Texts(names)[i] == c;
      assert IsCapabilityName(m, names[i]);
    }
    if "resources" in v.fields {
      NormalizeRulesWellFormed(m, v.fields["resources"].items);
    }
  }

  lemma RuleRoundTrip(m: Manifest, r: Rule)
    requires WellFormedRule(m, r)
    ensures NormalizeRule(m, RuleJson(r)) == Ok(r)
  {
    hide ValidText, ValidAttributes, TextFields, RuleJson;
    RuleFields(r);
    AttributesRoundTrip(r.attributes);
  }

  function AttributesJson(attributes: map<string, string>): Json {
    Object(map k | k in attributes :: Text(attributes[k]))
  }

  /** Only what a rule sets is written. */
  lemma RuleFields(r: Rule)
    ensures RuleJson(r).Object?
    ensures var fields := RuleJson(r).fields;
            && fields.Keys <= {"type", "id", "attributes"}
            && (if r.typ.Some? then "type" in fields && fields["type"] == Text(r.typ.value) else "type" !in fields)
            && (if r.id.Some? then "id" in fields && fields["id"] == Text(r.id.value) else "id" !in fields)
            && (if r.attributes != map[] then "attributes" in fields && fields["attributes"] == AttributesJson(r.attributes) else "attributes" !in fields)
  {}

  lemma AttributesRoundTrip(attributes: map<string, string>)
    ensures var v := AttributesJson(attributes);
            && (|attributes| <= MAX_ATTRIBUTES && (forall k :: k in attributes ==> ValidText(k) && ValidText(attributes[k])) ==> ValidAttributes(v))
            && TextFields(v.fields) == attributes
  {
    hide ValidText;
    var fields := AttributesJson(attributes).fields;
    assert fields.Keys == attributes.Keys;
    assert |fields| == |fields.Keys| == |attributes.Keys| == |attributes|;
  }

  lemma {:induction false} RulesRoundTrip(m: Manifest, rules: seq<Rule>)
    requires forall rule :: rule in rules ==> WellFormedRule(m, rule)
    ensures NormalizeRules(m, RulesJson(rules)) == Ok(rules)
  {
    if rules != [] {
      RuleRoundTrip(m, rules[0]);
      RulesRoundTrip(m, rules[1..]);
      assert RulesJson(rules)[1..] == RulesJson(rules[1..]);
      assert [rules[0]] + rules[1..] == rules;
    }
  }

  lemma CanonicalFixed(names: seq<string>)
    requires Sorted(names, StringLe) && Distinct(names)
    ensures Canonical(names) == names
  {
    StringLeIsTotalOrder();
    CanonicalSorted(names);
    DistinctAsMultiset(Canonical(names), names);
    SortedUnique(Canonical(names), names, StringLe);
  }

  lemma NamesRoundTrip(m: Manifest, names: seq<string>)
    requires forall c :: c in names ==> c in m.capabilities
    ensures forall v :: v in NamesJson(names) ==> IsCapabilityName(m, v)
    ensures Texts(NamesJson(names)) == names
  {}

  /** A well-formed ceiling, written as JSON and validated again, comes back unchanged: the accepted forms are exactly the well-formed ones. */
  lemma NormalizeRoundTrip(m: Manifest, r: Restrictions)
    requires WellFormed(m, r)
    ensures NormalizeRestrictions(m, RestrictionsJson(r)) == Ok(r)
  {
    hide IsCapabilityName, WellFormedRule, NormalizeRules, Canonical, Texts, NamesJson, RulesJson, Sorted;
    NamesRoundTrip(m, r.capabilities);
    NamesLength(r.capabilities);
    CanonicalFixed(r.capabilities);
    if r.resources.Some? {
      RulesRoundTrip(m, r.resources.value);
    }
  }

  lemma NamesLength(names: seq<string>)
    ensures |NamesJson(names)| == |names|
  {}

  // ---------------------------------------------------------------------------
  // What is accepted
  // ---------------------------------------------------------------------------

  /** A text that is not blank, of at most 256 UTF-16 units. */
  predicate IsText(v: Json, s: string) {
    v == Text(s) && (exists c :: c in s && !IsSpace(c)) && Utf16Length(s) <= 256
  }

  /** The object has no fields but these. */
  predicate HasOnly(v: Json, names: set<string>) {
    v.Object? && forall k :: k in v.fields ==> k in names
  }

  predicate IsAttributesOf(v: Json, attributes: map<string, string>) {
    && v.Object? && |v.fields| <= 16 && v.fields.Keys == attributes.Keys
    && forall k :: k in attributes ==> IsText(Text(k), k) && IsText(v.fields[k], attributes[k])
  }

  /** Each field is set exactly when it is given, and at least one is. */
  predicate IsRuleOf(m: Manifest, v: Json, r: Rule) {
    && HasOnly(v, {"type", "id", "attributes"})
    && (if "type" in v.fields then r.typ.Some? && v.fields["type"] == Text(r.typ.value) && r.typ.value in m.resourceTypes else r.typ.None?)
    && (if "id" in v.fields then r.id.Some? && IsText(v.fields["id"], r.id.value) else r.id.None?)
    && (if "attributes" in v.fields then IsAttributesOf(v.fields["attributes"], r.attributes) else r.attributes == map[])
    && (r.typ.Some? || r.id.Some? || r.attributes != map[])
  }

  predicate IsRulesOf(m: Manifest, items: seq<Json>, rules: seq<Rule>) {
    |items| == |rules| && forall i :: 0 <= i < |items| ==> IsRuleOf(m, items[i], rules[i])
  }

  /** At most 64 declared names, stored in order, each once; at most 64 rules, or none given. */
  ghost predicate IsRestrictionsOf(m: Manifest, v: Json, r: Restrictions) {
    && HasOnly(v, {"capabilities", "resources"})
    && "capabilities" in v.fields && v.fields["capabilities"].Array? && |v.fields["capabilities"].items| <= 64
    && (forall n :: n in v.fields["capabilities"].items ==> n.Text? && n.s in m.capabilities)
    && (forall c :: c in r.capabilities <==> Text(c) in v.fields["capabilities"].items)
    && (forall i, j :: 0 <= i < j < |r.capabilities| ==> StringLe(r.capabilities[i], r.capabilities[j]) && r.capabilities[i] != r.capabilities[j])
    && if "resources" in v.fields
       then r.resources.Some? && v.fields["resources"].Array? && |v.fields["resources"].items| <= 64 && IsRulesOf(m, v.fields["resources"].items, r.resources.value)
       else r.resources.None?
  }

  lemma AttributesExactly(v: Json, attributes: map<string, string>)
    ensures IsAttributesOf(v, attributes) <==> ValidAttributes(v) && TextFields(v.fields) == attributes
  {
    hide IsSpace, Utf16Length;
  }

  lemma RuleExactly(m: Manifest, v: Json, r: Rule)
    ensures NormalizeRule(m, v) == Ok(r) <==> IsRuleOf(m, v, r)
  {
    hide IsAttributesOf, ValidAttributes, TextFields, IsSpace, Utf16Length;
    if v.Object? && "attributes" in v.fields {
      AttributesExactly(v.fields["attributes"], r.attributes);
    }
  }

  lemma {:induction false} RulesExactly(m: Manifest, items: seq<Json>, rules: seq<Rule>)
    ensures NormalizeRules(m, items) == Ok(rules) <==> IsRulesOf(m, items, rules)
    decreases |items|
  {
    hide NormalizeRule, IsRuleOf;
    if items != [] && rules != [] {
      RuleExactly(m, items[0], rules[0]);
      RulesExactly(m, items[1..], rules[1..]);
      assert rules == [rules[0]] + rules[1..];
      FirstAndRest(m, items, rules);
    } else if items != [] {
      NoRulesForSome(m, items);
    }
  }

  lemma NoRulesForSome(m: Manifest, items: seq<Json>)
    requires items != []
    ensures NormalizeRules(m, items) != Ok([])
  {}

  lemma FirstAndRest(m: Manifest, items: seq<Json>, rules: seq<Rule>)
    requires items != [] && rules != []
    ensures IsRulesOf(m, items, rules) <==> IsRuleOf(m, items[0], rules[0]) && IsRulesOf(m, items[1..], rules[1..])
  {
    hide IsRuleOf;
    if IsRuleOf(m, items[0], rules[0]) && IsRulesOf(m, items[1..], rules[1..]) {
      forall i | 0 <= i < |items| ensures IsRuleOf(m, items[i], rules[i]) {
        if i > 0 {
          assert items[i] == items[1..][i - 1] && rules[i] == rules[1..][i - 1];
        }
      }
    } else if IsRulesOf(m, items, rules) {
      forall i | 0 <= i < |items[1..]| ensures IsRuleOf(m, items[1..][i], rules[1..][i]) {
        assert items[1..][i] == items[i + 1] && rules[1..][i] == rules[i + 1];
      }
    }
  }

  lemma NamesExactly(m: Manifest, items: seq<Json>, names: seq<string>)
    requires forall v :: v in items ==> v.Text? && v.s in m.capabilities
    ensures names == Canonical(Texts(items)) <==>
              && (forall c :: c in names <==> Text(c) in items)
              && (forall i, j :: 0 <= i < j < |names| ==> StringLe(names[i], names[j]) && names[i] != names[j])
  {
    hide StringLe, Canonical;
    CanonicalSorted(Texts(items));
    assert forall c :: c in Texts(items) <==> Text(c) in items;
    if Sorted(names, StringLe) && Distinct(names) && forall c :: c in names <==> c in Texts(items) {
      CanonicalFixed(names);
      CanonicalIgnoresOrder(names, Texts(items));
    }
  }

  /** A value is accepted exactly when it is a ceiling, and stored as exactly what it says. */
  lemma NormalizeExactly(m: Manifest, v: Json, r: Restrictions)
    ensures NormalizeRestrictions(m, v) == Ok(r) <==> IsRestrictionsOf(m, v, r)
  {
    hide NormalizeRules, IsRulesOf, Canonical, StringLe, Texts;
    if v.Object? && "capabilities" in v.fields && v.fields["capabilities"].Array? {
      if forall n :: n in v.fields["capabilities"].items ==> IsCapabilityName(m, n) {
        NamesExactly(m, v.fields["capabilities"].items, r.capabilities);
      }
      if "resources" in v.fields && v.fields["resources"].Array? && r.resources.Some? {
        RulesExactly(m, v.fields["resources"].items, r.resources.value);
      }
    }
  }

  // ---------------------------------------------------------------------------
  // The loops
  // ---------------------------------------------------------------------------

  /** The attributes of a rule, one by one. */
  method CheckAttributes(given: Json) returns (r: Result<map<string, string>>)
    ensures r == if ValidAttributes(given) then Ok(TextFields(given.fields)) else Invalid
  {
    hide ValidText;
    if !given.Object? || |given.fields| > MAX_ATTRIBUTES {
      return Invalid;
    }
    var attributes: map<string, string> := map[];
    var todo := given.fields.Keys;
    while todo != {}
      invariant todo <= given.fields.Keys
      invariant attributes.Keys == given.fields.Keys - todo
      invariant forall k :: k in attributes ==> ValidText(k) && IsValidText(given.fields[k]) && attributes[k] == given.fields[k].s
      decreases todo
    {
      var key :| key in todo;
      if !ValidText(key) || !IsValidText(given.fields[key]) {
        return Invalid;
      }
      attributes := attributes[key := given.fields[key].s];
      todo := todo - {key};
    }
    assert attributes == TextFields(given.fields);
    r := Ok(attributes);
  }

  /** `normalizeRule`: checks key by key and fills the rule as it goes. */
  method CheckRule(m: Manifest, v: Json) returns (r: Result<Rule>)
    ensures r == NormalizeRule(m, v)
  {
    hide ValidAttributes, ValidText;
    if !v.Object? {
      return Invalid;
    }
    var keys := v.fields.Keys;
    while keys != {}
      invariant keys <= v.fields.Keys
      invariant v.fields.Keys - keys <= {"type", "id", "attributes"}
      decreases keys
    {
      var key :| key in keys;
      if key != "type" && key != "id" && key != "attributes" {
        return Invalid;
      }
      keys := keys - {key};
    }
    var rule := Rule(None, None, map[]);
    if "type" in v.fields {
      if !v.fields["type"].Text? || v.fields["type"].s !in m.resourceTypes {
        return Invalid;
      }
      rule := rule.(typ := Some(v.fields["type"].s));
    }
    if "id" in v.fields {
      if !IsValidText(v.fields["id"]) {
        return Invalid;
      }
      rule := rule.(id := Some(v.fields["id"].s));
    }
    if "attributes" in v.fields {
      var attributes := CheckAttributes(v.fields["attributes"]);
      if attributes.Invalid? {
        return Invalid;
      }
      rule := rule.(attributes := attributes.value);
    }
    r := if SetsSomething(rule) then Ok(rule) else Invalid;
  }

  /** `resources.map(normalizeRule)`. */
  method CheckRules(m: Manifest, items: seq<Json>) returns (r: Result<seq<Rule>>)
    ensures r == NormalizeRules(m, items)
  {
    var rules: seq<Rule> := [];
    for i := 0 to |items|
      invariant NormalizeRules(m, items[..i]) == Ok(rules)
    {
      var rule := CheckRule(m, items[i]);
      assert items[..i + 1] == items[..i] + [items[i]];
      NormalizeRulesAppend(m, items[..i], items[i]);
      if rule.Invalid? {
        assert items == items[..i + 1] + items[i + 1..];
        InvalidRuleRefusesAll(m, items[..i + 1], items[i + 1..]);
        return Invalid;
      }
      rules := rules + [rule.value];
    }
    assert items == items[..|items|];
    return Ok(rules);
  }

  lemma {:induction false} NormalizeRulesAppend(m: Manifest, items: seq<Json>, last: Json)
    ensures NormalizeRules(m, items + [last]) ==
              (var a, b := NormalizeRules(m, items), NormalizeRule(m, last);
               if a.Ok? && b.Ok? then Ok(a.value + [b.value]) else Invalid)
  {
    if items == [] {
      var only, b := [last], NormalizeRule(m, last);
      assert items + only == only && only[1..] == items;
      assert NormalizeRules(m, only[1..]) == Ok([]);
      if b.Ok? {
        assert [b.value] + [] == [] + [b.value];
      }
    } else {
      assert (items + [last])[1..] == items[1..] + [last];
      NormalizeRulesAppend(m, items[1..], last);
      var first, rest, b := NormalizeRule(m, items[0]), NormalizeRules(m, items[1..]), NormalizeRule(m, last);
      if first.Ok? && rest.Ok? && b.Ok? {
        assert [first.value] + (rest.value + [b.value]) == ([first.value] + rest.value) + [b.value];
      }
    }
  }

  lemma {:induction false} InvalidRuleRefusesAll(m: Manifest, items: seq<Json>, rest: seq<Json>)
    requires NormalizeRules(m, items).Invalid?
    ensures NormalizeRules(m, items + rest).Invalid?
  {
    assert (items + rest)[1..] == items[1..] + rest;
    if NormalizeRule(m, items[0]).Ok? {
      InvalidRuleRefusesAll(m, items[1..], rest);
    }
  }

  method CheckRestrictions(m: Manifest, v: Json) returns (r: Result<Restrictions>)
    ensures r == NormalizeRestrictions(m, v)
  {
    if !v.Object? || !(v.fields.Keys <= {"capabilities", "resources"}) {
      return Invalid;
    }
    if "capabilities" !in v.fields || !v.fields["capabilities"].Array? {
      return Invalid;
    }
    var names := v.fields["capabilities"].items;
    if |names| > MAX_CAPABILITIES {
      return Invalid;
    }
    for i := 0 to |names|
      invariant forall n :: n in names[..i] ==> IsCapabilityName(m, n)
    {
      if !IsCapabilityName(m, names[i]) {
        return Invalid;
      }
    }
    assert names == names[..|names|];
    var capabilities := Canonical(Texts(names));
    if "resources" !in v.fields {
      return Ok(Restrictions(capabilities, None));
    }
    if !v.fields["resources"].Array? || |v.fields["resources"].items| > MAX_RESOURCE_RULES {
      return Invalid;
    }
    var rules := CheckRules(m, v.fields["resources"].items);
    if rules.Invalid? {
      return Invalid;
    }
    return Ok(Restrictions(capabilities, Some(rules.value)));
  }
}

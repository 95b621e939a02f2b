/** The configuration export document: what it holds, how it is written, and what of it is read back. */
module ExportDocument {
  import opened Common

  const FORMAT := "appport.configuration-export"
  const FORMAT_VERSION := 1
  const ENVIRONMENTS: set<string> := {"development", "staging", "production"}

  type Payload = map<string, Json>

  datatype Header = Header(exportedAt: string, application: string, environment: string, servicesVersion: string)

  datatype Variable = Variable(name: string, value: string, required: bool)

  datatype Secret = Secret(name: string, required: bool, credentialRef: string)

  datatype Endpoint = Endpoint(url: string, events: seq<string>, signingRef: Option<string>)

  datatype Schedule = Schedule(typ: string, interval: string, payload: Payload)

  datatype Document = Document(header: Header, variables: seq<Variable>, secrets: seq<Secret>, endpoints: seq<Endpoint>, schedules: seq<Schedule>)

  // ---------------------------------------------------------------------------
  // Credential references
  // ---------------------------------------------------------------------------

  predicate IsAlphanumeric(c: char) {
    'A' <= c <= 'Z' || 'a' <= c <= 'z' || '0' <= c <= '9'
  }

  /** A reference into custody: the prefix and an identifier of at most 200 characters. */
  predicate IsCredentialRef(s: string) {
    && "credential-ref:" <= s
    && var id := s[15..];
       && 1 <= |id| <= 200 && IsAlphanumeric(id[0])
       && forall c :: c in id ==> IsAlphanumeric(c) || c == '.' || c == '_' || c == ':' || c == '-'
  }

  // ---------------------------------------------------------------------------
  // Writing
  // ---------------------------------------------------------------------------

  function All<T>(items: seq<T>, write: T -> Json): (r: seq<Json>)
    ensures |r| == |items| && forall i :: 0 <= i < |items| ==> r[i] == write(items[i])
  {
    if items == [] then [] else [write(items[0])] + All(items[1..], write)
  }

  function WriteVariable(v: Variable): Json {
    Object(map["name" := Text(v.name), "value" := Text(v.value), "required" := Bool(v.required)])
  }

  function WriteSecret(s: Secret): Json {
    Object(map["name" := Text(s.name), "required" := Bool(s.required), "credentialRef" := Text(s.credentialRef)])
  }

  function WriteText(s: string): Json {
    Text(s)
  }

  /** An endpoint without a signing reference is written without that field. */
  function WriteEndpoint(e: Endpoint): Json {
    var fields := map["url" := Text(e.url), "events" := Array(All(e.events, WriteText))];
    Object(if e.signingRef.Some? then fields["signingCredentialRef" := Text(e.signingRef.value)] else fields)
  }

  function WriteSchedule(s: Schedule): Json {
    Object(map["type" := Text(s.typ), "interval" := Text(s.interval), "payload" := Object(s.payload)])
  }

  function Write(d: Document): Json {
    Object(map[
      "format" := Text(FORMAT),
      "formatVersion" := Number(FORMAT_VERSION),
      "exportedAt" := Text(d.header.exportedAt),
      "source" := Object(map["application" := Text(d.header.application), "environment" := Text(d.header.environment),
                             "servicesVersion" := Text(d.header.servicesVersion)]),
      "variables" := Array(All(d.variables, WriteVariable)),
      "secrets" := Array(All(d.secrets, WriteSecret)),
      "webhookEndpoints" := Array(All(d.endpoints, WriteEndpoint)),
      "schedules" := Array(All(d.schedules, WriteSchedule))])
  }

  // ---------------------------------------------------------------------------
  // Reading
  // ---------------------------------------------------------------------------

  function Field(fields: map<string, Json>, name: string): Option<Json> {
    if name in fields then Some(fields[name]) else None
  }

  /** A non-empty text. */
  function NonEmptyText(v: Option<Json>): Option<string> {
    if v.Some? && v.value.Text? && v.value.s != "" then Some(v.value.s) else None
  }

  function Reference(v: Option<Json>): Option<string> {
    var text := NonEmptyText(v);
    if text.Some? && IsCredentialRef(text.value) then text else None
  }

  predicate IsTrue(v: Option<Json>) {
    v == Some(Bool(true))
  }

  /** A text, or the empty text in place of anything else. */
  function AnyText(v: Option<Json>): string {
    if v.Some? && v.value.Text? then v.value.s else ""
  }

  function ReadVariable(v: Json): Option<Variable> {
    if !v.Object? then None
    else
      var name, value := NonEmptyText(Field(v.fields, "name")), NonEmptyText(Field(v.fields, "value"));
      if name.None? || value.None? then None else Some(Variable(name.value, value.value, IsTrue(Field(v.fields, "required"))))
  }

  /** A secret that carries a value in any form is refused. */
  function ReadSecret(v: Json): Option<Secret> {
    if !v.Object? || "value" in v.fields || "secret" in v.fields || "plaintext" in v.fields then None
    else
      var name, credentialRef := NonEmptyText(Field(v.fields, "name")), Reference(Field(v.fields, "credentialRef"));
      if name.None? || credentialRef.None? then None else Some(Secret(name.value, IsTrue(Field(v.fields, "required")), credentialRef.value))
  }

  function ReadEvent(v: Json): Option<string> {
    NonEmptyText(Some(v))
  }

  function ReadEndpoint(v: Json): Option<Endpoint> {
    if !v.Object? || "secret" in v.fields || "signingSecret" in v.fields then None
    else
      var events := Field(v.fields, "events");
      if events.None? || !events.value.Array? || events.value.items == [] then None
      else
        var names, url := Every(events.value.items, ReadEvent), NonEmptyText(Field(v.fields, "url"));
        if names.None? || url.None? then None
        else if "signingCredentialRef" !in v.fields then Some(Endpoint(url.value, names.value, None))
        else
          var signingRef := Reference(Field(v.fields, "signingCredentialRef"));
          if signingRef.None? then None else Some(Endpoint(url.value, names.value, signingRef))
  }

  function ReadSchedule(v: Json): Option<Schedule> {
    if !v.Object? then None
    else
      var typ, interval := NonEmptyText(Field(v.fields, "type")), NonEmptyText(Field(v.fields, "interval"));
      if typ.None? || interval.None? then None
      else if "payload" !in v.fields then Some(Schedule(typ.value, interval.value, map[]))
      else if !v.fields["payload"].Object? then None
      else Some(Schedule(typ.value, interval.value, v.fields["payload"].fields))
  }

  /** Every element read, or none. */
  function Every<T>(items: seq<Json>, read: Json -> Option<T>): Option<seq<T>> {
    if items == [] then Some([])
    else
      var first, rest := read(items[0]), Every(items[1..], read);
      if first.None? || rest.None? then None else Some([first.value] + rest.value)
  }

  /** An absent list is an empty one. */
  function List(fields: map<string, Json>, name: string): Option<seq<Json>> {
    if name !in fields || fields[name].Null? then Some([])
    else if fields[name].Array? then Some(fields[name].items)
    else None
  }

  function ReadList<T>(fields: map<string, Json>, name: string, read: Json -> Option<T>): Option<seq<T>> {
    var items := List(fields, name);
    if items.None? then None else Every(items.value, read)
  }

  /** `parseExportDocument`. */
  function Parse(v: Json): Result<Document> {
    if !v.Object? then Invalid
    else if Field(v.fields, "format") != Some(Text(FORMAT)) || Field(v.fields, "formatVersion") != Some(Number(FORMAT_VERSION)) then Invalid
    else if "source" !in v.fields || !v.fields["source"].Object? then Invalid
    else
      var source := v.fields["source"].fields;
      var environment := Field(source, "environment");
      if environment.None? || !environment.value.Text? || environment.value.s !in ENVIRONMENTS then Invalid
      else
        var variables, secrets := ReadList(v.fields, "variables", ReadVariable), ReadList(v.fields, "secrets", ReadSecret);
        var endpoints, schedules := ReadList(v.fields, "webhookEndpoints", ReadEndpoint), ReadList(v.fields, "schedules", ReadSchedule);
        if variables.None? || secrets.None? || endpoints.None? || schedules.None? then Invalid
        else
          Ok(Document(Header(AnyText(Field(v.fields, "exportedAt")), AnyText(Field(source, "application")), environment.value.s, AnyText(Field(source, "servicesVersion"))),
                      variables.value, secrets.value, endpoints.value, schedules.value))
  }

  // ---------------------------------------------------------------------------
  // Round trip
  // ---------------------------------------------------------------------------

  predicate VariableOk(v: Variable) { v.name != "" && v.value != "" }

  predicate SecretOk(s: Secret) { s.name != "" && IsCredentialRef(s.credentialRef) }

  predicate EndpointOk(e: Endpoint) {
    e.url != "" && e.events != [] && (forall x :: x in e.events ==> x != "") && (e.signingRef.Some? ==> IsCredentialRef(e.signingRef.value))
  }

  predicate ScheduleOk(s: Schedule) { s.typ != "" && s.interval != "" }

  /** What a document must be for the reader to take it: every endpoint has an event, and names and references are there. */
  predicate Importable(d: Document) {
    && d.header.environment in ENVIRONMENTS
    && (forall v :: v in d.variables ==> VariableOk(v)) && (forall s :: s in d.secrets ==> SecretOk(s))
    && (forall e :: e in d.endpoints ==> EndpointOk(e)) && (forall s :: s in d.schedules ==> ScheduleOk(s))
  }

  /** Reading back what was written, element by element, succeeds exactly when each element is fit. */
  lemma {:induction false} EveryRoundTrip<T(!new)>(items: seq<T>, write: T -> Json, read: Json -> Option<T>, fit: T -> bool)
    requires forall x :: x in items ==> read(write(x)) == if fit(x) then Some(x) else None
    ensures Every(All(items, write), read) == if forall x :: x in items ==> fit(x) then Some(items) else None
  {
    if items != [] {
      EveryRoundTrip(items[1..], write, read, fit);
      assert All(items, write)[0] == write(items[0]) && All(items, write)[1..] == All(items[1..], write);
      assert items == [items[0]] + items[1..];
      var rest := Every(All(items[1..], write), read);
      if fit(items[0]) && rest.Some? {
        assert forall x :: x in items ==> fit(x);
      } else {
        assert exists x :: x in items && !fit(x);
      }
    }
  }

  lemma EndpointRoundTrip(e: Endpoint)
    ensures ReadEndpoint(WriteEndpoint(e)) == if EndpointOk(e) then Some(e) else None
  {
    hide IsCredentialRef, Every, All;
    if e.signingRef.Some? {
      NonEmptyPrefix(e.signingRef.value);
    }
    EveryRoundTrip(e.events, WriteText, ReadEvent, x => x != "");
    assert All(e.events, WriteText) == [] <==> e.events == [];
  }

  /** Parsing an exported document gives it back exactly when it is importable; otherwise it is refused. */
  lemma ParseRoundTrip(d: Document)
    ensures Parse(Write(d)) == if Importable(d) then Ok(d) else Invalid
  {
    hide Write, ReadVariable, ReadSecret, ReadEndpoint, ReadSchedule, WriteVariable, WriteSecret, WriteEndpoint, WriteSchedule,
         VariableOk, SecretOk, EndpointOk, ScheduleOk, ReadList;
    WrittenFields(d);
    var fields := Write(d).fields;
    ListsRoundTrip(d, fields);
  }

  /** The header comes back field by field. */
  lemma WrittenFields(d: Document)
    ensures Write(d).Object?
    ensures var fields := Write(d).fields;
            && Field(fields, "format") == Some(Text(FORMAT)) && Field(fields, "formatVersion") == Some(Number(FORMAT_VERSION))
            && Field(fields, "exportedAt") == Some(Text(d.header.exportedAt))
            && "source" in fields && fields["source"].Object?
            && Field(fields["source"].fields, "application") == Some(Text(d.header.application))
            && Field(fields["source"].fields, "environment") == Some(Text(d.header.environment))
            && Field(fields["source"].fields, "servicesVersion") == Some(Text(d.header.servicesVersion))
            && Field(fields, "variables") == Some(Array(All(d.variables, WriteVariable)))
            && Field(fields, "secrets") == Some(Array(All(d.secrets, WriteSecret)))
            && Field(fields, "webhookEndpoints") == Some(Array(All(d.endpoints, WriteEndpoint)))
            && Field(fields, "schedules") == Some(Array(All(d.schedules, WriteSchedule)))
  {
    hide WriteVariable, WriteSecret, WriteEndpoint, WriteSchedule;
  }

  lemma ListsRoundTrip(d: Document, fields: map<string, Json>)
    requires Field(fields, "variables") == Some(Array(All(d.variables, WriteVariable)))
    requires Field(fields, "secrets") == Some(Array(All(d.secrets, WriteSecret)))
    requires Field(fields, "webhookEndpoints") == Some(Array(All(d.endpoints, WriteEndpoint)))
    requires Field(fields, "schedules") == Some(Array(All(d.schedules, WriteSchedule)))
    ensures ReadList(fields, "variables", ReadVariable) == if forall v :: v in d.variables ==> VariableOk(v) then Some(d.variables) else None
    ensures ReadList(fields, "secrets", ReadSecret) == if forall s :: s in d.secrets ==> SecretOk(s) then Some(d.secrets) else None
    ensures ReadList(fields, "webhookEndpoints", ReadEndpoint) == if forall e :: e in d.endpoints ==> EndpointOk(e) then Some(d.endpoints) else None
    ensures ReadList(fields, "schedules", ReadSchedule) == if forall s :: s in d.schedules ==> ScheduleOk(s) then Some(d.schedules) else None
  {
    hide ReadVariable, ReadSecret, ReadEndpoint, ReadSchedule, WriteVariable, WriteSecret, WriteEndpoint, WriteSchedule,
         VariableOk, SecretOk, EndpointOk, ScheduleOk, All, Every;
    VariablesRoundTrip(d.variables);
    SecretsRoundTrip(d.secrets);
    EndpointsRoundTrip(d.endpoints);
    SchedulesRoundTrip(d.schedules);
  }

  lemma VariablesRoundTrip(items: seq<Variable>)
    ensures Every(All(items, WriteVariable), ReadVariable) == if forall x :: x in items ==> VariableOk(x) then Some(items) else None
  {
    EveryRoundTrip(items, WriteVariable, ReadVariable, VariableOk);
  }

  lemma SecretsRoundTrip(items: seq<Secret>)
    ensures Every(All(items, WriteSecret), ReadSecret) == if forall x :: x in items ==> SecretOk(x) then Some(items) else None
  {
    hide ReadSecret, WriteSecret, SecretOk;
    forall s | s in items ensures ReadSecret(WriteSecret(s)) == if SecretOk(s) then Some(s) else None {
      SecretRoundTrip(s);
    }
    EveryRoundTrip(items, WriteSecret, ReadSecret, SecretOk);
  }

  lemma SecretRoundTrip(s: Secret)
    ensures ReadSecret(WriteSecret(s)) == if SecretOk(s) then Some(s) else None
  {
    hide IsCredentialRef;
    NonEmptyPrefix(s.credentialRef);
  }

  lemma NonEmptyPrefix(s: string)
    ensures IsCredentialRef(s) ==> s != ""
  {}

  lemma EndpointsRoundTrip(items: seq<Endpoint>)
    ensures Every(All(items, WriteEndpoint), ReadEndpoint) == if forall x :: x in items ==> EndpointOk(x) then Some(items) else None
  {
    hide ReadEndpoint, WriteEndpoint, EndpointOk;
    forall e | e in items ensures ReadEndpoint(WriteEndpoint(e)) == if EndpointOk(e) then Some(e) else None {
      EndpointRoundTrip(e);
    }
    EveryRoundTrip(items, WriteEndpoint, ReadEndpoint, EndpointOk);
  }

  lemma SchedulesRoundTrip(items: seq<Schedule>)
    ensures Every(All(items, WriteSchedule), ReadSchedule) == if forall x :: x in items ==> ScheduleOk(x) then Some(items) else None
  {
    EveryRoundTrip(items, WriteSchedule, ReadSchedule, ScheduleOk);
  }

  // ---------------------------------------------------------------------------
  // What is accepted
  // ---------------------------------------------------------------------------

  predicate Says(v: Json, name: string, text: string) {
    v.Object? && name in v.fields && v.fields[name] == Text(text) && text != ""
  }

  predicate Carries(v: Json, names: set<string>) {
    v.Object? && exists name :: name in names && name in v.fields
  }

  predicate IsRequired(v: Json) {
    v.Object? && "required" in v.fields && v.fields["required"] == Bool(true)
  }

  predicate IsVariableOf(v: Json, x: Variable) {
    Says(v, "name", x.name) && Says(v, "value", x.value) && x.required == IsRequired(v)
  }

  /** Its reference, and no value in any form. */
  predicate IsSecretOf(v: Json, x: Secret) {
    && !Carries(v, {"value", "secret", "plaintext"})
    && Says(v, "name", x.name) && x.required == IsRequired(v) && Says(v, "credentialRef", x.credentialRef) && IsCredentialRef(x.credentialRef)
  }

  predicate IsEndpointOf(v: Json, x: Endpoint) {
    && !Carries(v, {"secret", "signingSecret"}) && Says(v, "url", x.url)
    && "events" in v.fields && v.fields["events"].Array? && IsEventsOf(v.fields["events"].items, x.events)
    && if "signingCredentialRef" in v.fields
       then x.signingRef.Some? && Says(v, "signingCredentialRef", x.signingRef.value) && IsCredentialRef(x.signingRef.value)
       else x.signingRef.None?
  }

  predicate IsEventsOf(items: seq<Json>, events: seq<string>) {
    |events| == |items| > 0 && forall i :: 0 <= i < |items| ==> items[i] == Text(events[i]) && events[i] != ""
  }

  /** A schedule without a payload has the empty one. */
  predicate IsScheduleOf(v: Json, x: Schedule) {
    && Says(v, "type", x.typ) && Says(v, "interval", x.interval)
    && if "payload" in v.fields then v.fields["payload"] == Object(x.payload) else x.payload == map[]
  }

  /** A list of such elements, in order; one that is absent or null is empty. */
  ghost predicate IsListOf<T>(fields: map<string, Json>, name: string, xs: seq<T>, isOf: (Json, T) -> bool) {
    if name !in fields || fields[name].Null? then xs == []
    else
      && fields[name].Array? && |fields[name].items| == |xs|
      && forall i :: 0 <= i < |xs| ==> isOf(fields[name].items[i], xs[i])
  }

  /** A text that may be missing: anything else counts as empty. */
  predicate MaySay(fields: map<string, Json>, name: string, text: string) {
    if name in fields && fields[name].Text? then fields[name].s == text else text == ""
  }

  ghost predicate IsDocumentOf(v: Json, d: Document) {
    && Says(v, "format", "appport.configuration-export")
    && "formatVersion" in v.fields && v.fields["formatVersion"] == Number(1) && MaySay(v.fields, "exportedAt", d.header.exportedAt)
    && "source" in v.fields && var source := v.fields["source"];
       && Says(source, "environment", d.header.environment) && d.header.environment in {"development", "staging", "production"}
       && MaySay(source.fields, "application", d.header.application) && MaySay(source.fields, "servicesVersion", d.header.servicesVersion)
       && IsListOf(v.fields, "variables", d.variables, IsVariableOf) && IsListOf(v.fields, "secrets", d.secrets, IsSecretOf)
       && IsListOf(v.fields, "webhookEndpoints", d.endpoints, IsEndpointOf) && IsListOf(v.fields, "schedules", d.schedules, IsScheduleOf)
  }

  lemma {:induction false} EveryExactly<T(!new)>(items: seq<Json>, read: Json -> Option<T>, isOf: (Json, T) -> bool)
    requires forall v, x :: read(v) == Some(x) <==> isOf(v, x)
    ensures forall xs :: Every(items, read) == Some(xs) <==> |xs| == |items| && forall i :: 0 <= i < |xs| ==> isOf(items[i], xs[i])
  {
    if items != [] {
      EveryExactly(items[1..], read, isOf);
      forall xs: seq<T> ensures Every(items, read) == Some(xs) <==> |xs| == |items| && forall i :: 0 <= i < |xs| ==> isOf(items[i], xs[i]) {
        if |xs| == |items| {
          assert xs == [xs[0]] + xs[1..];
          AllOrFirst(items, xs, isOf);
          assert Every(items, read) == Some(xs) <==> read(items[0]) == Some(xs[0]) && Every(items[1..], read) == Some(xs[1..]);
        } else if Every(items[1..], read).Some? {
          assert |Every(items[1..], read).value| == |items[1..]|;
        }
      }
    }
  }

  lemma AllOrFirst<T>(items: seq<Json>, xs: seq<T>, isOf: (Json, T) -> bool)
    requires |xs| == |items| > 0
    ensures (forall i :: 0 <= i < |xs| ==> isOf(items[i], xs[i])) <==> isOf(items[0], xs[0]) && forall i :: 0 <= i < |xs[1..]| ==> isOf(items[1..][i], xs[1..][i])
  {
    if isOf(items[0], xs[0]) && forall i :: 0 <= i < |xs[1..]| ==> isOf(items[1..][i], xs[1..][i]) {
      forall i | 0 <= i < |xs| ensures isOf(items[i], xs[i]) {
        if i > 0 {
          assert items[i] == items[1..][i - 1] && xs[i] == xs[1..][i - 1];
        }
      }
    }
  }

  lemma ListExactly<T(!new)>(fields: map<string, Json>, name: string, read: Json -> Option<T>, isOf: (Json, T) -> bool)
    requires forall v, x :: read(v) == Some(x) <==> isOf(v, x)
    ensures forall xs :: ReadList(fields, name, read) == Some(xs) <==> IsListOf(fields, name, xs, isOf)
  {
    if List(fields, name).Some? {
      EveryExactly(List(fields, name).value, read, isOf);
    }
  }

  lemma EndpointExactly(v: Json, x: Endpoint)
    ensures ReadEndpoint(v) == Some(x) <==> IsEndpointOf(v, x)
  {
    hide IsCredentialRef;
    if v.Object? && "events" in v.fields && v.fields["events"].Array? {
      EveryExactly(v.fields["events"].items, ReadEvent, (j: Json, e: string) => j == Text(e) && e != "");
    }
  }

  lemma ElementsExactly()
    ensures forall v, x :: ReadVariable(v) == Some(x) <==> IsVariableOf(v, x)
    ensures forall v, x :: ReadSecret(v) == Some(x) <==> IsSecretOf(v, x)
    ensures forall v, x :: ReadEndpoint(v) == Some(x) <==> IsEndpointOf(v, x)
    ensures forall v, x :: ReadSchedule(v) == Some(x) <==> IsScheduleOf(v, x)
  {
    hide IsCredentialRef, ReadEndpoint, IsEndpointOf;
    forall v, x ensures ReadEndpoint(v) == Some(x) <==> IsEndpointOf(v, x) {
      EndpointExactly(v, x);
    }
  }

  /** A document is accepted exactly when it is one, and read as exactly what it says. */
  lemma ParseExactly(v: Json, d: Document)
    ensures Parse(v) == Ok(d) <==> IsDocumentOf(v, d)
  {
    hide ReadVariable, ReadSecret, ReadEndpoint, ReadSchedule, IsVariableOf, IsSecretOf, IsEndpointOf, IsScheduleOf, ReadList, IsListOf;
    if v.Object? {
      ElementsExactly();
      ListExactly(v.fields, "variables", ReadVariable, IsVariableOf);
      ListExactly(v.fields, "secrets", ReadSecret, IsSecretOf);
      ListExactly(v.fields, "webhookEndpoints", ReadEndpoint, IsEndpointOf);
      ListExactly(v.fields, "schedules", ReadSchedule, IsScheduleOf);
    }
  }

  /** A document that carries a secret's value is refused, whatever else it says. */
  lemma SecretValuesAreRefused(v: Json, k: nat, name: string)
    requires v.Object? && "secrets" in v.fields && v.fields["secrets"].Array? && k < |v.fields["secrets"].items|
    requires v.fields["secrets"].items[k].Object? && name in v.fields["secrets"].items[k].fields && name in {"value", "secret", "plaintext"}
    ensures Parse(v).Invalid?
  {
    EveryNeedsEach(v.fields["secrets"].items, ReadSecret, k);
  }

  lemma {:induction false} EveryNeedsEach<T(!new)>(items: seq<Json>, read: Json -> Option<T>, k: nat)
    requires k < |items| && read(items[k]).None?
    ensures Every(items, read).None?
  {
    if k > 0 {
      EveryNeedsEach(items[1..], read, k - 1);
    }
  }
}

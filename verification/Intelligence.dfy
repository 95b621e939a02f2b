/**
 The intelligence configuration: a selected provider and endpoint, and a credential
 reference that stays with the destination it was configured for.
*/
module Intelligence {
  import opened Common

  // ---------------------------------------------------------------------------
  // Data
  // ---------------------------------------------------------------------------

  datatype CredentialUse = Required | Optional | Unused

  datatype KnownEndpoint = KnownEndpoint(id: string, url: string)

  datatype Provider = Provider(credential: CredentialUse, endpoints: seq<KnownEndpoint>, customEndpoint: bool)

  type Catalog = map<string, Provider>

  datatype Selection = Selection(provider: string, model: string, endpoint: Option<string>)

  /** Where a credential goes: the provider and the endpoint it resolves to. */
  datatype Destination = Destination(provider: string, url: string)

  /** What is stored. `boundFor` is auxiliary: the destination the credential was given for; nothing reads it. */
  datatype State = State(selection: Option<Selection>, secret: Option<string>, boundFor: Option<Destination>)

  /** A checked request: texts are trimmed, and a custom URL is one the service accepts. */
  datatype Request = Request(provider: string, model: string, endpoint: Option<string>, urlOk: bool, credentialRef: Option<string>)

  datatype Write = Detach | Bind(credentialRef: string, destination: Destination) | Save(selection: Selection)

  // ---------------------------------------------------------------------------
  // Decisions
  // ---------------------------------------------------------------------------

  function FindEndpoint(endpoints: seq<KnownEndpoint>, id: string): Option<KnownEndpoint> {
    if endpoints == [] then None else if endpoints[0].id == id then Some(endpoints[0]) else FindEndpoint(endpoints[1..], id)
  }

  predicate IsDefault(stored: Option<string>) {
    stored.None? || stored.value == "" || stored.value == "default"
  }

  /** A stored endpoint is a known endpoint's id, absent, or a custom URL. */
  function ResolveEndpoint(p: Provider, stored: Option<string>): string {
    if IsDefault(stored) then (if p.endpoints == [] then "" else p.endpoints[0].url)
    else
      var known := FindEndpoint(p.endpoints, stored.value);
      if known.Some? then known.value.url else stored.value
  }

  function DestinationOf(catalog: Catalog, s: Selection): Destination
    requires s.provider in catalog
  {
    Destination(s.provider, ResolveEndpoint(catalog[s.provider], s.endpoint))
  }

  /** A URL without the slashes at its end. */
  function StripSlashes(url: string): string {
    if url != "" && url[|url| - 1] == '/' then StripSlashes(url[..|url| - 1]) else url
  }

  function ValidateSelection(catalog: Catalog, r: Request): Option<Selection> {
    if r.provider !in catalog || r.model == "" then None
    else
      var p := catalog[r.provider];
      if IsDefault(r.endpoint) then (if p.endpoints == [] then None else Some(Selection(r.provider, r.model, None)))
      else
        var known := FindEndpoint(p.endpoints, r.endpoint.value);
        if known.Some? then Some(Selection(r.provider, r.model, Some(known.value.id)))
        else if !p.customEndpoint || !r.urlOk then None
        else Some(Selection(r.provider, r.model, Some(StripSlashes(r.endpoint.value))))
  }

  predicate SameDestination(catalog: Catalog, s: State, next: Selection)
    requires next.provider in catalog && (s.selection.Some? ==> s.selection.value.provider in catalog)
  {
    s.selection.Some? && DestinationOf(catalog, s.selection.value) == DestinationOf(catalog, next)
  }

  /** The writes of `set`, in order, or a refusal that writes nothing. */
  function SetWrites(catalog: Catalog, s: State, r: Request): Option<seq<Write>>
    requires s.selection.Some? ==> s.selection.value.provider in catalog
  {
    var next := ValidateSelection(catalog, r);
    if next.None? then None
    else
      var uses := catalog[next.value.provider].credential;
      var keep := s.secret.Some? && r.credentialRef.None? && SameDestination(catalog, s, next.value);
      if uses.Unused? && r.credentialRef.Some? then None
      else if uses.Required? && r.credentialRef.None? && !keep then None
      else
        Some((if s.secret.Some? && r.credentialRef.None? && !keep then [Detach] else []) +
             (if r.credentialRef.Some? then [Bind(r.credentialRef.value, DestinationOf(catalog, next.value))] else []) +
             [Save(next.value)])
  }

  function Apply(s: State, w: Write): State {
    match w
    case Detach => s.(secret := None, boundFor := None)
    case Bind(credentialRef, destination) => s.(secret := Some(credentialRef), boundFor := Some(destination))
    case Save(selection) => s.(selection := Some(selection))
  }

  function ApplyAll(s: State, ws: seq<Write>): State
    decreases |ws|
  {
    if ws == [] then s else ApplyAll(Apply(s, ws[0]), ws[1..])
  }

  // ---------------------------------------------------------------------------
  // Invariant
  // ---------------------------------------------------------------------------

  /** The credential was bound for the destination the selection resolves to now. */
  predicate Paired(catalog: Catalog, s: State) {
    s.secret.Some? ==> s.selection.Some? && s.selection.value.provider in catalog && s.boundFor == Some(DestinationOf(catalog, s.selection.value))
  }

  /** And a provider that requires a credential has one, one that uses none has none. */
  predicate Sound(catalog: Catalog, s: State) {
    && Paired(catalog, s)
    && (s.selection.Some? ==>
          && s.selection.value.provider in catalog
          && (catalog[s.selection.value.provider].credential.Required? ==> s.secret.Some?)
          && (catalog[s.selection.value.provider].credential.Unused? ==> s.secret.None?))
  }

  // ---------------------------------------------------------------------------
  // What a request means
  // ---------------------------------------------------------------------------

  /** The first of a provider's endpoints with this id. */
  predicate IsKnown(p: Provider, i: nat, id: string)
    requires i < |p.endpoints|
  {
    p.endpoints[i].id == id && forall j :: 0 <= j < i ==> p.endpoints[j].id != id
  }

  ghost predicate IsKnownId(p: Provider, id: string) {
    exists i: nat :: i < |p.endpoints| && p.endpoints[i].id == id
  }

  predicate SaysDefault(endpoint: Option<string>) {
    endpoint == None || endpoint == Some("") || endpoint == Some("default")
  }

  /** Where a stored endpoint leads: the provider's first for the default, the known one of that id, or the URL itself. */
  ghost predicate LeadsTo(p: Provider, endpoint: Option<string>, url: string) {
    if SaysDefault(endpoint) then url == if |p.endpoints| > 0 then p.endpoints[0].url else ""
    else if IsKnownId(p, endpoint.value) then exists i: nat :: i < |p.endpoints| && IsKnown(p, i, endpoint.value) && url == p.endpoints[i].url
    else url == endpoint.value
  }

  /** `url` is `given` without the slashes at its end. */
  ghost predicate IsStripped(given: string, url: string) {
    url <= given && (forall i :: |url| <= i < |given| ==> given[i] == '/') && (url != "" ==> url[|url| - 1] != '/')
  }

  lemma {:induction false} FindsKnown(endpoints: seq<KnownEndpoint>, id: string)
    ensures FindEndpoint(endpoints, id).None? ==> forall i :: 0 <= i < |endpoints| ==> endpoints[i].id != id
    ensures FindEndpoint(endpoints, id).Some? ==>
              exists i: nat :: i < |endpoints| && endpoints[i].id == id && (forall j :: 0 <= j < i ==> endpoints[j].id != id) && endpoints[i] == FindEndpoint(endpoints, id).value
  {
    if endpoints != [] && endpoints[0].id != id {
      var rest := endpoints[1..];
      FindsKnown(rest, id);
      if FindEndpoint(rest, id).Some? {
        var i: nat :| i < |rest| && rest[i].id == id && (forall j :: 0 <= j < i ==> rest[j].id != id) && rest[i] == FindEndpoint(rest, id).value;
        forall j | 0 <= j < i + 1 ensures endpoints[j].id != id {
          if j > 0 {
            assert endpoints[j] == rest[j - 1];
          }
        }
        assert endpoints[i + 1] == rest[i];
      } else {
        forall i | 0 <= i < |endpoints| ensures endpoints[i].id != id {
          if i > 0 {
            assert endpoints[i] == rest[i - 1];
          }
        }
      }
    }
  }

  lemma ResolvesExactly(p: Provider, endpoint: Option<string>, url: string)
    ensures ResolveEndpoint(p, endpoint) == url <==> LeadsTo(p, endpoint, url)
  {
    if !IsDefault(endpoint) {
      FindsKnown(p.endpoints, endpoint.value);
    }
  }

  lemma {:induction false} StripsExactly(given: string)
    ensures IsStripped(given, StripSlashes(given))
    decreases |given|
  {
    if given != "" && given[|given| - 1] == '/' {
      StripsExactly(given[..|given| - 1]);
    }
  }

  /** A request that can be selected: a known provider, a model, and its default, one of its endpoints, or a custom URL where it takes one. */
  ghost predicate MaySelect(catalog: Catalog, r: Request) {
    && r.provider in catalog && r.model != ""
    && var p := catalog[r.provider];
       if SaysDefault(r.endpoint) then |p.endpoints| > 0
       else IsKnownId(p, r.endpoint.value) || (p.customEndpoint && r.urlOk)
  }

  /** What is stored of it: no endpoint for the default, a known one's id, or the custom URL without slashes at its end. */
  ghost predicate Selects(catalog: Catalog, r: Request, s: Selection)
    requires r.provider in catalog
  {
    && s.provider == r.provider && s.model == r.model
    && if SaysDefault(r.endpoint) then s.endpoint.None?
       else if IsKnownId(catalog[r.provider], r.endpoint.value) then s.endpoint == r.endpoint
       else s.endpoint.Some? && IsStripped(r.endpoint.value, s.endpoint.value)
  }

  lemma ValidatesExactly(catalog: Catalog, r: Request)
    ensures ValidateSelection(catalog, r).Some? <==> MaySelect(catalog, r)
    ensures ValidateSelection(catalog, r).Some? ==> Selects(catalog, r, ValidateSelection(catalog, r).value)
  {
    if r.provider in catalog && !IsDefault(r.endpoint) {
      FindsKnown(catalog[r.provider].endpoints, r.endpoint.value);
      StripsExactly(r.endpoint.value);
    }
  }

  /** The selection leads where the new one does. */
  ghost predicate StaysPut(catalog: Catalog, old_: Option<Selection>, next: Selection) {
    && old_.Some? && old_.value.provider == next.provider && next.provider in catalog
    && exists url :: LeadsTo(catalog[next.provider], old_.value.endpoint, url) && LeadsTo(catalog[next.provider], next.endpoint, url)
  }

  lemma SameDestinationStays(catalog: Catalog, s: State, next: Selection)
    requires next.provider in catalog && (s.selection.Some? ==> s.selection.value.provider in catalog)
    ensures SameDestination(catalog, s, next) <==> StaysPut(catalog, s.selection, next)
  {
    hide LeadsTo, ResolveEndpoint;
    if s.selection.Some? && s.selection.value.provider == next.provider {
      var p := catalog[next.provider];
      var a, b := ResolveEndpoint(p, s.selection.value.endpoint), ResolveEndpoint(p, next.endpoint);
      ResolvesExactly(p, s.selection.value.endpoint, a);
      ResolvesExactly(p, next.endpoint, b);
      forall url ensures (LeadsTo(p, s.selection.value.endpoint, url) <==> url == a) && (LeadsTo(p, next.endpoint, url) <==> url == b) {
        ResolvesExactly(p, s.selection.value.endpoint, url);
        ResolvesExactly(p, next.endpoint, url);
      }
    }
  }

  /** What `set` leaves: the selection asked for, and the credential given with it, the one that stays put, or none. */
  ghost predicate SetLeaves(catalog: Catalog, selection: Option<Selection>, secret: Option<string>, r: Request, selection': Option<Selection>, secret': Option<string>)
    requires r.provider in catalog
  {
    && selection'.Some? && Selects(catalog, r, selection'.value)
    && secret' == if r.credentialRef.Some? then r.credentialRef else if StaysPut(catalog, selection, selection'.value) then secret else None
  }

  /** Refused: it cannot be selected, or its provider takes no credential and one is given, or needs one and there is none. */
  ghost predicate MaySet(catalog: Catalog, selection: Option<Selection>, secret: Option<string>, r: Request) {
    && MaySelect(catalog, r)
    && (catalog[r.provider].credential.Unused? ==> r.credentialRef.None?)
    && (catalog[r.provider].credential.Required? && r.credentialRef.None? ==>
          secret.Some? && exists next :: Selects(catalog, r, next) && StaysPut(catalog, selection, next))
  }

  lemma NotLonger(given: string, a: string, b: string)
    requires IsStripped(given, a) && IsStripped(given, b)
    ensures |b| <= |a|
  {
    if b != "" {
      assert b[|b| - 1] == given[|b| - 1];
    }
  }

  lemma StrippedOnce(given: string, a: string, b: string)
    requires IsStripped(given, a) && IsStripped(given, b)
    ensures a == b
  {
    NotLonger(given, a, b);
    NotLonger(given, b, a);
  }

  lemma SelectsOnce(catalog: Catalog, r: Request, a: Selection, b: Selection)
    requires r.provider in catalog && Selects(catalog, r, a) && Selects(catalog, r, b)
    ensures a == b
  {
    if !SaysDefault(r.endpoint) && !IsKnownId(catalog[r.provider], r.endpoint.value) {
      StrippedOnce(r.endpoint.value, a.endpoint.value, b.endpoint.value);
    }
  }

  /** The decision and the writes of `set`, read off what is stored. */
  lemma SetDecides(catalog: Catalog, s: State, r: Request)
    requires s.selection.Some? ==> s.selection.value.provider in catalog
    ensures SetWrites(catalog, s, r).Some? <==> MaySet(catalog, s.selection, s.secret, r)
    ensures SetWrites(catalog, s, r).Some? ==>
              var s' := ApplyAll(s, SetWrites(catalog, s, r).value);
              SetLeaves(catalog, s.selection, s.secret, r, s'.selection, s'.secret)
  {
    hide ValidateSelection, Selects, MaySelect, StaysPut, SameDestination, DestinationOf;
    ValidatesExactly(catalog, r);
    if ValidateSelection(catalog, r).Some? {
      var next := ValidateSelection(catalog, r).value;
      NextProvider(catalog, r, next);
      SameDestinationStays(catalog, s, next);
      forall other | Selects(catalog, r, other) ensures other == next {
        SelectsOnce(catalog, r, other, next);
      }
      if SetWrites(catalog, s, r).Some? {
        WritesApplied(s, SetWrites(catalog, s, r).value);
      }
    }
  }

  lemma NextProvider(catalog: Catalog, r: Request, next: Selection)
    requires ValidateSelection(catalog, r) == Some(next)
    ensures r.provider in catalog && next.provider == r.provider
  {}

  lemma WritesApplied(s: State, ws: seq<Write>)
    requires 1 <= |ws| <= 2
    ensures ApplyAll(s, ws) == if |ws| == 1 then Apply(s, ws[0]) else Apply(Apply(s, ws[0]), ws[1])
  {
    if |ws| == 1 {
      assert ws == [ws[0]];
      OneWrite(s, ws[0]);
    } else {
      assert ws == [ws[0], ws[1]];
      TwoWrites(s, ws[0], ws[1]);
    }
  }

  /** The configuration service's store, changed write by write. */
  class IntelligenceService {
    const catalog: Catalog
    var selection: Option<Selection>
    var secret: Option<string>
    ghost var boundFor: Option<Destination>

    ghost function Now(): State
      reads this
    {
      State(selection, secret, boundFor)
    }

    constructor (catalog: Catalog)
      ensures this.catalog == catalog && Now() == State(None, None, None) && Sound(catalog, Now())
    {
      this.catalog := catalog;
      selection, secret, boundFor := None, None, None;
    }

    /** Select a provider, model and endpoint; the credential stays only at the destination it was given for. */
    method Set(r: Request) returns (ok: bool)
      requires Sound(catalog, Now())
      modifies this
      ensures Sound(catalog, Now())
      ensures ok == SetWrites(catalog, old(Now()), r).Some?
      ensures Now() == if ok then ApplyAll(old(Now()), SetWrites(catalog, old(Now()), r).value) else old(Now())
      ensures ok <==> MaySet(catalog, old(selection), old(secret), r)
      ensures ok ==> SetLeaves(catalog, old(selection), old(secret), r, selection, secret)
      // The old credential survives only where it was, and only if no new one was given.
      ensures ok && secret.Some? && secret != r.credentialRef ==>
                secret == old(secret) && old(selection).Some? && DestinationOf(catalog, old(selection).value) == DestinationOf(catalog, selection.value)
    {
      hide MaySet, SetLeaves;
      ghost var was := Now();
      SetDecides(catalog, was, r);
      var next := ValidateSelection(catalog, r);
      if next.None? {
        return false;
      }
      var provider := catalog[next.value.provider];
      if provider.credential.Unused? && r.credentialRef.Some? {
        return false;
      }
      var destinationChanged := selection.None? || selection.value.provider != next.value.provider
        || ResolveEndpoint(provider, selection.value.endpoint) != ResolveEndpoint(provider, next.value.endpoint);
      var keepCredential := secret.Some? && r.credentialRef.None? && !destinationChanged;
      if provider.credential.Required? && r.credentialRef.None? && !keepCredential {
        return false;
      }
      if secret.Some? && r.credentialRef.None? && !keepCredential {
        secret, boundFor := None, None;
      }
      if r.credentialRef.Some? {
        secret, boundFor := r.credentialRef, Some(DestinationOf(catalog, next.value));
      }
      selection := next;
      ok := true;
      ghost var ws := SetWrites(catalog, was, r).value;
      InterruptedStates(catalog, was, r, |ws|);
      assert ws[..|ws|] == ws;
    }

    /** Replace the credential of the current destination. */
    method SetCredential(credentialRef: string) returns (ok: bool)
      requires Sound(catalog, Now())
      modifies this`secret, this`boundFor
      ensures Sound(catalog, Now())
      ensures ok <==> selection.Some? && !catalog[selection.value.provider].credential.Unused?
      ensures secret == if ok then Some(credentialRef) else old(secret)
      ensures boundFor == if ok then Some(DestinationOf(catalog, selection.value)) else old(boundFor)
    {
      if selection.None? || catalog[selection.value.provider].credential.Unused? {
        return false;
      }
      secret, boundFor := Some(credentialRef), Some(DestinationOf(catalog, selection.value));
      ok := true;
    }

    /** Remove a credential that is not required. */
    method RemoveCredential() returns (ok: bool)
      requires Sound(catalog, Now())
      modifies this`secret, this`boundFor
      ensures Sound(catalog, Now())
      ensures ok <==> selection.Some? && !catalog[selection.value.provider].credential.Required?
      ensures secret == if ok then None else old(secret)
    {
      if selection.None? || catalog[selection.value.provider].credential.Required? {
        return false;
      }
      secret, boundFor := None, None;
      ok := true;
    }

    /** What the execution boundary is given: a credential only for the endpoint it was bound for. */
    method ResolveRuntime() returns (r: Option<(Destination, string, Option<string>)>)
      requires Sound(catalog, Now())
      ensures r.None? <==> selection.None?
      ensures r.Some? ==> r.value.0 == DestinationOf(catalog, selection.value) && r.value.1 == selection.value.model && r.value.2 == secret
                             && (r.value.2.Some? ==> boundFor == Some(r.value.0))
      ensures r.Some? ==> r.value.0.provider == selection.value.provider && LeadsTo(catalog[selection.value.provider], selection.value.endpoint, r.value.0.url)
      ensures r.Some? && catalog[r.value.0.provider].credential.Required? ==> r.value.2.Some?
    {
      if selection.None? {
        return None;
      }
      r := Some((DestinationOf(catalog, selection.value), selection.value.model, secret));
      ResolvesExactly(catalog[selection.value.provider], selection.value.endpoint, r.value.0.url);
    }
  }

  // ---------------------------------------------------------------------------
  // Between the writes
  // ---------------------------------------------------------------------------

  /** The state after the first writes of a `set` that stopped there. */
  function Interrupted(catalog: Catalog, s: State, r: Request, k: nat): State
    requires (s.selection.Some? ==> s.selection.value.provider in catalog) && SetWrites(catalog, s, r).Some? && k <= |SetWrites(catalog, s, r).value|
  {
    ApplyAll(s, SetWrites(catalog, s, r).value[..k])
  }

  lemma OneWrite(s: State, w: Write)
    ensures ApplyAll(s, [w]) == Apply(s, w)
  {
    assert [w][1..] == [];
  }

  lemma TwoWrites(s: State, v: Write, w: Write)
    ensures ApplyAll(s, [v, w]) == Apply(Apply(s, v), w)
  {
    assert [v, w][1..] == [w];
    OneWrite(Apply(s, v), w);
  }

  /** However far a `set` gets, a credential that was there before is never left beside another destination. */
  lemma OldCredentialNeverMoves(catalog: Catalog, s: State, r: Request, k: nat)
    requires Sound(catalog, s) && SetWrites(catalog, s, r).Some? && k <= |SetWrites(catalog, s, r).value| && r.credentialRef.None?
    ensures Paired(catalog, Interrupted(catalog, s, r, k))
  {
    InterruptedStates(catalog, s, r, k);
  }

  /** What is stored after `k` writes. */
  lemma InterruptedStates(catalog: Catalog, s: State, r: Request, k: nat)
    requires Sound(catalog, s) && SetWrites(catalog, s, r).Some? && k <= |SetWrites(catalog, s, r).value|
    ensures var ws := SetWrites(catalog, s, r).value;
            && 1 <= |ws| <= 2
            && Interrupted(catalog, s, r, k) == (if k == 0 then s else if k == 1 then Apply(s, ws[0]) else Apply(Apply(s, ws[0]), ws[1]))
  {
    hide ValidateSelection, DestinationOf;
    var ws := SetWrites(catalog, s, r).value;
    if k == 0 {
      assert ws[..0] == [];
    } else if k == 1 {
      assert ws[..1] == [ws[0]];
      OneWrite(s, ws[0]);
    } else {
      assert ws[..2] == [ws[0], ws[1]];
      TwoWrites(s, ws[0], ws[1]);
    }
  }

  /**
   A `set` that gives a new credential binds it before it saves the selection. If
   it stops in between, the credential is beside a destination it was not given
   for exactly when the destination was to change.
  */
  lemma InterruptedBindExactly(catalog: Catalog, s: State, r: Request)
    requires Sound(catalog, s) && SetWrites(catalog, s, r).Some? && r.credentialRef.Some?
    ensures ValidateSelection(catalog, r).Some?
    ensures Paired(catalog, Interrupted(catalog, s, r, 1)) <==> SameDestination(catalog, s, ValidateSelection(catalog, r).value)
  {
    InterruptedStates(catalog, s, r, 1);
  }
}
